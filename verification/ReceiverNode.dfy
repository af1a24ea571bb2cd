/** A receiver of file transfers that stores chunks, records them in its sidecar, gives up
    or commits, and may die and come back at any point. Every write happens in pieces of
    any size, and every blocking task it started may still be running when the next one
    starts. */
module ReceiverNode {
  import opened Bytes
  import opened ResumeSidecar
  import opened StagingFile

  /** The transfer: `source` is the file its digest stands for. */
  datatype Manifest = Manifest(id: seq<byte>, digest: seq<byte>, chunkSize: nat, source: seq<byte>)

  function ChunkCount(m: Manifest): nat
    requires m.chunkSize > 0
  {
    (|m.source| + m.chunkSize - 1) / m.chunkSize
  }

  function StateFor(m: Manifest, bitmap: seq<byte>): ResumeState {
    ResumeState(m.id, |m.source|, m.chunkSize, m.digest, bitmap)
  }

  /** What the manifest parser lets through. */
  predicate ValidManifest(m: Manifest) {
    && |m.id| == 16 && !ZeroId(m.id) && |m.digest| == 32
    && MIN_CHUNK <= m.chunkSize < U32 && 0 < |m.source| < U64
    && ChunkCount(m) <= MAX_BITMAP
  }

  /** The file a job has opened: none yet, the one at its path, one that nobody else can
      open any more, or the committed one. */
  datatype Handle = Unopened | Attached | Detached | Moved

  /** The blocking tasks of the file service. A chunk is stored and then recorded with a
      private bitmap that already claims it; the sidecar written on accept is not reported
      back. Giving up removes the staging file and then the sidecar; committing checks the
      digest, renames the staging file and removes the sidecar. */
  datatype Job =
    | StoreJob(index: nat, file: Handle, staged: nat, bitmap: seq<byte>)
    | RecordJob(bitmap: seq<byte>, file: Handle, written: nat, reports: bool)
    | CleanupJob(stagingDone: bool)
    | CommitJob(owner: nat, verified: bool)

  /** A receive in memory: which one it is, its bitmap, how many chunks it counts, whether a
      chunk write or a verification of its own is under way. Nothing depends on `spent`: it
      remembers that its own commit has renamed the staging file. */
  datatype Receive = Receive(id: nat, bitmap: seq<byte>, present: nat, writing: bool, verifying: bool, spent: bool)

  /** The files on disk, the receive and the tasks. `begun` counts the receives so far.
      Nothing depends on `stale`: it remembers that a staging file went while the sidecar
      claimed a chunk, and the sidecar is still there. */
  datatype Node = Node(
    staging: Option<seq<byte>>,
    sidecar: Option<seq<byte>>,
    final: Option<seq<byte>>,
    live: Option<Receive>,
    jobs: seq<Job>,
    begun: nat,
    stale: bool)

  /** What happens to a node: a manifest arrives, a chunk is handed to the blocking pool, a
      verification starts, a task does its next piece of work (`put` is what the system did,
      0 for a failed call), a task that recorded a sidecar is over and may be heard, a task
      ends early, a receive fails, is retired, the sweep removes a file, the process dies. */
  datatype NodeStep =
    | Begin(readable: bool)
    | Dispatch(index: nat)
    | StartCommit
    | Work(job: nat, put: nat)
    | Finish(job: nat, heard: bool)
    | Drop(job: nat)
    | Fail
    | Retire
    | SweepStaging
    | SweepSidecar
    | Death

  function Content(file: Option<seq<byte>>): seq<byte> {
    if file.Some? then file.value else []
  }

  /** What a manifest finds: the bitmap to start from, or a refusal because the sidecar is
      that of another transfer. */
  function Restored(m: Manifest, sidecar: Option<seq<byte>>, readable: bool): Option<seq<byte>>
    requires m.chunkSize > 0
  {
    if !readable || sidecar.None? then Some(Zeros(ChunkCount(m)))
    else
      match Decode(sidecar.value)
      case Ok(s) => if s == StateFor(m, s.bitmap) then Some(s.bitmap) else None
      case Err(_) => Some(Zeros(ChunkCount(m)))
  }

  function Ones(bitmap: seq<byte>): nat {
    if bitmap == [] then 0
    else Ones(bitmap[..|bitmap| - 1]) + if bitmap[|bitmap| - 1] == 1 then 1 else 0
  }

  function Without(jobs: seq<Job>, j: nat): seq<Job>
    requires j < |jobs|
  {
    jobs[..j] + jobs[j + 1..]
  }

  // ---- Removing files ----------------------------------------------------

  /** The sidecar claims no chunk, as far as it goes. */
  predicate SidecarIdle(sidecar: seq<byte>) {
    forall i :: RESUME_HEADER_BYTES <= i < |sidecar| ==> sidecar[i] == 0
  }

  /** What becomes of a task when the staging file is unlinked or, if `renamed`, becomes the
      committed file in place of an earlier one. */
  function OffStaging(job: Job, renamed: bool): Job {
    if job.StoreJob? && job.file == Attached then
      StoreJob(job.index, if renamed then Moved else Detached, job.staged, job.bitmap)
    else if job.StoreJob? && job.file == Moved && renamed then
      StoreJob(job.index, Detached, job.staged, job.bitmap)
    else job
  }

  function OffSidecar(job: Job): Job {
    if job.RecordJob? && job.file == Attached then RecordJob(job.bitmap, Detached, job.written, job.reports) else job
  }

  function StagingGone(n: Node, renamed: bool): Node {
    n.(staging := None,
       jobs := seq(|n.jobs|, i requires 0 <= i < |n.jobs| => OffStaging(n.jobs[i], renamed)),
       stale := n.stale || !SidecarIdle(Content(n.sidecar)))
  }

  function SidecarGone(n: Node): Node {
    n.(sidecar := None, jobs := seq(|n.jobs|, i requires 0 <= i < |n.jobs| => OffSidecar(n.jobs[i])), stale := false)
  }

  // ---- Tasks -------------------------------------------------------------

  /** The path is opened, and the file created if it is not there. */
  function StoreOpens(n: Node, j: nat): Node
    requires j < |n.jobs| && n.jobs[j].StoreJob?
  {
    n.(staging := Some(Content(n.staging)),
       jobs := n.jobs[j := StoreJob(n.jobs[j].index, Attached, n.jobs[j].staged, n.jobs[j].bitmap)])
  }

  /** Bytes of a chunk go to the file that was opened, wherever it is now. */
  function StoreWrites(m: Manifest, n: Node, j: nat, lo: nat, to: nat): Node
    requires j < |n.jobs| && n.jobs[j].StoreJob? && lo <= to <= |m.source|
  {
    var file := n.jobs[j].file;
    var data := m.source[lo..to];
    n.(staging := if file == Attached then Some(WriteAt(Content(n.staging), lo, data)) else n.staging,
       final := if file == Moved then Some(WriteAt(Content(n.final), lo, data)) else n.final)
  }

  /** Open, then write the chunk, then start recording it. */
  function StoreNext(m: Manifest, n: Node, j: nat, put: nat): Node
    requires j < |n.jobs| && n.jobs[j].StoreJob?
  {
    var job := n.jobs[j];
    var from := ChunkStart(m.source, m.chunkSize, job.index);
    var end := ChunkEnd(m.source, m.chunkSize, job.index);
    var lo := from + job.staged;
    var to := Min(lo + put, end);
    if job.file == Unopened then StoreOpens(n, j)
    else if lo >= end then n.(jobs := n.jobs[j := RecordJob(job.bitmap, Unopened, 0, true)])
    else if lo >= to then n
    else StoreWrites(m, n, j, lo, to).(jobs := n.jobs[j := job.(staged := to - from)])
  }

  /** The file cut or extended with zeros to `size`. */
  function Resized(file: seq<byte>, size: nat): (r: seq<byte>)
    ensures |r| == size
    ensures forall i :: 0 <= i < size ==> r[i] == if i < |file| then file[i] else 0
  {
    if size <= |file| then file[..size] else file + Zeros(size - |file|)
  }

  /** Open, then rewrite the sidecar in place, then reopen it and set its size. */
  function RecordNext(m: Manifest, n: Node, j: nat, put: nat): Node
    requires ValidManifest(m) && j < |n.jobs| && n.jobs[j].RecordJob?
  {
    var job := n.jobs[j];
    var all := Encode(StateFor(m, job.bitmap));
    var to := Min(job.written + put, |all|);
    if job.file == Unopened then
      n.(sidecar := Some(Content(n.sidecar)),
         jobs := n.jobs[j := RecordJob(job.bitmap, Attached, job.written, job.reports)])
    else if job.written >= |all| then
      if n.sidecar.Some? then n.(sidecar := Some(Resized(n.sidecar.value, |all|))) else n
    else if job.written >= to then n
    else
      n.(sidecar := if job.file == Attached then Some(WriteAt(Content(n.sidecar), job.written, all[job.written..to]))
                    else n.sidecar,
         jobs := n.jobs[j := job.(written := to)])
  }

  /** The receive whose own commit renames the staging file. */
  function Spends(n: Node, owner: nat): Option<Receive> {
    if n.live.Some? && n.live.value.id == owner then Some(n.live.value.(spent := true)) else n.live
  }

  /** The node just before a step removes the staging file: what does it has only the
      sidecar left to remove, and the receive it commits is done with the file. */
  function Yields(n: Node, step: NodeStep): Node {
    if step.Work? && step.job < |n.jobs| then
      var job := n.jobs[step.job];
      n.(jobs := n.jobs[step.job := CleanupJob(true)],
         live := if job.CommitJob? then Spends(n, job.owner) else n.live)
    else n
  }

  /** One piece of work of one task. A missing file cannot be verified or renamed. */
  function WorkNext(m: Manifest, n: Node, j: nat, put: nat): Node
    requires ValidManifest(m) && j < |n.jobs|
  {
    match n.jobs[j]
    case StoreJob(_, _, _, _) => StoreNext(m, n, j, put)
    case RecordJob(_, _, _, _) => RecordNext(m, n, j, put)
    case CleanupJob(false) =>
      if put > 0 then StagingGone(Yields(n, Work(j, put)), false) else Yields(n, Work(j, put))
    case CleanupJob(true) =>
      var n1 := n.(jobs := Without(n.jobs, j));
      if put > 0 then SidecarGone(n1) else n1
    case CommitJob(owner, false) =>
      if n.staging == Some(m.source) then n.(jobs := n.jobs[j := CommitJob(owner, true)])
      else n.(jobs := Without(n.jobs, j))
    case CommitJob(_, true) =>
      if put > 0 && n.staging.Some? then
        StagingGone(Yields(n, Work(j, put)).(final := n.staging), true)
      else n.(jobs := Without(n.jobs, j))
  }

  // ---- Steps -------------------------------------------------------------

  /** The job at `j` has written the whole sidecar. */
  predicate Recorded(m: Manifest, n: Node, j: nat)
    requires ValidManifest(m)
  {
    && j < |n.jobs| && n.jobs[j].RecordJob?
    && n.jobs[j].file != Unopened && n.jobs[j].written >= |Encode(StateFor(m, n.jobs[j].bitmap))|
  }

  predicate Dispatches(n: Node, step: NodeStep) {
    step.Dispatch? && n.live.Some? && step.index < |n.live.value.bitmap| && !n.live.value.writing
  }

  function NodeNext(m: Manifest, n: Node, step: NodeStep): Node
    requires ValidManifest(m)
  {
    match step
    case Begin(readable) =>
      var restored := Restored(m, n.sidecar, readable);
      if n.live.Some? || restored.None? then n
      else
        n.(live := Some(Receive(n.begun, restored.value, Ones(restored.value), false, false, false)),
           jobs := n.jobs + [RecordJob(restored.value, Unopened, 0, false)],
           begun := n.begun + 1)
    case Dispatch(index) =>
      if Dispatches(n, step) then
        n.(jobs := n.jobs + [StoreJob(index, Unopened, 0, n.live.value.bitmap[index := 1])],
           live := Some(n.live.value.(writing := true)))
      else n
    case StartCommit =>
      if n.live.Some? && !n.live.value.verifying && !n.live.value.writing && n.live.value.present >= ChunkCount(m) then
        n.(jobs := n.jobs + [CommitJob(n.live.value.id, false)], live := Some(n.live.value.(verifying := true)))
      else n
    case Work(j, put) => if j < |n.jobs| then WorkNext(m, n, j, put) else n
    case Finish(j, heard) =>
      if Recorded(m, n, j) then
        n.(jobs := Without(n.jobs, j),
           live := if heard && n.jobs[j].reports && n.live.Some? then
                     Some(n.live.value.(bitmap := n.jobs[j].bitmap, writing := false,
                                        present := n.live.value.present + 1))
                   else n.live)
      else n
    case Drop(j) => if j < |n.jobs| then n.(jobs := Without(n.jobs, j)) else n
    case Fail => if n.live.Some? then n.(live := None, jobs := n.jobs + [CleanupJob(false)]) else n
    case Retire => n.(live := None)
    case SweepStaging => StagingGone(n, false)
    case SweepSidecar => SidecarGone(n)
    case Death => n.(live := None, jobs := [])
  }

  function NodeRun(m: Manifest, n: Node, steps: seq<NodeStep>): Node
    requires ValidManifest(m)
    decreases |steps|
  {
    if steps == [] then n else NodeRun(m, NodeNext(m, n, steps[0]), steps[1..])
  }

  /** Nothing recorded yet; a staging file of an earlier attempt may be there. */
  function Fresh(staging: Option<seq<byte>>): Node {
    Node(staging, None, None, None, [], 0, false)
  }

  /** A step that takes the staging file away. */
  predicate RemovesStaging(n: Node, step: NodeStep) {
    || step.SweepStaging?
    || (&& step.Work? && step.put > 0 && step.job < |n.jobs|
        && (|| n.jobs[step.job] == CleanupJob(false)
            || (n.jobs[step.job].CommitJob? && n.jobs[step.job].verified && n.staging.Some?)))
  }

  /** A manifest reads the sidecar of a receive that is not in memory. */
  predicate ReadsSidecar(n: Node, step: NodeStep) {
    step == Begin(true) && n.live.None?
  }

  lemma {:induction false} IndexInBitmap(m: Manifest, index: nat)
    requires ValidManifest(m) && IsChunk(m.source, m.chunkSize, index)
    ensures index < ChunkCount(m)
  {
    var c := m.chunkSize;
    var x := |m.source| + c - 1;
    assert x == c * (x / c) + x % c;
    assert index * c + c <= x;
  }

  lemma {:induction false} NodeRunAppend(m: Manifest, n: Node, a: seq<NodeStep>, b: seq<NodeStep>)
    requires ValidManifest(m)
    ensures NodeRun(m, n, a + b) == NodeRun(m, NodeRun(m, n, a), b)
    decreases |a|
  {
    hide NodeNext, ValidManifest;
    if a == [] {
      assert a + b == b;
    } else {
      assert (a + b)[1..] == a[1..] + b;
      NodeRunAppend(m, NodeNext(m, n, a[0]), a[1..], b);
    }
  }

  lemma {:induction false} NodeRunOne(m: Manifest, n: Node, step: NodeStep)
    requires ValidManifest(m)
    ensures NodeRun(m, n, [step]) == NodeNext(m, n, step)
  {
    hide NodeNext, ValidManifest;
    assert [step][1..] == [];
    assert NodeRun(m, n, [step]) == NodeRun(m, NodeNext(m, n, step), []);
  }
}

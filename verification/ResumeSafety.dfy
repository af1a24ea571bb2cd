/** When the claims of a receiver are backed: every chunk that a restored bitmap, a receive
    or a task under way takes for present is in the staging file. */
module ResumeSafety {
  import opened Bytes
  import opened BigEndian
  import opened ResumeSidecar
  import opened StagingFile
  import opened ReceiverNode

  // ---- Invariant ---------------------------------------------------------

  /** The file holds every chunk the bitmap claims. */
  predicate HoldsClaims(m: Manifest, file: seq<byte>, bitmap: seq<byte>) {
    forall i :: 0 <= i < |bitmap| && bitmap[i] != 0 ==> HoldsChunk(file, m.source, m.chunkSize, i)
  }

  predicate Backed(m: Manifest, file: seq<byte>, bitmap: seq<byte>)
    requires ValidManifest(m)
  {
    |bitmap| == ChunkCount(m) && HoldsClaims(m, file, bitmap)
  }

  function SidecarSize(m: Manifest): nat
    requires ValidManifest(m)
  {
    RESUME_HEADER_BYTES + ChunkCount(m)
  }

  /** A sidecar that is not complete starts like the header; its bits are backed unless it
      was left behind by a staging file that went. */
  predicate SidecarInv(m: Manifest, file: seq<byte>, sidecar: seq<byte>, stale: bool)
    requires ValidManifest(m)
  {
    var h := Header(StateFor(m, Zeros(ChunkCount(m))));
    && |sidecar| <= SidecarSize(m)
    && (|sidecar| < SidecarSize(m) ==>
          forall i :: 0 <= i < |sidecar| && i < RESUME_HEADER_BYTES ==> sidecar[i] == h[i])
    && (!stale ==> forall i :: RESUME_HEADER_BYTES <= i < |sidecar| && sidecar[i] != 0 ==>
          HoldsChunk(file, m.source, m.chunkSize, i - RESUME_HEADER_BYTES))
  }

  /** What a task claims is in the file, and so is what it has stored of its own chunk. */
  predicate JobInv(m: Manifest, file: seq<byte>, sidecar: seq<byte>, job: Job)
    requires ValidManifest(m)
  {
    match job
    case StoreJob(index, handle, staged, bitmap) =>
      var from := ChunkStart(m.source, m.chunkSize, index);
      && (handle == Attached || (handle == Unopened && staged == 0))
      && index < |bitmap| && from + staged <= ChunkEnd(m.source, m.chunkSize, index)
      && Holds(file, m.source, from, from + staged)
      && Backed(m, file, bitmap[index := 0])
    case RecordJob(bitmap, handle, written, _) =>
      && Backed(m, file, bitmap)
      && (handle == Attached ==> written <= |sidecar|) && (handle == Unopened ==> written == 0)
    case CleanupJob(_) => true
    case CommitJob(_, _) => true
  }

  /** The receive counts the right number of chunks and, unless its own commit has taken the
      staging file, claims only what is there. */
  predicate LiveInv(m: Manifest, file: seq<byte>, live: Receive)
    requires ValidManifest(m)
  {
    |live.bitmap| == ChunkCount(m) && (!live.spent ==> Backed(m, file, live.bitmap))
  }

  predicate NodeInv(m: Manifest, n: Node)
    requires ValidManifest(m)
  {
    var file := Content(n.staging);
    && |file| <= |m.source|
    && SidecarInv(m, file, Content(n.sidecar), n.stale)
    && (n.live.Some? ==> LiveInv(m, file, n.live.value))
    && (forall i :: 0 <= i < |n.jobs| ==> JobInv(m, file, Content(n.sidecar), n.jobs[i]))
  }

  // ---- Storing chunks ----------------------------------------------------

  lemma {:induction false} BackedKeeps(m: Manifest, file: seq<byte>, from: nat, to: nat, bitmap: seq<byte>)
    requires ValidManifest(m) && Backed(m, file, bitmap) && from <= to <= |m.source|
    ensures Backed(m, WriteAt(file, from, m.source[from..to]), bitmap)
  {
    hide WriteAt, ChunkStart, ChunkEnd, Holds, ChunkCount;
    forall i | 0 <= i < |bitmap| && bitmap[i] != 0
      ensures HoldsChunk(WriteAt(file, from, m.source[from..to]), m.source, m.chunkSize, i)
    {
      SourceWriteKeeps(file, m.source, from, to, ChunkStart(m.source, m.chunkSize, i),
                       ChunkEnd(m.source, m.chunkSize, i));
    }
  }

  lemma {:induction false} SidecarKeeps(m: Manifest, file: seq<byte>, sidecar: seq<byte>, from: nat, to: nat,
                                        stale: bool)
    requires ValidManifest(m) && SidecarInv(m, file, sidecar, stale) && from <= to <= |m.source|
    ensures SidecarInv(m, WriteAt(file, from, m.source[from..to]), sidecar, stale)
  {
    hide WriteAt, ChunkStart, ChunkEnd, Holds, ChunkCount, Header;
    forall i | !stale && RESUME_HEADER_BYTES <= i < |sidecar| && sidecar[i] != 0
      ensures HoldsChunk(WriteAt(file, from, m.source[from..to]), m.source, m.chunkSize, i - RESUME_HEADER_BYTES)
    {
      SourceWriteKeeps(file, m.source, from, to, ChunkStart(m.source, m.chunkSize, i - RESUME_HEADER_BYTES),
                       ChunkEnd(m.source, m.chunkSize, i - RESUME_HEADER_BYTES));
    }
  }

  /** Writing source bytes disturbs no task. */
  lemma {:induction false} JobKeeps(m: Manifest, file: seq<byte>, sidecar: seq<byte>, job: Job, from: nat, to: nat)
    requires ValidManifest(m) && JobInv(m, file, sidecar, job) && from <= to <= |m.source|
    ensures JobInv(m, WriteAt(file, from, m.source[from..to]), sidecar, job)
  {
    hide WriteAt, ChunkStart, ChunkEnd, ChunkCount, Backed, Holds;
    match job
    case StoreJob(index, _, staged, bitmap) =>
      var lo := ChunkStart(m.source, m.chunkSize, index);
      SourceWriteKeeps(file, m.source, from, to, lo, lo + staged);
      BackedKeeps(m, file, from, to, bitmap[index := 0]);
    case RecordJob(bitmap, _, _, _) => BackedKeeps(m, file, from, to, bitmap);
    case CleanupJob(_) =>
    case CommitJob(_, _) =>
  }

  lemma {:induction false} StagingKeeps(m: Manifest, n: Node, from: nat, to: nat)
    requires ValidManifest(m) && NodeInv(m, n) && from <= to <= |m.source|
    ensures NodeInv(m, n.(staging := Some(WriteAt(Content(n.staging), from, m.source[from..to]))))
  {
    hide WriteAt, ChunkCount, JobInv, SidecarInv, Backed, Holds;
    var file := Content(n.staging);
    SourceWriteHolds(file, m.source, from, to);
    SidecarKeeps(m, file, Content(n.sidecar), from, to, n.stale);
    if n.live.Some? && !n.live.value.spent {
      BackedKeeps(m, file, from, to, n.live.value.bitmap);
    }
    forall i | 0 <= i < |n.jobs|
      ensures JobInv(m, WriteAt(file, from, m.source[from..to]), Content(n.sidecar), n.jobs[i])
    {
      JobKeeps(m, file, Content(n.sidecar), n.jobs[i], from, to);
    }
  }

  /** New tasks, or fewer. */
  lemma {:induction false} JobsKeep(m: Manifest, n: Node, jobs: seq<Job>)
    requires ValidManifest(m) && NodeInv(m, n)
    requires forall job :: job in jobs ==>
               job in n.jobs || JobInv(m, Content(n.staging), Content(n.sidecar), job)
    ensures NodeInv(m, n.(jobs := jobs))
  {
    hide JobInv, SidecarInv, LiveInv;
    forall i | 0 <= i < |jobs| ensures JobInv(m, Content(n.staging), Content(n.sidecar), jobs[i]) {
      assert jobs[i] in jobs;
      if jobs[i] in n.jobs {
        var k :| 0 <= k < |n.jobs| && n.jobs[k] == jobs[i];
      }
    }
  }

  lemma {:induction false} JobAt(m: Manifest, n: Node, j: nat)
    requires ValidManifest(m) && NodeInv(m, n) && j < |n.jobs|
    ensures JobInv(m, Content(n.staging), Content(n.sidecar), n.jobs[j])
  {
    hide JobInv, SidecarInv, LiveInv;
  }

  /** Only the claims and the files matter. */
  lemma {:induction false} SameClaims(m: Manifest, n: Node, t: Node)
    requires ValidManifest(m) && NodeInv(m, n)
    requires Content(t.staging) == Content(n.staging) && Content(t.sidecar) == Content(n.sidecar)
    requires t.live == n.live && t.jobs == n.jobs && t.stale == n.stale
    ensures NodeInv(m, t)
  {
    hide JobInv, SidecarInv, LiveInv;
  }

  lemma {:induction false} StoreKeeps(m: Manifest, n: Node, j: nat, put: nat)
    requires ValidManifest(m) && NodeInv(m, n) && j < |n.jobs| && n.jobs[j].StoreJob?
    ensures NodeInv(m, StoreNext(m, n, j, put))
  {
    hide WriteAt, ChunkStart, ChunkEnd, ChunkCount, Backed, Holds, NodeInv, Resized;
    var job := n.jobs[j];
    JobAt(m, n, j);
    var from := ChunkStart(m.source, m.chunkSize, job.index);
    var end := ChunkEnd(m.source, m.chunkSize, job.index);
    var lo := from + job.staged;
    var to := Min(lo + put, end);
    if job.file == Unopened {
      JobsKeep(m, n, n.jobs[j := StoreJob(job.index, Attached, job.staged, job.bitmap)]);
      SameClaims(m, n.(jobs := n.jobs[j := StoreJob(job.index, Attached, job.staged, job.bitmap)]),
                 StoreNext(m, n, j, put));
    } else if lo >= end {
      StoredBacked(m, Content(n.staging), job.index, job.bitmap);
      JobsKeep(m, n, n.jobs[j := RecordJob(job.bitmap, Unopened, 0, true)]);
    } else if lo < to {
      ChunkWritten(m, n, j, lo, to);
    }
  }

  lemma {:induction false} ChunkWritten(m: Manifest, n: Node, j: nat, lo: nat, to: nat)
    requires ValidManifest(m) && NodeInv(m, n) && j < |n.jobs| && n.jobs[j].StoreJob? && n.jobs[j].file == Attached
    requires lo == ChunkStart(m.source, m.chunkSize, n.jobs[j].index) + n.jobs[j].staged
    requires lo < to <= ChunkEnd(m.source, m.chunkSize, n.jobs[j].index)
    ensures var job := n.jobs[j].(staged := to - ChunkStart(m.source, m.chunkSize, n.jobs[j].index));
            NodeInv(m, StoreWrites(m, n, j, lo, to).(jobs := n.jobs[j := job]))
  {
    hide WriteAt, ChunkStart, ChunkEnd, ChunkCount, Backed, Holds, NodeInv;
    var job := n.jobs[j];
    var from := ChunkStart(m.source, m.chunkSize, job.index);
    var n1 := n.(staging := Some(WriteAt(Content(n.staging), lo, m.source[lo..to])));
    StagingKeeps(m, n, lo, to);
    JobAt(m, n1, j);
    SourceWriteHolds(Content(n.staging), m.source, lo, to);
    HoldsJoin(Content(n1.staging), m.source, from, lo, to);
    JobsKeep(m, n1, n1.jobs[j := job.(staged := to - from)]);
  }

  lemma {:induction false} HoldsJoin(file: seq<byte>, source: seq<byte>, from: nat, mid: nat, to: nat)
    requires Holds(file, source, from, mid) && Holds(file, source, mid, to)
    ensures Holds(file, source, from, to)
  {
  }

  /** A stored chunk backs its own claim. */
  lemma {:induction false} StoredBacked(m: Manifest, file: seq<byte>, index: nat, bitmap: seq<byte>)
    requires ValidManifest(m) && index < |bitmap| && Backed(m, file, bitmap[index := 0])
    requires HoldsChunk(file, m.source, m.chunkSize, index)
    ensures Backed(m, file, bitmap)
  {
    hide HoldsChunk, ChunkCount;
    assert forall i :: 0 <= i < |bitmap| && i != index ==> bitmap[index := 0][i] == bitmap[i];
  }

  // ---- Recording them ----------------------------------------------------

  /** A piece of a sidecar rewrite keeps the sidecar truthful. */
  lemma {:induction false} PieceKeeps(m: Manifest, file: seq<byte>, sidecar: seq<byte>, stale: bool, bitmap: seq<byte>,
                                      from: nat, to: nat)
    requires ValidManifest(m) && SidecarInv(m, file, sidecar, stale) && Backed(m, file, bitmap)
    requires from <= |sidecar| && from < to <= SidecarSize(m)
    ensures var r := WriteAt(sidecar, from, Encode(StateFor(m, bitmap))[from..to]);
            SidecarInv(m, file, r, stale) && to <= |r| && |sidecar| <= |r|
  {
    hide WriteAt, ChunkCount, HoldsChunk, Header, Bits;
    var s := StateFor(m, bitmap);
    assert Header(s) == Header(StateFor(m, Zeros(ChunkCount(m)))) by {
      SameHeader(StateFor(m, Zeros(ChunkCount(m))), s);
    }
    assert forall i :: 0 <= i < RESUME_HEADER_BYTES ==> Encode(s)[i] == Header(s)[i];
    assert forall i :: RESUME_HEADER_BYTES <= i < |Encode(s)| ==>
             Encode(s)[i] == Bit(bitmap[i - RESUME_HEADER_BYTES]);
    hide Encode;
  }

  /** Extending a sidecar with zeros claims nothing new. */
  lemma {:induction false} ResizeKeeps(m: Manifest, file: seq<byte>, sidecar: seq<byte>, stale: bool)
    requires ValidManifest(m) && SidecarInv(m, file, sidecar, stale)
    ensures SidecarInv(m, file, Resized(sidecar, SidecarSize(m)), stale)
    ensures |sidecar| <= |Resized(sidecar, SidecarSize(m))|
  {
    hide ChunkCount, HoldsChunk, Header, Resized;
  }

  /** A longer sidecar that is as truthful. */
  lemma {:induction false} LongerSidecar(m: Manifest, n: Node, sidecar: seq<byte>)
    requires ValidManifest(m) && NodeInv(m, n) && |Content(n.sidecar)| <= |sidecar|
    requires SidecarInv(m, Content(n.staging), sidecar, n.stale)
    ensures NodeInv(m, n.(sidecar := Some(sidecar)))
  {
    hide SidecarInv, LiveInv, Backed, Holds, ChunkStart, ChunkEnd;
    forall i | 0 <= i < |n.jobs| ensures JobInv(m, Content(n.staging), sidecar, n.jobs[i]) {
      assert JobInv(m, Content(n.staging), Content(n.sidecar), n.jobs[i]);
    }
  }

  lemma {:induction false} RecordKeeps(m: Manifest, n: Node, j: nat, put: nat)
    requires ValidManifest(m) && NodeInv(m, n) && j < |n.jobs| && n.jobs[j].RecordJob?
    ensures NodeInv(m, RecordNext(m, n, j, put))
  {
    hide ChunkCount, SidecarInv, Encode, Holds, ChunkStart, ChunkEnd, WriteAt, NodeInv, Resized, HoldsClaims;
    var job := n.jobs[j];
    JobAt(m, n, j);
    InvParts(m, n);
    var file, sidecar := Content(n.staging), Content(n.sidecar);
    var to := Min(job.written + put, SidecarSize(m));
    if job.file == Unopened {
      var next := RecordJob(job.bitmap, Attached, job.written, job.reports);
      JobsKeep(m, n, n.jobs[j := next]);
      SameClaims(m, n.(jobs := n.jobs[j := next]), RecordNext(m, n, j, put));
    } else if job.written >= SidecarSize(m) {
      ResizeKeeps(m, file, sidecar, n.stale);
      LongerSidecar(m, n, Resized(sidecar, SidecarSize(m)));
    } else if job.written < to {
      if job.file == Attached {
        PieceKeeps(m, file, sidecar, n.stale, job.bitmap, job.written, to);
        var r := WriteAt(sidecar, job.written, Encode(StateFor(m, job.bitmap))[job.written..to]);
        LongerSidecar(m, n, r);
        JobsKeep(m, n.(sidecar := Some(r)), n.jobs[j := job.(written := to)]);
      } else {
        JobsKeep(m, n, n.jobs[j := job.(written := to)]);
      }
    }
  }

  lemma {:induction false} InvParts(m: Manifest, n: Node)
    requires ValidManifest(m) && NodeInv(m, n)
    ensures SidecarInv(m, Content(n.staging), Content(n.sidecar), n.stale)
    ensures n.live.Some? ==> LiveInv(m, Content(n.staging), n.live.value)
    ensures |Content(n.staging)| <= |m.source|
  {
    hide SidecarInv, LiveInv, JobInv;
  }

  // ---- Reading them back -------------------------------------------------

  lemma {:induction false} ZerosBacked(m: Manifest, file: seq<byte>)
    requires ValidManifest(m)
    ensures Backed(m, file, Zeros(ChunkCount(m)))
  {
    hide ChunkCount, HoldsChunk;
  }

  /** A sidecar that is accepted for the transfer is complete, and its bits are what it says. */
  lemma {:induction false} SidecarDecodes(m: Manifest, file: seq<byte>, sidecar: seq<byte>, stale: bool)
    requires ValidManifest(m) && SidecarInv(m, file, sidecar, stale) && Decode(sidecar).Ok?
    ensures |sidecar| == SidecarSize(m)
    ensures Decode(sidecar).state.bitmap == Bits(sidecar[RESUME_HEADER_BYTES..])
    ensures !stale ==> Backed(m, file, Decode(sidecar).state.bitmap)
  {
    hide Header, Bits, ChunkCount, HoldsChunk, FromBytes, ToBytes, Plausible;
    var zero := StateFor(m, Zeros(ChunkCount(m)));
    var rest := sidecar[RESUME_HEADER_BYTES..];
    if |sidecar| < SidecarSize(m) {
      assert sidecar == Header(zero) + rest;
      hide Decode;
      DecodeHeader(zero, rest);
      assert false;
    }
  }

  lemma {:induction false} RestoredBacked(m: Manifest, n: Node, readable: bool)
    requires ValidManifest(m) && NodeInv(m, n) && Restored(m, n.sidecar, readable).Some?
    ensures var b := Restored(m, n.sidecar, readable).value;
            && |b| == ChunkCount(m)
            && (Backed(m, Content(n.staging), b) <==> HoldsClaims(m, Content(n.staging), b))
            && (!readable || !n.stale ==> Backed(m, Content(n.staging), b))
  {
    hide ChunkCount, HoldsClaims, SidecarInv, Decode, Bits, NodeInv;
    ZerosBacked(m, Content(n.staging));
    InvParts(m, n);
    if readable && n.sidecar.Some? && Decode(n.sidecar.value).Ok? {
      SidecarDecodes(m, Content(n.staging), Content(n.sidecar), n.stale);
    }
  }

  // ---- Losing the sidecar ------------------------------------------------

  lemma {:induction false} SidecarGoneKeeps(m: Manifest, n: Node)
    requires ValidManifest(m) && NodeInv(m, n)
    ensures NodeInv(m, SidecarGone(n))
  {
    hide ChunkCount, Backed, Holds, ChunkStart, ChunkEnd, Header, LiveInv;
    var t := SidecarGone(n);
    forall i | 0 <= i < |t.jobs| ensures JobInv(m, Content(t.staging), Content(t.sidecar), t.jobs[i]) {
      assert JobInv(m, Content(n.staging), Content(n.sidecar), n.jobs[i]);
    }
  }

  // ---- Losing the staging file -------------------------------------------

  predicate NoClaims(bitmap: seq<byte>) {
    forall i :: 0 <= i < |bitmap| ==> bitmap[i] == 0
  }

  predicate ClaimsOnly(bitmap: seq<byte>, index: nat) {
    forall i :: 0 <= i < |bitmap| && i != index ==> bitmap[i] == 0
  }

  /** A task that relies on nothing in the staging file. */
  predicate JobIdle(job: Job) {
    match job
    case StoreJob(index, handle, _, bitmap) => handle == Unopened && ClaimsOnly(bitmap, index)
    case RecordJob(bitmap, _, _, _) => NoClaims(bitmap)
    case CleanupJob(_) => true
    case CommitJob(_, _) => true
  }

  /** Neither a task nor the receive in memory claims a chunk, unless the receive's own
      commit has taken the file. */
  predicate MemoryIdle(n: Node) {
    && (n.live.Some? && !n.live.value.spent ==> NoClaims(n.live.value.bitmap))
    && forall i :: 0 <= i < |n.jobs| ==> JobIdle(n.jobs[i])
  }

  lemma {:induction false} ChunkNotEmpty(m: Manifest, index: nat)
    requires ValidManifest(m) && index < ChunkCount(m)
    ensures ChunkStart(m.source, m.chunkSize, index) < ChunkEnd(m.source, m.chunkSize, index)
    ensures !HoldsChunk([], m.source, m.chunkSize, index)
  {
    var c := m.chunkSize;
    var x := |m.source| + c - 1;
    assert x == c * (x / c) + x % c;
    assert index * c < |m.source| by {
      MulLess(index, ChunkCount(m), c);
    }
  }

  lemma {:induction false} MulLess(a: nat, b: nat, c: nat)
    requires a < b
    ensures a * c + c <= b * c
  {
    assert b * c == (b - a - 1) * c + a * c + c;
  }

  /** An empty file backs no claim at all. */
  lemma {:induction false} BackedByNothing(m: Manifest, bitmap: seq<byte>)
    requires ValidManifest(m) && |bitmap| == ChunkCount(m)
    ensures HoldsClaims(m, [], bitmap) <==> NoClaims(bitmap)
  {
    hide HoldsChunk, ChunkCount, ChunkStart, ChunkEnd;
    forall i | 0 <= i < |bitmap| ensures !HoldsChunk([], m.source, m.chunkSize, i) {
      ChunkNotEmpty(m, i);
    }
  }

  lemma {:induction false} SidecarByNothing(m: Manifest, file: seq<byte>, sidecar: seq<byte>, stale: bool)
    requires ValidManifest(m) && SidecarInv(m, file, sidecar, stale)
    ensures SidecarInv(m, [], sidecar, stale || !SidecarIdle(sidecar))
  {
    hide HoldsChunk, ChunkCount, Header;
  }

  lemma {:induction false} JobByNothing(m: Manifest, file: seq<byte>, sidecar: seq<byte>, job: Job, renamed: bool)
    requires ValidManifest(m) && JobInv(m, file, sidecar, job)
    ensures JobInv(m, [], sidecar, OffStaging(job, renamed)) <==> JobIdle(job)
  {
    hide ChunkStart, ChunkEnd, ChunkCount, HoldsClaims, NoClaims, ClaimsOnly;
    match job
    case StoreJob(index, _, staged, bitmap) =>
      ClearedClaims(bitmap, index);
      BackedByNothing(m, bitmap[index := 0]);
      StartHolds(m, [], index);
    case RecordJob(bitmap, _, _, _) => BackedByNothing(m, bitmap);
    case CleanupJob(_) =>
    case CommitJob(_, _) =>
  }

  lemma {:induction false} ClearedClaims(bitmap: seq<byte>, index: nat)
    requires index < |bitmap|
    ensures NoClaims(bitmap[index := 0]) <==> ClaimsOnly(bitmap, index)
  {
    var cleared := bitmap[index := 0];
    assert forall i :: 0 <= i < |bitmap| && i != index ==> cleared[i] == bitmap[i];
    assert cleared[index] == 0;
  }

  lemma {:induction false} StartHolds(m: Manifest, file: seq<byte>, index: nat)
    ensures var from := ChunkStart(m.source, m.chunkSize, index);
            Holds(file, m.source, from, from) && from <= ChunkEnd(m.source, m.chunkSize, index)
  {
  }

  /** The loss of the staging file leaves every claim in memory backed exactly when there is
      none; the sidecar's claims are then remembered as stale. */
  lemma {:induction false} GoneExact(m: Manifest, n: Node, renamed: bool)
    requires ValidManifest(m) && NodeInv(m, n)
    ensures NodeInv(m, StagingGone(n, renamed)) <==> MemoryIdle(n)
  {
    hide JobInv, SidecarInv, HoldsClaims, NoClaims, JobIdle, SidecarIdle, OffStaging, ChunkCount;
    var t := StagingGone(n, renamed);
    SidecarByNothing(m, Content(n.staging), Content(n.sidecar), n.stale);
    if n.live.Some? {
      BackedByNothing(m, n.live.value.bitmap);
    }
    forall i | 0 <= i < |n.jobs|
      ensures JobInv(m, [], Content(t.sidecar), t.jobs[i]) <==> JobIdle(n.jobs[i])
    {
      JobByNothing(m, Content(n.staging), Content(n.sidecar), n.jobs[i], renamed);
    }
    assert |t.jobs| == |n.jobs|;
  }

  lemma {:induction false} YieldsKeeps(m: Manifest, n: Node, step: NodeStep)
    requires ValidManifest(m) && NodeInv(m, n)
    ensures NodeInv(m, Yields(n, step))
  {
    hide NodeInv, JobInv, LiveInv;
    FreeJobs(m, n);
    JobsKeep(m, n, Yields(n, step).jobs);
    InvParts(m, n);
    if n.live.Some? {
      SpentLive(m, n);
      LiveKeeps(m, n.(jobs := Yields(n, step).jobs), Some(n.live.value.(spent := true)));
    }
  }

  lemma {:induction false} SpentLive(m: Manifest, n: Node)
    requires ValidManifest(m) && n.live.Some? && LiveInv(m, Content(n.staging), n.live.value)
    ensures LiveInv(m, Content(n.staging), n.live.value.(spent := true))
  {
  }

  lemma {:induction false} LiveKeeps(m: Manifest, n: Node, live: Option<Receive>)
    requires ValidManifest(m) && NodeInv(m, n) && (live.Some? ==> LiveInv(m, Content(n.staging), live.value))
    ensures NodeInv(m, n.(live := live))
  {
    hide JobInv, SidecarInv, LiveInv;
  }

  lemma {:induction false} FreeJobs(m: Manifest, n: Node)
    requires ValidManifest(m)
    ensures forall done :: JobInv(m, Content(n.staging), Content(n.sidecar), CleanupJob(done))
    ensures forall owner, ok :: JobInv(m, Content(n.staging), Content(n.sidecar), CommitJob(owner, ok))
  {
  }

  /** A step that takes the staging file away keeps every claim in memory backed exactly
      when, apart from what does it and the receive it commits, nothing in memory claims a
      chunk. */
  lemma {:induction false} StagingRemoval(m: Manifest, n: Node, step: NodeStep)
    requires ValidManifest(m) && NodeInv(m, n) && RemovesStaging(n, step)
    ensures NodeInv(m, NodeNext(m, n, step)) <==> MemoryIdle(Yields(n, step))
  {
    hide NodeInv, MemoryIdle, StagingGone;
    var n1 := Yields(n, step);
    YieldsKeeps(m, n, step);
    GoneExact(m, n1, false);
    GoneExact(m, n1, true);
    if step.Work? && n.jobs[step.job].CommitJob? {
      FinalAside(m, n1, n.staging);
    }
  }

  lemma {:induction false} FinalAside(m: Manifest, n: Node, final: Option<seq<byte>>)
    requires ValidManifest(m)
    ensures NodeInv(m, StagingGone(n.(final := final), true)) <==> NodeInv(m, StagingGone(n, true))
  {
    hide JobInv, SidecarInv, LiveInv, OffStaging;
    assert StagingGone(n.(final := final), true).jobs == StagingGone(n, true).jobs;
  }

  // ---- Steps -------------------------------------------------------------

  /** What a step must not do. The staging file goes only while nothing in memory but the
      receive being committed claims a chunk. A sidecar left behind is read only if the
      staging file holds what it claims. A receive whose commit has taken the file is given
      another chunk only if the file holds what it claims besides. */
  predicate Careful(m: Manifest, n: Node, step: NodeStep)
    requires ValidManifest(m)
  {
    && (RemovesStaging(n, step) ==> MemoryIdle(Yields(n, step)))
    && (n.stale && ReadsSidecar(n, step) && Restored(m, n.sidecar, true).Some? ==>
          HoldsClaims(m, Content(n.staging), Restored(m, n.sidecar, true).value))
    && (Dispatches(n, step) && n.live.value.spent ==>
          HoldsClaims(m, Content(n.staging), n.live.value.bitmap[step.index := 0]))
  }

  lemma {:induction false} WithoutKeeps(m: Manifest, n: Node, j: nat)
    requires ValidManifest(m) && NodeInv(m, n) && j < |n.jobs|
    ensures NodeInv(m, n.(jobs := Without(n.jobs, j)))
  {
    hide NodeInv, JobInv;
    JobsKeep(m, n, Without(n.jobs, j));
  }

  lemma {:induction false} WorkKeeps(m: Manifest, n: Node, j: nat, put: nat)
    requires ValidManifest(m) && NodeInv(m, n) && j < |n.jobs| && !RemovesStaging(n, Work(j, put))
    ensures NodeInv(m, WorkNext(m, n, j, put))
  {
    hide NodeInv, JobInv, StoreNext, RecordNext, SidecarGone, StagingGone;
    WithoutKeeps(m, n, j);
    FreeJobs(m, n);
    match n.jobs[j]
    case StoreJob(_, _, _, _) => StoreKeeps(m, n, j, put);
    case RecordJob(_, _, _, _) => RecordKeeps(m, n, j, put);
    case CleanupJob(false) => JobsKeep(m, n, n.jobs[j := CleanupJob(true)]);
    case CleanupJob(true) => SidecarGoneKeeps(m, n.(jobs := Without(n.jobs, j)));
    case CommitJob(owner, false) => JobsKeep(m, n, n.jobs[j := CommitJob(owner, true)]);
    case CommitJob(_, true) =>
  }

  /** A manifest makes a sound receive exactly when what it restores is in the file. */
  lemma {:induction false} BeginExact(m: Manifest, n: Node, readable: bool)
    requires ValidManifest(m) && NodeInv(m, n)
    ensures NodeInv(m, NodeNext(m, n, Begin(readable))) <==> Careful(m, n, Begin(readable))
  {
    hide Restored, HoldsClaims, SidecarInv, ChunkCount, NodeInv, Ones;
    var restored := Restored(m, n.sidecar, readable);
    if n.live.None? && restored.Some? {
      RestoredBacked(m, n, readable);
      var live := Receive(n.begun, restored.value, Ones(restored.value), false, false, false);
      var t := n.(jobs := n.jobs + [RecordJob(restored.value, Unopened, 0, false)]);
      var next := NodeNext(m, n, Begin(readable));
      if Backed(m, Content(n.staging), restored.value) {
        JobsKeep(m, n, t.jobs);
        LiveKeeps(m, t, Some(live));
        SameClaims(m, t.(live := Some(live)), next);
      }
      if NodeInv(m, next) {
        InvParts(m, next);
      }
    }
  }

  /** A chunk handed out makes a sound task exactly when the other claims of its receive are
      in the file. */
  lemma {:induction false} DispatchExact(m: Manifest, n: Node, index: nat)
    requires ValidManifest(m) && NodeInv(m, n)
    ensures NodeInv(m, NodeNext(m, n, Dispatch(index))) <==> Careful(m, n, Dispatch(index))
  {
    hide NodeInv, HoldsClaims, Holds, ChunkStart, ChunkEnd, ChunkCount;
    if Dispatches(n, Dispatch(index)) {
      var live := n.live.value;
      var job := StoreJob(index, Unopened, 0, live.bitmap[index := 1]);
      var next := NodeNext(m, n, Dispatch(index));
      InvParts(m, n);
      StartHolds(m, Content(n.staging), index);
      FewerClaims(m, Content(n.staging), live.bitmap, index);
      assert live.bitmap[index := 1][index := 0] == live.bitmap[index := 0];
      if HoldsClaims(m, Content(n.staging), live.bitmap[index := 0]) {
        JobsKeep(m, n, n.jobs + [job]);
        LiveKeeps(m, n.(jobs := n.jobs + [job]), Some(live.(writing := true)));
      }
      if NodeInv(m, next) {
        JobAt(m, next, |n.jobs|);
      }
    }
  }

  lemma {:induction false} FewerClaims(m: Manifest, file: seq<byte>, bitmap: seq<byte>, index: nat)
    requires index < |bitmap|
    ensures HoldsClaims(m, file, bitmap) ==> HoldsClaims(m, file, bitmap[index := 0])
  {
    hide HoldsChunk;
    assert forall i :: 0 <= i < |bitmap| && i != index ==> bitmap[index := 0][i] == bitmap[i];
  }

  lemma {:induction false} FinishKeeps(m: Manifest, n: Node, j: nat, heard: bool)
    requires ValidManifest(m) && NodeInv(m, n)
    ensures NodeInv(m, NodeNext(m, n, Finish(j, heard)))
  {
    hide NodeInv, HoldsClaims, Encode, ChunkCount, Holds, ChunkStart, ChunkEnd;
    if Recorded(m, n, j) {
      JobAt(m, n, j);
      InvParts(m, n);
      WithoutKeeps(m, n, j);
      if n.live.Some? {
        LiveKeeps(m, n.(jobs := Without(n.jobs, j)), NodeNext(m, n, Finish(j, true)).live);
      }
    }
  }

  lemma {:induction false} SimpleKeeps(m: Manifest, n: Node, step: NodeStep)
    requires ValidManifest(m) && NodeInv(m, n)
    requires step.StartCommit? || step.Drop? || step.Fail? || step.Retire? || step.Death?
    ensures NodeInv(m, NodeNext(m, n, step))
  {
    hide NodeInv, JobInv, Backed, ChunkCount;
    FreeJobs(m, n);
    InvParts(m, n);
    LiveKeeps(m, n, None);
    JobsKeep(m, n.(live := None), n.jobs + [CleanupJob(false)]);
    JobsKeep(m, n.(live := None), []);
    if n.live.Some? {
      var live := n.live.value.(verifying := true);
      LiveKeeps(m, n, Some(live));
      JobsKeep(m, n.(live := Some(live)), n.jobs + [CommitJob(live.id, false)]);
    }
    if step.Drop? && step.job < |n.jobs| {
      WithoutKeeps(m, n, step.job);
    }
  }

  /** A step of a sound node leaves it sound exactly when it is careful. */
  lemma {:induction false} StepExact(m: Manifest, n: Node, step: NodeStep)
    requires ValidManifest(m) && NodeInv(m, n)
    ensures NodeInv(m, NodeNext(m, n, step)) <==> Careful(m, n, step)
  {
    hide NodeInv, HoldsClaims, MemoryIdle, Restored, Yields;
    match step
    case Begin(readable) => BeginExact(m, n, readable);
    case Dispatch(index) => DispatchExact(m, n, index);
    case Finish(j, heard) => FinishKeeps(m, n, j, heard);
    case Work(j, put) =>
      if RemovesStaging(n, step) {
        StagingRemoval(m, n, step);
      } else if j < |n.jobs| {
        WorkKeeps(m, n, j, put);
      }
    case SweepStaging => StagingRemoval(m, n, step);
    case SweepSidecar => SidecarGoneKeeps(m, n);
    case _ => SimpleKeeps(m, n, step);
  }

  // ---- Runs --------------------------------------------------------------

  /** No claim of a receive or a task is without its chunk in any state of the run, and no
      manifest of the run restores one. */
  predicate SoundRun(m: Manifest, n: Node, steps: seq<NodeStep>)
    requires ValidManifest(m)
    decreases |steps|
  {
    NodeInv(m, n) && (steps != [] ==> SoundRun(m, NodeNext(m, n, steps[0]), steps[1..]))
  }

  predicate CarefulRun(m: Manifest, n: Node, steps: seq<NodeStep>)
    requires ValidManifest(m)
    decreases |steps|
  {
    steps != [] ==> Careful(m, n, steps[0]) && CarefulRun(m, NodeNext(m, n, steps[0]), steps[1..])
  }

  lemma {:induction false} RunExact(m: Manifest, n: Node, steps: seq<NodeStep>)
    requires ValidManifest(m) && NodeInv(m, n)
    ensures SoundRun(m, n, steps) <==> CarefulRun(m, n, steps)
    ensures CarefulRun(m, n, steps) ==> NodeInv(m, NodeRun(m, n, steps))
    decreases |steps|
  {
    hide NodeInv, NodeNext, Careful, ValidManifest;
    if steps != [] {
      StepExact(m, n, steps[0]);
      if Careful(m, n, steps[0]) {
        RunExact(m, NodeNext(m, n, steps[0]), steps[1..]);
      } else {
        assert !SoundRun(m, NodeNext(m, n, steps[0]), steps[1..]);
      }
    }
  }

  lemma {:induction false} CarefulAppend(m: Manifest, n: Node, a: seq<NodeStep>, b: seq<NodeStep>)
    requires ValidManifest(m)
    ensures CarefulRun(m, n, a + b) <==> CarefulRun(m, n, a) && CarefulRun(m, NodeRun(m, n, a), b)
    decreases |a|
  {
    hide NodeNext, Careful, ValidManifest;
    if a == [] {
      assert a + b == b;
    } else {
      assert (a + b)[1..] == a[1..] + b;
      CarefulAppend(m, NodeNext(m, n, a[0]), a[1..], b);
    }
  }

  lemma {:induction false} FreshInv(m: Manifest, staging: Option<seq<byte>>)
    requires ValidManifest(m) && |Content(staging)| <= |m.source|
    ensures NodeInv(m, Fresh(staging))
  {
    hide ChunkCount, HoldsChunk, Header;
  }

  /** In every run, with any number of deaths and restarts and with ordinary commits: every
      bitmap a manifest restores, every receive whose commit has not taken the file, and
      every task claims only chunks that are there, in all states, exactly when every step
      of the run is careful. */
  lemma {:induction false} ClaimsAreBacked(m: Manifest, staging: Option<seq<byte>>, steps: seq<NodeStep>)
    requires ValidManifest(m) && |Content(staging)| <= |m.source|
    ensures SoundRun(m, Fresh(staging), steps) <==> CarefulRun(m, Fresh(staging), steps)
  {
    hide NodeInv, SoundRun, CarefulRun, ValidManifest, Fresh, NodeRun;
    FreshInv(m, staging);
    RunExact(m, Fresh(staging), steps);
  }

  /** What such a run gives: a resumed transfer never skips a missing chunk, and once every
      chunk is claimed the staging file is the source. */
  lemma {:induction false} ResumeNeverSkips(m: Manifest, staging: Option<seq<byte>>, steps: seq<NodeStep>)
    requires ValidManifest(m) && |Content(staging)| <= |m.source| && CarefulRun(m, Fresh(staging), steps)
    ensures var n := NodeRun(m, Fresh(staging), steps);
            var restored := Restored(m, n.sidecar, true);
            && (n.live.Some? && !n.live.value.spent ==> Backed(m, Content(n.staging), n.live.value.bitmap))
            && (restored.Some? && !n.stale ==> Backed(m, Content(n.staging), restored.value))
            && (n.live.Some? && !n.live.value.spent
                && (forall i :: 0 <= i < |n.live.value.bitmap| ==> n.live.value.bitmap[i] != 0) ==>
                  Content(n.staging) == m.source)
  {
    hide NodeRun, ChunkCount, HoldsChunk, Fresh, CarefulRun, NodeInv, Restored, SoundRun;
    FreshInv(m, staging);
    RunExact(m, Fresh(staging), steps);
    var n := NodeRun(m, Fresh(staging), steps);
    InvParts(m, n);
    if Restored(m, n.sidecar, true).Some? {
      RestoredBacked(m, n, true);
    }
    if n.live.Some? && !n.live.value.spent {
      CompleteIsSource(m, Content(n.staging), n.live.value.bitmap);
    }
  }

  lemma {:induction false} CompleteIsSource(m: Manifest, file: seq<byte>, bitmap: seq<byte>)
    requires ValidManifest(m) && Backed(m, file, bitmap) && |file| <= |m.source|
    ensures (forall i :: 0 <= i < |bitmap| ==> bitmap[i] != 0) ==> file == m.source
  {
    hide ChunkCount, HoldsChunk;
    if forall i :: 0 <= i < |bitmap| ==> bitmap[i] != 0 {
      forall index | IsChunk(m.source, m.chunkSize, index)
        ensures HoldsChunk(file, m.source, m.chunkSize, index)
      {
        IndexInBitmap(m, index);
      }
      AllChunks(file, m.source, m.chunkSize);
    }
  }

  // ---- Right after the file went -----------------------------------------

  /** What the sidecar on disk makes a manifest believe. */
  predicate ClaimsOnDisk(m: Manifest, sidecar: Option<seq<byte>>)
    requires m.chunkSize > 0
  {
    Restored(m, sidecar, true).Some? && !NoClaims(Restored(m, sidecar, true).value)
  }

  /** While there is no staging file, what is careful is decided by the claims alone: a
      sidecar left behind may be read exactly if it claims nothing, and a receive whose
      commit has taken the file may be given a chunk exactly if it claims no other. */
  lemma {:induction false} CarefulWithout(m: Manifest, n: Node)
    requires ValidManifest(m) && NodeInv(m, n) && n.staging.None?
    ensures n.live.None? && n.stale ==> (Careful(m, n, Begin(true)) <==> !ClaimsOnDisk(m, n.sidecar))
    ensures n.live.Some? && n.live.value.spent ==>
              forall index: nat :: Dispatches(n, Dispatch(index)) ==>
                (Careful(m, n, Dispatch(index)) <==> ClaimsOnly(n.live.value.bitmap, index))
  {
    hide NodeInv, HoldsClaims, NoClaims, Restored, ClaimsOnly, ChunkCount;
    InvParts(m, n);
    if Restored(m, n.sidecar, true).Some? {
      RestoredBacked(m, n, true);
      BackedByNothing(m, Restored(m, n.sidecar, true).value);
    }
    if n.live.Some? {
      forall index: nat | Dispatches(n, Dispatch(index))
        ensures HoldsClaims(m, [], n.live.value.bitmap[index := 0]) <==> ClaimsOnly(n.live.value.bitmap, index)
      {
        ClearedClaims(n.live.value.bitmap, index);
        BackedByNothing(m, n.live.value.bitmap[index := 0]);
      }
    }
  }

  /** The code removes the staging file first. If the process dies before it removes the
      sidecar, the next manifest for the transfer restores a bitmap without its chunks
      exactly when the sidecar claimed one. */
  lemma {:induction false} DeathBetween(m: Manifest, n: Node, step: NodeStep)
    requires ValidManifest(m) && NodeInv(m, n) && RemovesStaging(n, step)
    ensures var t := NodeNext(m, NodeNext(m, NodeNext(m, n, step), Death), Begin(true));
            && t.staging == None
            && (t.live.Some? && !Backed(m, [], t.live.value.bitmap) <==> ClaimsOnDisk(m, n.sidecar))
  {
    hide JobInv, SidecarInv, HoldsClaims, Restored, NoClaims, ChunkCount, OffStaging, Ones;
    if Restored(m, n.sidecar, true).Some? {
      RestoredBacked(m, n, true);
      BackedByNothing(m, Restored(m, n.sidecar, true).value);
    }
    var n2 := NodeNext(m, NodeNext(m, n, step), Death);
    assert n2.staging == None && n2.sidecar == n.sidecar && n2.live.None?;
  }

  /** In the reverse order no state in between is unsound: the sidecar may go at any time,
      and then the staging file may go exactly when nothing in memory claims a chunk, and
      leaves no stale sidecar. */
  lemma {:induction false} SidecarFirst(m: Manifest, n: Node)
    requires ValidManifest(m) && NodeInv(m, n)
    ensures NodeInv(m, SidecarGone(n)) && !StagingGone(SidecarGone(n), false).stale
    ensures NodeInv(m, StagingGone(SidecarGone(n), false)) <==> MemoryIdle(n)
  {
    hide NodeInv, JobIdle, NoClaims, OffSidecar, OffStaging;
    SidecarGoneKeeps(m, n);
    GoneExact(m, SidecarGone(n), false);
    forall i | 0 <= i < |n.jobs| ensures JobIdle(SidecarGone(n).jobs[i]) <==> JobIdle(n.jobs[i]) {
      JobIdleKept(n.jobs[i]);
    }
    assert |SidecarGone(n).jobs| == |n.jobs|;
  }

  lemma {:induction false} JobIdleKept(job: Job)
    ensures JobIdle(OffSidecar(job)) <==> JobIdle(job)
  {
  }

  // ---- What a manifest finds ---------------------------------------------

  predicate SameTransfer(m: Manifest, s: ResumeState) {
    s.id == m.id && s.size == |m.source| && s.chunkSize == m.chunkSize && s.digest == m.digest
  }

  /** A manifest that finds a sidecar saved by another transfer is refused: no file changes, no
      task starts and nothing is received. One saved by its own transfer starts a receive with
      the chunks it lists. */
  lemma {:induction false} ManifestFinds(m: Manifest, n: Node, saved: ResumeState)
    requires Typed(saved) && Plausible(saved) && |saved.bitmap| <= MAX_BITMAP && |Encode(saved)| <= MAX_STATE_BYTES
    requires ValidManifest(m) && n.live.None? && n.sidecar == Some(Encode(saved))
    ensures var t := NodeNext(m, n, Begin(true));
            if !SameTransfer(m, saved) then t == n
            else
              && t == n.(live := t.live, jobs := t.jobs, begun := n.begun + 1)
              && t.live.Some? && t.live.value.bitmap == Bits(saved.bitmap)
  {
    hide Decode, Encode, ChunkCount, Ones, Bits;
    SidecarRoundTrip(saved);
  }
}

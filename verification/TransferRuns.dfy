/** Whole transfers: the ordinary one, and the runs in which a promise fails. */
module TransferRuns {
  import opened Bytes
  import opened ResumeSidecar
  import opened StagingFile
  import opened ReceiverNode
  import opened ResumeSafety
  import opened CommitIntegrity

  // ---- Building runs -----------------------------------------------------

  /** The steps lead from `n` to `t`, carefully and without undercutting a commit. */
  predicate Leads(m: Manifest, n: Node, steps: seq<NodeStep>, t: Node)
    requires ValidManifest(m)
  {
    NodeRun(m, n, steps) == t && CarefulRun(m, n, steps) && NoUndercut(m, n, steps)
  }

  lemma {:induction false} LeadsNowhere(m: Manifest, n: Node)
    requires ValidManifest(m)
    ensures Leads(m, n, [], n)
  {
  }

  lemma {:induction false} LeadsOn(m: Manifest, n: Node, steps: seq<NodeStep>, t: Node, step: NodeStep)
    requires ValidManifest(m) && Leads(m, n, steps, t) && Careful(m, t, step) && !Undercuts(t, step)
    ensures Leads(m, n, steps + [step], NodeNext(m, t, step))
  {
    hide NodeNext, Careful, Undercuts, ValidManifest;
    NodeRunAppend(m, n, steps, [step]);
    NodeRunOne(m, t, step);
    CarefulAppend(m, n, steps, [step]);
    NoUndercutAppend(m, n, steps, [step]);
    OneStep(m, t, step);
  }

  lemma {:induction false} OneStep(m: Manifest, t: Node, step: NodeStep)
    requires ValidManifest(m)
    ensures CarefulRun(m, t, [step]) <==> Careful(m, t, step)
    ensures NoUndercut(m, t, [step]) <==> !Undercuts(t, step)
  {
    hide NodeNext, Careful, Undercuts, ValidManifest;
    assert [step][1..] == [];
    assert CarefulRun(m, NodeNext(m, t, step), []) && NoUndercut(m, NodeNext(m, t, step), []);
  }

  /** Nothing to be careful about: no file goes, and nothing is left over. */
  predicate Plain(n: Node, step: NodeStep) {
    !RemovesStaging(n, step) && !n.stale && (n.live.Some? ==> !n.live.value.spent)
  }

  lemma {:induction false} PlainOn(m: Manifest, n: Node, steps: seq<NodeStep>, t: Node, step: NodeStep)
    requires ValidManifest(m) && Leads(m, n, steps, t) && Plain(t, step)
    ensures Leads(m, n, steps + [step], NodeNext(m, t, step))
  {
    hide NodeNext, ValidManifest, Leads, RemovesStaging, HoldsClaims, MemoryIdle, Restored;
    LeadsOn(m, n, steps, t, step);
  }

  /** Just the run. */
  lemma {:induction false} RunOn(m: Manifest, n: Node, steps: seq<NodeStep>, step: NodeStep)
    requires ValidManifest(m)
    ensures NodeRun(m, n, steps + [step]) == NodeNext(m, NodeRun(m, n, steps), step)
  {
    hide NodeNext, ValidManifest, NodeRun;
    NodeRunAppend(m, n, steps, [step]);
    NodeRunOne(m, NodeRun(m, n, steps), step);
  }

  // ---- Bitmaps -----------------------------------------------------------

  /** The first `k` chunks are there. */
  function First(m: Manifest, k: nat): (b: seq<byte>)
    requires ValidManifest(m)
    ensures |b| == ChunkCount(m)
  {
    seq(ChunkCount(m), i => if i < k then 1 else 0)
  }

  lemma {:induction false} FirstNext(m: Manifest, k: nat)
    requires ValidManifest(m) && k < ChunkCount(m)
    ensures First(m, k)[k := 1] == First(m, k + 1)
  {
    hide ChunkCount;
  }

  lemma {:induction false} FirstNone(m: Manifest)
    requires ValidManifest(m)
    ensures First(m, 0) == Zeros(ChunkCount(m))
  {
    hide ChunkCount;
  }

  lemma {:induction false} FirstAll(m: Manifest)
    requires ValidManifest(m)
    ensures forall i :: 0 <= i < ChunkCount(m) ==> First(m, ChunkCount(m))[i] == 1
    ensures Ones(First(m, ChunkCount(m))) == ChunkCount(m)
    ensures First(m, ChunkCount(m))[0 := 1] == First(m, ChunkCount(m))
  {
    hide ChunkCount;
    IndexInBitmap(m, 0);
    AllOnes(First(m, ChunkCount(m)));
  }

  lemma {:induction false} AllOnes(bitmap: seq<byte>)
    requires forall i :: 0 <= i < |bitmap| ==> bitmap[i] == 1
    ensures Ones(bitmap) == |bitmap|
  {
    if bitmap != [] {
      AllOnes(bitmap[..|bitmap| - 1]);
    }
  }

  /** A recorded bitmap of ones and zeros is restored as it was. */
  lemma {:induction false} ReadsBack(m: Manifest, k: nat)
    requires ValidManifest(m) && SidecarSize(m) <= MAX_STATE_BYTES
    ensures Restored(m, Some(Encode(StateFor(m, First(m, k)))), true) == Some(First(m, k))
  {
    hide ChunkCount, Encode, Decode, Bits;
    var b := First(m, k);
    SidecarRoundTrip(StateFor(m, b));
    assert Bits(b) == b;
  }

  // ---- Storing -----------------------------------------------------------

  /** The bytes the sidecar has once the first `k` chunks are recorded. */
  function Sidecar(m: Manifest, k: nat): (s: seq<byte>)
    requires ValidManifest(m)
    ensures |s| == SidecarSize(m)
  {
    Encode(StateFor(m, First(m, k)))
  }

  /** The first `k` chunks are stored and recorded, and nothing is under way. */
  predicate Stored(m: Manifest, n: Node, k: nat)
    requires ValidManifest(m)
  {
    && NodeInv(m, n) && !n.stale && n.final == None && n.jobs == []
    && n.sidecar == Some(Sidecar(m, k))
    && n.live == Some(Receive(0, First(m, k), k, false, false, false)) && n.begun == 1
  }

  lemma {:induction false} LeadsInv(m: Manifest, steps: seq<NodeStep>, t: Node)
    requires ValidManifest(m) && Leads(m, Fresh(None), steps, t)
    ensures NodeInv(m, t)
  {
    hide NodeInv, CarefulRun, NodeRun, ValidManifest, NoUndercut, SoundRun;
    FreshInv(m, None);
    RunExact(m, Fresh(None), steps);
  }

  lemma {:induction false} WriteWhole(file: seq<byte>, all: seq<byte>)
    requires |file| <= |all|
    ensures WriteAt(file, 0, all[0..|all|]) == all
  {
    assert all[0..|all|] == all;
  }

  /** A task that records a bitmap: open, write, done. */
  lemma {:induction false} Recording(m: Manifest, n: Node, k: nat, reports: bool)
    requires ValidManifest(m) && n.jobs == [RecordJob(First(m, k), Unopened, 0, reports)]
    requires |Content(n.sidecar)| <= SidecarSize(m)
    ensures var n1 := NodeNext(m, n, Work(0, 0));
            var n2 := NodeNext(m, n1, Work(0, SidecarSize(m)));
            && n1 == n.(sidecar := Some(Content(n.sidecar)), jobs := [RecordJob(First(m, k), Attached, 0, reports)])
            && n2 == n.(sidecar := Some(Sidecar(m, k)),
                        jobs := [RecordJob(First(m, k), Attached, SidecarSize(m), reports)])
            && Recorded(m, n2, 0)
  {
    hide Encode, ChunkCount, WriteAt, Resized, First, SidecarIdle, StoreNext, Decode, Ones;
    WriteWhole(Content(n.sidecar), Sidecar(m, k));
    var n1 := NodeNext(m, n, Work(0, 0));
    assert n1.jobs == [RecordJob(First(m, k), Attached, 0, reports)];
    var n2 := NodeNext(m, n1, Work(0, SidecarSize(m)));
    assert n2.jobs == [RecordJob(First(m, k), Attached, SidecarSize(m), reports)];
  }

  /** A task that stores chunk `k`: open, write, done. */
  lemma {:induction false} Storing(m: Manifest, n: Node, k: nat, b: seq<byte>)
    requires ValidManifest(m) && k < ChunkCount(m) && n.jobs == [StoreJob(k, Unopened, 0, b)]
    ensures var size := ChunkEnd(m.source, m.chunkSize, k) - ChunkStart(m.source, m.chunkSize, k);
            var n1 := NodeNext(m, n, Work(0, 0));
            var n2 := NodeNext(m, n1, Work(0, m.chunkSize));
            var n3 := NodeNext(m, n2, Work(0, 0));
            && n1 == n.(staging := n1.staging, jobs := [StoreJob(k, Attached, 0, b)])
            && n2 == n.(staging := n2.staging, jobs := [StoreJob(k, Attached, size, b)])
            && n2.staging == Some(WriteAt(Content(n.staging), ChunkStart(m.source, m.chunkSize, k),
                                          Chunk(m.source, m.chunkSize, k)))
            && n3 == n2.(jobs := [RecordJob(b, Unopened, 0, true)])
  {
    hide WriteAt, ChunkCount, SidecarIdle, RecordNext, Decode, Ones, Encode;
    ChunkNotEmpty(m, k);
    ChunkWidth(m, k);
    hide ChunkStart, ChunkEnd;
    var n1 := NodeNext(m, n, Work(0, 0));
    assert n1.jobs == [StoreJob(k, Attached, 0, b)];
    var n2 := NodeNext(m, n1, Work(0, m.chunkSize));
    assert n2.jobs == [n2.jobs[0]];
    var n3 := NodeNext(m, n2, Work(0, 0));
    assert n3.jobs == [n3.jobs[0]];
  }

  lemma {:induction false} ChunkWidth(m: Manifest, k: nat)
    requires ValidManifest(m) && k < ChunkCount(m)
    ensures ChunkEnd(m.source, m.chunkSize, k) <= ChunkStart(m.source, m.chunkSize, k) + m.chunkSize
  {
    hide ChunkCount;
  }

  /** A manifest arrives for a transfer nothing is known about. */
  lemma {:induction false} Accepted(m: Manifest) returns (steps: seq<NodeStep>, t: Node)
    requires ValidManifest(m)
    ensures Leads(m, Fresh(None), steps, t) && Stored(m, t, 0)
  {
    hide NodeInv, Leads, Encode, ChunkCount, Ones, Sidecar, Zeros, First, SidecarIdle;
    var n := Fresh(None);
    FirstNone(m);
    NoOnes(ChunkCount(m));
    LeadsNowhere(m, n);
    PlainOn(m, n, [], n, Begin(true));
    var n1 := NodeNext(m, n, Begin(true));
    assert n1.jobs == [RecordJob(First(m, 0), Unopened, 0, false)];
    Recording(m, n1, 0, false);
    var n2 := NodeNext(m, n1, Work(0, 0));
    var n3 := NodeNext(m, n2, Work(0, SidecarSize(m)));
    PlainOn(m, n, [] + [Begin(true)], n1, Work(0, 0));
    PlainOn(m, n, [] + [Begin(true)] + [Work(0, 0)], n2, Work(0, SidecarSize(m)));
    steps := [] + [Begin(true)] + [Work(0, 0)] + [Work(0, SidecarSize(m))] + [Finish(0, false)];
    PlainOn(m, n, [] + [Begin(true)] + [Work(0, 0)] + [Work(0, SidecarSize(m))], n3, Finish(0, false));
    t := NodeNext(m, n3, Finish(0, false));
    assert t.jobs == [];
    LeadsInv(m, steps, t);
  }

  lemma {:induction false} NoOnes(k: nat)
    ensures Ones(Zeros(k)) == 0
  {
    if k > 0 {
      assert Zeros(k)[..k - 1] == Zeros(k - 1);
      NoOnes(k - 1);
    }
  }

  /** The next chunk arrives, is stored and recorded. */
  lemma {:induction false} NextChunk(m: Manifest, before: seq<NodeStep>, n: Node, k: nat)
    returns (steps: seq<NodeStep>, t: Node)
    requires ValidManifest(m) && Leads(m, Fresh(None), before, n) && Stored(m, n, k) && k < ChunkCount(m)
    ensures Leads(m, Fresh(None), steps, t) && Stored(m, t, k + 1)
  {
    hide NodeInv, Leads, Encode, ChunkCount, Ones, Sidecar, First, SidecarIdle, WriteAt, ChunkStart, ChunkEnd;
    var f := Fresh(None);
    FirstNext(m, k);
    PlainOn(m, f, before, n, Dispatch(k));
    var n1 := NodeNext(m, n, Dispatch(k));
    assert n1.jobs == [StoreJob(k, Unopened, 0, First(m, k + 1))];
    Storing(m, n1, k, First(m, k + 1));
    var n2 := NodeNext(m, n1, Work(0, 0));
    var n3 := NodeNext(m, n2, Work(0, m.chunkSize));
    var n4 := NodeNext(m, n3, Work(0, 0));
    Recording(m, n4, k + 1, true);
    var n5 := NodeNext(m, n4, Work(0, 0));
    var n6 := NodeNext(m, n5, Work(0, SidecarSize(m)));
    var s1 := before + [Dispatch(k)];
    var s2 := s1 + [Work(0, 0)];
    var s3 := s2 + [Work(0, m.chunkSize)];
    var s4 := s3 + [Work(0, 0)];
    var s5 := s4 + [Work(0, 0)];
    var s6 := s5 + [Work(0, SidecarSize(m))];
    PlainOn(m, f, s1, n1, Work(0, 0));
    PlainOn(m, f, s2, n2, Work(0, m.chunkSize));
    PlainOn(m, f, s3, n3, Work(0, 0));
    PlainOn(m, f, s4, n4, Work(0, 0));
    PlainOn(m, f, s5, n5, Work(0, SidecarSize(m)));
    PlainOn(m, f, s6, n6, Finish(0, true));
    steps := s6 + [Finish(0, true)];
    t := NodeNext(m, n6, Finish(0, true));
    assert t.jobs == [];
    LeadsInv(m, steps, t);
  }

  lemma {:induction false} StoreFirst(m: Manifest, k: nat) returns (steps: seq<NodeStep>, t: Node)
    requires ValidManifest(m) && k <= ChunkCount(m)
    ensures Leads(m, Fresh(None), steps, t) && Stored(m, t, k)
  {
    hide Leads, Stored, ChunkCount;
    if k == 0 {
      steps, t := Accepted(m);
    } else {
      steps, t := StoreFirst(m, k - 1);
      steps, t := NextChunk(m, steps, t, k - 1);
    }
  }

  /** With every chunk recorded the staging file is the source. */
  lemma {:induction false} AllStored(m: Manifest, n: Node)
    requires ValidManifest(m) && Stored(m, n, ChunkCount(m))
    ensures n.staging == Some(m.source)
  {
    hide NodeInv, ChunkCount, HoldsClaims, Sidecar, First;
    InvParts(m, n);
    FirstAll(m);
    CompleteIsSource(m, Content(n.staging), n.live.value.bitmap);
  }

  // ---- The ordinary transfer ---------------------------------------------

  /** A commit: the digest is checked and the staging file renamed, while the receive is
      still in memory with every chunk marked. */
  lemma {:induction false} Committing(m: Manifest, n: Node)
    requires ValidManifest(m) && Stored(m, n, ChunkCount(m))
    ensures var n1 := NodeNext(m, n, StartCommit);
            var n2 := NodeNext(m, n1, Work(0, 0));
            var n3 := NodeNext(m, n2, Work(0, 1));
            var live := n.live.value.(verifying := true);
            && n1 == n.(jobs := [CommitJob(0, false)], live := Some(live))
            && n2 == n.(jobs := [CommitJob(0, true)], live := Some(live))
            && n3 == n.(staging := None, final := Some(m.source), jobs := [CleanupJob(true)],
                        live := Some(live.(spent := true)), stale := n3.stale)
  {
    hide NodeInv, ChunkCount, Sidecar, First, SidecarIdle, StoreNext, RecordNext, Decode, Ones, Encode;
    AllStored(m, n);
    var n1 := NodeNext(m, n, StartCommit);
    assert n1.jobs == [CommitJob(0, false)];
    var n2 := NodeNext(m, n1, Work(0, 0));
    assert n2.jobs == [CommitJob(0, true)];
    var n3 := NodeNext(m, n2, Work(0, 1));
    assert n3.jobs == [CleanupJob(true)];
  }

  /** Every transfer can be carried out carefully: the chunks arrive in order, the commit
      happens while the receive is in memory, and in the end the source is committed and
      nothing is left over. */
  lemma {:induction false} OrdinaryTransfer(m: Manifest) returns (steps: seq<NodeStep>)
    requires ValidManifest(m)
    ensures CarefulRun(m, Fresh(None), steps) && NoUndercut(m, Fresh(None), steps)
    ensures NodeRun(m, Fresh(None), steps) == Node(None, None, Some(m.source), None, [], 1, false)
  {
    hide NodeInv, CarefulRun, NoUndercut, NodeRun, Leads, Encode, ChunkCount, Ones, Sidecar, First, SidecarIdle,
      Restored, HoldsClaims;
    var f := Fresh(None);
    var s0, n := StoreFirst(m, ChunkCount(m));
    Committing(m, n);
    var n1 := NodeNext(m, n, StartCommit);
    var n2 := NodeNext(m, n1, Work(0, 0));
    var n3 := NodeNext(m, n2, Work(0, 1));
    var n4 := NodeNext(m, n3, Work(0, 1));
    assert n4.jobs == [];
    PlainOn(m, f, s0, n, StartCommit);
    PlainOn(m, f, s0 + [StartCommit], n1, Work(0, 0));
    LeadsOn(m, f, s0 + [StartCommit] + [Work(0, 0)], n2, Work(0, 1));
    LeadsOn(m, f, s0 + [StartCommit] + [Work(0, 0)] + [Work(0, 1)], n3, Work(0, 1));
    LeadsOn(m, f, s0 + [StartCommit] + [Work(0, 0)] + [Work(0, 1)] + [Work(0, 1)], n4, Retire);
    steps := s0 + [StartCommit] + [Work(0, 0)] + [Work(0, 1)] + [Work(0, 1)] + [Retire];
    LeadsParts(m, f, steps, NodeNext(m, n4, Retire));
  }

  lemma {:induction false} LeadsParts(m: Manifest, n: Node, steps: seq<NodeStep>, t: Node)
    requires ValidManifest(m) && Leads(m, n, steps, t)
    ensures NodeRun(m, n, steps) == t && CarefulRun(m, n, steps) && NoUndercut(m, n, steps)
  {
  }

  // ---- A resume without its chunk ----------------------------------------

  /** One chunk is stored, the receive fails, the process dies between the two removals and
      the transfer is offered again: the new receive claims a chunk that is gone. */
  lemma {:induction false} ResumedWithoutChunk(m: Manifest) returns (steps: seq<NodeStep>)
    requires ValidManifest(m) && SidecarSize(m) <= MAX_STATE_BYTES
    ensures var t := NodeRun(m, Fresh(None), steps);
            t.staging == None && t.live.Some? && !Backed(m, [], t.live.value.bitmap)
  {
    hide NodeInv, Leads, Encode, ChunkCount, Ones, SidecarIdle, Restored, HoldsClaims, NodeRun;
    var f := Fresh(None);
    IndexInBitmap(m, 0);
    var s0, n := StoreFirst(m, 1);
    LeadsParts(m, f, s0, n);
    PlainOn(m, f, s0, n, Fail);
    var n1 := NodeNext(m, n, Fail);
    assert n1.jobs == [CleanupJob(false)];
    LeadsInv(m, s0 + [Fail], n1);
    ReadsBack(m, 1);
    assert First(m, 1)[0] == 1;
    DeathBetween(m, n1, Work(0, 1));
    steps := s0 + [Fail] + [Work(0, 1)] + [Death] + [Begin(true)];
    RunOn(m, f, s0, Fail);
    RunOn(m, f, s0 + [Fail], Work(0, 1));
    RunOn(m, f, s0 + [Fail] + [Work(0, 1)], Death);
    RunOn(m, f, s0 + [Fail] + [Work(0, 1)] + [Death], Begin(true));
  }

  // ---- A commit of the wrong file ----------------------------------------

  /** The staging file as the first chunk alone. */
  lemma {:induction false} FirstChunkAlone(m: Manifest)
    requires ValidManifest(m) && ChunkCount(m) > 1
    ensures var file := WriteAt([], ChunkStart(m.source, m.chunkSize, 0), Chunk(m.source, m.chunkSize, 0));
            file != m.source && !HoldsChunk(file, m.source, m.chunkSize, 1)
  {
    ChunkNotEmpty(m, 1);
    hide ChunkCount;
    var file := WriteAt([], ChunkStart(m.source, m.chunkSize, 0), Chunk(m.source, m.chunkSize, 0));
    assert |file| == m.chunkSize;
  }

  /** The receive fails while its commit is between check and rename; the cleanup takes both
      files, a new receive is accepted and stores its first chunk. */
  lemma {:induction false} Restarted(m: Manifest, n: Node)
    requires ValidManifest(m) && n.jobs == [CommitJob(0, true)] && n.live.Some?
    ensures var n1 := NodeNext(m, n, Fail);
            var n2 := NodeNext(m, n1, Work(1, 1));
            var n3 := NodeNext(m, n2, Work(1, 1));
            var n4 := NodeNext(m, n3, Begin(true));
            && n3 == n.(staging := None, sidecar := None, live := None, stale := false)
            && n4.staging.None? && n4.live.Some? && !n4.live.value.writing
            && n4.live.value.bitmap == Zeros(ChunkCount(m))
            && n4.jobs == [CommitJob(0, true), RecordJob(Zeros(ChunkCount(m)), Unopened, 0, false)]
  {
    hide ChunkCount, SidecarIdle, StoreNext, RecordNext, Ones, Encode, Zeros;
    var n1 := NodeNext(m, n, Fail);
    assert n1.jobs == [CommitJob(0, true), CleanupJob(false)];
    var n2 := NodeNext(m, n1, Work(1, 1));
    assert n2.jobs == [CommitJob(0, true), CleanupJob(true)];
    var n3 := NodeNext(m, n2, Work(1, 1));
    assert n3.jobs == [CommitJob(0, true)];
    var n4 := NodeNext(m, n3, Begin(true));
    assert n4.jobs == [CommitJob(0, true), RecordJob(Zeros(ChunkCount(m)), Unopened, 0, false)];
  }

  lemma {:induction false} RenamedPart(m: Manifest, n: Node)
    requires ValidManifest(m) && n.staging.None? && n.live.Some? && !n.live.value.writing
    requires |n.live.value.bitmap| == ChunkCount(m)
    requires |n.jobs| == 2 && Verified(n.jobs[0]) && n.jobs[1].RecordJob?
    ensures var n1 := NodeNext(m, n, Dispatch(0));
            var n2 := NodeNext(m, n1, Work(2, 0));
            var n3 := NodeNext(m, n2, Work(2, m.chunkSize));
            var n4 := NodeNext(m, n3, Work(0, 1));
            n4.final == Some(WriteAt([], ChunkStart(m.source, m.chunkSize, 0), Chunk(m.source, m.chunkSize, 0)))
  {
    hide ChunkCount, SidecarIdle, RecordNext, Ones, Encode, WriteAt;
    IndexInBitmap(m, 0);
    ChunkNotEmpty(m, 0);
    ChunkWidth(m, 0);
    hide ChunkStart, ChunkEnd;
    var n1 := NodeNext(m, n, Dispatch(0));
    assert n1.jobs[2] == StoreJob(0, Unopened, 0, n.live.value.bitmap[0 := 1]);
    var n2 := NodeNext(m, n1, Work(2, 0));
    var n3 := NodeNext(m, n2, Work(2, m.chunkSize));
    assert n3.jobs[0] == n.jobs[0];
  }

  /** A transfer of two chunks or more: all is stored and checked, but before the rename the
      receive fails, is cleaned up and starts again; the old commit renames the new, partial
      file. */
  lemma {:induction false} VerifyRace(m: Manifest) returns (steps: seq<NodeStep>)
    requires ValidManifest(m) && ChunkCount(m) > 1
    ensures !FinalSound(m, NodeRun(m, Fresh(None), steps))
  {
    hide NodeInv, NodeNext, Leads, ChunkCount, WriteAt, NodeRun, Zeros, ChunkStart, ChunkEnd, Sidecar, First;
    var f := Fresh(None);
    var s0, n := StoreFirst(m, ChunkCount(m));
    LeadsParts(m, f, s0, n);
    Committing(m, n);
    var n2 := NodeNext(m, NodeNext(m, n, StartCommit), Work(0, 0));
    Restarted(m, n2);
    var n6 := NodeNext(m, NodeNext(m, NodeNext(m, NodeNext(m, n2, Fail), Work(1, 1)), Work(1, 1)), Begin(true));
    RenamedPart(m, n6);
    FirstChunkAlone(m);
    var s2 := s0 + [StartCommit] + [Work(0, 0)];
    var s6 := s2 + [Fail] + [Work(1, 1)] + [Work(1, 1)] + [Begin(true)];
    steps := s6 + [Dispatch(0)] + [Work(2, 0)] + [Work(2, m.chunkSize)] + [Work(0, 1)];
    RunOn(m, f, s0, StartCommit);
    RunOn(m, f, s0 + [StartCommit], Work(0, 0));
    FourOn(m, f, s2, Fail, Work(1, 1), Work(1, 1), Begin(true));
    FourOn(m, f, s6, Dispatch(0), Work(2, 0), Work(2, m.chunkSize), Work(0, 1));
  }

  lemma {:induction false} FourOn(m: Manifest, n: Node, steps: seq<NodeStep>, a: NodeStep, b: NodeStep, c: NodeStep,
                                  d: NodeStep)
    requires ValidManifest(m)
    ensures NodeRun(m, n, steps + [a] + [b] + [c] + [d])
         == NodeNext(m, NodeNext(m, NodeNext(m, NodeNext(m, NodeRun(m, n, steps), a), b), c), d)
  {
    hide NodeRun, NodeNext, ValidManifest;
    RunOn(m, n, steps, a);
    RunOn(m, n, steps + [a], b);
    RunOn(m, n, steps + [a] + [b], c);
    RunOn(m, n, steps + [a] + [b] + [c], d);
  }

  // ---- A chunk sent again during the verification ------------------------

  /** A complete transfer is offered again and its verification starts at once. */
  lemma {:induction false} Resumed(m: Manifest, n: Node)
    requires ValidManifest(m) && Stored(m, n, ChunkCount(m)) && SidecarSize(m) <= MAX_STATE_BYTES
    ensures var b := First(m, ChunkCount(m));
            var n1 := NodeNext(m, n, Retire);
            var n2 := NodeNext(m, n1, Begin(true));
            var n3 := NodeNext(m, n2, Drop(0));
            var n4 := NodeNext(m, n3, StartCommit);
            && n4 == n.(live := Some(Receive(1, b, ChunkCount(m), false, true, false)), begun := 2,
                        jobs := [CommitJob(1, false)])
  {
    hide NodeInv, ChunkCount, First, SidecarIdle, StoreNext, RecordNext, Restored, Ones, Encode;
    ReadsBack(m, ChunkCount(m));
    FirstAll(m);
    var n1 := NodeNext(m, n, Retire);
    var n2 := NodeNext(m, n1, Begin(true));
    assert n2.jobs == [RecordJob(First(m, ChunkCount(m)), Unopened, 0, false)];
    var n3 := NodeNext(m, n2, Drop(0));
    assert n3.jobs == [];
    var n4 := NodeNext(m, n3, StartCommit);
    assert n4.jobs == [CommitJob(1, false)];
  }

  /** The first chunk is sent again; then the commit renames and removes. */
  lemma {:induction false} SentAgain(m: Manifest, n: Node, b: seq<byte>)
    requires ValidManifest(m) && n.jobs == [CommitJob(1, false)] && n.staging == Some(m.source)
    requires n.live == Some(Receive(1, b, ChunkCount(m), false, true, false)) && |b| == ChunkCount(m) && b[0 := 1] == b
    ensures var n1 := NodeNext(m, n, Work(0, 0));
            var n2 := NodeNext(m, n1, Dispatch(0));
            var n3 := NodeNext(m, n2, Work(0, 1));
            var n4 := NodeNext(m, n3, Work(0, 1));
            && n4.staging.None? && n4.sidecar.None? && n4.jobs == [StoreJob(0, Unopened, 0, b)]
  {
    hide ChunkCount, SidecarIdle, StoreNext, RecordNext, Ones, Encode;
    IndexInBitmap(m, 0);
    var n1 := NodeNext(m, n, Work(0, 0));
    assert n1.jobs == [CommitJob(1, true)];
    var n2 := NodeNext(m, n1, Dispatch(0));
    assert n2.jobs == [CommitJob(1, true), StoreJob(0, Unopened, 0, b)];
    var n3 := NodeNext(m, n2, Work(0, 1));
    assert n3.jobs == [CleanupJob(true), StoreJob(0, Unopened, 0, b)];
    var n4 := NodeNext(m, n3, Work(0, 1));
    assert n4.jobs == [StoreJob(0, Unopened, 0, b)];
  }

  /** The late chunk starts a new staging file, and a new sidecar that claims every chunk. */
  lemma {:induction false} LeftBehind(m: Manifest, n: Node)
    requires ValidManifest(m) && SidecarSize(m) <= MAX_STATE_BYTES && ChunkCount(m) > 1
    requires n.staging.None? && n.sidecar.None? && n.jobs == [StoreJob(0, Unopened, 0, First(m, ChunkCount(m)))]
    ensures var n1 := NodeNext(m, n, Work(0, 0));
            var n2 := NodeNext(m, n1, Work(0, m.chunkSize));
            var n3 := NodeNext(m, n2, Work(0, 0));
            var n4 := NodeNext(m, n3, Work(0, 0));
            var n5 := NodeNext(m, n4, Work(0, SidecarSize(m)));
            var n6 := NodeNext(m, n5, Retire);
            var n7 := NodeNext(m, n6, Begin(true));
            n7.live.Some? && !Backed(m, Content(n7.staging), n7.live.value.bitmap)
  {
    hide ChunkCount, SidecarIdle, Restored, Ones, Encode, WriteAt, ChunkStart, ChunkEnd, First, WorkNext;
    var all := First(m, ChunkCount(m));
    Storing(m, n, 0, all);
    var n3 := NodeNext(m, NodeNext(m, NodeNext(m, n, Work(0, 0)), Work(0, m.chunkSize)), Work(0, 0));
    Recording(m, n3, ChunkCount(m), true);
    ReadsBack(m, ChunkCount(m));
    FirstAll(m);
    FirstChunkAlone(m);
    assert all[1] == 1;
  }

  /** A transfer of two chunks or more was stored completely, the session was lost, and the
      transfer is offered again. During the verification a chunk is sent again. The commit
      succeeds, but the chunk leaves a new staging file and a sidecar that claims the others
      too; offered once more, the transfer resumes without them. */
  lemma {:induction false} ChunkDuringVerify(m: Manifest) returns (steps: seq<NodeStep>)
    requires ValidManifest(m) && ChunkCount(m) > 1 && SidecarSize(m) <= MAX_STATE_BYTES
    ensures var t := NodeRun(m, Fresh(None), steps);
            t.live.Some? && !Backed(m, Content(t.staging), t.live.value.bitmap)
  {
    hide NodeInv, NodeNext, Leads, ChunkCount, NodeRun, First, HoldsClaims;
    var f := Fresh(None);
    var all := First(m, ChunkCount(m));
    var s0, n := StoreFirst(m, ChunkCount(m));
    LeadsParts(m, f, s0, n);
    AllStored(m, n);
    FirstAll(m);
    Resumed(m, n);
    var n4 := NodeNext(m, NodeNext(m, NodeNext(m, NodeNext(m, n, Retire), Begin(true)), Drop(0)), StartCommit);
    SentAgain(m, n4, all);
    var n8 := NodeNext(m, NodeNext(m, NodeNext(m, NodeNext(m, n4, Work(0, 0)), Dispatch(0)), Work(0, 1)), Work(0, 1));
    LeftBehind(m, n8);
    var s4 := s0 + [Retire] + [Begin(true)] + [Drop(0)] + [StartCommit];
    var s8 := s4 + [Work(0, 0)] + [Dispatch(0)] + [Work(0, 1)] + [Work(0, 1)];
    var s12 := s8 + [Work(0, 0)] + [Work(0, m.chunkSize)] + [Work(0, 0)] + [Work(0, 0)];
    steps := s12 + [Work(0, SidecarSize(m))] + [Retire] + [Begin(true)];
    FourOn(m, f, s0, Retire, Begin(true), Drop(0), StartCommit);
    FourOn(m, f, s4, Work(0, 0), Dispatch(0), Work(0, 1), Work(0, 1));
    FourOn(m, f, s8, Work(0, 0), Work(0, m.chunkSize), Work(0, 0), Work(0, 0));
    RunOn(m, f, s12, Work(0, SidecarSize(m)));
    RunOn(m, f, s12 + [Work(0, SidecarSize(m))], Retire);
    RunOn(m, f, s12 + [Work(0, SidecarSize(m))] + [Retire], Begin(true));
  }
}

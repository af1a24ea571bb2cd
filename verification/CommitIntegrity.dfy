/** When a committed file is the source: a commit checks the digest and renames later, and
    the file may be taken away and started again in between. */
module CommitIntegrity {
  import opened Bytes
  import opened ResumeSidecar
  import opened StagingFile
  import opened ReceiverNode

  /** What was committed is the source. */
  predicate FinalSound(m: Manifest, n: Node) {
    n.final.Some? ==> n.final.value == m.source
  }

  predicate Verified(job: Job) {
    job.CommitJob? && job.verified
  }

  /** A file that passed the digest check is still the source, and so is a committed one
      that a task still writes to. */
  predicate CommitInv(m: Manifest, n: Node) {
    && FinalSound(m, n)
    && (forall i :: 0 <= i < |n.jobs| && Verified(n.jobs[i]) ==> n.staging == Some(m.source))
    && (forall i :: 0 <= i < |n.jobs| && n.jobs[i].StoreJob? && n.jobs[i].file == Moved ==> n.final.Some?)
  }

  /** The staging file is taken away while another commit has checked it and not yet
      renamed it. */
  predicate Undercuts(n: Node, step: NodeStep) {
    && RemovesStaging(n, step)
    && exists k :: 0 <= k < |n.jobs| && Verified(n.jobs[k]) && !(step.Work? && step.job == k)
  }

  predicate NoUndercut(m: Manifest, n: Node, steps: seq<NodeStep>)
    requires ValidManifest(m)
    decreases |steps|
  {
    steps != [] ==> !Undercuts(n, steps[0]) && NoUndercut(m, NodeNext(m, n, steps[0]), steps[1..])
  }

  // ---- Steps -------------------------------------------------------------

  lemma {:induction false} RewriteSame(source: seq<byte>, from: nat, to: nat)
    requires from <= to <= |source|
    ensures WriteAt(source, from, source[from..to]) == source
  {
  }

  lemma {:induction false} WritesKeep(m: Manifest, n: Node, j: nat, lo: nat, to: nat)
    requires CommitInv(m, n) && j < |n.jobs| && n.jobs[j].StoreJob? && lo <= to <= |m.source|
    ensures CommitInv(m, StoreWrites(m, n, j, lo, to))
  {
    hide WriteAt;
    RewriteSame(m.source, lo, to);
  }

  /** A task that goes on, or goes, verifies nothing new. */
  lemma {:induction false} JobsKeep(m: Manifest, n: Node, jobs: seq<Job>)
    requires CommitInv(m, n)
    requires forall job :: job in jobs ==>
               || job in n.jobs
               || ((Verified(job) ==> n.staging == Some(m.source))
                   && (job.StoreJob? && job.file == Moved ==> n.final.Some?))
    ensures CommitInv(m, n.(jobs := jobs))
  {
    forall i | 0 <= i < |jobs|
      ensures Verified(jobs[i]) ==> n.staging == Some(m.source)
      ensures jobs[i].StoreJob? && jobs[i].file == Moved ==> n.final.Some?
    {
      assert jobs[i] in jobs;
      if jobs[i] in n.jobs {
        var k :| 0 <= k < |n.jobs| && n.jobs[k] == jobs[i];
      }
    }
  }

  lemma {:induction false} StoreKeeps(m: Manifest, n: Node, j: nat, put: nat)
    requires CommitInv(m, n) && j < |n.jobs| && n.jobs[j].StoreJob?
    ensures CommitInv(m, StoreNext(m, n, j, put))
  {
    hide CommitInv, ChunkStart, ChunkEnd, StoreWrites;
    var job := n.jobs[j];
    var from := ChunkStart(m.source, m.chunkSize, job.index);
    var end := ChunkEnd(m.source, m.chunkSize, job.index);
    var lo := from + job.staged;
    var to := Min(lo + put, end);
    if job.file == Unopened {
      JobsKeep(m, n, n.jobs[j := StoreJob(job.index, Attached, job.staged, job.bitmap)]);
      OpenKeeps(m, n.(jobs := n.jobs[j := StoreJob(job.index, Attached, job.staged, job.bitmap)]));
    } else if lo >= end {
      JobsKeep(m, n, n.jobs[j := RecordJob(job.bitmap, Unopened, 0, true)]);
    } else if lo < to {
      WritesKeep(m, n, j, lo, to);
      SameJob(m, n, j, lo, to);
      if job.file == Moved {
        MovedHasFinal(m, n, j);
      }
      JobsKeep(m, StoreWrites(m, n, j, lo, to), n.jobs[j := job.(staged := to - from)]);
    }
  }

  lemma {:induction false} OpenKeeps(m: Manifest, n: Node)
    requires CommitInv(m, n)
    ensures CommitInv(m, n.(staging := Some(Content(n.staging))))
  {
  }

  lemma {:induction false} SameJob(m: Manifest, n: Node, j: nat, lo: nat, to: nat)
    requires j < |n.jobs| && n.jobs[j].StoreJob? && lo <= to <= |m.source|
    ensures StoreWrites(m, n, j, lo, to).jobs == n.jobs
    ensures n.final.Some? ==> StoreWrites(m, n, j, lo, to).final.Some?
  {
  }

  lemma {:induction false} MovedHasFinal(m: Manifest, n: Node, j: nat)
    requires CommitInv(m, n) && j < |n.jobs| && n.jobs[j].StoreJob? && n.jobs[j].file == Moved
    ensures n.final.Some?
  {
  }

  /** The staging file may go while no verified commit waits for it. */
  lemma {:induction false} GoneKeeps(m: Manifest, n: Node, renamed: bool)
    requires CommitInv(m, n) && (renamed ==> n.final.Some?)
    requires forall i :: 0 <= i < |n.jobs| ==> !Verified(n.jobs[i])
    ensures CommitInv(m, StagingGone(n, renamed))
  {
    hide SidecarIdle;
    var t := StagingGone(n, renamed);
    forall i | 0 <= i < |t.jobs|
      ensures !Verified(t.jobs[i]) && (t.jobs[i].StoreJob? && t.jobs[i].file == Moved ==> t.final.Some?)
    {
      assert t.jobs[i] == OffStaging(n.jobs[i], renamed);
    }
  }

  lemma {:induction false} RemovalKeeps(m: Manifest, n: Node, step: NodeStep)
    requires ValidManifest(m) && CommitInv(m, n) && RemovesStaging(n, step) && !Undercuts(n, step)
    ensures CommitInv(m, NodeNext(m, n, step))
  {
    hide StagingGone, ValidManifest;
    var n1 := Yields(n, step);
    assert forall i :: 0 <= i < |n1.jobs| ==> !Verified(n1.jobs[i]);
    if step.Work? && n.jobs[step.job].CommitJob? {
      assert Verified(n.jobs[step.job]);
      GoneKeeps(m, n1.(final := n.staging), true);
    } else {
      GoneKeeps(m, n1, false);
    }
  }

  lemma {:induction false} RecordKeeps(m: Manifest, n: Node, j: nat, put: nat)
    requires ValidManifest(m) && CommitInv(m, n) && j < |n.jobs| && n.jobs[j].RecordJob?
    ensures CommitInv(m, RecordNext(m, n, j, put))
  {
    hide Encode, WriteAt, Resized, ValidManifest;
  }

  lemma {:induction false} WorkKeeps(m: Manifest, n: Node, j: nat, put: nat)
    requires ValidManifest(m) && CommitInv(m, n) && j < |n.jobs| && !RemovesStaging(n, Work(j, put))
    ensures CommitInv(m, WorkNext(m, n, j, put))
  {
    hide CommitInv, StoreNext, RecordNext, StagingGone, ValidManifest;
    JobsKeep(m, n, Without(n.jobs, j));
    match n.jobs[j]
    case StoreJob(_, _, _, _) => StoreKeeps(m, n, j, put);
    case RecordJob(_, _, _, _) => RecordKeeps(m, n, j, put);
    case CleanupJob(false) => JobsKeep(m, n, n.jobs[j := CleanupJob(true)]);
    case CleanupJob(true) => SidecarKeeps(m, n.(jobs := Without(n.jobs, j)));
    case CommitJob(owner, false) =>
      if n.staging == Some(m.source) {
        JobsKeep(m, n, n.jobs[j := CommitJob(owner, true)]);
      }
    case CommitJob(_, true) =>
  }

  lemma {:induction false} SidecarKeeps(m: Manifest, n: Node)
    requires CommitInv(m, n)
    ensures CommitInv(m, SidecarGone(n))
  {
    var t := SidecarGone(n);
    forall i | 0 <= i < |t.jobs|
      ensures Verified(t.jobs[i]) ==> t.staging == Some(m.source)
      ensures t.jobs[i].StoreJob? && t.jobs[i].file == Moved ==> t.final.Some?
    {
      assert t.jobs[i] == OffSidecar(n.jobs[i]);
    }
  }

  lemma {:induction false} StepKeeps(m: Manifest, n: Node, step: NodeStep)
    requires ValidManifest(m) && CommitInv(m, n) && !Undercuts(n, step)
    ensures CommitInv(m, NodeNext(m, n, step))
  {
    if RemovesStaging(n, step) {
      hide NodeNext, ValidManifest, CommitInv;
      RemovalKeeps(m, n, step);
    } else {
      hide CommitInv, WorkNext, SidecarGone, ValidManifest, Restored, Encode, ChunkCount, Ones;
      match step
      case Work(j, put) =>
        if j < |n.jobs| {
          WorkKeeps(m, n, j, put);
        }
      case SweepSidecar => SidecarKeeps(m, n);
      case _ => CallKeeps(m, n, step);
    }
  }

  lemma {:induction false} CallKeeps(m: Manifest, n: Node, step: NodeStep)
    requires ValidManifest(m) && CommitInv(m, n) && !step.Work? && !step.SweepStaging? && !step.SweepSidecar?
    ensures CommitInv(m, NodeNext(m, n, step))
  {
    hide CommitInv, ValidManifest, Restored, Encode, ChunkCount, Ones, WorkNext, SidecarGone, StagingGone;
    var t := NodeNext(m, n, step);
    assert forall job :: job in t.jobs ==>
             job in n.jobs || (!Verified(job) && (job.StoreJob? ==> job.file == Unopened));
    JobsKeep(m, n, t.jobs);
    LiveAside(m, n.(jobs := t.jobs), t);
  }

  lemma {:induction false} LiveAside(m: Manifest, n: Node, t: Node)
    requires CommitInv(m, n) && t.staging == n.staging && t.final == n.final && t.jobs == n.jobs
    ensures CommitInv(m, t)
  {
  }

  lemma {:induction false} RunKeeps(m: Manifest, n: Node, steps: seq<NodeStep>)
    requires ValidManifest(m) && CommitInv(m, n) && NoUndercut(m, n, steps)
    ensures CommitInv(m, NodeRun(m, n, steps))
    decreases |steps|
  {
    hide CommitInv, NodeNext, Undercuts, ValidManifest;
    if steps != [] {
      StepKeeps(m, n, steps[0]);
      RunKeeps(m, NodeNext(m, n, steps[0]), steps[1..]);
    }
  }

  // ---- Exactly then ------------------------------------------------------

  /** Whatever happens from here on, without another undercut, only the source is committed. */
  ghost predicate Trusted(m: Manifest, n: Node)
    requires ValidManifest(m)
  {
    forall rest :: NoUndercut(m, n, rest) ==> FinalSound(m, NodeRun(m, n, rest))
  }

  lemma {:induction false} InvTrusted(m: Manifest, n: Node)
    requires ValidManifest(m) && CommitInv(m, n)
    ensures Trusted(m, n)
  {
    hide NodeRun, NoUndercut, ValidManifest;
    forall rest | NoUndercut(m, n, rest) ensures FinalSound(m, NodeRun(m, n, rest)) {
      RunKeeps(m, n, rest);
    }
  }

  /** End every task but one. */
  lemma {:induction false} DropOthers(m: Manifest, n: Node, k: nat) returns (steps: seq<NodeStep>)
    requires ValidManifest(m) && k < |n.jobs|
    ensures NodeRun(m, n, steps) == n.(jobs := [n.jobs[k]]) && NoUndercut(m, n, steps)
    decreases |n.jobs|
  {
    if |n.jobs| == 1 {
      steps := [];
      assert n.jobs == [n.jobs[k]];
    } else {
      var gone := if k < |n.jobs| - 1 then |n.jobs| - 1 else 0;
      var n1 := NodeNext(m, n, Drop(gone));
      var rest := DropOthers(m, n1, if gone == 0 then k - 1 else k);
      steps := [Drop(gone)] + rest;
      assert steps[1..] == rest;
    }
  }

  /** A new receive recreates the staging file, and the waiting commit renames it. */
  lemma {:induction false} WrongFile(m: Manifest, n: Node) returns (steps: seq<NodeStep>)
    requires ValidManifest(m) && |n.jobs| == 1 && Verified(n.jobs[0]) && n.staging.None?
    ensures NoUndercut(m, n, steps) && !FinalSound(m, NodeRun(m, n, steps))
  {
    hide NodeNext, Undercuts;
    WrongStates(m, n);
    steps := [Retire, Begin(false), Dispatch(0), Work(2, 0), Work(0, 1)];
    FiveSteps(m, n, Retire, Begin(false), Dispatch(0), Work(2, 0), Work(0, 1));
  }

  lemma {:induction false} WrongStates(m: Manifest, n: Node)
    requires ValidManifest(m) && |n.jobs| == 1 && Verified(n.jobs[0]) && n.staging.None?
    ensures var n1 := NodeNext(m, n, Retire);
            var n2 := NodeNext(m, n1, Begin(false));
            var n3 := NodeNext(m, n2, Dispatch(0));
            var n4 := NodeNext(m, n3, Work(2, 0));
            && !Undercuts(n, Retire) && !Undercuts(n1, Begin(false)) && !Undercuts(n2, Dispatch(0))
            && !Undercuts(n3, Work(2, 0)) && !Undercuts(n4, Work(0, 1))
            && NodeNext(m, n4, Work(0, 1)).final == Some([])
  {
    hide ChunkCount, Ones, Zeros, Encode, SidecarIdle, ChunkStart, ChunkEnd;
    IndexInBitmap(m, 0);
    var n1 := NodeNext(m, n, Retire);
    var n2 := NodeNext(m, n1, Begin(false));
    var n3 := NodeNext(m, n2, Dispatch(0));
    var n4 := NodeNext(m, n3, Work(2, 0));
    var n5 := NodeNext(m, n4, Work(0, 1));
    assert |n2.jobs| == 2 && |n3.jobs| == 3 && n3.jobs[0] == n.jobs[0];
    assert n4.staging == Some([]) && n4.jobs[0] == n.jobs[0] && n4.jobs[1].RecordJob? && n4.jobs[2].StoreJob?;
    assert n5.final == Some([]);
  }

  lemma {:induction false} FiveSteps(m: Manifest, n: Node, a: NodeStep, b: NodeStep, c: NodeStep, d: NodeStep,
                                     e: NodeStep)
    requires ValidManifest(m)
    ensures var n1 := NodeNext(m, n, a);
            var n2 := NodeNext(m, n1, b);
            var n3 := NodeNext(m, n2, c);
            var n4 := NodeNext(m, n3, d);
            && NodeRun(m, n, [a, b, c, d, e]) == NodeNext(m, n4, e)
            && (NoUndercut(m, n, [a, b, c, d, e]) <==>
                  !Undercuts(n, a) && !Undercuts(n1, b) && !Undercuts(n2, c) && !Undercuts(n3, d) && !Undercuts(n4, e))
  {
    hide NodeNext, Undercuts, ValidManifest;
    assert [a, b, c, d, e][1..] == [b, c, d, e] && [b, c, d, e][1..] == [c, d, e] && [c, d, e][1..] == [d, e];
    assert [d, e][1..] == [e] && [e][1..] == [];
    var n1 := NodeNext(m, n, a);
    var n2 := NodeNext(m, n1, b);
    var n3 := NodeNext(m, n2, c);
    var n4 := NodeNext(m, n3, d);
    assert NodeRun(m, n4, [e]) == NodeRun(m, NodeNext(m, n4, e), []);
    assert NodeRun(m, n3, [d, e]) == NodeRun(m, n4, [e]);
    assert NodeRun(m, n2, [c, d, e]) == NodeRun(m, n3, [d, e]);
    assert NodeRun(m, n1, [b, c, d, e]) == NodeRun(m, n2, [c, d, e]);
    assert NoUndercut(m, n4, [e]) <==> !Undercuts(n4, e) && NoUndercut(m, NodeNext(m, n4, e), []);
    assert NoUndercut(m, n3, [d, e]) <==> !Undercuts(n3, d) && NoUndercut(m, n4, [e]);
    assert NoUndercut(m, n2, [c, d, e]) <==> !Undercuts(n2, c) && NoUndercut(m, n3, [d, e]);
    assert NoUndercut(m, n1, [b, c, d, e]) <==> !Undercuts(n1, b) && NoUndercut(m, n2, [c, d, e]);
  }

  lemma {:induction false} NoUndercutAppend(m: Manifest, n: Node, a: seq<NodeStep>, b: seq<NodeStep>)
    requires ValidManifest(m)
    ensures NoUndercut(m, n, a + b) <==> NoUndercut(m, n, a) && NoUndercut(m, NodeRun(m, n, a), b)
    decreases |a|
  {
    hide NodeNext, Undercuts, ValidManifest;
    if a == [] {
      assert a + b == b;
    } else {
      assert (a + b)[1..] == a[1..] + b;
      NoUndercutAppend(m, NodeNext(m, n, a[0]), a[1..], b);
    }
  }

  /** After an undercut some continuation commits a file that is not the source. */
  lemma {:induction false} UndercutHarms(m: Manifest, n: Node, step: NodeStep)
    requires ValidManifest(m) && Undercuts(n, step)
    ensures !Trusted(m, NodeNext(m, n, step))
  {
    hide NodeRun, NoUndercut, FinalSound, ValidManifest;
    var t := NodeNext(m, n, step);
    var k: nat :| k < |n.jobs| && Verified(n.jobs[k]) && !(step.Work? && step.job == k);
    assert |t.jobs| == |n.jobs| && t.jobs[k] == n.jobs[k] && t.staging.None?;
    var drops := DropOthers(m, t, k);
    var rest := WrongFile(m, t.(jobs := [t.jobs[k]]));
    NodeRunAppend(m, t, drops, rest);
    NoUndercutAppend(m, t, drops, rest);
  }

  /** At every point of the run, whatever comes next. */
  ghost predicate TrustedRun(m: Manifest, n: Node, steps: seq<NodeStep>)
    requires ValidManifest(m)
    decreases |steps|
  {
    Trusted(m, n) && (steps != [] ==> TrustedRun(m, NodeNext(m, n, steps[0]), steps[1..]))
  }

  lemma {:induction false} TrustedExact(m: Manifest, n: Node, steps: seq<NodeStep>)
    requires ValidManifest(m) && CommitInv(m, n)
    ensures TrustedRun(m, n, steps) <==> NoUndercut(m, n, steps)
    decreases |steps|
  {
    hide CommitInv, NodeNext, Undercuts, ValidManifest, Trusted;
    InvTrusted(m, n);
    if steps != [] {
      var t := NodeNext(m, n, steps[0]);
      if Undercuts(n, steps[0]) {
        UndercutHarms(m, n, steps[0]);
        assert !TrustedRun(m, t, steps[1..]);
      } else {
        StepKeeps(m, n, steps[0]);
        TrustedExact(m, t, steps[1..]);
      }
    }
  }

  /** In every run, with any number of deaths, restarts and tasks under way: what is
      committed is the source, now and in every continuation without another undercut,
      exactly when no other task took the staging file between the digest check of a commit
      and its rename. */
  lemma {:induction false} CommitsAreSource(m: Manifest, staging: Option<seq<byte>>, steps: seq<NodeStep>)
    requires ValidManifest(m)
    ensures TrustedRun(m, Fresh(staging), steps) <==> NoUndercut(m, Fresh(staging), steps)
    ensures NoUndercut(m, Fresh(staging), steps) ==> FinalSound(m, NodeRun(m, Fresh(staging), steps))
  {
    hide TrustedRun, NoUndercut, NodeRun, ValidManifest;
    TrustedExact(m, Fresh(staging), steps);
    if NoUndercut(m, Fresh(staging), steps) {
      RunKeeps(m, Fresh(staging), steps);
    }
  }
}

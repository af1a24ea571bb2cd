/** The blocking tasks of a receiver: one chunk at a time for each receive, and a save that
    replaces whatever the sidecar held. */
module NodeTasks {
  import opened Bytes
  import opened ResumeSidecar
  import opened StagingFile
  import opened ReceiverNode

  /** A task that stores a chunk or records it for the receive that waits for it. */
  predicate ChunkTask(job: Job) {
    job.StoreJob? || (job.RecordJob? && job.reports)
  }

  function ChunkTasks(jobs: seq<Job>): nat {
    if jobs == [] then 0
    else ChunkTasks(jobs[..|jobs| - 1]) + if ChunkTask(jobs[|jobs| - 1]) then 1 else 0
  }

  /** Every receive so far has at most one chunk under way; one in memory that waits for none
      may start one more. */
  predicate OneEach(n: Node) {
    ChunkTasks(n.jobs) + (if n.live.Some? && !n.live.value.writing then 1 else 0) <= n.begun
  }

  lemma {:induction false} TasksSnoc(jobs: seq<Job>, job: Job)
    ensures ChunkTasks(jobs + [job]) == ChunkTasks(jobs) + if ChunkTask(job) then 1 else 0
  {
    assert (jobs + [job])[..|jobs|] == jobs;
  }

  lemma {:induction false} TasksAppend(a: seq<Job>, b: seq<Job>)
    ensures ChunkTasks(a + b) == ChunkTasks(a) + ChunkTasks(b)
    decreases |b|
  {
    if b == [] {
      assert a + b == a;
    } else {
      var k := |b| - 1;
      assert a + b == (a + b[..k]) + [b[k]];
      TasksAppend(a, b[..k]);
      TasksSnoc(a + b[..k], b[k]);
    }
  }

  lemma {:induction false} TasksAt(jobs: seq<Job>, j: nat)
    requires j < |jobs|
    ensures ChunkTasks(jobs) == ChunkTasks(Without(jobs, j)) + if ChunkTask(jobs[j]) then 1 else 0
  {
    hide ChunkTasks, ChunkTask;
    assert jobs == jobs[..j] + [jobs[j]] + jobs[j + 1..];
    TasksAppend(jobs[..j] + [jobs[j]], jobs[j + 1..]);
    TasksSnoc(jobs[..j], jobs[j]);
    TasksAppend(jobs[..j], jobs[j + 1..]);
  }

  /** A task replaced by one of the same kind. */
  lemma {:induction false} TasksReplaced(jobs: seq<Job>, j: nat, job: Job)
    requires j < |jobs| && (ChunkTask(job) ==> ChunkTask(jobs[j]))
    ensures ChunkTasks(jobs[j := job]) <= ChunkTasks(jobs)
  {
    hide ChunkTasks, ChunkTask;
    TasksAt(jobs, j);
    TasksAt(jobs[j := job], j);
    assert Without(jobs[j := job], j) == Without(jobs, j);
  }

  lemma {:induction false} SameTasks(a: seq<Job>, b: seq<Job>)
    requires |a| == |b| && forall i :: 0 <= i < |a| ==> (ChunkTask(a[i]) <==> ChunkTask(b[i]))
    ensures ChunkTasks(a) == ChunkTasks(b)
    decreases |a|
  {
    hide ChunkTask;
    if a != [] {
      SameTasks(a[..|a| - 1], b[..|b| - 1]);
    }
  }

  lemma {:induction false} GoneTasks(n: Node, renamed: bool)
    ensures ChunkTasks(StagingGone(n, renamed).jobs) == ChunkTasks(n.jobs)
    ensures ChunkTasks(SidecarGone(n).jobs) == ChunkTasks(n.jobs)
  {
    hide ChunkTasks;
    SameTasks(StagingGone(n, renamed).jobs, n.jobs);
    SameTasks(SidecarGone(n).jobs, n.jobs);
  }

  lemma {:induction false} WorkTasks(m: Manifest, n: Node, j: nat, put: nat)
    requires ValidManifest(m) && j < |n.jobs|
    ensures var t := WorkNext(m, n, j, put);
            && ChunkTasks(t.jobs) <= ChunkTasks(n.jobs) && t.begun == n.begun
            && (t.live.Some? <==> n.live.Some?)
            && (n.live.Some? ==> t.live.value.writing == n.live.value.writing)
  {
    hide ChunkTasks, ValidManifest, Encode, ChunkStart, ChunkEnd, WriteAt, Resized, StagingGone, SidecarGone,
      SidecarIdle;
    TasksAt(n.jobs, j);
    match n.jobs[j]
    case StoreJob(index, file, staged, bitmap) => StoreTasks(m, n, j, put);
    case RecordJob(_, _, _, _) => RecordTasks(m, n, j, put);
    case CleanupJob(false) =>
      YieldTasks(n, j, put);
      GoneTasks(Yields(n, Work(j, put)), false);
      GoneLive(Yields(n, Work(j, put)), false);
    case CleanupJob(true) =>
      GoneTasks(n.(jobs := Without(n.jobs, j)), false);
      GoneLive(n.(jobs := Without(n.jobs, j)), false);
    case CommitJob(owner, false) => TasksReplaced(n.jobs, j, CommitJob(owner, true));
    case CommitJob(_, true) =>
      YieldTasks(n, j, put);
      GoneTasks(Yields(n, Work(j, put)).(final := n.staging), true);
      GoneLive(Yields(n, Work(j, put)).(final := n.staging), true);
  }

  lemma {:induction false} GoneLive(n: Node, renamed: bool)
    ensures StagingGone(n, renamed).live == n.live && StagingGone(n, renamed).begun == n.begun
    ensures SidecarGone(n).live == n.live && SidecarGone(n).begun == n.begun
  {
    hide SidecarIdle, OffStaging, OffSidecar;
  }

  lemma {:induction false} YieldTasks(n: Node, j: nat, put: nat)
    requires j < |n.jobs|
    ensures var t := Yields(n, Work(j, put));
            && ChunkTasks(t.jobs) <= ChunkTasks(n.jobs) && t.begun == n.begun
            && (t.live.Some? <==> n.live.Some?)
            && (n.live.Some? ==> t.live.value.writing == n.live.value.writing)
  {
    hide ChunkTasks;
    TasksReplaced(n.jobs, j, CleanupJob(true));
  }

  lemma {:induction false} StoreTasks(m: Manifest, n: Node, j: nat, put: nat)
    requires j < |n.jobs| && n.jobs[j].StoreJob?
    ensures var t := StoreNext(m, n, j, put);
            ChunkTasks(t.jobs) <= ChunkTasks(n.jobs) && t.begun == n.begun && t.live == n.live
  {
    hide ChunkTasks, WriteAt, Content;
    var t := StoreNext(m, n, j, put);
    assert t.jobs == n.jobs || t.jobs == n.jobs[j := t.jobs[j]];
    if t.jobs != n.jobs {
      TasksReplaced(n.jobs, j, t.jobs[j]);
    }
  }

  lemma {:induction false} RecordTasks(m: Manifest, n: Node, j: nat, put: nat)
    requires ValidManifest(m) && j < |n.jobs| && n.jobs[j].RecordJob?
    ensures var t := RecordNext(m, n, j, put);
            ChunkTasks(t.jobs) <= ChunkTasks(n.jobs) && t.begun == n.begun && t.live == n.live
  {
    hide ChunkTasks, WriteAt, Content, Resized;
    var t := RecordNext(m, n, j, put);
    assert t.jobs == n.jobs || t.jobs == n.jobs[j := t.jobs[j]];
    if t.jobs != n.jobs {
      TasksReplaced(n.jobs, j, t.jobs[j]);
    }
  }

  lemma {:induction false} StepTasks(m: Manifest, n: Node, step: NodeStep)
    requires ValidManifest(m) && OneEach(n)
    ensures OneEach(NodeNext(m, n, step))
  {
    hide ChunkTasks, Restored, ChunkCount, Ones, WorkNext, StagingGone, SidecarGone, Recorded;
    match step
    case Begin(readable) =>
      var restored := Restored(m, n.sidecar, readable);
      if restored.Some? {
        TasksSnoc(n.jobs, RecordJob(restored.value, Unopened, 0, false));
      }
    case Dispatch(index) =>
      if Dispatches(n, step) {
        TasksSnoc(n.jobs, StoreJob(index, Unopened, 0, n.live.value.bitmap[index := 1]));
      }
    case StartCommit =>
      if n.live.Some? {
        TasksSnoc(n.jobs, CommitJob(n.live.value.id, false));
      }
    case Work(j, put) =>
      if j < |n.jobs| {
        WorkTasks(m, n, j, put);
      }
    case Finish(j, heard) => FinishTasks(m, n, j, heard);
    case Drop(j) =>
      if j < |n.jobs| {
        TasksAt(n.jobs, j);
      }
    case Fail => TasksSnoc(n.jobs, CleanupJob(false));
    case Retire =>
    case SweepStaging =>
      GoneTasks(n, false);
      GoneLive(n, false);
    case SweepSidecar =>
      GoneTasks(n, false);
      GoneLive(n, false);
    case Death => NoTasks();
  }

  lemma {:induction false} NoTasks()
    ensures ChunkTasks([]) == 0
  {
  }

  lemma {:induction false} FinishTasks(m: Manifest, n: Node, j: nat, heard: bool)
    requires ValidManifest(m) && OneEach(n)
    ensures OneEach(NodeNext(m, n, Finish(j, heard)))
  {
    hide ChunkTasks, ChunkCount;
    if Recorded(m, n, j) {
      TasksAt(n.jobs, j);
    }
  }

  /** In every run, with deaths, restarts and tasks left over from earlier receives, there are
      never more chunks under way than receives were begun. */
  lemma {:induction false} OneChunkEach(m: Manifest, staging: Option<seq<byte>>, steps: seq<NodeStep>)
    requires ValidManifest(m)
    ensures OneEach(NodeRun(m, Fresh(staging), steps))
  {
    hide OneEach, NodeRun, ValidManifest;
    FreshTasks(staging);
    RunTasks(m, Fresh(staging), steps);
  }

  lemma {:induction false} RunTasks(m: Manifest, n: Node, steps: seq<NodeStep>)
    requires ValidManifest(m) && OneEach(n)
    ensures OneEach(NodeRun(m, n, steps))
    decreases |steps|
  {
    hide OneEach, NodeNext, ValidManifest;
    if steps != [] {
      StepTasks(m, n, steps[0]);
      RunTasks(m, NodeNext(m, n, steps[0]), steps[1..]);
    }
  }

  lemma {:induction false} FreshTasks(staging: Option<seq<byte>>)
    ensures OneEach(Fresh(staging))
  {
  }

  // ---- Saving ------------------------------------------------------------

  /** Opened, written and cut, a save leaves exactly the encoding, whatever the sidecar held. */
  lemma {:induction false} SaveReplaces(m: Manifest, n: Node, j: nat, put: nat)
    requires ValidManifest(m) && j < |n.jobs| && n.jobs[j].RecordJob?
    requires n.jobs[j].file == Unopened && n.jobs[j].written == 0
    requires put >= |Encode(StateFor(m, n.jobs[j].bitmap))|
    ensures var t := WorkNext(m, WorkNext(m, WorkNext(m, n, j, put), j, put), j, put);
            t.sidecar == Some(Encode(StateFor(m, n.jobs[j].bitmap)))
  {
    hide ChunkCount, Encode, WriteAt, Resized;
    var bitmap, reports := n.jobs[j].bitmap, n.jobs[j].reports;
    var all := Encode(StateFor(m, bitmap));
    var prior := Content(n.sidecar);
    var n1 := WorkNext(m, n, j, put);
    assert n1.sidecar == Some(prior) && n1.jobs[j] == RecordJob(bitmap, Attached, 0, reports);
    var n2 := WorkNext(m, n1, j, put);
    assert all[0..|all|] == all;
    assert n2.sidecar == Some(WriteAt(prior, 0, all)) && n2.jobs[j] == RecordJob(bitmap, Attached, |all|, reports);
    var r := Resized(WriteAt(prior, 0, all), |all|);
    assert WorkNext(m, n2, j, put).sidecar == Some(r);
    assert r == all;
  }
}

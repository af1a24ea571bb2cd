/** What the peer reads is what the caller submitted, over a network that drops, duplicates and
    reorders. */
module PeerReads {
  import opened Bytes
  import opened StreamModel
  import opened StreamHistory
  import opened ReceiveWindow
  import opened SendSide
  import opened Completions
  import opened StreamRuns
  import opened Submissions
  import opened ReadBoundaries
  import opened StreamLedger
  import opened SubmissionOrder
  import opened LossyNetwork

  // ---- Each end of a pair is a run ---------------------------------------

  /** One end of a pair, and the other one. */
  function Here(w: Pair, first: bool): Stream {
    if first then w.a else w.b
  }

  /** The calls made at one end. */
  function CallsAt(steps: seq<PairStep>, first: bool): seq<Action> {
    if steps == [] then []
    else
      var step := steps[0];
      (if first && step.AtA? && IsCall(step.action) then [step.action]
       else if !first && step.AtB? && IsCall(step.action) then [step.action]
       else []) + CallsAt(steps[1..], first)
  }

  lemma {:induction false} StepAtEnd(w: Pair, step: PairStep, first: bool) returns (actions: seq<Action>)
    ensures Here(PairNext(w, step), first) == Run(Here(w, first), actions)
    ensures Calls(actions) == CallsAt([step], first)
  {
    hide Step, Deliver;
    actions := match step
      case AtA(action) => if first && !action.Receive? then [action] else []
      case AtB(action) => if !first && !action.Receive? then [action] else []
      case ToB(i) => if !first && i < |w.a.io.sent| then [Receive(w.a.io.sent[i])] else []
      case ToA(i) => if first && i < |w.b.io.sent| then [Receive(w.b.io.sent[i])] else [];
    if actions != [] {
      OneStep(Here(w, first), actions[0]);
      assert actions == [actions[0]] && Calls(actions[1..]) == [];
    }
    assert CallsAt([step][1..], first) == [];
  }

  lemma {:induction false} OneStep(s: Stream, a: Action)
    ensures Run(s, [a]) == Step(s, a)
    ensures a.Receive? ==> Step(s, a) == Deliver(s, a.frame)
  {
    hide Deliver, AsyncRead, AsyncWrite, ShutdownWrite, CheckDeadlines, FailAll;
    assert [a][1..] == [];
  }

  lemma {:induction false} RunAppend(s: Stream, x: seq<Action>, y: seq<Action>)
    ensures Run(s, x + y) == Run(Run(s, x), y)
    ensures Calls(x + y) == Calls(x) + Calls(y)
    decreases |x|
  {
    hide Step;
    if x == [] {
      assert x + y == y;
    } else {
      assert (x + y)[1..] == x[1..] + y;
      RunAppend(Step(s, x[0]), x[1..], y);
    }
  }

  lemma {:induction false} EndIsRun(w: Pair, steps: seq<PairStep>, first: bool) returns (actions: seq<Action>)
    ensures Here(PairRun(w, steps), first) == Run(Here(w, first), actions)
    ensures Calls(actions) == CallsAt(steps, first)
    decreases |steps|
  {
    hide PairNext, Run, Calls;
    if steps == [] {
      actions := [];
      EmptyRun(Here(w, first));
    } else {
      var x := StepAtEnd(w, steps[0], first);
      var y := EndIsRun(PairNext(w, steps[0]), steps[1..], first);
      actions := x + y;
      RunAppend(Here(w, first), x, y);
      assert [steps[0]][1..] == [];
    }
  }

  lemma {:induction false} EmptyRun(s: Stream)
    ensures Run(s, []) == s && Calls([]) == []
  {
  }

  // ---- Whole writes ------------------------------------------------------

  /** No write failed after part of it was sent. */
  predicate Unbroken(done: seq<Completion>) {
    forall i :: 0 <= i < |done| && done[i].WriteDone? && done[i].error.Some? ==> done[i].bytes == []
  }

  predicate Failed(done: seq<Completion>, id: nat) {
    exists i :: 0 <= i < |done| && done[i].WriteDone? && done[i].id == id && done[i].error.Some?
  }

  /** The data of the writes among the first `n` calls that did not fail, in order. */
  function Intended(done: seq<Completion>, calls: seq<Action>, n: nat): seq<byte>
    requires n <= |calls|
  {
    if n == 0 then []
    else Intended(done, calls, n - 1) + if Failed(done, n - 1) then [] else DataOf(calls[n - 1])
  }

  /** The first write that still waits, or past all calls. */
  function FirstWaiting(s: Stream): nat {
    if s.writeQ == [] then s.io.nextOp else s.writeQ[0].id
  }

  lemma {:induction false} DoneAt(done: seq<Completion>, id: nat) returns (i: nat)
    requires DoneIds(done)[id] > 0
    ensures i < |done| && !done[i].ConnectDone? && done[i].id == id
  {
    var n := |done| - 1;
    if IdOf(done[n])[id] > 0 {
      i := n;
    } else {
      i := DoneAt(done[..n], id);
    }
  }

  /** A completed operation is in the bag. */
  lemma {:induction false} InBag(done: seq<Completion>, i: nat)
    requires i < |done| && !done[i].ConnectDone?
    ensures DoneIds(done)[done[i].id] > 0
    decreases |done|
  {
    var n := |done| - 1;
    if i < n {
      InBag(done[..n], i);
    }
  }

  lemma {:induction false} OrderAt(q: seq<PendingWrite>, id: nat) returns (i: nat)
    requires WriteIds(q)[id] > 0
    ensures i < |q| && q[i].id == id && i < |WriteOrder(q)| && WriteOrder(q)[i] == id
  {
    if q[0].id == id {
      i := 0;
    } else {
      var k := OrderAt(q[1..], id);
      i := k + 1;
    }
  }

  lemma {:induction false} ReadAt(q: seq<PendingRead>, id: nat) returns (i: nat)
    requires ReadIds(q)[id] > 0
    ensures i < |q| && q[i].id == id
  {
    if q[0].id == id {
      i := 0;
    } else {
      var k := ReadAt(q[1..], id);
      i := k + 1;
    }
  }

  /** Calls before the first waiting write moved everything, or failed with nothing. */
  lemma {:induction false} SettledCall(s: Stream, calls: seq<Action>, id: nat)
    requires Good(s) && Books(s, calls) && InTurn(s) && Unbroken(s.io.done) && id < |calls| && id < FirstWaiting(s)
    ensures MovedBy(Pieces(s), id) == if Failed(s.io.done, id) then [] else DataOf(calls[id])
  {
    hide Good, MovedBy, Pieces, DoneIds, ReadIds, WriteIds, WriteOrder, WritesTold, ReadsServed, ReadOrder;
    OnceEach(s, id);
    MovedIsReported(s, calls, id);
    if WriteIds(s.writeQ)[id] > 0 {
      var i := OrderAt(s.writeQ, id);
      QueueRises(s, i);
    }
    if ReadIds(s.readQ)[id] > 0 {
      var i := ReadAt(s.readQ, id);
      assert ReadOf(s.readQ[i], calls);
      NotFailed(s.io.done, calls, id);
    } else {
      var i := DoneAt(s.io.done, id);
      assert Answers(s.io.done[i], calls);
      if s.io.done[i].ReadDone? {
        NotFailed(s.io.done, calls, id);
      } else if Failed(s.io.done, id) {
        var k :| 0 <= k < |s.io.done| && s.io.done[k].WriteDone? && s.io.done[k].id == id && s.io.done[k].error.Some?;
        assert MovedBy(Pieces(s), id) == s.io.done[k].bytes;
      }
    }
  }

  lemma {:induction false} NotFailed(done: seq<Completion>, calls: seq<Action>, id: nat)
    requires AllAnswer(done, calls) && id < |calls| && calls[id].ReadCall?
    ensures !Failed(done, id)
  {
  }

  /** The queue rises, from its front and above everything that moved. */
  lemma {:induction false} QueueRises(s: Stream, i: nat)
    requires InTurn(s) && i < |s.writeQ| && i < |WriteOrder(s.writeQ)| && WriteOrder(s.writeQ)[i] == s.writeQ[i].id
    ensures s.writeQ[0].id <= s.writeQ[i].id
  {
    hide WritesTold, ReadsServed, ReadOrder;
    var told, order := WritesTold(s.io.done), WriteOrder(s.writeQ);
    assert (told + order)[|told|] == order[0] == s.writeQ[0].id;
    assert (told + order)[|told| + i] == order[i];
  }

  /** Nothing moved for calls behind the first waiting write. */
  lemma {:induction false} MoversBelow(s: Stream)
    requires FrontOnly(s.writeQ) && InTurn(s)
    ensures forall k :: k in Movers(Pieces(s)) ==> k <= FirstWaiting(s)
  {
    hide Joined, Movers, WritesTold, ReadsServed, ReadOrder, WriteBytes, ToldPieces;
    var told, q := ToldPieces(s.io.done), s.writeQ;
    ToldPiecesAre(s.io.done);
    var moved := WritesTold(s.io.done);
    if q == [] {
      assert told + [] == told;
      assert forall k :: k in moved ==> k in moved + WriteOrder(q);
    } else {
      var p := Piece(q[0].id, AdmittedPrefix(q[0]));
      assert told + QueuedPieces(q) == told + [p] + QueuedPieces(q[1..]);
      FreshPieces(told + [p], q[1..]);
      PieceSnoc(told, p, p.id);
      assert moved + WriteOrder(q) == moved + [p.id] + WriteOrder(q[1..]);
      RisingPrefix(moved + [p.id], WriteOrder(q[1..]), s.io.nextOp);
      RisingEnd(moved, p.id, s.io.nextOp);
    }
  }

  lemma {:induction false} SettledCalls(s: Stream, calls: seq<Action>, n: nat)
    requires Good(s) && Books(s, calls) && InTurn(s) && Unbroken(s.io.done) && n <= |calls| && n <= FirstWaiting(s)
    ensures ByCall(Pieces(s), n) == Intended(s.io.done, calls, n)
  {
    hide Good, Books, InTurn, Unbroken, MovedBy, Pieces, Failed;
    if n > 0 {
      SettledCalls(s, calls, n - 1);
      SettledCall(s, calls, n - 1);
    }
  }

  lemma {:induction false} IntendedGrows(done: seq<Completion>, calls: seq<Action>, n: nat, m: nat)
    requires n <= m <= |calls|
    ensures Intended(done, calls, n) <= Intended(done, calls, m)
    decreases m
  {
    hide Failed;
    if n < m {
      IntendedGrows(done, calls, n, m - 1);
    }
  }

  /** A write that waits has not failed. */
  lemma {:induction false} WaitingNotFailed(s: Stream, i: nat)
    requires Good(s) && i < |s.writeQ|
    ensures !Failed(s.io.done, s.writeQ[i].id)
  {
    hide Good, DoneIds, WriteIds, ReadIds;
    var id := s.writeQ[i].id;
    OnceEach(s, id);
    if Failed(s.io.done, id) {
      var k :| 0 <= k < |s.io.done| && s.io.done[k].WriteDone? && s.io.done[k].id == id && s.io.done[k].error.Some?;
      InBag(s.io.done, k);
      QueuedInBag(s.writeQ, i);
    }
  }

  lemma {:induction false} QueuedInBag(q: seq<PendingWrite>, i: nat)
    requires i < |q|
    ensures WriteIds(q)[q[i].id] > 0
  {
    if i > 0 {
      QueuedInBag(q[1..], i - 1);
    }
  }

  /** Unless a write failed midway, the bytes on the wire are a prefix of everything the writes
      that did not fail were submitted with. */
  lemma {:induction false} SentIsPrefix(s: Stream, calls: seq<Action>)
    requires Good(s) && Books(s, calls) && InTurn(s) && Unbroken(s.io.done)
    ensures SentBytes(s.io.sent) <= Intended(s.io.done, calls, |calls|)
  {
    hide Good, InTurn, Unbroken, MovedBy, Movers, ByCall, Pieces, Intended, SentBytes, AllAnswer, FrontOnly, ReadOf;
    SentByCall(s);
    GoodFront(s);
    MoversBelow(s);
    var cut := FirstWaiting(s);
    if s.writeQ == [] {
      SettledCalls(s, calls, |calls|);
    } else {
      assert WriteOf(s.writeQ[0], calls);
      SettledCalls(s, calls, cut);
      ByCallTail(Pieces(s), cut + 1, |calls|);
      ByCallNext(Pieces(s), cut);
      MovedIsReported(s, calls, cut);
      WaitingNotFailed(s, 0);
      IntendedNext(s.io.done, calls, cut);
      IntendedGrows(s.io.done, calls, cut + 1, |calls|);
    }
  }

  lemma {:induction false} IntendedNext(done: seq<Completion>, calls: seq<Action>, n: nat)
    requires n < |calls|
    ensures Intended(done, calls, n + 1)
         == Intended(done, calls, n) + if Failed(done, n) then [] else DataOf(calls[n])
  {
  }

  // ---- The peer ----------------------------------------------------------

  lemma {:induction false} DeliveredPrefix(a: Stream, b: Stream)
    requires Delivered(a, b)
    ensures b.gw.prelude + ReadBytes(b.io.done) <= SentBytes(a.io.sent)
  {
    hide SentBytes, ReadBytes, WriteBytes, Prefixes, Flatten;
  }

  /** Over any run of two ends, in both directions: what one end read, after its prelude, is a
      prefix of what the writes submitted at the other end moved, joined in the order of the
      calls; and if none of those failed midway, a prefix of everything the writes that did not
      fail were submitted with. */
  lemma {:induction false} PeerReadsSubmitted(p: Setup, q: Setup, steps: seq<PairStep>, first: bool)
    requires ValidSetup(p) && ValidSetup(q)
    ensures var w := PairRun(Pair(Start(p), Start(q)), steps);
            var sender, reader := Here(w, first), Here(w, !first);
            var calls := CallsAt(steps, first);
            var taken := reader.gw.prelude + ReadBytes(reader.io.done);
            && Submitted(sender, calls)
            && taken <= ByCall(Pieces(sender), |calls|)
            && (Unbroken(sender.io.done) ==> taken <= Intended(sender.io.done, calls, |calls|))
  {
    hide Good, Moves, Start, Run, Books, InTurn, Submitted, AllFilled, Thrifty, PairRun, Delivered, Pieces, ByCall,
      Intended, Unbroken, ReadBytes, SentBytes;
    var start := Pair(Start(p), Start(q));
    var w := PairRun(start, steps);
    PrefixSafety(p, q, steps);
    DeliveredPrefix(Here(w, first), Here(w, !first));
    var setup := if first then p else q;
    var actions := EndIsRun(start, steps, first);
    SentIsSubmitted(setup, actions);
    CallsAnswered(setup, actions);
    StartGood(setup);
    RunMoves(Start(setup), actions);
    MovesGood(Start(setup), Run(Start(setup), actions));
    SubmittedSent(Here(w, first), CallsAt(steps, first));
    if Unbroken(Here(w, first).io.done) {
      SentIsPrefix(Here(w, first), CallsAt(steps, first));
    }
  }

  lemma {:induction false} SubmittedSent(s: Stream, calls: seq<Action>)
    requires Submitted(s, calls)
    ensures SentBytes(s.io.sent) == ByCall(Pieces(s), |calls|)
  {
    hide SentBytes, ByCall, Pieces, MovedBy;
  }

  // ---- A write that fails midway -----------------------------------------

  /** A serving end with one byte and one frame of credit, and a session that admits. */
  predicate OneCredit(p: Setup) {
    && ValidSetup(p) && p.serves && p.credit == 1 && p.creditFrames == 1 && p.script == []
    && p.cfg.maxWriteBytes >= 2
  }

  /** The pump sends one byte and stops for want of credit. */
  lemma {:induction false} OneByteOut(s: Stream, w: PendingWrite)
    requires !Terminal(s.state) && s.writeQ == [w] && w.offset == 0 && |w.data| == 2
    requires s.tx.credit == 1 && s.tx.creditFrames == 1 && s.io.script == []
    ensures Pump(s) == s.(tx := s.tx.(credit := 0, creditFrames := 0, next := s.tx.next + 1),
                          writeQ := [w.(offset := 1)],
                          io := s.io.(sent := s.io.sent + [Data(s.tx.next, 1, [w.data[0]])]))
  {
    assert w.data[0..1] == [w.data[0]];
    assert s.writeQ[1..] == [];
    var t := SendChunk(s);
    assert t.writeQ == [w.(offset := 1)];
    assert Pump(t) == t;
  }

  /** The pump sends the only byte of a write and completes it. */
  lemma {:induction false} LastByteOut(s: Stream, w: PendingWrite)
    requires !Terminal(s.state) && s.writeQ == [w] && w.offset == 0 && |w.data| == 1 && !w.finAfter
    requires s.tx.credit == 1 && s.tx.creditFrames == 1 && s.io.script == []
    ensures Pump(s).io.sent == s.io.sent + [Data(s.tx.next, 1, w.data)] && s.io.done <= Pump(s).io.done
  {
    assert w.data[0..1] == w.data;
    assert s.writeQ[1..] == [];
    var t := SendChunk(s);
    assert t.writeQ == [w.(offset := 1)];
    var u := CompleteWrite(t, None);
    assert u.writeQ == [] && Pump(u) == u && Pump(t) == u;
  }

  lemma {:induction false} WriteGoesOut(p: Setup, x: byte, y: byte)
    requires OneCredit(p)
    ensures var s := Start(p);
            Step(s, WriteCall([x, y], Some(0)))
            == s.(tx := s.tx.(credit := 0, creditFrames := 0, next := 1),
                  writeQ := [PendingWrite(0, [x, y], 1, Some(0), false)],
                  io := s.io.(nextOp := 1, sent := s.io.sent + [Data(0, 1, [x])]))
  {
    hide Pump;
    var s := Start(p);
    var w := PendingWrite(0, [x, y], 0, Some(0), false);
    var pushed := s.(writeQ := [w], io := s.io.(nextOp := 1));
    assert s.writeQ + [w] == [w];
    OneByteOut(pushed, w);
    assert Step(s, WriteCall([x, y], Some(0))) == Pump(pushed);
  }

  lemma {:induction false} WriteRunsOut(s: Stream, w: PendingWrite)
    requires s.state == Open && s.readQ == [] && !s.gw.initiator && s.writeQ == [w]
    requires w.deadline == Some(0) && w.offset <= |w.data|
    ensures Step(s, Tick(1))
         == s.(writeQ := [],
               io := s.io.(done := s.io.done + [WriteDone(w.id, w.data[..w.offset], Some(WriteDeadline))]))
  {
    assert s.writeQ[1..] == [] && LiveWrites([], 1) == [] && ExpiredWrites([], 1) == [];
    assert LiveWrites(s.writeQ, 1) == [] && ExpiredWrites(s.writeQ, 1) == [w];
    assert [w][1..] == [] && EndWrites([], WriteDeadline) == [];
    assert EndWrites([w], WriteDeadline) == [WriteDone(w.id, w.data[..w.offset], Some(WriteDeadline))];
  }

  lemma {:induction false} WriteWaits(s: Stream, z: byte)
    requires s.state == Open && s.writeQ == [] && !s.tx.finSent && s.tx.credit == 0
    ensures Step(s, WriteCall([z], None))
         == s.(writeQ := [PendingWrite(s.io.nextOp, [z], 0, None, false)], io := s.io.(nextOp := s.io.nextOp + 1))
  {
    assert s.writeQ + [PendingWrite(s.io.nextOp, [z], 0, None, false)]
        == [PendingWrite(s.io.nextOp, [z], 0, None, false)];
  }

  lemma {:induction false} RunFour(s: Stream, a: Action, b: Action, c: Action, d: Action)
    ensures Run(s, [a, b, c, d]) == Step(Step(Step(Step(s, a), b), c), d)
  {
    hide Step;
    assert [a, b, c, d] == [a] + ([b] + ([c] + [d]));
    RunAppend(s, [a], [b] + ([c] + [d]));
    RunAppend(Run(s, [a]), [b], [c] + [d]);
    RunAppend(Run(Run(s, [a]), [b]), [c], [d]);
    OneStep(s, a);
    OneStep(Step(s, a), b);
    OneStep(Step(Step(s, a), b), c);
    OneStep(Step(Step(Step(s, a), b), c), d);
  }

  lemma {:induction false} TwoCalls(a: Action, b: Action, now: nat, frame: Frame)
    requires a.WriteCall? && b.WriteCall?
    ensures Calls([a, Tick(now), b, Receive(frame)]) == [a, b]
  {
    var actions := [a, Tick(now), b, Receive(frame)];
    assert actions[1..] == [Tick(now), b, Receive(frame)] && actions[1..][1..] == [b, Receive(frame)];
    assert actions[1..][1..][1..] == [Receive(frame)] && [Receive(frame)][1..] == [];
    assert Calls([Receive(frame)]) == [];
    assert Calls([b, Receive(frame)]) == [b];
    assert Calls([Tick(now), b, Receive(frame)]) == [b];
  }

  /** The condition is needed: a write of two bytes whose deadline passes after one of them was
      sent is followed on the wire by the next write, so that the peer reads a byte string the
      caller never submitted. */
  lemma {:induction false} CutShort(p: Setup, x: byte, y: byte, z: byte)
    requires OneCredit(p) && y != z
    ensures var actions := [WriteCall([x, y], Some(0)), Tick(1), WriteCall([z], None), Receive(WindowUpdate(1, 1, 1))];
            var s := Run(Start(p), actions);
            && WriteDone(0, [x], Some(WriteDeadline)) in s.io.done
            && Calls(actions) == [WriteCall([x, y], Some(0)), WriteCall([z], None)]
            && SentBytes(s.io.sent) == [x, z] && !(SentBytes(s.io.sent) <= [x, y] + [z])
  {
    hide Step, Run, Pump, Calls, SentBytes;
    var s := Start(p);
    var a0, a1, a2 := WriteCall([x, y], Some(0)), Tick(1), WriteCall([z], None);
    var a3 := Receive(WindowUpdate(1, 1, 1));
    WriteGoesOut(p, x, y);
    var s1 := Step(s, a0);
    WriteRunsOut(s1, s1.writeQ[0]);
    var s2 := Step(s1, a1);
    WriteWaits(s2, z);
    var s3 := Step(s2, a2);
    var s4 := s3.(tx := s3.tx.(consumedByPeer := 1, credit := 1, creditFrames := 1));
    LastByteOut(s4, s3.writeQ[0]);
    Granted(s3, s4);
    RunFour(s, a0, a1, a2, a3);
    SentBytesSnoc(s.io.sent, Data(0, 1, [x]));
    SentBytesSnoc(s1.io.sent, Data(1, 1, [z]));
    NothingSent(p);
    assert [x, y][..1] == [x];
    assert [x, z][1] != ([x, y] + [z])[1];
    assert s2.io.done[|s1.io.done|] == WriteDone(0, [x], Some(WriteDeadline));
    assert Pump(s4).io.done[|s1.io.done|] == s2.io.done[|s1.io.done|];
    TwoCalls(a0, a2, 1, a3.frame);
  }

  lemma {:induction false} Granted(s: Stream, t: Stream)
    requires s.state == Open && s.tx.next == 1 && s.tx.credit == 0 && s.tx.creditFrames == 0 && s.tx.consumedByPeer == 0
    requires t == s.(tx := s.tx.(consumedByPeer := 1, credit := 1, creditFrames := 1))
    ensures Step(s, Receive(WindowUpdate(1, 1, 1))) == Pump(t)
  {
    hide Pump;
  }

  lemma {:induction false} NothingSent(p: Setup)
    ensures SentBytes(Start(p).io.sent) == []
  {
  }
}

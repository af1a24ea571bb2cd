/** Deadlines over whole runs: when a sweep gives up a dial, and which pending operations it
    ends, said on the deadlines the caller gave. */
module Deadlines {
  import opened Bytes
  import opened StreamModel
  import opened ReceiveWindow
  import opened Lifecycle
  import opened StreamRuns
  import opened EndOfStream
  import opened Submissions
  import opened ReadBoundaries
  import opened StreamLedger

  // ---- The dial ----------------------------------------------------------

  predicate SameDial(s: Stream, t: Stream) {
    t.gw.dialDeadline == s.gw.dialDeadline && t.gw.initiator == s.gw.initiator
  }

  lemma {:induction false} LocalDial(s: Stream, a: Action)
    requires !a.Receive?
    ensures SameDial(s, Step(s, a))
  {
    hide Dispatch, Pump, Finish, LiveReads, LiveWrites, ExpiredReads, ExpiredWrites, EndReads, EndWrites, UnsentBytes;
    match a
    case ReadCall(capacity, deadline) =>
      DispatchFrames(s.(readQ := s.readQ + [PendingRead(s.io.nextOp, capacity, deadline)],
                        io := s.io.(nextOp := s.io.nextOp + 1)));
    case WriteCall(data, deadline) =>
      PumpFrames(s.(writeQ := s.writeQ + [PendingWrite(s.io.nextOp, data, 0, deadline, false)],
                    io := s.io.(nextOp := s.io.nextOp + 1)));
    case ShutdownCall =>
    case ResetOp(reason) =>
    case Tick(now) =>
    case SessionLoss =>
  }

  lemma {:induction false} PreludeDial(s: Stream, data: seq<byte>)
    ensures SameDial(s, TakePrelude(Charge(s, |data|), data))
  {
  }

  lemma {:induction false} ResetDial(s: Stream, reason: Status)
    ensures SameDial(s, ResetFor(s, reason))
  {
    hide Finish;
  }

  lemma {:induction false} ServedDial(s: Stream)
    ensures SameDial(s, Settle(Dispatch(s)))
  {
    hide Dispatch, Finish;
    DispatchFrames(s);
  }

  lemma {:induction false} DataDial(s: Stream, offset: nat, length: nat, data: seq<byte>)
    ensures SameDial(s, OnData(s, offset, length, data))
  {
    hide Dispatch, Settle, ResetFor, TakePrelude, PreludeShare;
    var t := TakePrelude(Charge(s, |data|), data);
    ResetDial(s, ProtocolError);
    ResetDial(s, ResourceExhausted);
    PreludeDial(s, data);
    ResetDial(t, ProtocolError);
    ServedDial(Buffer(t, data[PreludeShare(s, data)..]));
  }

  lemma {:induction false} FinDial(s: Stream, finalOffset: nat)
    ensures SameDial(s, OnFin(s, finalOffset))
  {
    hide Dispatch, Finish;
    DispatchFrames(s.(rx := s.rx.(finReceived := true, finalOffset := finalOffset)));
  }

  lemma {:induction false} UpdateDial(s: Stream, consumed: nat, bytes: nat, frames: nat)
    ensures SameDial(s, OnWindowUpdate(s, consumed, bytes, frames))
  {
    hide Pump, Finish;
    PumpFrames(s.(tx := s.tx.(consumedByPeer := consumed, credit := s.tx.credit + bytes,
                              creditFrames := Min((frames + s.tx.creditFrames) % U64, U32 - 1))));
  }

  lemma {:induction false} DeliverDial(s: Stream, frame: Frame)
    ensures SameDial(s, Deliver(s, frame))
  {
    hide OnData, OnWindowUpdate, OnFin, Finish;
    match frame
    case Data(offset, length, data) => DataDial(s, offset, length, data);
    case WindowUpdate(consumed, bytes, frames) => UpdateDial(s, consumed, bytes, frames);
    case Fin(finalOffset) => FinDial(s, finalOffset);
    case ResetFrame(reason) =>
  }

  lemma {:induction false} RunDial(s: Stream, actions: seq<Action>)
    ensures SameDial(s, Run(s, actions))
    decreases |actions|
  {
    hide Step;
    if actions != [] {
      StepDial(s, actions[0]);
      RunDial(Step(s, actions[0]), actions[1..]);
    }
  }

  lemma {:induction false} StepDial(s: Stream, a: Action)
    ensures SameDial(s, Step(s, a))
  {
    hide Deliver;
    if a.Receive? {
      DeliverDial(s, a.frame);
    } else {
      hide Step;
      LocalDial(s, a);
    }
  }

  /** An initiator waits for its prelude exactly while it has fewer than two bytes of it. */
  lemma {:induction false} AwaitsShort(s: Stream)
    requires RxInv(s)
    ensures AwaitsPrelude(s) <==> s.gw.initiator && |s.gw.prelude| < 2
  {
    hide RxInv, PreludeInv;
    RxPrelude(s);
    PreludeShort(s);
  }

  lemma {:induction false} RxPrelude(s: Stream)
    requires RxInv(s)
    ensures PreludeInv(s)
  {
    hide PreludeInv;
  }

  lemma {:induction false} PreludeShort(s: Stream)
    requires PreludeInv(s)
    ensures AwaitsPrelude(s) <==> s.gw.initiator && |s.gw.prelude| < 2
  {
  }

  /** Whether a dial begun with deadline `p.gw.dialDeadline`, 0 for none, is overdue. */
  predicate Overdue(p: Setup, prelude: seq<byte>, now: nat) {
    p.gw.initiator && p.gw.dialDeadline > 0 && now > p.gw.dialDeadline && |prelude| < 2
  }

  lemma {:induction false} SweepResets(s: Stream, now: nat)
    requires !Terminal(s.state)
    ensures Step(s, Tick(now)).state == Reset <==>
              AwaitsPrelude(s) && s.gw.dialDeadline > 0 && now > s.gw.dialDeadline
    ensures Step(s, Tick(now)).state != Reset ==> Step(s, Tick(now)) == Swept(s, now)
  {
    hide Finish, LiveReads, LiveWrites, ExpiredReads, ExpiredWrites, EndReads, EndWrites;
  }

  lemma {:induction false} ReachedRx(p: Setup, actions: seq<Action>)
    requires ValidSetup(p)
    ensures RxInv(Run(Start(p), actions)) && SameDial(Start(p), Run(Start(p), actions))
  {
    hide Good, Moves, Start, Run, RxInv;
    StartGood(p);
    RunMoves(Start(p), actions);
    MovesGood(Start(p), Run(Start(p), actions));
    GoodRx(Run(Start(p), actions));
    RunDial(Start(p), actions);
  }

  /** In every live state of every run, a sweep resets the stream exactly when it dials, the
      dial has a deadline, the deadline has passed, and fewer than two prelude bytes arrived. */
  lemma {:induction false} DialDeadline(p: Setup, actions: seq<Action>, now: nat)
    requires ValidSetup(p) && !Terminal(Run(Start(p), actions).state)
    ensures var s := Run(Start(p), actions);
            Step(s, Tick(now)).state == Reset <==> Overdue(p, s.gw.prelude, now)
  {
    hide Start, Run, RxInv, Step;
    var s := Run(Start(p), actions);
    ReachedRx(p, actions);
    StartInitiator(p);
    AwaitsShort(s);
    SweepResets(s, now);
  }

  // ---- Operations --------------------------------------------------------

  /** What a sweep at `now` does to one pending read whose call gave this deadline. */
  predicate ReadSwept(r: PendingRead, deadline: Option<nat>, now: nat, t: Stream) {
    match deadline
    case None => r in t.readQ
    case Some(time) =>
      if now <= time then r in t.readQ else r !in t.readQ && ReadDone(r.id, [], Some(ReadDeadline)) in t.io.done
  }

  predicate WriteSwept(w: PendingWrite, deadline: Option<nat>, now: nat, t: Stream) {
    match deadline
    case None => w in t.writeQ
    case Some(time) =>
      if now <= time then w in t.writeQ
      else w !in t.writeQ && WriteDone(w.id, AdmittedPrefix(w), Some(WriteDeadline)) in t.io.done
  }

  lemma {:induction false} SweptRead(s: Stream, r: PendingRead, now: nat)
    requires r in s.readQ
    ensures ReadSwept(r, r.deadline, now, Swept(s, now))
  {
    hide LiveReads, ExpiredReads, LiveWrites, ExpiredWrites, EndReads, EndWrites;
    SweptReadsOf(s.readQ, now);
    EndReadsShape(ExpiredReads(s.readQ, now), Some(ReadDeadline));
    if Expired(r.deadline, now) {
      var i :| 0 <= i < |ExpiredReads(s.readQ, now)| && ExpiredReads(s.readQ, now)[i] == r;
      assert EndReads(ExpiredReads(s.readQ, now), Some(ReadDeadline))[i] == ReadDone(r.id, [], Some(ReadDeadline));
    }
  }

  lemma {:induction false} SweptWrite(s: Stream, w: PendingWrite, now: nat)
    requires w in s.writeQ
    ensures WriteSwept(w, w.deadline, now, Swept(s, now))
  {
    hide LiveReads, ExpiredReads, LiveWrites, ExpiredWrites, EndReads, EndWrites, AdmittedPrefix;
    SweptWritesOf(s.writeQ, now);
    EndWritesShape(ExpiredWrites(s.writeQ, now), WriteDeadline);
    if Expired(w.deadline, now) {
      var i :| 0 <= i < |ExpiredWrites(s.writeQ, now)| && ExpiredWrites(s.writeQ, now)[i] == w;
      assert EndWrites(ExpiredWrites(s.writeQ, now), WriteDeadline)[i]
          == WriteDone(w.id, AdmittedPrefix(w), Some(WriteDeadline));
    }
  }

  /** In every live state of every run, a sweep that does not reset the stream ends exactly the
      pending operations whose calls gave a deadline that has passed, each with the deadline
      error of its kind, and keeps the others. */
  lemma {:induction false} OperationDeadlines(p: Setup, actions: seq<Action>, now: nat)
    requires ValidSetup(p)
    ensures var s, calls := Run(Start(p), actions), Calls(actions);
            var t := Step(s, Tick(now));
            !Terminal(s.state) && t.state != Reset ==>
              && (forall i :: 0 <= i < |s.readQ| ==>
                    && s.readQ[i].id < |calls| && calls[s.readQ[i].id].ReadCall?
                    && ReadSwept(s.readQ[i], calls[s.readQ[i].id].readDeadline, now, t))
              && (forall i :: 0 <= i < |s.writeQ| ==>
                    && s.writeQ[i].id < |calls| && calls[s.writeQ[i].id].WriteCall?
                    && WriteSwept(s.writeQ[i], calls[s.writeQ[i].id].writeDeadline, now, t))
  {
    hide Start, Run, Step, Swept, InTurn, AllFilled, Thrifty, AllAnswer, ReadSwept, WriteSwept;
    CallsAnswered(p, actions);
    var s, calls := Run(Start(p), actions), Calls(actions);
    if !Terminal(s.state) {
      SweepResets(s, now);
      forall i | 0 <= i < |s.readQ|
        ensures ReadOf(s.readQ[i], calls) && ReadSwept(s.readQ[i], s.readQ[i].deadline, now, Swept(s, now))
      {
        SweptRead(s, s.readQ[i], now);
      }
      forall i | 0 <= i < |s.writeQ|
        ensures WriteOf(s.writeQ[i], calls) && WriteSwept(s.writeQ[i], s.writeQ[i].deadline, now, Swept(s, now))
      {
        SweptWrite(s, s.writeQ[i], now);
      }
    }
  }

  /** No call gave a deadline. */
  predicate NoDeadline(calls: seq<Action>) {
    forall i :: 0 <= i < |calls| ==>
      && (calls[i].ReadCall? ==> calls[i].readDeadline == None)
      && (calls[i].WriteCall? ==> calls[i].writeDeadline == None)
  }

  lemma {:induction false} NoReadExpires(q: seq<PendingRead>, now: nat)
    requires forall i :: 0 <= i < |q| ==> q[i].deadline == None
    ensures LiveReads(q, now) == q && ExpiredReads(q, now) == []
  {
    if q != [] {
      NoReadExpires(q[1..], now);
    }
  }

  lemma {:induction false} NoWriteExpires(q: seq<PendingWrite>, now: nat)
    requires forall i :: 0 <= i < |q| ==> q[i].deadline == None
    ensures LiveWrites(q, now) == q && ExpiredWrites(q, now) == []
  {
    if q != [] {
      NoWriteExpires(q[1..], now);
    }
  }

  lemma {:induction false} NothingSwept(s: Stream, now: nat)
    requires forall i :: 0 <= i < |s.readQ| ==> s.readQ[i].deadline == None
    requires forall i :: 0 <= i < |s.writeQ| ==> s.writeQ[i].deadline == None
    ensures Swept(s, now) == s
  {
    hide LiveReads, ExpiredReads, LiveWrites, ExpiredWrites;
    NoReadExpires(s.readQ, now);
    NoWriteExpires(s.writeQ, now);
    assert s.io.done + [] + [] == s.io.done;
  }

  /** Without a dial deadline and without deadlines on the calls, no sweep ever changes the
      stream, however late it comes. */
  lemma {:induction false} NoDeadlineNoSweep(p: Setup, actions: seq<Action>, now: nat)
    requires ValidSetup(p) && NoDeadline(Calls(actions)) && (p.gw.initiator ==> p.gw.dialDeadline == 0)
    ensures Step(Run(Start(p), actions), Tick(now)) == Run(Start(p), actions)
  {
    hide Start, Run, Step, Swept, InTurn, AllFilled, Thrifty, AllAnswer;
    CallsAnswered(p, actions);
    var s, calls := Run(Start(p), actions), Calls(actions);
    if Terminal(s.state) {
      TickTerminal(s, now);
    } else {
      DialDeadline(p, actions, now);
      SweepResets(s, now);
      assert forall i :: 0 <= i < |s.readQ| ==> ReadOf(s.readQ[i], calls);
      assert forall i :: 0 <= i < |s.writeQ| ==> WriteOf(s.writeQ[i], calls);
      NothingSwept(s, now);
    }
  }

  lemma {:induction false} TickTerminal(s: Stream, now: nat)
    requires Terminal(s.state)
    ensures Step(s, Tick(now)) == s
  {
  }
}

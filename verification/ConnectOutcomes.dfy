/** What a gateway dial is told when its connect handler runs. */
module ConnectOutcomes {
  import opened Bytes
  import opened StreamModel
  import opened ReceiveWindow
  import opened SendSide
  import opened Completions
  import opened Lifecycle
  import opened StreamRuns
  import opened EndOfStream
  import opened Deadlines

  /** The handler is held, as it is from a dial until it runs. */
  predicate Held(s: Stream) {
    s.gw.handler && !s.gw.fired && s.gw.initiator
  }

  /** The outcome of a stream that ends in this state. */
  function EndOutcome(state: StreamState, reason: Option<Status>): ConnectOutcome {
    if state == Closed || state == HalfClosedRemote then ConnectClosed else ConnectFailed(reason)
  }

  /** Either the handler is still held, or it was told how the stream ended. */
  predicate ToldEnd(t: Stream, reason: Option<Status>) {
    if t.gw.handler then Held(t) else ConnectDone(EndOutcome(t.state, reason)) in t.io.done
  }

  lemma {:induction false} FinishTold(s: Stream, terminal: StreamState)
    requires Held(s)
    ensures ToldEnd(Finish(s, terminal), s.resetReason)
    ensures Finish(s, terminal).resetReason == s.resetReason && s.io.done <= Finish(s, terminal).io.done
  {
    hide EndReads, EndWrites;
    assert Finish(s, terminal).io.done[|s.io.done|] == ConnectDone(EndOutcome(terminal, s.resetReason));
  }

  lemma {:induction false} ResetTold(s: Stream, reason: Status)
    requires Held(s)
    ensures ToldEnd(ResetFor(s, reason), s.resetReason) && ResetFor(s, reason).state == Reset
    ensures ResetFor(s, reason).resetReason == s.resetReason
  {
    hide Finish;
    FinishTold(if s.state == Reset then s else Send(s, ResetFrame(Some(reason))), Reset);
  }

  lemma {:induction false} SendFinTold(s: Stream)
    requires Held(s)
    ensures ToldEnd(SendFin(s), s.resetReason) && SendFin(s).resetReason == s.resetReason
  {
    hide Finish;
    FinishTold(Send(s, Fin(s.tx.next)), if s.rx.finReceived then Closed else HalfClosedLocal);
  }

  lemma {:induction false} PumpTold(s: Stream)
    ensures Pump(s).resetReason == s.resetReason
    ensures Held(s) ==> ToldEnd(Pump(s), s.resetReason)
    decreases PumpWork(s.writeQ)
  {
    hide Finish, ResetFor, SendFin, AdmittedPrefix, NextData;
    if !Terminal(s.state) && s.writeQ != [] {
      var done := CompleteWrite(s, None);
      if s.writeQ[0].offset < |s.writeQ[0].data| {
        var failed := CompleteWrite(Send(s, NextData(s)), Some(SendFailed));
        SameReason(failed);
        if s.tx.credit != 0 && s.tx.creditFrames != 0 && Verdict(s.io) == Admitted {
          PumpTold(SendChunk(s));
        } else if Held(s) {
          ResetTold(failed, Unavailable);
        }
      } else if s.writeQ[0].finAfter {
        SameReason(done);
        if Held(s) {
          SendFinTold(done);
        }
      } else {
        PumpTold(done);
      }
    }
  }

  lemma {:induction false} SameReason(s: Stream)
    ensures ResetFor(s, Unavailable).resetReason == s.resetReason && SendFin(s).resetReason == s.resetReason
  {
    hide Finish;
  }

  /** Serving reads ends the stream only cleanly. */
  lemma {:induction false} DispatchTold(s: Stream)
    requires Held(s)
    ensures var t := Dispatch(s);
            && s.io.done <= t.io.done
            && (if t.gw.handler then Held(t) else ConnectDone(ConnectClosed) in t.io.done)
    decreases |s.readQ|
  {
    hide ServeRead, Finish;
    if s.readQ != [] {
      if s.rx.chunks != [] {
        ServeReadHeld(s);
        DispatchTold(ServeRead(s));
      } else if AtEnd(s.rx) {
        var s1 := CompleteRead(s, []);
        FinishTold(s1, Closed);
        if s.tx.finSent {
          NothingServed(Finish(s1, Closed));
        } else {
          DispatchTold(s1);
        }
      }
    }
  }

  lemma {:induction false} ServeReadHeld(s: Stream)
    requires s.readQ != [] && s.rx.chunks != []
    ensures ServeRead(s).gw == s.gw && s.io.done <= ServeRead(s).io.done && |ServeRead(s).readQ| < |s.readQ|
  {
    hide Sub32, Sub64;
  }

  lemma {:induction false} ServedTold(s: Stream)
    requires Held(s) && !Terminal(s.state)
    ensures var t := Settle(Dispatch(s));
            if t.gw.handler then Held(t) else ConnectDone(ConnectClosed) in t.io.done
  {
    hide Dispatch, Finish;
    DispatchTold(s);
    var t := Dispatch(s);
    var terminal := if t.tx.finSent then Closed else HalfClosedRemote;
    if Held(t) {
      FinishTold(t, terminal);
    } else {
      FinishKeepsDone(t, terminal);
    }
  }

  lemma {:induction false} FinishKeepsDone(s: Stream, terminal: StreamState)
    ensures s.io.done <= Finish(s, terminal).io.done
    ensures !s.gw.handler ==> !Finish(s, terminal).gw.handler
  {
    hide EndReads, EndWrites;
  }

  // ---- Steps -------------------------------------------------------------

  /** The outcome a step reports, by what the step was and where it left the stream. */
  function Outcome(s: Stream, a: Action, t: Stream): ConnectOutcome {
    if |s.gw.prelude| < 2 && t.gw.prelude == [0, 0] then Connected
    else if a.SessionLoss? || t.state == Closed || t.state == HalfClosedRemote then ConnectClosed
    else ConnectFailed(if a.Receive? && a.frame.ResetFrame? && a.frame.reason.Some? then a.frame.reason
                       else s.resetReason)
  }

  predicate Reports(s: Stream, a: Action, t: Stream) {
    if t.gw.handler then Held(t) else ConnectDone(Outcome(s, a, t)) in t.io.done
  }

  lemma {:induction false} LocalReports(s: Stream, a: Action)
    requires Held(s) && !Terminal(s.state) && !a.Receive?
    ensures Reports(s, a, Step(s, a))
  {
    hide Dispatch, Pump, Finish, ResetFor, SendFin, Swept, EndReads, EndWrites, UnsentBytes;
    match a
    case ReadCall(capacity, deadline) =>
      var s1 := s.(readQ := s.readQ + [PendingRead(s.io.nextOp, capacity, deadline)],
                   io := s.io.(nextOp := s.io.nextOp + 1));
      DispatchTold(s1);
      DispatchFrames(s1);
      DispatchCloses(s1);
    case WriteCall(data, deadline) =>
      var s1 := s.(writeQ := s.writeQ + [PendingWrite(s.io.nextOp, data, 0, deadline, false)],
                   io := s.io.(nextOp := s.io.nextOp + 1));
      PumpTold(s1);
      PumpFrames(s1);
    case ShutdownCall =>
      SendFinTold(s.(tx := s.tx.(finSent := true)));
      SendFinGateway(s.(tx := s.tx.(finSent := true)));
    case ResetOp(reason) =>
      ResetTold(s, reason);
      ResetDial(s, reason);
      ResetGateway(s, reason);
    case Tick(now) =>
      SweptHeld(s, now);
      ResetTold(Swept(s, now), DeadlineExceeded);
      ResetGateway(Swept(s, now), DeadlineExceeded);
    case SessionLoss => LossReports(s);
  }

  /** While the handler was held, a stream whose handler ran while reads were served is closed. */
  lemma {:induction false} DispatchCloses(s: Stream)
    requires s.gw.handler && !Terminal(s.state)
    ensures Dispatch(s).gw.handler || Dispatch(s).state == Closed
    decreases |s.readQ|
  {
    hide ServeRead, ServeEof;
    if s.readQ != [] {
      ServeFrames(s);
      if s.rx.chunks != [] {
        ServeReadHeld(s);
        ServeReadState(s);
        DispatchCloses(ServeRead(s));
      } else if AtEnd(s.rx) {
        EofCloses(s);
        if s.tx.finSent {
          NothingServed(ServeEof(s));
        } else {
          DispatchCloses(ServeEof(s));
        }
      }
    }
  }

  lemma {:induction false} ServeReadState(s: Stream)
    requires s.readQ != [] && s.rx.chunks != []
    ensures ServeRead(s).state == s.state
  {
    hide Sub32, Sub64;
  }

  lemma {:induction false} EofCloses(s: Stream)
    requires s.readQ != [] && s.gw.handler
    ensures var t := ServeEof(s);
            if s.tx.finSent then t.state == Closed && t.readQ == [] else t.gw == s.gw && t.state == s.state
  {
    hide Finish;
  }

  lemma {:induction false} SendFinGateway(s: Stream)
    ensures SendFin(s).gw.prelude == s.gw.prelude && (SendFin(s).state == Closed || SendFin(s).state == HalfClosedLocal)
  {
    hide Finish;
  }

  lemma {:induction false} ResetGateway(s: Stream, reason: Status)
    ensures ResetFor(s, reason).gw.prelude == s.gw.prelude
  {
    hide Finish;
  }

  lemma {:induction false} SweptHeld(s: Stream, now: nat)
    ensures Swept(s, now).gw == s.gw && Swept(s, now).resetReason == s.resetReason
  {
    hide LiveReads, LiveWrites, ExpiredReads, ExpiredWrites, EndReads, EndWrites;
  }

  lemma {:induction false} LossReports(s: Stream)
    requires Held(s)
    ensures FailAll(s).gw.prelude == s.gw.prelude
    ensures !FailAll(s).gw.handler && ConnectDone(ConnectClosed) in FailAll(s).io.done
  {
    hide EndReads, EndWrites;
    assert FailAll(s).io.done[|s.io.done|] == ConnectDone(ConnectClosed);
  }

  lemma {:induction false} PreludeReports(s: Stream, data: seq<byte>)
    requires Held(s) && PreludeInv(s) && AwaitsPrelude(s)
    ensures var t := TakePrelude(Charge(s, |data|), data);
            && t.resetReason == s.resetReason && s.io.done <= t.io.done
            && (if t.gw.prelude == [0, 0] then ConnectDone(Connected) in t.io.done && !t.gw.handler else Held(t))
  {
    hide PreludeInv;
    PreludeShort(s);
    var t := TakePrelude(Charge(s, |data|), data);
    if t.gw.prelude == [0, 0] {
      assert t.io.done[|s.io.done|] == ConnectDone(Connected);
    }
  }

  /** Serving and settling keep every completion, the prelude and the absence of the handler. */
  lemma {:induction false} ServedKeepsDone(s: Stream)
    requires !s.gw.handler
    ensures var t := Settle(Dispatch(s));
            s.io.done <= t.io.done && !t.gw.handler && t.gw.prelude == s.gw.prelude
  {
    hide Dispatch, Finish;
    DispatchKeepsDone(s);
    DispatchFrames(s);
    var t := Dispatch(s);
    FinishKeepsDone(t, if t.tx.finSent then Closed else HalfClosedRemote);
  }

  lemma {:induction false} DispatchKeepsDone(s: Stream)
    ensures s.io.done <= Dispatch(s).io.done && (!s.gw.handler ==> !Dispatch(s).gw.handler)
    decreases |s.readQ|
  {
    hide ServeRead, Finish;
    if s.readQ != [] {
      if s.rx.chunks != [] {
        ServeReadHeld(s);
        DispatchKeepsDone(ServeRead(s));
      } else if AtEnd(s.rx) {
        FinishKeepsDone(CompleteRead(s, []), Closed);
        DispatchKeepsDone(ServeEof(s));
      }
    }
  }

  lemma {:induction false} AcceptReports(s: Stream, offset: nat, length: nat, data: seq<byte>)
    requires Held(s) && PreludeInv(s) && !Terminal(s.state)
    ensures Reports(s, Receive(Data(offset, length, data)), AcceptData(s, data))
  {
    hide ResetFor, Dispatch, Settle, TakePrelude, PreludeShare, PreludeInv;
    var t := TakePrelude(Charge(s, |data|), data);
    PreludeShort(s);
    PreludeFrame(s, data);
    PreludeBytes(s, data);
    BufferLive(s, data);
    if !AwaitsPrelude(s) {
      ServedTold(Buffer(t, data[PreludeShare(s, data)..]));
      ServedEnds(Buffer(t, data[PreludeShare(s, data)..]));
      return;
    }
    PreludeReports(s, data);
    if PreludeBroken(t.gw) {
      ResetTold(t, ProtocolError);
      ResetGateway(t, ProtocolError);
    } else {
      var u := Buffer(t, data[PreludeShare(s, data)..]);
      if t.gw.prelude == [0, 0] {
        ServedKeepsDone(u);
      } else {
        ServedTold(u);
        ServedEnds(u);
      }
    }
  }

  /** A handler that runs while reads are served and the end is settled runs in a clean end. */
  lemma {:induction false} ServedEnds(s: Stream)
    requires Held(s) && !Terminal(s.state)
    ensures var t := Settle(Dispatch(s));
            && t.gw.prelude == s.gw.prelude
            && (t.gw.handler || t.state == Closed || t.state == HalfClosedRemote)
  {
    hide Dispatch, Finish;
    DispatchFrames(s);
    DispatchCloses(s);
  }

  lemma {:induction false} DeliverReports(s: Stream, frame: Frame)
    requires Held(s) && PreludeInv(s) && !Terminal(s.state)
    ensures Reports(s, Receive(frame), Deliver(s, frame))
  {
    hide Reports, ResetFor, Dispatch, Finish, Pump, AcceptData, PreludeInv, EndOfReceive;
    KeepsHeld(s, Receive(frame));
    match frame
    case Data(offset, length, data) =>
      ResetReports(s, s, ProtocolError, Receive(frame));
      ResetReports(s, s, ResourceExhausted, Receive(frame));
      AcceptReports(s, offset, length, data);
    case WindowUpdate(consumed, bytes, frames) =>
      var s1 := s.(tx := s.tx.(consumedByPeer := consumed));
      ResetReports(s, s, ProtocolError, Receive(frame));
      ResetReports(s, s1, ResourceExhausted, Receive(frame));
      PumpReports(s, s1.(tx := s1.tx.(credit := s.tx.credit + bytes,
                                      creditFrames := Min((frames + s.tx.creditFrames) % U64, U32 - 1))),
                  Receive(frame));
    case Fin(finalOffset) =>
      var s1 := s.(rx := s.rx.(finReceived := true, finalOffset := finalOffset));
      ResetReports(s, s1, ProtocolError, Receive(frame));
      FinReports(s, s1, Receive(frame));
    case ResetFrame(reason) =>
      FinishReports(s, s.(resetReason := KnownReason(s, reason)), reason);
  }

  lemma {:induction false} KeepsHeld(s: Stream, a: Action)
    requires Held(s)
    ensures Reports(s, a, s)
  {
  }

  lemma {:induction false} ResetReports(s: Stream, u: Stream, reason: Status, a: Action)
    requires Held(u) && u.gw == s.gw && u.resetReason == s.resetReason
    requires a.Receive? && !a.frame.ResetFrame?
    ensures Reports(s, a, ResetFor(u, reason))
  {
    hide ResetFor;
    ResetTold(u, reason);
    ResetGateway(u, reason);
  }

  lemma {:induction false} PumpReports(s: Stream, u: Stream, a: Action)
    requires Held(u) && u.gw == s.gw && u.resetReason == s.resetReason
    requires a.Receive? && !a.frame.ResetFrame?
    ensures Reports(s, a, Pump(u))
  {
    hide Pump;
    PumpTold(u);
    PumpFrames(u);
  }

  lemma {:induction false} FinReports(s: Stream, u: Stream, a: Action)
    requires Held(u) && u.gw == s.gw && !Terminal(u.state)
    ensures AtEnd(u.rx) ==>
              Reports(s, a, if Dispatch(u).rx.chunks == [] then EndOfReceive(Dispatch(u)) else Dispatch(u))
  {
    hide Dispatch, EndOfReceive;
    if AtEnd(u.rx) {
      ServedTold(u);
      ServedEnds(u);
      DispatchFrames(u);
    }
  }

  lemma {:induction false} FinishReports(s: Stream, u: Stream, reason: Option<Status>)
    requires Held(u) && u.gw == s.gw && u.resetReason == KnownReason(s, reason)
    ensures Reports(s, Receive(ResetFrame(reason)), Finish(u, Reset))
  {
    hide Finish;
    FinishTold(u, Reset);
  }

  // ---- Runs --------------------------------------------------------------

  /** A reason is recorded only by a RESET, and that ends the stream. */
  predicate Reasoned(s: Stream) {
    s.resetReason.Some? ==> s.state == Reset
  }

  lemma {:induction false} LocalReason(s: Stream, a: Action)
    requires !a.Receive?
    ensures Step(s, a).resetReason == s.resetReason
  {
    hide Dispatch, Pump, Finish, LiveReads, LiveWrites, ExpiredReads, ExpiredWrites, EndReads, EndWrites, UnsentBytes;
    match a
    case ReadCall(capacity, deadline) =>
      DispatchFrames(s.(readQ := s.readQ + [PendingRead(s.io.nextOp, capacity, deadline)],
                        io := s.io.(nextOp := s.io.nextOp + 1)));
    case WriteCall(data, deadline) =>
      PumpTold(s.(writeQ := s.writeQ + [PendingWrite(s.io.nextOp, data, 0, deadline, false)],
                  io := s.io.(nextOp := s.io.nextOp + 1)));
    case ShutdownCall =>
    case ResetOp(reason) =>
    case Tick(now) =>
    case SessionLoss =>
  }

  lemma {:induction false} PreludeReason(s: Stream, data: seq<byte>)
    ensures TakePrelude(Charge(s, |data|), data).resetReason == s.resetReason
  {
  }

  lemma {:induction false} ServedReason(s: Stream)
    ensures Settle(Dispatch(s)).resetReason == s.resetReason
  {
    hide Dispatch, Finish;
    DispatchFrames(s);
  }

  lemma {:induction false} ResetReason(s: Stream, reason: Status)
    ensures ResetFor(s, reason).resetReason == s.resetReason
  {
    hide Finish;
  }

  lemma {:induction false} FrameReason(s: Stream, frame: Frame)
    requires !frame.ResetFrame?
    ensures Deliver(s, frame).resetReason == s.resetReason
  {
    hide Dispatch, Pump, Settle, ResetFor, TakePrelude, PreludeShare, Finish;
    match frame
    case Data(offset, length, data) =>
      var t := TakePrelude(Charge(s, |data|), data);
      ResetReason(s, ProtocolError);
      ResetReason(s, ResourceExhausted);
      PreludeReason(s, data);
      ResetReason(t, ProtocolError);
      ServedReason(Buffer(t, data[PreludeShare(s, data)..]));
    case WindowUpdate(consumed, bytes, frames) =>
      var s1 := s.(tx := s.tx.(consumedByPeer := consumed));
      ResetReason(s, ProtocolError);
      ResetReason(s1, ResourceExhausted);
      PumpTold(s1.(tx := s1.tx.(credit := s.tx.credit + bytes,
                                creditFrames := Min((frames + s.tx.creditFrames) % U64, U32 - 1))));
    case Fin(finalOffset) =>
      var s1 := s.(rx := s.rx.(finReceived := true, finalOffset := finalOffset));
      ResetReason(s1, ProtocolError);
      DispatchFrames(s1);
  }

  lemma {:induction false} StepReasoned(s: Stream, a: Action)
    requires Reasoned(s) && Forward(s.state, Step(s, a).state)
    ensures Reasoned(Step(s, a))
  {
    hide Step;
    if !a.Receive? {
      LocalReason(s, a);
    } else {
      DeliverReasoned(s, a.frame);
    }
  }

  lemma {:induction false} DeliverReasoned(s: Stream, frame: Frame)
    requires Reasoned(s) && Forward(s.state, Step(s, Receive(frame)).state)
    ensures Reasoned(Step(s, Receive(frame)))
  {
    hide OnData, OnFin, OnWindowUpdate, Finish;
    if !frame.ResetFrame? {
      FrameReason(s, frame);
    }
  }

  lemma {:induction false} RunReasoned(s: Stream, actions: seq<Action>)
    requires Good(s) && Reasoned(s)
    ensures Reasoned(Run(s, actions))
    decreases |actions|
  {
    hide Good, Moves, Step, Reasoned;
    if actions != [] {
      StepMoves(s, actions[0]);
      MovesGood(s, Step(s, actions[0]));
      StepReasoned(s, actions[0]);
      RunReasoned(Step(s, actions[0]), actions[1..]);
    }
  }

  lemma {:induction false} StartReasoned(p: Setup)
    ensures Reasoned(Start(p)) && Start(p).resetReason == None
  {
  }

  /** What a held connect handler is told, at every step of every run: nothing while it stays
      held; success exactly when the step completed a prelude of two zeros; a clean close when
      the session went or the stream ended cleanly; else a failure, with the reason of the
      peer's RESET if that was the step and gave one, and with no reason otherwise. */
  lemma {:induction false} ConnectTold(p: Setup, actions: seq<Action>, a: Action)
    requires ValidSetup(p)
    ensures var s := Run(Start(p), actions);
            var t := Step(s, a);
            s.gw.handler && !t.gw.handler ==> s.resetReason == None && ConnectDone(Outcome(s, a, t)) in t.io.done
  {
    hide Good, Moves, Start, Run, RxInv, PreludeInv, Reports, Step, Deliver;
    var s := Run(Start(p), actions);
    StartGood(p);
    StartReasoned(p);
    RunMoves(Start(p), actions);
    MovesGood(Start(p), s);
    RunReasoned(Start(p), actions);
    GoodRx(s);
    RxPrelude(s);
    if s.gw.handler {
      GoodHeld(s);
      if a.Receive? {
        DeliverReports(s, a.frame);
        Received(s, a);
      } else {
        LocalReports(s, a);
      }
      ReportsMeans(s, a, Step(s, a));
    }
  }

  lemma {:induction false} Received(s: Stream, a: Action)
    requires a.Receive?
    ensures Step(s, a) == Deliver(s, a.frame)
  {
    hide Deliver;
  }

  lemma {:induction false} ReportsMeans(s: Stream, a: Action, t: Stream)
    requires Reports(s, a, t)
    ensures !t.gw.handler ==> ConnectDone(Outcome(s, a, t)) in t.io.done
  {
    hide Outcome;
  }

  /** A held handler belongs to a live dial. */
  lemma {:induction false} GoodHeld(s: Stream)
    requires Good(s) && s.gw.handler
    ensures Held(s) && !Terminal(s.state)
  {
    hide RxInv, Prompt, TxInv, OpInv;
  }
}

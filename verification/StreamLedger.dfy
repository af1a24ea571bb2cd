/** What the caller's calls and the peer's payloads say about a stream, in every state of every
    run and against any peer. */
module StreamLedger {
  import opened Bytes
  import opened StreamModel
  import opened StreamHistory
  import opened ReceiveWindow
  import opened CreditLedger
  import opened SendSide
  import opened Lifecycle
  import opened StreamRuns
  import opened EndOfStream
  import opened Submissions
  import opened ReadBoundaries

  predicate Kept(s: Stream, calls: seq<Action>, ends: set<nat>) {
    Tracked(s, calls) && Bounded(s, calls, ends) && Thrifty(s)
  }

  // ---- Primitive steps ---------------------------------------------------

  /** A change of fields that no queue, completion, buffer or offered frame reflects. */
  predicate Inward(s: Stream, t: Stream) {
    && t.readQ == s.readQ && t.writeQ == s.writeQ && t.io == s.io
    && t.rx.chunks == s.rx.chunks && t.rx.consumed == s.rx.consumed && t.gw.initiator == s.gw.initiator
    && t.rx.window == s.rx.window && t.rx.next >= s.rx.next
  }

  lemma {:induction false} InwardKept(s: Stream, t: Stream, calls: seq<Action>, ends: set<nat>)
    requires Kept(s, calls, ends) && Inward(s, t)
    ensures Kept(t, calls, ends)
  {
    hide Tracked, Bounded, Thrifty;
    QuietTracked(s, t, calls);
    assert t.io.done == s.io.done + [];
    QuietBounded(s, t, [], calls, ends);
    ThriftyKeeps(s, t);
  }

  lemma {:induction false} SendKept(s: Stream, f: Frame, calls: seq<Action>, ends: set<nat>)
    requires Kept(s, calls, ends) && !f.WindowUpdate?
    ensures Kept(Send(s, f), calls, ends)
  {
    hide Tracked, Bounded, Thrifty;
    QuietTracked(s, Send(s, f), calls);
    assert Send(s, f).io.done == s.io.done + [];
    QuietBounded(s, Send(s, f), [], calls, ends);
    ThriftySend(s, f);
  }

  lemma {:induction false} FinishKept(s: Stream, terminal: StreamState, calls: seq<Action>, ends: set<nat>)
    requires Kept(s, calls, ends) && FrontOnly(s.writeQ)
    ensures Kept(Finish(s, terminal), calls, ends)
  {
    hide Tracked, Bounded, Thrifty, Finish, FrontOnly;
    FinishTracked(s, terminal, calls);
    FinishBounded(s, terminal, calls, ends);
    ThriftyKeeps(s, Finish(s, terminal));
  }

  lemma {:induction false} ResetKept(s: Stream, reason: Status, calls: seq<Action>, ends: set<nat>)
    requires Kept(s, calls, ends) && FrontOnly(s.writeQ)
    ensures Kept(ResetFor(s, reason), calls, ends)
  {
    hide Kept, Finish, FrontOnly;
    if s.state == Reset {
      FinishKept(s, Reset, calls, ends);
    } else {
      SendKept(s, ResetFrame(Some(reason)), calls, ends);
      FinishKept(Send(s, ResetFrame(Some(reason))), Reset, calls, ends);
    }
  }

  lemma {:induction false} SendFinKept(s: Stream, calls: seq<Action>, ends: set<nat>)
    requires Kept(s, calls, ends) && FrontOnly(s.writeQ)
    ensures Kept(SendFin(s), calls, ends)
  {
    hide Kept, Finish, FrontOnly;
    SendKept(s, Fin(s.tx.next), calls, ends);
    FinishKept(Send(s, Fin(s.tx.next)), if s.rx.finReceived then Closed else HalfClosedLocal, calls, ends);
  }

  lemma {:induction false} LossKept(s: Stream, calls: seq<Action>, ends: set<nat>)
    requires Kept(s, calls, ends) && FrontOnly(s.writeQ)
    ensures Kept(FailAll(s), calls, ends)
  {
    hide Tracked, Bounded, Thrifty, FrontOnly, EndReads, EndWrites;
    LossTracked(s, calls);
    LossBounded(s, calls, ends);
    ThriftyKeeps(s, FailAll(s));
  }

  lemma {:induction false} SweptKept(s: Stream, now: nat, calls: seq<Action>, ends: set<nat>)
    requires Kept(s, calls, ends) && FrontOnly(s.writeQ)
    ensures Kept(Swept(s, now), calls, ends)
  {
    hide Tracked, Bounded, Thrifty, FrontOnly, EndReads, EndWrites, ExpiredReads, ExpiredWrites, LiveReads, LiveWrites;
    SweptTracked(s, now, calls);
    SweptBounded(s, now, calls, ends);
    ThriftyKeeps(s, Swept(s, now));
  }

  lemma {:induction false} GoodFront(s: Stream)
    requires Good(s)
    ensures FrontOnly(s.writeQ) && QueueInv(s) && RxInv(s)
  {
    hide RxInv, LifeInv, ConnectInv, SentBytes, WriteBytes, Prefixes, Truthful;
  }

  // ---- Serving reads -----------------------------------------------------

  lemma {:induction false} FrontRead(s: Stream, calls: seq<Action>)
    requires Tracked(s, calls) && s.readQ != []
    ensures ReadOf(s.readQ[0], calls)
  {
    hide InTurn, AllAnswer;
  }

  lemma {:induction false} TakeReadKept(s: Stream, calls: seq<Action>, ends: set<nat>)
    requires RxInv(s) && Kept(s, calls, ends) && s.readQ != [] && s.rx.chunks != []
    ensures Kept(TakeRead(s), calls, ends)
  {
    hide RxInv, Tracked, Bounded, Thrifty;
    FrontRead(s, calls);
    TakeReadBounded(s, calls, ends);
    var chunk := s.rx.chunks[0];
    var count := Min(s.readQ[0].capacity, |chunk|);
    CompleteReadTracked(s, chunk[..count], calls);
    QuietTracked(CompleteRead(s, chunk[..count]), TakeRead(s), calls);
    ThriftyKeeps(s, TakeRead(s));
  }

  lemma {:induction false} UpdateKept(s: Stream, calls: seq<Action>, ends: set<nat>)
    requires RxInv(s) && Kept(s, calls, ends)
    ensures Kept(MaybeUpdate(s), calls, ends)
  {
    hide RxInv, Tracked, Bounded, Thrifty, Sub32, Sub64;
    var t := MaybeUpdate(s);
    UpdateThrifty(s);
    QuietTracked(s, t, calls);
    assert t.io.done == s.io.done + [];
    QuietBounded(s, t, [], calls, ends);
  }

  lemma {:induction false} ServeReadKept(s: Stream, calls: seq<Action>, ends: set<nat>)
    requires RxInv(s) && Kept(s, calls, ends) && s.readQ != [] && s.rx.chunks != []
    ensures Kept(ServeRead(s), calls, ends) && ServeRead(s).writeQ == s.writeQ
  {
    hide RxInv, Kept, Sub32, Sub64;
    TakeReadKept(s, calls, ends);
    TakeReadRx(s);
    UpdateKept(TakeRead(s), calls, ends);
  }

  lemma {:induction false} CompleteReadKept(s: Stream, calls: seq<Action>, ends: set<nat>)
    requires Kept(s, calls, ends) && s.readQ != []
    ensures Kept(CompleteRead(s, []), calls, ends)
  {
    hide Tracked, Bounded, Thrifty;
    CompleteReadTracked(s, [], calls);
    QuietBounded(s, CompleteRead(s, []), [ReadDone(s.readQ[0].id, [], None)], calls, ends);
    ThriftyKeeps(s, CompleteRead(s, []));
  }

  lemma {:induction false} ServeEofKept(s: Stream, calls: seq<Action>, ends: set<nat>)
    requires Kept(s, calls, ends) && FrontOnly(s.writeQ) && s.readQ != []
    ensures Kept(ServeEof(s), calls, ends) && FrontOnly(ServeEof(s).writeQ)
  {
    hide Kept, Finish;
    CompleteReadKept(s, calls, ends);
    FinishKept(CompleteRead(s, []), Closed, calls, ends);
  }

  lemma {:induction false} DispatchKept(s: Stream, calls: seq<Action>, ends: set<nat>)
    requires RxInv(s) && s.state != Reset && Kept(s, calls, ends) && FrontOnly(s.writeQ)
    ensures Kept(Dispatch(s), calls, ends) && FrontOnly(Dispatch(s).writeQ)
    decreases |s.readQ|
  {
    hide RxInv, Kept, FrontOnly, ServeRead, ServeEof;
    if s.readQ != [] {
      ServeFrames(s);
      ServeRx(s);
      if s.rx.chunks != [] {
        ServeReadKept(s, calls, ends);
        DispatchKept(ServeRead(s), calls, ends);
      } else if AtEnd(s.rx) {
        ServeEofKept(s, calls, ends);
        DispatchKept(ServeEof(s), calls, ends);
      }
    }
  }

  lemma {:induction false} ServedKept(s: Stream, calls: seq<Action>, ends: set<nat>)
    requires Good(s) && s.state != Reset && Kept(s, calls, ends)
    ensures Kept(Settle(Dispatch(s)), calls, ends)
  {
    hide Good, RxInv, Kept, FrontOnly, Dispatch, Finish;
    GoodFront(s);
    DispatchKept(s, calls, ends);
    var t := Dispatch(s);
    FinishKept(t, if t.tx.finSent then Closed else HalfClosedRemote, calls, ends);
  }

  // ---- The pump ----------------------------------------------------------

  lemma {:induction false} SendChunkKept(s: Stream, calls: seq<Action>, ends: set<nat>)
    requires Kept(s, calls, ends) && s.writeQ != [] && s.writeQ[0].offset < |s.writeQ[0].data|
    requires s.tx.credit > 0 && s.tx.creditFrames > 0
    ensures Kept(SendChunk(s), calls, ends)
  {
    hide Tracked, Bounded, Thrifty, NextData;
    var t := SendChunk(s);
    RewriteTracked(s, t, calls);
    assert t.io.done == s.io.done + [];
    QuietBounded(s, t, [], calls, ends);
    DataFrame(s);
    ThriftySend(s, NextData(s));
    ThriftyKeeps(Send(s, NextData(s)), t);
  }

  lemma {:induction false} DataFrame(s: Stream)
    requires s.writeQ != [] && s.writeQ[0].offset < |s.writeQ[0].data|
    ensures NextData(s).Data?
  {
  }

  lemma {:induction false} CompleteWriteKept(s: Stream, error: Option<IoError>, calls: seq<Action>, ends: set<nat>)
    requires Kept(s, calls, ends) && s.writeQ != [] && (error.None? ==> s.writeQ[0].offset == |s.writeQ[0].data|)
    ensures Kept(CompleteWrite(s, error), calls, ends)
  {
    hide Tracked, Bounded, Thrifty, AdmittedPrefix;
    var t := CompleteWrite(s, error);
    CompleteWriteTracked(s, error, calls);
    QuietBounded(s, t, [WriteDone(s.writeQ[0].id, AdmittedPrefix(s.writeQ[0]), error)], calls, ends);
    ThriftyKeeps(s, t);
  }

  lemma {:induction false} PumpKept(s: Stream, calls: seq<Action>, ends: set<nat>)
    requires Good(s) && Kept(s, calls, ends)
    ensures Kept(Pump(s), calls, ends)
    decreases PumpWork(s.writeQ)
  {
    hide Good, Kept, Leads, RxInv, FrontOnly, Finish, ResetFor, AdmittedPrefix, NextData, SendFin;
    if !Terminal(s.state) && s.writeQ != [] {
      GoodFront(s);
      if s.writeQ[0].offset < |s.writeQ[0].data| {
        if s.tx.credit != 0 && s.tx.creditFrames != 0 {
          if Verdict(s.io) == Admitted {
            SendChunkLeads(s);
            LeadsGood(s, SendChunk(s));
            SendChunkKept(s, calls, ends);
            PumpKept(SendChunk(s), calls, ends);
          } else {
            RefusedKept(s, calls, ends);
          }
        }
      } else {
        var s1 := CompleteWrite(s, None);
        CompleteWriteLeads(s, None);
        LeadsGood(s, s1);
        CompleteWriteKept(s, None, calls, ends);
        if s.writeQ[0].finAfter {
          GoodFront(s1);
          SendFinKept(s1, calls, ends);
        } else {
          PumpKept(s1, calls, ends);
        }
      }
    }
  }

  /** A DATA frame the session did not admit. */
  lemma {:induction false} RefusedKept(s: Stream, calls: seq<Action>, ends: set<nat>)
    requires Good(s) && Kept(s, calls, ends) && s.writeQ != [] && s.writeQ[0].offset < |s.writeQ[0].data|
    requires Verdict(s.io) != Admitted
    ensures var s1 := Send(s, NextData(s));
            && Kept(s1, calls, ends)
            && Kept(ResetFor(CompleteWrite(s1, Some(SendFailed)), Unavailable), calls, ends)
  {
    hide Good, Kept, Leads, RxInv, FrontOnly, ResetFor, AdmittedPrefix, NextData;
    var s1 := Send(s, NextData(s));
    DataFrame(s);
    SendKept(s, NextData(s), calls, ends);
    RefusedLeads(s, NextData(s));
    LeadsGood(s, s1);
    CompleteWriteLeads(s1, Some(SendFailed));
    LeadsGood(s1, CompleteWrite(s1, Some(SendFailed)));
    CompleteWriteKept(s1, Some(SendFailed), calls, ends);
    GoodFront(CompleteWrite(s1, Some(SendFailed)));
    ResetKept(CompleteWrite(s1, Some(SendFailed)), Unavailable, calls, ends);
  }

  // ---- Caller operations -------------------------------------------------

  /** The call an action makes, if any. */
  function CallOf(a: Action): seq<Action> {
    if IsCall(a) then [a] else []
  }

  /** The offset at which the payload of an action ends, if it has one. */
  function EndOf(a: Action): set<nat> {
    if a.Receive? && a.frame.Data? then {a.frame.offset + |a.frame.data|} else {}
  }

  lemma {:induction false} RejectReadKept(s: Stream, a: Action, error: IoError, calls: seq<Action>, ends: set<nat>)
    requires Kept(s, calls, ends) && a.ReadCall?
    ensures Kept(RejectRead(s, error), calls + [a], ends)
  {
    hide InTurn, Bounded, Thrifty;
    var t := RejectRead(s, error);
    var c := ReadDone(s.io.nextOp, [], Some(error));
    AnsweredTracked(s, t, c, a, calls);
    QuietBounded(s, t, [c], calls, ends);
    BoundedMore(t, calls, calls + [a], ends, ends);
    ThriftyKeeps(s, t);
  }

  lemma {:induction false} EndWriteCallKept(s: Stream, a: Action, error: Option<IoError>, calls: seq<Action>,
                                            ends: set<nat>)
    requires Kept(s, calls, ends) && a.WriteCall? && (error.None? ==> a.data == [])
    ensures Kept(EndWriteCall(s, error), calls + [a], ends)
  {
    hide InTurn, Bounded, Thrifty;
    var t := EndWriteCall(s, error);
    var c := WriteDone(s.io.nextOp, [], error);
    AnsweredTracked(s, t, c, a, calls);
    QuietBounded(s, t, [c], calls, ends);
    BoundedMore(t, calls, calls + [a], ends, ends);
    ThriftyKeeps(s, t);
  }

  /** A call put in its queue. */
  lemma {:induction false} PushedKept(s: Stream, t: Stream, a: Action, calls: seq<Action>, ends: set<nat>)
    requires Kept(s, calls, ends) && Tracked(t, calls + [a])
    requires t == s.(readQ := t.readQ, writeQ := t.writeQ, io := s.io.(nextOp := t.io.nextOp))
    ensures Kept(t, calls + [a], ends)
  {
    hide Tracked, Bounded, Thrifty;
    assert t.io.done == s.io.done + [];
    QuietBounded(s, t, [], calls, ends);
    BoundedMore(t, calls, calls + [a], ends, ends);
    ThriftyKeeps(s, t);
  }

  lemma {:induction false} ReadCallKept(s: Stream, capacity: nat, deadline: Option<nat>, calls: seq<Action>,
                                        ends: set<nat>)
    requires Good(s) && Kept(s, calls, ends)
    ensures Kept(AsyncRead(s, capacity, deadline), calls + [ReadCall(capacity, deadline)], ends)
  {
    hide Good, Leads, Tracked, Bounded, Thrifty, RxInv, FrontOnly, Dispatch;
    var a := ReadCall(capacity, deadline);
    RejectReadKept(s, a, ReadBufferEmpty, calls, ends);
    RejectReadKept(s, a, StreamReset, calls, ends);
    RejectReadKept(s, a, ReadLimit, calls, ends);
    if s.state != Reset {
      var s1 := s.(readQ := s.readQ + [PendingRead(s.io.nextOp, capacity, deadline)],
                   io := s.io.(nextOp := s.io.nextOp + 1));
      PushReadLeads(s, capacity, deadline);
      LeadsGood(s, s1);
      GoodFront(s1);
      PushReadTracked(s, capacity, deadline, calls);
      PushedKept(s, s1, a, calls, ends);
      DispatchKept(s1, calls + [a], ends);
    }
  }

  lemma {:induction false} WriteCallKept(s: Stream, data: seq<byte>, deadline: Option<nat>, calls: seq<Action>,
                                         ends: set<nat>)
    requires Good(s) && Kept(s, calls, ends)
    ensures Kept(AsyncWrite(s, data, deadline), calls + [WriteCall(data, deadline)], ends)
  {
    hide Good, Leads, Tracked, Bounded, Thrifty, Pump, UnsentBytes;
    var a := WriteCall(data, deadline);
    EndWriteCallKept(s, a, Some(NotWritable), calls, ends);
    EndWriteCallKept(s, a, Some(WriteAfterFin), calls, ends);
    EndWriteCallKept(s, a, Some(WriteBacklogFull), calls, ends);
    EndWriteCallKept(s, a, Some(WriteLimit), calls, ends);
    if data == [] {
      EndWriteCallKept(s, a, None, calls, ends);
    } else if !Terminal(s.state) && !s.tx.finSent {
      var s1 := s.(writeQ := s.writeQ + [PendingWrite(s.io.nextOp, data, 0, deadline, false)],
                   io := s.io.(nextOp := s.io.nextOp + 1));
      PushWriteLeads(s, data, deadline);
      LeadsGood(s, s1);
      PushWriteTracked(s, data, deadline, calls);
      PushedKept(s, s1, a, calls, ends);
      PumpKept(s1, calls + [a], ends);
    }
  }

  lemma {:induction false} ShutdownKept(s: Stream, calls: seq<Action>, ends: set<nat>)
    requires Good(s) && Kept(s, calls, ends)
    ensures Kept(ShutdownWrite(s), calls, ends)
  {
    hide Good, Kept, RxInv, FrontOnly, SendFin;
    GoodFront(s);
    if !ShutdownRefused(s) {
      var s1 := s.(tx := s.tx.(finSent := true));
      InwardKept(s, s1, calls, ends);
      if s.writeQ == [] {
        SendKept(s1, Fin(s.tx.next), calls, ends);
        SendFinKept(s1, calls, ends);
      } else {
        MarkKept(s1, calls, ends);
      }
    }
  }

  lemma {:induction false} MarkKept(s: Stream, calls: seq<Action>, ends: set<nat>)
    requires Kept(s, calls, ends) && s.writeQ != []
    ensures Kept(s.(writeQ := s.writeQ[|s.writeQ| - 1 := s.writeQ[|s.writeQ| - 1].(finAfter := true)]), calls, ends)
  {
    hide Tracked, Bounded, Thrifty;
    var t := s.(writeQ := s.writeQ[|s.writeQ| - 1 := s.writeQ[|s.writeQ| - 1].(finAfter := true)]);
    RewriteTracked(s, t, calls);
    assert t.io.done == s.io.done + [];
    QuietBounded(s, t, [], calls, ends);
    ThriftyKeeps(s, t);
  }

  lemma {:induction false} LocalKept(s: Stream, a: Action, calls: seq<Action>, ends: set<nat>)
    requires Good(s) && Kept(s, calls, ends) && !a.Receive?
    ensures Kept(Step(s, a), calls + CallOf(a), ends)
  {
    hide Good, Kept, Leads, RxInv, FrontOnly, AsyncRead, AsyncWrite, ShutdownWrite, Swept, FailAll, ResetFor;
    assert calls + [] == calls;
    GoodFront(s);
    match a
    case ReadCall(capacity, deadline) => ReadCallKept(s, capacity, deadline, calls, ends);
    case WriteCall(data, deadline) => WriteCallKept(s, data, deadline, calls, ends);
    case ShutdownCall => ShutdownKept(s, calls, ends);
    case ResetOp(reason) => ResetKept(s, reason, calls, ends);
    case Tick(now) =>
      SweptKept(s, now, calls, ends);
      SweptLeads(s, now);
      LeadsGood(s, Swept(s, now));
      GoodFront(Swept(s, now));
      ResetKept(Swept(s, now), DeadlineExceeded, calls, ends);
    case SessionLoss => LossKept(s, calls, ends);
  }

  // ---- Frames ------------------------------------------------------------

  /** A payload in the buffer, behind a prelude that is complete. */
  lemma {:induction false} BufferedAt(t: Stream)
    requires RxInv(t) && t.rx.chunks != [] && !PreludeBroken(t.gw)
    ensures Base(t.gw) + t.rx.consumed + |Flatten(t.rx.chunks)| == t.rx.next
  {
    hide ReadBytes, Flatten;
  }

  lemma {:induction false} PreludeDone(s: Stream, data: seq<byte>)
    ensures var t := TakePrelude(Charge(s, |data|), data);
            t.io == s.io || t.io == s.io.(done := s.io.done + [ConnectDone(Connected)])
  {
  }

  lemma {:induction false} PreludeKept(s: Stream, data: seq<byte>, calls: seq<Action>, ends: set<nat>)
    requires Kept(s, calls, ends)
    ensures Kept(TakePrelude(Charge(s, |data|), data), calls, ends)
  {
    hide Tracked, Bounded, Thrifty, TakePrelude;
    var t := TakePrelude(Charge(s, |data|), data);
    PreludeFrame(s, data);
    PreludeDone(s, data);
    if t.io == s.io {
      InwardKept(s, t, calls, ends);
    } else {
      var s1 := s.(gw := s.gw.(handler := true, fired := false));
      QuietTracked(s, s1, calls);
      FireTracked(s1, Connected, calls);
      QuietTracked(FireConnect(s1, Connected), t, calls);
      QuietBounded(s, t, [ConnectDone(Connected)], calls, ends);
      ThriftyKeeps(s, t);
    }
  }

  lemma {:induction false} BufferKept(s: Stream, t: Stream, data: seq<byte>, calls: seq<Action>, ends: set<nat>)
    requires Kept(s, calls, ends) && t == Buffer(s, data) && RxInv(t) && !PreludeBroken(t.gw)
    requires t.rx.next in ends
    ensures Kept(t, calls, ends)
  {
    hide Tracked, Bounded, Thrifty, RxInv, Flatten;
    QuietTracked(s, t, calls);
    ThriftyKeeps(s, t);
    if data != [] {
      BufferedAt(t);
      FlattenAppend(s.rx.chunks, data);
    }
    BufferBounded(s, t, data, calls, ends);
  }

  lemma {:induction false} AcceptKept(s: Stream, data: seq<byte>, calls: seq<Action>, ends: set<nat>)
    requires Good(s) && Kept(s, calls, ends) && !Terminal(s.state)
    requires |data| <= s.rx.remaining && s.rx.remainingFrames != 0 && s.rx.next + |data| in ends
    ensures Kept(AcceptData(s, data), calls, ends)
  {
    hide Good, Kept, RxInv, FrontOnly, Moves, Settle, Dispatch, ResetFor, TakePrelude, PreludeShare;
    var t := TakePrelude(Charge(s, |data|), data);
    GoodFront(s);
    PreludeFrame(s, data);
    PreludeKept(s, data, calls, ends);
    if AwaitsPrelude(s) && PreludeBroken(t.gw) {
      ResetKept(t, ProtocolError, calls, ends);
    } else {
      var u := Buffer(t, data[PreludeShare(s, data)..]);
      BufferLeads(s, data);
      BufferLive(s, data);
      MovesGood(s, u);
      GoodFront(u);
      NotBroken(u);
      BufferKept(t, u, data[PreludeShare(s, data)..], calls, ends);
      ServedKept(u, calls, ends);
    }
  }

  lemma {:induction false} UpdatedKept(s: Stream, consumed: nat, bytes: nat, frames: nat, calls: seq<Action>,
                                       ends: set<nat>)
    requires Good(s) && Kept(s, calls, ends) && !Terminal(s.state)
    ensures Kept(OnWindowUpdate(s, consumed, bytes, frames), calls, ends)
  {
    hide Good, Kept, RxInv, FrontOnly, Moves, ResetFor, Pump;
    var s1 := s.(tx := s.tx.(consumedByPeer := consumed));
    var s2 := s1.(tx := s1.tx.(credit := s.tx.credit + bytes,
                               creditFrames := Min((frames + s.tx.creditFrames) % U64, U32 - 1)));
    GoodFront(s);
    ResetKept(s, ProtocolError, calls, ends);
    InwardKept(s, s1, calls, ends);
    ResetKept(s1, ResourceExhausted, calls, ends);
    InwardKept(s, s2, calls, ends);
    RetuneLeads(s, s2);
    MovesGood(s, s2);
    PumpKept(s2, calls, ends);
  }

  lemma {:induction false} FinKept(s: Stream, finalOffset: nat, calls: seq<Action>, ends: set<nat>)
    requires Good(s) && Kept(s, calls, ends) && !Terminal(s.state)
    ensures Kept(OnFin(s, finalOffset), calls, ends)
  {
    hide Good, Kept, RxInv, FrontOnly, Moves, ResetFor, Dispatch, EndOfReceive;
    var s1 := s.(rx := s.rx.(finReceived := true, finalOffset := finalOffset));
    GoodFront(s);
    InwardKept(s, s1, calls, ends);
    if finalOffset != s.rx.next {
      ResetKept(s1, ProtocolError, calls, ends);
    } else {
      RetuneLeads(s, s1);
      MovesGood(s, s1);
      DispatchFrames(s1);
      ServedKept(s1, calls, ends);
    }
  }

  lemma {:induction false} DeliverKept(s: Stream, frame: Frame, calls: seq<Action>, ends: set<nat>)
    requires Good(s) && Kept(s, calls, ends) && EndOf(Receive(frame)) <= ends
    ensures Kept(Deliver(s, frame), calls, ends)
  {
    hide Good, Kept, RxInv, FrontOnly, OnWindowUpdate, OnFin, AcceptData, ResetFor, Finish;
    GoodFront(s);
    if !Terminal(s.state) {
      match frame
      case Data(offset, length, data) =>
        ResetKept(s, ProtocolError, calls, ends);
        ResetKept(s, ResourceExhausted, calls, ends);
        if length == |data| && offset == s.rx.next && |data| <= s.rx.remaining && s.rx.remainingFrames != 0 {
          AcceptKept(s, data, calls, ends);
        }
      case WindowUpdate(consumed, bytes, frames) =>
        UpdatedKept(s, consumed, bytes, frames, calls, ends);
      case Fin(finalOffset) =>
        FinKept(s, finalOffset, calls, ends);
      case ResetFrame(reason) =>
        var s1 := s.(resetReason := KnownReason(s, reason));
        InwardKept(s, s1, calls, ends);
        FinishKept(s1, Reset, calls, ends);
    }
  }

  // ---- Runs --------------------------------------------------------------

  lemma {:induction false} KeptMore(s: Stream, calls: seq<Action>, ends: set<nat>, later: set<nat>)
    requires Kept(s, calls, ends) && ends <= later
    ensures Kept(s, calls, later)
  {
    hide Tracked, Bounded, Thrifty;
    BoundedMore(s, calls, calls, ends, later);
  }

  lemma {:induction false} StepKept(s: Stream, a: Action, calls: seq<Action>, ends: set<nat>)
    requires Good(s) && Kept(s, calls, ends)
    ensures Kept(Step(s, a), calls + CallOf(a), ends + EndOf(a))
  {
    hide Good, Kept, Deliver;
    if a.Receive? {
      KeptMore(s, calls, ends, ends + EndOf(a));
      DeliverKept(s, a.frame, calls, ends + EndOf(a));
      assert calls + [] == calls;
    } else {
      hide Step;
      LocalKept(s, a, calls, ends);
      assert ends + {} == ends;
    }
  }

  lemma {:induction false} RunKept(s: Stream, actions: seq<Action>, calls: seq<Action>, ends: set<nat>)
    requires Good(s) && Kept(s, calls, ends)
    ensures Kept(Run(s, actions), calls + Calls(actions), ends + PayloadEnds(actions))
    decreases |actions|
  {
    hide Good, Kept, Moves, Step;
    if actions == [] {
      assert calls + [] == calls && ends + {} == ends;
    } else {
      var a := actions[0];
      StepKept(s, a, calls, ends);
      StepMoves(s, a);
      MovesGood(s, Step(s, a));
      RunKept(Step(s, a), actions[1..], calls + CallOf(a), ends + EndOf(a));
      assert calls + CallOf(a) + Calls(actions[1..]) == calls + Calls(actions);
      assert ends + EndOf(a) + PayloadEnds(actions[1..]) == ends + PayloadEnds(actions);
    }
  }

  lemma {:induction false} StartKept(p: Setup)
    requires ValidSetup(p)
    ensures Kept(Start(p), [], {})
  {
    hide Offer;
    var s := NewStream(p.cfg, p.window, p.windowFrames, p.gw, if p.gw.initiator then Opening else Open, p.script);
    var s1 := s.(tx := s.tx.(credit := p.credit, creditFrames := p.creditFrames));
    EmptyKept(s);
    EmptyKept(s1);
    SendGrantKept(s1, WindowUpdate(0, p.window, p.windowFrames));
  }

  lemma {:induction false} EmptyKept(s: Stream)
    requires s.readQ == [] && s.writeQ == [] && s.rx.chunks == [] && s.io == Io(s.io.script, [], [], [], 0)
    ensures Kept(s, [], {})
  {
  }

  lemma {:induction false} SendGrantKept(s: Stream, f: Frame)
    requires Kept(s, [], {}) && f.WindowUpdate? && f.bytes == s.rx.window
    ensures Kept(Send(s, f), [], {})
  {
    hide Tracked, Bounded, Thrifty;
    QuietTracked(s, Send(s, f), []);
    assert Send(s, f).io.done == s.io.done + [];
    QuietBounded(s, Send(s, f), [], [], {});
    ThriftySend(s, f);
  }

  /** In every state of every run against any peer: operation `id` is call number `id`; a read
      was given no more than its buffer holds; a write was told a prefix of its data, and all of
      it unless it failed; what is queued is what was submitted; both move bytes in the order of
      the calls; a read that gave bytes filled its buffer or stopped where a payload stopped; and
      no window update was offered before it was due. */
  lemma {:induction false} CallsAnswered(p: Setup, actions: seq<Action>)
    requires ValidSetup(p)
    ensures var s := Run(Start(p), actions);
            && Books(s, Calls(actions)) && InTurn(s)
            && AllFilled(s.io.done, Base(p.gw), Calls(actions), PayloadEnds(actions))
            && Thrifty(s)
  {
    hide Good, Moves, Start, Run, Books, InTurn, AllFilled, Ending, Thrifty;
    StartKept(p);
    StartGood(p);
    RunKept(Start(p), actions, [], {});
    RunMoves(Start(p), actions);
    MovesInitiator(Start(p), Run(Start(p), actions));
    StartInitiator(p);
    assert [] + Calls(actions) == Calls(actions) && {} + PayloadEnds(actions) == PayloadEnds(actions);
  }

  lemma {:induction false} MovesInitiator(s: Stream, t: Stream)
    requires Moves(s, t)
    ensures t.gw.initiator == s.gw.initiator
  {
    hide Good, Continues;
  }

  lemma {:induction false} StartInitiator(p: Setup)
    ensures Start(p).gw == p.gw
  {
  }
}

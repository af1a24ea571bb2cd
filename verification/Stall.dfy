/** Back-pressure: who retries a DATA frame that the session would not take. */
module Stall {
  import opened Bytes
  import opened StreamModel
  import opened StreamHistory
  import opened ReceiveWindow
  import opened CreditLedger
  import opened SendSide
  import opened StreamRuns
  import opened ReliableLink

  // ---- Why a stream with credit has bytes queued -------------------------

  /** The session refused a DATA frame at this offset. */
  predicate Refused(refused: seq<Frame>, offset: nat) {
    exists i :: 0 <= i < |refused| && refused[i].Data? && refused[i].offset == offset
  }

  /** If a live stream has writes queued and both credits, the session refused its next
      DATA frame; as the stream is live, the answer was to try later. */
  predicate Blocked(s: Stream) {
    !Terminal(s.state) && s.writeQ != [] && s.tx.credit > 0 && s.tx.creditFrames > 0 ==>
      Refused(s.io.refused, s.tx.next)
  }

  lemma {:induction false} RefusedGrows(x: seq<Frame>, y: seq<Frame>, offset: nat)
    requires Refused(x, offset) && x <= y
    ensures Refused(y, offset)
  {
    var i :| 0 <= i < |x| && x[i].Data? && x[i].offset == offset;
    assert y[i] == x[i];
  }

  /** A step that does not pump. */
  predicate Idles(s: Stream, t: Stream) {
    && t.tx.next == s.tx.next && t.tx.credit == s.tx.credit && t.tx.creditFrames == s.tx.creditFrames
    && s.io.refused <= t.io.refused
    && (t.writeQ != [] && !Terminal(t.state) ==> s.writeQ != [] && !Terminal(s.state))
  }

  lemma {:induction false} IdlesBlocked(s: Stream, t: Stream)
    requires Blocked(s) && Idles(s, t)
    ensures Blocked(t)
  {
    hide Refused;
    if Refused(s.io.refused, s.tx.next) {
      RefusedGrows(s.io.refused, t.io.refused, s.tx.next);
    }
  }

  /** The pump stops with credit and bytes left only when the session would block. */
  lemma {:induction false} PumpBlocks(s: Stream)
    requires !Terminal(s.state)
    ensures Blocked(Pump(s))
    decreases PumpWork(s.writeQ)
  {
    hide Finish, AdmittedPrefix;
    if s.writeQ != [] {
      if s.writeQ[0].offset < |s.writeQ[0].data| {
        if s.tx.credit != 0 && s.tx.creditFrames != 0 {
          if Verdict(s.io) == Admitted {
            hide NextData;
            PumpBlocks(SendChunk(s));
          } else if Verdict(s.io) == WouldBlock {
            var t := Send(s, NextData(s));
            assert t.io.refused[|s.io.refused|] == NextData(s);
          }
        }
      } else if !s.writeQ[0].finAfter {
        PumpBlocks(CompleteWrite(s, None));
      }
    }
  }

  lemma {:induction false} ServeIdles(s: Stream)
    requires s.readQ != []
    ensures s.rx.chunks != [] ==> Idles(s, ServeRead(s))
    ensures Idles(s, ServeEof(s))
  {
    hide Finish, Sub32, Sub64;
  }

  lemma {:induction false} DispatchIdles(s: Stream)
    ensures Idles(s, Dispatch(s))
    decreases |s.readQ|
  {
    hide ServeRead, ServeEof;
    if s.readQ != [] {
      ServeFrames(s);
      ServeIdles(s);
      if s.rx.chunks != [] {
        DispatchIdles(ServeRead(s));
      } else if AtEnd(s.rx) {
        DispatchIdles(ServeEof(s));
      }
    }
  }

  lemma {:induction false} LocalBlocked(s: Stream, a: Action)
    requires Blocked(s) && !a.Receive?
    ensures Blocked(Step(s, a))
  {
    hide Blocked, Dispatch, Pump, Finish, LiveReads, LiveWrites, ExpiredReads, ExpiredWrites, EndReads, EndWrites,
      UnsentBytes;
    match a
    case ReadCall(capacity, deadline) =>
      DispatchIdles(s.(readQ := s.readQ + [PendingRead(s.io.nextOp, capacity, deadline)],
                       io := s.io.(nextOp := s.io.nextOp + 1)));
      IdlesBlocked(s, Step(s, a));
    case WriteCall(data, deadline) =>
      if Terminal(s.state) {
        IdlesBlocked(s, Step(s, a));
      } else {
        PumpBlocks(s.(writeQ := s.writeQ + [PendingWrite(s.io.nextOp, data, 0, deadline, false)],
                      io := s.io.(nextOp := s.io.nextOp + 1)));
        IdlesBlocked(s, EndWriteCall(s, None));
        IdlesBlocked(s, EndWriteCall(s, Some(WriteAfterFin)));
        IdlesBlocked(s, EndWriteCall(s, Some(WriteBacklogFull)));
        IdlesBlocked(s, EndWriteCall(s, Some(WriteLimit)));
      }
    case Tick(now) =>
      NoneLeft(now);
      IdlesBlocked(s, Step(s, a));
    case _ => IdlesBlocked(s, Step(s, a));
  }

  lemma {:induction false} NoneLeft(now: nat)
    ensures LiveWrites([], now) == []
  {
  }

  lemma {:induction false} ResetIdles(s: Stream, reason: Status)
    ensures Idles(s, ResetFor(s, reason))
  {
    hide Finish;
  }

  lemma {:induction false} AcceptIdles(s: Stream, data: seq<byte>)
    requires !Terminal(s.state)
    ensures Idles(s, AcceptData(s, data))
  {
    hide Dispatch, Finish, TakePrelude, PreludeShare, ResetFor;
    PreludeFrame(s, data);
    ResetIdles(TakePrelude(Charge(s, |data|), data), ProtocolError);
    DispatchIdles(Buffer(TakePrelude(Charge(s, |data|), data), data[PreludeShare(s, data)..]));
  }

  lemma {:induction false} DeliverBlocked(s: Stream, frame: Frame)
    requires Blocked(s)
    ensures Blocked(Deliver(s, frame))
  {
    hide Blocked, Dispatch, Pump, Finish, AcceptData, ResetFor;
    if Terminal(s.state) {
      return;
    }
    ResetIdles(s, ProtocolError);
    ResetIdles(s, ResourceExhausted);
    match frame
    case Data(offset, length, data) =>
      AcceptIdles(s, data);
      IdlesBlocked(s, Deliver(s, frame));
    case WindowUpdate(consumed, bytes, frames) =>
      PumpBlocks(s.(tx := s.tx.(consumedByPeer := consumed, credit := s.tx.credit + bytes,
                                creditFrames := Min((frames + s.tx.creditFrames) % U64, U32 - 1))));
      IdlesBlocked(s, ResetFor(s, ProtocolError));
      ResetIdles(s.(tx := s.tx.(consumedByPeer := consumed)), ResourceExhausted);
      IdlesBlocked(s, ResetFor(s.(tx := s.tx.(consumedByPeer := consumed)), ResourceExhausted));
    case Fin(finalOffset) =>
      ResetIdles(s.(rx := s.rx.(finReceived := true, finalOffset := finalOffset)), ProtocolError);
      DispatchIdles(s.(rx := s.rx.(finReceived := true, finalOffset := finalOffset)));
      IdlesBlocked(s, Deliver(s, frame));
    case ResetFrame(reason) => IdlesBlocked(s, Deliver(s, frame));
  }

  lemma {:induction false} RunBlocked(s: Stream, actions: seq<Action>)
    requires Blocked(s)
    ensures Blocked(Run(s, actions))
    decreases |actions|
  {
    hide Blocked, Step;
    if actions != [] {
      var a := actions[0];
      assert Blocked(Step(s, a)) by {
        if a.Receive? {
          DeliverBlocked(s, a.frame);
          ReceiveStep(s, a.frame);
        } else {
          LocalBlocked(s, a);
        }
      }
      RunBlocked(Step(s, a), actions[1..]);
    }
  }

  lemma {:induction false} ReceiveStep(s: Stream, frame: Frame)
    ensures Step(s, Receive(frame)) == Deliver(s, frame)
  {
  }

  /** In every run against any peer: a live stream that has writes queued and both credits
      was stopped by the session's back-pressure and by nothing else. */
  lemma {:induction false} OnlyBackPressure(p: Setup, actions: seq<Action>)
    ensures Blocked(Run(Start(p), actions))
  {
    hide Blocked, Run, Start;
    StartBlocked(p);
    RunBlocked(Start(p), actions);
  }

  lemma {:induction false} StartBlocked(p: Setup)
    ensures Blocked(Start(p))
  {
  }

  // ---- What can still move it --------------------------------------------

  /** The frames sent since hold no DATA. */
  predicate NoData(s: Stream, t: Stream) {
    s.io.sent <= t.io.sent && forall i :: |s.io.sent| <= i < |t.io.sent| ==> !t.io.sent[i].Data?
  }

  /** The frames sent since hold no grant. */
  predicate NoGrant(s: Stream, t: Stream) {
    s.io.sent <= t.io.sent && forall i :: |s.io.sent| <= i < |t.io.sent| ==> !t.io.sent[i].WindowUpdate?
  }

  lemma {:induction false} ServeNoData(s: Stream)
    requires s.readQ != []
    ensures s.rx.chunks != [] ==> NoData(s, ServeRead(s))
    ensures ServeEof(s).io.sent == s.io.sent && ServeEof(s).rx == s.rx
  {
    hide Finish, Sub32, Sub64;
  }

  /** Serving reads sends grants at most, and none with nothing buffered. */
  lemma {:induction false} DispatchNoData(s: Stream)
    ensures NoData(s, Dispatch(s))
    ensures s.rx.chunks == [] ==> Dispatch(s).io.sent == s.io.sent && Dispatch(s).rx == s.rx
    decreases |s.readQ|
  {
    hide ServeRead, ServeEof;
    if s.readQ != [] {
      ServeFrames(s);
      ServeNoData(s);
      if s.rx.chunks != [] {
        DispatchNoData(ServeRead(s));
      } else if AtEnd(s.rx) {
        DispatchNoData(ServeEof(s));
      }
    }
  }

  /** Writing sends no grant. */
  lemma {:induction false} PumpNoGrant(s: Stream)
    ensures NoGrant(s, Pump(s)) && Pump(s).rx == s.rx
    decreases PumpWork(s.writeQ)
  {
    hide Finish, AdmittedPrefix, NoGrant, NextData, ResetFor;
    SelfNoGrant(s);
    if !Terminal(s.state) && s.writeQ != [] {
      if s.writeQ[0].offset < |s.writeQ[0].data| {
        OfferNoGrant(s);
        if s.tx.credit != 0 && s.tx.creditFrames != 0 {
          if Verdict(s.io) == Admitted {
            PumpNoGrant(SendChunk(s));
            NoGrantOn(s, SendChunk(s), Pump(s));
          } else {
            var s1 := CompleteWrite(Send(s, NextData(s)), Some(SendFailed));
            EndQuietly(s1);
            NoGrantOn(s, Send(s, NextData(s)), s1);
            NoGrantOn(s, s1, ResetFor(s1, Unavailable));
          }
        }
      } else {
        var s1 := CompleteWrite(s, None);
        EndQuietly(s1);
        if s.writeQ[0].finAfter {
          NoGrantOn(s, s1, SendFin(s1));
        } else {
          PumpNoGrant(s1);
          NoGrantOn(s, s1, Pump(s));
        }
      }
    }
  }

  lemma {:induction false} SelfNoGrant(s: Stream)
    ensures forall t: Stream :: t.io.sent == s.io.sent ==> NoGrant(s, t)
  {
  }

  lemma {:induction false} OfferNoGrant(s: Stream)
    requires s.writeQ != [] && s.writeQ[0].offset < |s.writeQ[0].data|
    ensures NoGrant(s, Send(s, NextData(s)))
    ensures s.tx.credit > 0 && s.tx.creditFrames > 0 ==> NoGrant(s, SendChunk(s)) && SendChunk(s).rx == s.rx
    ensures forall t: Stream :: t.io.sent == Send(s, NextData(s)).io.sent ==> NoGrant(Send(s, NextData(s)), t)
  {
  }

  /** The frames that end a stream are no grants. */
  lemma {:induction false} EndQuietly(s: Stream)
    ensures NoGrant(s, SendFin(s)) && SendFin(s).rx == s.rx
    ensures NoGrant(s, ResetFor(s, Unavailable)) && ResetFor(s, Unavailable).rx == s.rx
  {
    hide Finish;
  }

  lemma {:induction false} NoGrantOn(s: Stream, t: Stream, u: Stream)
    requires NoGrant(s, t) && NoGrant(t, u)
    ensures NoGrant(s, u)
  {
    forall i | |s.io.sent| <= i < |u.io.sent| ensures !u.io.sent[i].WindowUpdate? {
      if i < |t.io.sent| {
        assert u.io.sent[i] == t.io.sent[i];
      }
    }
  }

  /** After shutdown_write only a WINDOW_UPDATE makes a stream send DATA. */
  lemma {:induction false} OnlyUpdatesMove(s: Stream, a: Action)
    requires s.tx.finSent && !(a.Receive? && a.frame.WindowUpdate?)
    ensures NoData(s, Step(s, a)) && Step(s, a).tx.finSent
  {
    hide Dispatch, Pump, Finish, TakePrelude, PreludeShare, LiveReads, LiveWrites, ExpiredReads, ExpiredWrites,
      EndReads, EndWrites, UnsentBytes;
    match a
    case ReadCall(capacity, deadline) =>
      var s1 := s.(readQ := s.readQ + [PendingRead(s.io.nextOp, capacity, deadline)],
                   io := s.io.(nextOp := s.io.nextOp + 1));
      DispatchNoData(s1);
      DispatchFrames(s1);
    case Receive(frame) => FrameNoData(s, frame);
    case _ =>
  }

  /** Resetting sends a RESET at most. */
  lemma {:induction false} ResetQuietly(s: Stream, reason: Status)
    ensures var t := ResetFor(s, reason);
            NoData(s, t) && t.tx == s.tx
  {
    hide Finish;
  }

  lemma {:induction false} AcceptNoData(s: Stream, data: seq<byte>)
    ensures NoData(s, AcceptData(s, data)) && AcceptData(s, data).tx == s.tx
  {
    hide Dispatch, Finish, TakePrelude, PreludeShare, ResetFor, NoData;
    PreludeFrame(s, data);
    var s1 := TakePrelude(Charge(s, |data|), data);
    var s2 := Buffer(s1, data[PreludeShare(s, data)..]);
    ResetQuietly(s1, ProtocolError);
    DispatchNoData(s2);
    DispatchFrames(s2);
    SameSent(s, s1, ResetFor(s1, ProtocolError));
    SameSent(s, s2, Settle(Dispatch(s2)));
  }

  lemma {:induction false} SameSent(s: Stream, t: Stream, u: Stream)
    ensures s.io.sent == t.io.sent && NoData(t, u) ==> NoData(s, u)
    ensures forall v: Stream :: v.io.sent == u.io.sent && NoData(t, v) ==> NoData(t, u)
  {
  }

  lemma {:induction false} FrameNoData(s: Stream, frame: Frame)
    requires s.tx.finSent && !frame.WindowUpdate?
    ensures NoData(s, Deliver(s, frame)) && Deliver(s, frame).tx.finSent
  {
    hide Dispatch, Finish, ResetFor, AcceptData;
    ResetQuietly(s, ProtocolError);
    ResetQuietly(s, ResourceExhausted);
    match frame
    case Data(offset, length, data) => AcceptNoData(s, data);
    case Fin(finalOffset) =>
      ResetQuietly(s.(rx := s.rx.(finReceived := true, finalOffset := finalOffset)), ProtocolError);
      var s1 := s.(rx := s.rx.(finReceived := true, finalOffset := finalOffset));
      DispatchNoData(s1);
      DispatchFrames(s1);
    case ResetFrame(reason) =>
  }

  /** An end with nothing buffered sends no grant until DATA arrives. */
  lemma {:induction false} NoDataNoGrant(s: Stream, a: Action)
    requires s.rx.chunks == [] && !(a.Receive? && a.frame.Data?)
    ensures NoGrant(s, Step(s, a)) && Step(s, a).rx.chunks == []
  {
    hide Dispatch, Pump, Finish, LiveReads, LiveWrites, ExpiredReads, ExpiredWrites, EndReads, EndWrites, UnsentBytes;
    match a
    case ReadCall(capacity, deadline) =>
      DispatchNoData(s.(readQ := s.readQ + [PendingRead(s.io.nextOp, capacity, deadline)],
                        io := s.io.(nextOp := s.io.nextOp + 1)));
    case WriteCall(data, deadline) =>
      PumpNoGrant(s.(writeQ := s.writeQ + [PendingWrite(s.io.nextOp, data, 0, deadline, false)],
                     io := s.io.(nextOp := s.io.nextOp + 1)));
    case Receive(frame) => FrameNoGrant(s, frame);
    case _ =>
  }

  lemma {:induction false} FrameNoGrant(s: Stream, frame: Frame)
    requires s.rx.chunks == [] && !frame.Data?
    ensures NoGrant(s, Deliver(s, frame)) && Deliver(s, frame).rx.chunks == []
  {
    hide Dispatch, Pump, Finish;
    match frame
    case WindowUpdate(consumed, bytes, frames) =>
      PumpNoGrant(s.(tx := s.tx.(consumedByPeer := consumed, credit := s.tx.credit + bytes,
                                 creditFrames := Min((frames + s.tx.creditFrames) % U64, U32 - 1))));
    case Fin(finalOffset) =>
      DispatchNoData(s.(rx := s.rx.(finReceived := true, finalOffset := finalOffset)));
    case ResetFrame(reason) =>
  }

  // ---- Two ends at rest --------------------------------------------------

  /** No grant is on its way to the opener. */
  predicate NoGrantLeft(sent: seq<Frame>, arrived: nat) {
    arrived <= |Ctrls(sent)| && forall i :: arrived <= i < |Ctrls(sent)| ==> !Ctrls(sent)[i].WindowUpdate?
  }

  lemma {:induction false} SameData(x: seq<Frame>, y: seq<Frame>)
    requires x <= y && forall i :: |x| <= i < |y| ==> !y[i].Data?
    ensures Datas(y) == Datas(x)
    decreases |y|
  {
    hide Datas, Ctrls;
    if |x| < |y| {
      var n := |y| - 1;
      assert y == y[..n] + [y[n]];
      SameData(x, y[..n]);
      ClassesSnoc(y[..n], y[n]);
    } else {
      assert x == y;
    }
  }

  lemma {:induction false} StillNoGrant(x: seq<Frame>, y: seq<Frame>, arrived: nat)
    requires x <= y && NoGrantLeft(x, arrived) && forall i :: |x| <= i < |y| ==> !y[i].WindowUpdate?
    ensures NoGrantLeft(y, arrived)
    decreases |y|
  {
    hide Datas, Ctrls;
    if |x| < |y| {
      var n := |y| - 1;
      assert y == y[..n] + [y[n]];
      StillNoGrant(x, y[..n], arrived);
      ClassesSnoc(y[..n], y[n]);
    } else {
      assert x == y;
    }
  }

  /** The opener has called shutdown_write, all its DATA has arrived and been read, and no
      grant is on its way back. */
  predicate AtRest(l: Link) {
    && l.accepted && l.a.tx.finSent && l.dataA == |Datas(l.a.io.sent)|
    && l.b.rx.chunks == [] && NoGrantLeft(l.b.io.sent, l.ctrlB)
  }

  lemma {:induction false} RestA(l: Link, action: Action)
    requires AtRest(l) && !(action.Receive? && action.frame.WindowUpdate?)
    ensures AtRest(l.(a := Step(l.a, action))) && Datas(Step(l.a, action).io.sent) == Datas(l.a.io.sent)
  {
    hide Step, Datas, Ctrls;
    OnlyUpdatesMove(l.a, action);
    SameData(l.a.io.sent, Step(l.a, action).io.sent);
  }

  lemma {:induction false} RestB(l: Link, action: Action)
    requires AtRest(l) && !(action.Receive? && action.frame.Data?)
    ensures AtRest(l.(b := Step(l.b, action)))
  {
    hide Step, Datas, Ctrls, NoGrantLeft;
    NoDataNoGrant(l.b, action);
    StillNoGrant(l.b.io.sent, Step(l.b, action).io.sent, l.ctrlB);
  }

  lemma {:induction false} OneArrived(l: Link)
    requires AtRest(l) && l.ctrlB < |Ctrls(l.b.io.sent)|
    ensures !Ctrls(l.b.io.sent)[l.ctrlB].WindowUpdate? && AtRest(l.(ctrlB := l.ctrlB + 1))
  {
    hide Datas, Ctrls;
  }

  lemma {:induction false} RestNext(l: Link, step: LinkStep)
    requires AtRest(l)
    ensures AtRest(LinkNext(l, step)) && Datas(LinkNext(l, step).a.io.sent) == Datas(l.a.io.sent)
  {
    hide Step, Deliver, Datas, Ctrls, AtRest;
    RestParts(l);
    match step
    case CallA(action) => if !action.Receive? { RestA(l, action); }
    case CallB(action) => if !action.Receive? { RestB(l, action); }
    case AcceptOpen =>
    case RefuseOpen(reason) =>
    case DataToB =>
    case CtrlToB =>
      if l.ctrlA < |Ctrls(l.a.io.sent)| {
        CtrlsHaveNoData(l.a.io.sent);
        var f := Ctrls(l.a.io.sent)[l.ctrlA];
        ReceiveStep(l.b, f);
        RestB(l, Receive(f));
        CountAside(l.(b := Deliver(l.b, f)));
      }
    case DataToA =>
      if l.dataB < |Datas(l.b.io.sent)| {
        DatasAreData(l.b.io.sent, l.dataB);
        var f := Datas(l.b.io.sent)[l.dataB];
        ReceiveStep(l.a, f);
        RestA(l, Receive(f));
        CountAside(l.(a := Deliver(l.a, f)));
      }
    case CtrlToA =>
      if l.ctrlB < |Ctrls(l.b.io.sent)| {
        OneArrived(l);
        var f := Ctrls(l.b.io.sent)[l.ctrlB];
        ReceiveStep(l.a, f);
        RestA(l.(ctrlB := l.ctrlB + 1), Receive(f));
      }
  }

  lemma {:induction false} RestParts(l: Link)
    requires AtRest(l)
    ensures l.accepted && l.dataA == |Datas(l.a.io.sent)|
    ensures AtRest(l.(accepted := true))
  {
    hide Datas, Ctrls, NoGrantLeft;
  }

  /** The other two counters do not matter. */
  lemma {:induction false} CountAside(l: Link)
    requires AtRest(l)
    ensures forall k: nat :: AtRest(l.(ctrlA := k)) && AtRest(l.(dataB := k))
  {
    hide Datas, Ctrls, NoGrantLeft;
  }

  lemma {:induction false} DatasAreData(frames: seq<Frame>, i: nat)
    requires i < |Datas(frames)|
    ensures Datas(frames)[i].Data?
  {
    if frames != [] {
      var n := |frames| - 1;
      if i < |Datas(frames[..n])| {
        DatasAreData(frames[..n], i);
      }
    }
  }

  /** Whatever both ends then do and whatever arrives, the opener sends no DATA any more. */
  lemma {:induction false} NeverMoves(l: Link, steps: seq<LinkStep>)
    requires AtRest(l)
    ensures var t := LinkRun(l, steps); AtRest(t) && Datas(t.a.io.sent) == Datas(l.a.io.sent)
    decreases |steps|
  {
    hide AtRest, LinkNext, Datas, Ctrls;
    if steps != [] {
      RestNext(l, steps[0]);
      NeverMoves(LinkNext(l, steps[0]), steps[1..]);
    }
  }

  // ---- A run that gets there ---------------------------------------------

  /** One byte is written, the session would block, and the writer half-closes. */
  lemma {:induction false} BlockedWrite(s: Stream, x: byte)
    requires !Terminal(s.state) && s.state != HalfClosedLocal && !s.tx.finSent && s.writeQ == []
    requires s.tx.credit > 0 && s.tx.creditFrames > 0 && s.io.script == [WouldBlock] && s.io.sent == []
    ensures var t := Step(Step(s, WriteCall([x], None)), ShutdownCall);
            && t.state == s.state && t.tx == s.tx.(finSent := true) && t.writeQ != [] && t.io.sent == []
            && t.io.script == []
  {
    var w := PendingWrite(s.io.nextOp, [x], 0, None, false);
    assert s.writeQ + [w] == [w] && UnsentBytes(s.writeQ) == 0;
    var s1 := s.(writeQ := [w], io := s.io.(nextOp := s.io.nextOp + 1));
    assert Step(s, WriteCall([x], None)) == Pump(s1) == Send(s1, NextData(s1));
  }

  /** Between any two honest ends, one answer of the session to try later is enough: the
      writer is left with a byte queued behind both credits, the FIN behind it, nothing in
      flight, and (`NeverMoves`) nothing that would ever send it. */
  lemma {:induction false} StallReachable(p: Setup, q: Setup, x: byte)
    requires Matched(p, q) && p.script == [WouldBlock] && q.script == [] && p.window <= MAX_OPEN_WINDOW
    ensures var l := LinkRun(Connect(p, q), [AcceptOpen, CtrlToA, CallA(WriteCall([x], None)), CallA(ShutdownCall)]);
            && AtRest(l) && !Terminal(l.a.state) && !Terminal(l.b.state)
            && l.a.writeQ != [] && l.a.tx.credit > 0 && l.a.tx.creditFrames > 0
            && l.a.io.sent == [] && l.a.io.script == []
  {
    hide Step, Datas, Ctrls;
    var l2 := LinkNext(LinkNext(Connect(p, q), AcceptOpen), CtrlToA);
    Granted(p, q);
    BlockedWrite(l2.a, x);
    EmptyWire();
    FourSteps(Connect(p, q), AcceptOpen, CtrlToA, CallA(WriteCall([x], None)), CallA(ShutdownCall));
  }
}

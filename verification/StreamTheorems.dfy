/** What holds of one end of a stream in every run, whatever frames the peer sends. */
module StreamTheorems {
  import opened Bytes
  import opened StreamModel
  import opened StreamHistory
  import opened ReceiveWindow
  import opened CreditLedger
  import opened SendSide
  import opened Completions
  import opened Lifecycle
  import opened StreamRuns
  import opened EndOfStream
  import opened LossyNetwork

  // ---- Receiver bound ----------------------------------------------------

  /** The buffer is what its counter says, fits both windows, and neither cap that
      guards the replenishment can bind. */
  predicate Bounded(s: Stream) {
    && s.rx.buffered == |Flatten(s.rx.chunks)| <= s.rx.window
    && |s.rx.chunks| <= s.rx.windowFrames
    && 0 <= s.rx.remaining && 0 <= s.rx.remainingFrames
    && s.rx.remaining + (s.rx.consumed - s.rx.reported) <= s.rx.window
    && (s.rx.chunks != [] ==> s.rx.remainingFrames + 1 <= s.rx.windowFrames)
  }

  lemma {:induction false} GoodBounded(s: Stream)
    requires RxInv(s)
    ensures Bounded(s)
  {
    hide ReadBytes, Flatten;
  }

  /** Against any sequence of calls and frames. */
  lemma {:induction false} ReceiverBound(p: Setup, actions: seq<Action>)
    requires ValidSetup(p)
    ensures var s := Run(Start(p), actions);
            Bounded(s) && s.rx.window == p.window && s.rx.windowFrames == p.windowFrames
  {
    hide Good, Run, Bounded, RxInv, TxInv, Continues;
    StartGood(p);
    RunMoves(Start(p), actions);
    GoodRx(Run(Start(p), actions));
    GoodBounded(Run(Start(p), actions));
  }

  // ---- Exactly-once completion -------------------------------------------

  /** Bytes of the pending writes that are already on the wire. */
  function PendingOffsets(q: seq<PendingWrite>): nat {
    if q == [] then 0 else q[0].offset + PendingOffsets(q[1..])
  }

  lemma {:induction false} PrefixesLength(q: seq<PendingWrite>)
    requires forall i :: 0 <= i < |q| ==> q[i].offset <= |q[i].data|
    ensures |Prefixes(q)| == PendingOffsets(q)
  {
    if q != [] {
      PrefixesLength(q[1..]);
    }
  }

  /** How often operation `id` was completed, and how often it is pending. */
  function Completed(s: Stream, id: nat): nat {
    DoneIds(s.io.done)[id]
  }

  function Pending(s: Stream, id: nat): nat {
    ReadIds(s.readQ)[id] + WriteIds(s.writeQ)[id]
  }

  /** Each submitted operation is pending or completed, never both and never twice, and
      what the completions report adds up to the offsets. */
  predicate Accounted(s: Stream, id: nat) {
    && Pending(s, id) + Completed(s, id) == (if id < s.io.nextOp then 1 else 0)
    && |WriteBytes(s.io.done)| + PendingOffsets(s.writeQ) == s.tx.next
    && |ReadBytes(s.io.done)| == s.rx.consumed
    && (s.state == Reset ==> s.readQ == [] && s.writeQ == [])
  }

  lemma {:induction false} WriteTotal(s: Stream)
    requires TxInv(s)
    ensures |WriteBytes(s.io.done)| + PendingOffsets(s.writeQ) == s.tx.next
  {
    hide WriteBytes, SentBytes, Truthful, FinInv;
    PrefixesLength(s.writeQ);
  }

  lemma {:induction false} ReadTotal(s: Stream)
    requires RxInv(s)
    ensures |ReadBytes(s.io.done)| == s.rx.consumed
  {
    hide ReadBytes, Flatten;
  }

  lemma {:induction false} IdTotal(s: Stream, id: nat)
    requires OpInv(s)
    ensures Pending(s, id) + Completed(s, id) == if id < s.io.nextOp then 1 else 0
  {
    hide ReadIds, WriteIds, DoneIds, Issued;
    ExactlyOnce(s, id);
    IssuedOnce(s.io.nextOp, id);
  }

  lemma {:induction false} ExactlyOnceCompletion(p: Setup, actions: seq<Action>, id: nat)
    requires ValidSetup(p)
    ensures Accounted(Run(Start(p), actions), id)
  {
    hide RxInv, Prompt, TxInv, OpInv, LifeInv, ConnectInv, Run, Continues, WriteBytes, ReadBytes, Pending, Completed,
      PendingOffsets;
    StartGood(p);
    RunMoves(Start(p), actions);
    var s := Run(Start(p), actions);
    WriteTotal(s);
    ReadTotal(s);
    IdTotal(s, id);
    LifeReset(s);
  }

  // ---- Nothing is left pending -------------------------------------------

  /** A step into a terminal state leaves no operation pending. */
  predicate Cleared(s: Stream, t: Stream) {
    !Terminal(s.state) && Terminal(t.state) ==> t.readQ == [] && t.writeQ == []
  }

  lemma {:induction false} DispatchClears(s: Stream)
    ensures Terminal(s.state) && s.readQ == [] && s.writeQ == [] ==> Dispatch(s) == s
    ensures Cleared(s, Dispatch(s))
    decreases |s.readQ|
  {
    hide ServeRead, ServeEof;
    if s.readQ != [] {
      ServeFrames(s);
      ServeClears(s);
      if s.rx.chunks != [] {
        DispatchClears(ServeRead(s));
      } else if AtEnd(s.rx) {
        DispatchClears(ServeEof(s));
      }
    }
  }

  lemma {:induction false} ServeClears(s: Stream)
    requires s.readQ != []
    ensures s.rx.chunks != [] ==> ServeRead(s).state == s.state
    ensures Cleared(s, ServeEof(s))
  {
    hide Finish, Sub32, Sub64;
  }

  lemma {:induction false} PumpClears(s: Stream)
    ensures Cleared(s, Pump(s))
    decreases PumpWork(s.writeQ)
  {
    hide Finish, AdmittedPrefix, NextData, Offer;
    if !Terminal(s.state) && s.writeQ != [] {
      if s.writeQ[0].offset < |s.writeQ[0].data| {
        if s.tx.credit != 0 && s.tx.creditFrames != 0 && Verdict(s.io) == Admitted {
          PumpClears(SendChunk(s));
        }
      } else if !s.writeQ[0].finAfter {
        PumpClears(CompleteWrite(s, None));
      }
    }
  }

  lemma {:induction false} SettleClears(s: Stream)
    requires !Terminal(s.state)
    ensures Cleared(s, Settle(Dispatch(s)))
  {
    hide Finish, Dispatch;
    DispatchClears(s);
  }

  lemma {:induction false} DeliverClears(s: Stream, f: Frame)
    ensures Cleared(s, Deliver(s, f))
  {
    hide Finish, Dispatch, Pump, TakePrelude, PreludeShare, PreludeBroken, Settle;
    if !Terminal(s.state) {
      match f
      case Data(offset, length, data) =>
        BufferLive(s, data);
        SettleClears(Buffer(TakePrelude(Charge(s, |data|), data), data[PreludeShare(s, data)..]));
      case WindowUpdate(consumed, bytes, frames) =>
        PumpClears(s.(tx := s.tx.(consumedByPeer := consumed, credit := s.tx.credit + bytes,
                                  creditFrames := Min((frames + s.tx.creditFrames) % U64, U32 - 1))));
      case Fin(finalOffset) =>
        DispatchClears(s.(rx := s.rx.(finReceived := true, finalOffset := finalOffset)));
      case ResetFrame(reason) =>
    }
  }

  lemma {:induction false} LocalClears(s: Stream, a: Action)
    requires !a.Receive?
    ensures Cleared(s, Step(s, a))
  {
    hide Finish, Dispatch, Pump, UnsentBytes, LiveReads, LiveWrites, ExpiredReads, ExpiredWrites, EndReads, EndWrites,
      Deliver;
    match a
    case ReadCall(capacity, deadline) =>
      DispatchClears(s.(readQ := s.readQ + [PendingRead(s.io.nextOp, capacity, deadline)],
                        io := s.io.(nextOp := s.io.nextOp + 1)));
    case WriteCall(data, deadline) =>
      PumpClears(s.(writeQ := s.writeQ + [PendingWrite(s.io.nextOp, data, 0, deadline, false)],
                    io := s.io.(nextOp := s.io.nextOp + 1)));
    case _ =>
  }

  /** Reset, close and session loss complete every pending operation. */
  lemma {:induction false} NoneLeftPending(s: Stream, a: Action)
    requires !Terminal(s.state) && Terminal(Step(s, a).state)
    ensures Step(s, a).readQ == [] && Step(s, a).writeQ == []
  {
    hide Deliver;
    if a.Receive? {
      DeliverClears(s, a.frame);
    } else {
      hide Step;
      LocalClears(s, a);
    }
  }

  // ---- Pending limits ----------------------------------------------------

  /** The queues stay within the limits the stream was configured with. */
  predicate WithinLimits(s: Stream) {
    && |s.readQ| <= s.cfg.maxReads && |s.writeQ| <= s.cfg.maxWrites
    && UnsentBytes(s.writeQ) <= s.cfg.maxWriteBytes
  }

  /** `t` queues no more than `s` does. */
  predicate NoMoreQueued(s: Stream, t: Stream) {
    && t.cfg == s.cfg && |t.readQ| <= |s.readQ| && |t.writeQ| <= |s.writeQ|
    && UnsentBytes(t.writeQ) <= UnsentBytes(s.writeQ)
  }

  lemma {:induction false} FinishQueues(s: Stream, terminal: StreamState)
    requires InRange(s.writeQ)
    ensures NoMoreQueued(s, Finish(s, terminal)) && InRange(Finish(s, terminal).writeQ)
  {
    hide Finish;
    UnsentIsNat(s.writeQ);
    NothingUnsent();
  }

  lemma {:induction false} NothingUnsent()
    ensures UnsentBytes([]) == 0
  {
  }

  lemma {:induction false} ResetQueues(s: Stream, reason: Status)
    requires InRange(s.writeQ)
    ensures NoMoreQueued(s, ResetFor(s, reason))
  {
    hide Finish, UnsentBytes;
    FinishQueues(if s.state == Reset then s else Send(s, ResetFrame(Some(reason))), Reset);
  }

  lemma {:induction false} DispatchQueues(s: Stream)
    requires InRange(s.writeQ)
    ensures NoMoreQueued(s, Dispatch(s)) && InRange(Dispatch(s).writeQ)
    decreases |s.readQ|
  {
    hide ServeRead, ServeEof, UnsentBytes;
    if s.readQ != [] {
      ServeFrames(s);
      ServeQueues(s);
      if s.rx.chunks != [] {
        DispatchQueues(ServeRead(s));
      } else if AtEnd(s.rx) {
        DispatchQueues(ServeEof(s));
      }
    }
  }

  lemma {:induction false} ServeQueues(s: Stream)
    requires s.readQ != [] && InRange(s.writeQ)
    ensures s.rx.chunks != [] ==> NoMoreQueued(s, ServeRead(s)) && ServeRead(s).writeQ == s.writeQ
    ensures NoMoreQueued(s, ServeEof(s)) && InRange(ServeEof(s).writeQ)
  {
    hide Finish, Sub32, Sub64, UnsentBytes;
    FinishQueues(CompleteRead(s, []), Closed);
  }

  lemma {:induction false} PumpQueues(s: Stream)
    requires InRange(s.writeQ)
    ensures NoMoreQueued(s, Pump(s))
    decreases PumpWork(s.writeQ)
  {
    hide ResetFor, SendFin, CompleteWrite, NextData, SendChunk;
    if !Terminal(s.state) && s.writeQ != [] {
      FrontQueues(s);
      if s.writeQ[0].offset < |s.writeQ[0].data| {
        if s.tx.credit != 0 && s.tx.creditFrames != 0 {
          if Verdict(s.io) == Admitted {
            ChunkQueues(s);
            PumpQueues(SendChunk(s));
          } else {
            var s1 := CompleteWrite(Send(s, NextData(s)), Some(SendFailed));
            FrontQueues(Send(s, NextData(s)));
            ResetQueues(s1, Unavailable);
          }
        }
      } else {
        var s1 := CompleteWrite(s, None);
        if s.writeQ[0].finAfter {
          SendFinQueues(s1);
        } else {
          PumpQueues(s1);
        }
      }
    }
  }

  lemma {:induction false} SendFinQueues(s: Stream)
    requires InRange(s.writeQ)
    ensures NoMoreQueued(s, SendFin(s))
  {
    hide Finish, UnsentBytes;
    FinishQueues(Send(s, Fin(s.tx.next)), if s.rx.finReceived then Closed else HalfClosedLocal);
  }

  lemma {:induction false} FrontQueues(s: Stream)
    requires s.writeQ != [] && InRange(s.writeQ)
    ensures forall e :: NoMoreQueued(s, CompleteWrite(s, e)) && InRange(CompleteWrite(s, e).writeQ)
                     && PumpWork(CompleteWrite(s, e).writeQ) < PumpWork(s.writeQ)
  {
    hide AdmittedPrefix;
  }

  lemma {:induction false} ChunkQueues(s: Stream)
    requires s.writeQ != [] && s.writeQ[0].offset < |s.writeQ[0].data| && InRange(s.writeQ)
    requires s.tx.credit > 0 && s.tx.creditFrames > 0
    ensures NoMoreQueued(s, SendChunk(s)) && InRange(SendChunk(s).writeQ)
    ensures PumpWork(SendChunk(s).writeQ) < PumpWork(s.writeQ)
  {
    hide NextData, Offer;
    assert SendChunk(s).writeQ[1..] == s.writeQ[1..];
  }

  lemma {:induction false} LiveQueues(q: seq<PendingWrite>, now: nat)
    requires InRange(q)
    ensures |LiveWrites(q, now)| <= |q| && UnsentBytes(LiveWrites(q, now)) <= UnsentBytes(q)
    ensures InRange(LiveWrites(q, now))
  {
    hide Expired;
    if q != [] {
      LiveQueues(q[1..], now);
      var rest := LiveWrites(q[1..], now);
      if !Expired(q[0].deadline, now) {
        assert ([q[0]] + rest)[1..] == rest;
      } else {
        assert [] + rest == rest;
      }
    }
  }

  lemma {:induction false} LiveReadsFewer(q: seq<PendingRead>, now: nat)
    ensures |LiveReads(q, now)| <= |q|
  {
    if q != [] {
      LiveReadsFewer(q[1..], now);
    }
  }

  lemma {:induction false} DeliverQueues(s: Stream, f: Frame)
    requires InRange(s.writeQ)
    ensures NoMoreQueued(s, Deliver(s, f))
  {
    hide ResetFor, Finish, Dispatch, Pump, TakePrelude, PreludeShare, PreludeBroken, UnsentBytes;
    if !Terminal(s.state) {
      match f
      case Data(offset, length, data) =>
        ResetQueues(s, ProtocolError);
        ResetQueues(s, ResourceExhausted);
        PreludeFrame(s, data);
        var t := TakePrelude(Charge(s, |data|), data);
        ResetQueues(t, ProtocolError);
        var b := Buffer(t, data[PreludeShare(s, data)..]);
        DispatchQueues(b);
        EndQueues(Dispatch(b));
      case WindowUpdate(consumed, bytes, frames) =>
        ResetQueues(s, ProtocolError);
        ResetQueues(s.(tx := s.tx.(consumedByPeer := consumed)), ResourceExhausted);
        PumpQueues(s.(tx := s.tx.(consumedByPeer := consumed, credit := s.tx.credit + bytes,
                                  creditFrames := Min((frames + s.tx.creditFrames) % U64, U32 - 1))));
      case Fin(finalOffset) =>
        var t := s.(rx := s.rx.(finReceived := true, finalOffset := finalOffset));
        ResetQueues(t, ProtocolError);
        DispatchQueues(t);
        EndQueues(Dispatch(t));
      case ResetFrame(reason) =>
        FinishQueues(s.(resetReason := KnownReason(s, reason)), Reset);
    }
  }

  lemma {:induction false} EndQueues(s: Stream)
    requires InRange(s.writeQ)
    ensures NoMoreQueued(s, EndOfReceive(s))
  {
    hide Finish, UnsentBytes;
    FinishQueues(s, if s.tx.finSent then Closed else HalfClosedRemote);
  }

  lemma {:induction false} CallQueues(s: Stream, a: Action)
    requires WithinLimits(s) && InRange(s.writeQ) && (a.ReadCall? || a.WriteCall?)
    ensures WithinLimits(Step(s, a))
  {
    hide Dispatch, Pump, UnsentBytes;
    match a
    case ReadCall(capacity, deadline) =>
      DispatchQueues(s.(readQ := s.readQ + [PendingRead(s.io.nextOp, capacity, deadline)],
                        io := s.io.(nextOp := s.io.nextOp + 1)));
    case WriteCall(data, deadline) =>
      UnsentSnoc(s.writeQ, PendingWrite(s.io.nextOp, data, 0, deadline, false));
      PumpQueues(s.(writeQ := s.writeQ + [PendingWrite(s.io.nextOp, data, 0, deadline, false)],
                    io := s.io.(nextOp := s.io.nextOp + 1)));
  }

  lemma {:induction false} MarkUnsent(q: seq<PendingWrite>, last: nat)
    requires last < |q|
    ensures UnsentBytes(q[last := q[last].(finAfter := true)]) == UnsentBytes(q)
  {
    var t := q[last := q[last].(finAfter := true)];
    if last > 0 {
      MarkUnsent(q[1..], last - 1);
      assert t[1..] == q[1..][last - 1 := q[1..][last - 1].(finAfter := true)];
    } else {
      assert t[1..] == q[1..];
    }
  }

  lemma {:induction false} StepQueues(s: Stream, a: Action)
    requires WithinLimits(s) && InRange(s.writeQ)
    ensures WithinLimits(Step(s, a))
  {
    hide Deliver, ResetFor, SendFin, LiveReads, LiveWrites, ExpiredReads, ExpiredWrites, EndReads, EndWrites,
      UnsentBytes, AsyncRead, AsyncWrite;
    match a
    case ReadCall(_, _) => CallQueues(s, a);
    case WriteCall(_, _) => CallQueues(s, a);
    case ShutdownCall =>
      if s.writeQ != [] {
        MarkUnsent(s.writeQ, |s.writeQ| - 1);
      }
      SendFinQueues(s.(tx := s.tx.(finSent := true)));
    case ResetOp(reason) => ResetQueues(s, reason);
    case Tick(now) =>
      LiveQueues(s.writeQ, now);
      LiveReadsFewer(s.readQ, now);
      ResetQueues(Swept(s, now), DeadlineExceeded);
    case SessionLoss => NothingUnsent();
    case Receive(frame) => DeliverQueues(s, frame);
  }

  lemma {:induction false} RunQueues(s: Stream, actions: seq<Action>)
    requires Good(s) && WithinLimits(s)
    ensures WithinLimits(Run(s, actions))
    decreases |actions|
  {
    hide Good, WithinLimits, Step, Moves;
    if actions != [] {
      GoodInRange(s);
      StepQueues(s, actions[0]);
      StepMoves(s, actions[0]);
      MovesGood(s, Step(s, actions[0]));
      RunQueues(Step(s, actions[0]), actions[1..]);
    }
  }

  lemma {:induction false} GoodInRange(s: Stream)
    requires Good(s)
    ensures InRange(s.writeQ)
  {
    hide RxInv, Prompt, SentBytes, WriteBytes, Prefixes, Truthful, FinInv;
  }

  /** In every run neither queue and no write backlog exceeds its limit. */
  lemma {:induction false} PendingLimits(p: Setup, actions: seq<Action>)
    requires ValidSetup(p)
    ensures var s := Run(Start(p), actions);
            && |s.readQ| <= p.cfg.maxReads && |s.writeQ| <= p.cfg.maxWrites
            && UnsentBytes(s.writeQ) <= p.cfg.maxWriteBytes
  {
    hide Good, Run, Continues;
    StartGood(p);
    NothingUnsent();
    RunQueues(Start(p), actions);
    RunMoves(Start(p), actions);
  }

  // ---- Lifecycle ---------------------------------------------------------

  lemma {:induction false} RunAppend(s: Stream, first: seq<Action>, second: seq<Action>)
    ensures Run(s, first + second) == Run(Run(s, first), second)
    decreases |first|
  {
    hide Step;
    if first == [] {
      assert first + second == second;
    } else {
      assert (first + second)[1..] == first[1..] + second;
      RunAppend(Step(s, first[0]), first[1..], second);
    }
  }

  /** Along every run states only move forward and terminal ones are kept; the connect
      handler fires at most once, and has fired once the stream is closed or reset. */
  lemma {:induction false} LifecycleSafety(p: Setup, first: seq<Action>, second: seq<Action>)
    requires ValidSetup(p)
    ensures var s := Run(Start(p), first);
            var t := Run(Start(p), first + second);
            && Forward(s.state, t.state)
            && (Terminal(s.state) ==> t.state == s.state)
            && Connects(t.io.done) <= (if p.gw.handler then 1 else 0)
            && (Terminal(t.state) && p.gw.handler ==> Connects(t.io.done) == 1)
  {
    hide RxInv, Prompt, TxInv, OpInv, LifeInv, Run, Continues, Connects, Start;
    StartGood(p);
    StartHandler(p);
    RunMoves(Start(p), first);
    RunMoves(Start(p), first + second);
    RunAppend(Start(p), first, second);
    RunMoves(Run(Start(p), first), second);
  }

  lemma {:induction false} StartHandler(p: Setup)
    requires ValidSetup(p)
    ensures Supplied(Start(p)) == p.gw.handler
  {
  }

  // ---- Gateway -----------------------------------------------------------

  /** A gateway initiator never reads a byte if its window is no larger than the
      prelude: prelude bytes are not given back. */
  lemma {:induction false} SmallWindowStalls(p: Setup, actions: seq<Action>)
    requires ValidSetup(p) && p.gw.initiator && p.window <= PRELUDE_BYTES
    ensures ReadBytes(Run(Start(p), actions).io.done) == []
  {
    hide Good, Run, RxInv, TxInv, Continues, ReadBytes;
    StartGood(p);
    RunMoves(Start(p), actions);
    var s := Run(Start(p), actions);
    GoodRx(s);
    ReadTotal(s);
    SmallWindow(s);
  }

  lemma {:induction false} SmallWindow(s: Stream)
    requires RxInv(s) && s.gw.initiator && s.rx.window <= PRELUDE_BYTES
    ensures s.rx.consumed == 0
  {
    hide ReadBytes, Flatten;
  }

  /** With any larger window one DATA frame carries the prelude and a first byte. */
  lemma {:induction false} LargerWindowFlows(p: Setup, b: byte)
    requires ValidSetup(p) && p.gw.initiator && p.window > PRELUDE_BYTES
    ensures ReadBytes(Run(Start(p), [Receive(Data(0, 3, [0, 0, b])), ReadCall(1, None)]).io.done) == [b]
  {
    hide Run, Finish, ReadBytes, Deliver, AsyncRead, Start;
    var s := Start(p);
    var actions := [Receive(Data(0, 3, [0, 0, b])), ReadCall(1, None)];
    var s1 := Deliver(s, Data(0, 3, [0, 0, b]));
    PreludeAndByte(p, b);
    RunTwo(s, actions[0], actions[1]);
    ByteRead(s1, b);
  }

  lemma {:induction false} RunTwo(s: Stream, a: Action, b: Action)
    ensures Run(s, [a, b]) == Step(Step(s, a), b)
  {
    hide Step;
    assert [a, b][1..] == [b] && [b][1..] == [];
    assert Run(Step(s, a), [b]) == Run(Step(Step(s, a), b), []);
  }

  lemma {:induction false} PreludeAndByte(p: Setup, b: byte)
    requires ValidSetup(p) && p.gw.initiator && p.window > PRELUDE_BYTES
    ensures var t := Deliver(Start(p), Data(0, 3, [0, 0, b]));
            && t.state == Open && t.rx.chunks == [[b]] && t.readQ == []
            && ReadBytes(t.io.done) == []
  {
    hide ReadBytes, Finish;
    var s := Start(p);
    var data: seq<byte> := [0, 0, b];
    assert data[..2] == [0, 0] == PRELUDE_CONNECTED && data[2..] == [b];
    assert s.gw.prelude + data[..2] == data[..2];
    var t := TakePrelude(Charge(s, 3), data);
    TakePreludeRead(Charge(s, 3), data);
    NothingDone();
    assert [] + [[b]] == [[b]];
    assert Dispatch(Buffer(t, [b])) == Buffer(t, [b]);
  }

  lemma {:induction false} NothingDone()
    ensures ReadBytes([]) == []
  {
  }

  lemma {:induction false} ByteRead(t: Stream, b: byte)
    requires t.state == Open && t.rx.chunks == [[b]] && t.readQ == [] && ReadBytes(t.io.done) == []
    ensures ReadBytes(Step(t, ReadCall(1, None)).io.done) == [b]
  {
    hide ReadBytes, Finish, MaybeUpdate;
    var read := PendingRead(t.io.nextOp, 1, None);
    var t1 := t.(readQ := [read], io := t.io.(nextOp := t.io.nextOp + 1));
    assert t.readQ + [read] == [read] && [b][..1] == [b];
    ReadBytesSnoc(t.io.done, ReadDone(read.id, [b], None));
    UpdateKeepsReads(TakeRead(t1));
    ServeFrames(t1);
    assert ServeRead(t1).readQ == [];
    assert Dispatch(t1) == Dispatch(ServeRead(t1)) == ServeRead(t1);
  }

  lemma {:induction false} PairMoves(p: Pair, steps: seq<PairStep>)
    requires PairInv(p)
    ensures Moves(p.a, PairRun(p, steps).a) && Moves(p.b, PairRun(p, steps).b)
    decreases |steps|
  {
    hide PairInv, Moves, PairNext;
    PairGood(p);
    SelfLeads(p.a);
    SelfLeads(p.b);
    LeadsGood(p.a, p.a);
    LeadsGood(p.b, p.b);
    if steps != [] {
      var q := PairNext(p, steps[0]);
      PairStepKeeps(p, steps[0]);
      PairStepMoves(p, steps[0]);
      PairMoves(q, steps[1..]);
      MovesTransitive(p.a, q.a, PairRun(p, steps).a);
      MovesTransitive(p.b, q.b, PairRun(p, steps).b);
    }
  }

  lemma {:induction false} PairGood(p: Pair)
    requires PairInv(p)
    ensures Good(p.a) && Good(p.b)
  {
    hide Good, Seen, ReadEnd, SentBytes;
  }

  lemma {:induction false} PairStepMoves(p: Pair, step: PairStep)
    requires PairInv(p)
    ensures Moves(p.a, PairNext(p, step).a) && Moves(p.b, PairNext(p, step).b)
  {
    hide PairInv, Good, Moves, Step, Deliver, Seen, Purse, FramePurse;
    PairGood(p);
    SelfLeads(p.a);
    SelfLeads(p.b);
    LeadsGood(p.a, p.a);
    LeadsGood(p.b, p.b);
    match step
    case AtA(action) => StepMoves(p.a, action);
    case AtB(action) => StepMoves(p.b, action);
    case ToB(i) => if i < |p.a.io.sent| { DeliverMoves(p.b, p.a.io.sent[i]); }
    case ToA(i) => if i < |p.b.io.sent| { DeliverMoves(p.a, p.b.io.sent[i]); }
  }

  /** What the initiator `a` of a gateway stream may rely on about its peer's bytes. */
  predicate Transparent(a: Stream, peer: seq<byte>) {
    // Data or a successful connect only after two zero bytes, however they were split.
    && (ReadBytes(a.io.done) + Flatten(a.rx.chunks) != [] || ConnectDone(Connected) in a.io.done ==>
          |peer| >= 2 && peer[..2] == [0, 0])
    // The reader sees the peer's stream without those two bytes.
    && (a.gw.prelude == PRELUDE_CONNECTED ==>
          2 <= a.rx.next <= |peer| && ReadBytes(a.io.done) + Flatten(a.rx.chunks) == peer[2..a.rx.next])
    && (a.gw.prelude != PRELUDE_CONNECTED ==> ReadBytes(a.io.done) + Flatten(a.rx.chunks) == [])
  }

  lemma {:induction false} DeliveredTransparent(b: Stream, a: Stream)
    requires Delivered(b, a) && RxInv(a) && ConnectInv(a) && a.gw.initiator
    ensures Transparent(a, SentBytes(b.io.sent))
  {
    hide SentBytes, WriteBytes, ReadBytes, Prefixes, HasEof, Connects, RxInv;
    var peer := SentBytes(b.io.sent);
    var body := ReadBytes(a.io.done) + Flatten(a.rx.chunks);
    if a.gw.prelude == PRELUDE_CONNECTED {
      PreludePending(a);
      assert peer[..a.rx.next] == a.gw.prelude + body;
      SeenShape(a);
      assert peer[..a.rx.next][..2] == a.gw.prelude && peer[..a.rx.next][2..] == body;
    } else {
      NothingRead(a);
    }
  }

  /** Gateway prelude transparency, in every run over any network. */
  lemma {:induction false} GatewayTransparency(p: Setup, q: Setup, steps: seq<PairStep>)
    requires ValidSetup(p) && ValidSetup(q) && p.gw.initiator
    ensures var w := PairRun(Pair(Start(p), Start(q)), steps);
            Transparent(w.a, SentBytes(w.b.io.sent))
  {
    hide Direction, Start, PairRun, Delivered, Transparent, RxInv, Prompt, TxInv, OpInv, LifeInv, ConnectInv, Continues,
      SentBytes;
    StartDirection(p, q);
    StartDirection(q, p);
    PrefixSafety(p, q, steps);
    PairMoves(Pair(Start(p), Start(q)), steps);
    StartRole(p);
    var w := PairRun(Pair(Start(p), Start(q)), steps);
    DeliveredTransparent(w.b, w.a);
  }

  lemma {:induction false} StartRole(p: Setup)
    ensures Start(p).gw.initiator == p.gw.initiator
  {
  }

  // ---- The pump ----------------------------------------------------------

  /** On a session that admits, the pump stops only when nothing is queued or one of the
      two credits is used up. */
  lemma {:induction false} PumpExhausts(s: Stream)
    requires !Terminal(s.state) && s.io.script == []
    ensures var t := Pump(s); t.writeQ == [] || t.tx.credit == 0 || t.tx.creditFrames == 0
    decreases PumpWork(s.writeQ)
  {
    hide Finish, AdmittedPrefix, NextData;
    if s.writeQ != [] {
      if s.writeQ[0].offset < |s.writeQ[0].data| {
        if s.tx.credit != 0 && s.tx.creditFrames != 0 {
          PumpExhausts(SendChunk(s));
        }
      } else if !s.writeQ[0].finAfter {
        PumpExhausts(CompleteWrite(s, None));
      }
    }
  }

  // ---- Closed streams ----------------------------------------------------

  /** Ends that only exchange frames they sent never have an operation pending on a
      closed stream. */
  lemma {:induction false} ClosedIsIdle(p: Setup, q: Setup, steps: seq<PairStep>)
    requires ValidSetup(p) && ValidSetup(q)
    ensures var w := PairRun(Pair(Start(p), Start(q)), steps);
            && (Terminal(w.a.state) ==> w.a.readQ == [] && w.a.writeQ == [])
            && (Terminal(w.b.state) ==> w.b.readQ == [] && w.b.writeQ == [])
  {
    hide Direction, Start, PairRun;
    StartDirection(p, q);
    StartDirection(q, p);
    PairRunKeeps(Pair(Start(p), Start(q)), steps);
    var w := PairRun(Pair(Start(p), Start(q)), steps);
    TerminalIdle(w.a, w.b);
    TerminalIdle(w.b, w.a);
  }

  lemma {:induction false} TerminalIdle(a: Stream, b: Stream)
    requires Direction(a, b)
    ensures Terminal(b.state) ==> b.readQ == [] && b.writeQ == []
  {
    hide RxInv, Prompt, TxInv, OpInv, ConnectInv, Seen, SentBytes, HasEof;
  }
}

/** Which steps reset a stream, what the peer is told about it, and which frames change nothing. */
module ResetCauses {
  import opened Bytes
  import opened StreamModel
  import opened StreamHistory
  import opened ReceiveWindow
  import opened SendSide
  import opened Lifecycle
  import opened StreamRuns
  import opened EndOfStream
  import opened HalfClose
  import opened StreamService
  import opened Deadlines
  import opened LossyNetwork
  import opened PeerReads

  /** Why a step resets a stream: for a reason it announces, or without a word. */
  datatype Cause = Nothing | Announced(reason: Status) | Silent

  /** The bytes so far complete a prelude that is not two zeros. */
  predicate BadPrelude(s: Stream, data: seq<byte>) {
    s.gw.initiator && |s.gw.prelude| < 2 <= |s.gw.prelude + data| && (s.gw.prelude + data)[..2] != [0, 0]
  }

  function FrameCause(s: Stream, frame: Frame): Cause
    requires InRange(s.writeQ)
  {
    match frame
    case Data(offset, length, data) =>
      if length != |data| then Announced(ProtocolError)
      else if offset < s.rx.next then Nothing
      else if offset > s.rx.next then Announced(ProtocolError)
      else if |data| > s.rx.remaining || s.rx.remainingFrames == 0 then Announced(ResourceExhausted)
      else if BadPrelude(s, data) then Announced(ProtocolError)
      else Nothing
    case WindowUpdate(consumed, bytes, frames) =>
      if consumed < s.tx.consumedByPeer then Nothing
      else if consumed > s.tx.next then Announced(ProtocolError)
      else if s.tx.credit + bytes >= U64 then Announced(ResourceExhausted)
      else if PumpFails(Credited(s, bytes, frames)) then Announced(Unavailable)
      else Nothing
    case Fin(finalOffset) => if finalOffset != s.rx.next then Announced(ProtocolError) else Nothing
    case ResetFrame(_) => Silent
  }

  /** The stream with one more write in its queue. */
  function WithWrite(s: Stream, data: seq<byte>, deadline: Option<nat>): Stream {
    s.(writeQ := s.writeQ + [PendingWrite(s.io.nextOp, data, 0, deadline, false)],
       io := s.io.(nextOp := s.io.nextOp + 1))
  }

  function StepCause(s: Stream, a: Action): Cause
    requires InRange(s.writeQ)
  {
    match a
    case ReadCall(_, _) => Nothing
    case WriteCall(data, deadline) =>
      if Queues(s, data) && PumpFails(WithWrite(s, data, deadline)) then Announced(Unavailable) else Nothing
    case ShutdownCall => Nothing
    case ResetOp(reason) => Announced(reason)
    case Tick(now) =>
      if s.gw.initiator && |s.gw.prelude| < 2 && 0 < s.gw.dialDeadline < now then Announced(DeadlineExceeded)
      else Nothing
    case SessionLoss => Silent
    case Receive(frame) => FrameCause(s, frame)
  }

  /** The last frame offered since `s` is a RESET with this reason. */
  predicate Tells(s: Stream, t: Stream, reason: Status) {
    || (|t.io.sent| > |s.io.sent| && t.io.sent[|t.io.sent| - 1] == ResetFrame(Some(reason)))
    || (|t.io.refused| > |s.io.refused| && t.io.refused[|t.io.refused| - 1] == ResetFrame(Some(reason)))
  }

  predicate Follows(s: Stream, t: Stream, cause: Cause) {
    match cause
    case Nothing => t.state != Reset
    case Announced(reason) => t.state == Reset && Tells(s, t, reason)
    case Silent => t.state == Reset && t.io.sent == s.io.sent && t.io.refused == s.io.refused
  }

  // ---- Single steps ------------------------------------------------------

  lemma {:induction false} ResetTells(s: Stream, t: Stream, reason: Status)
    requires t.state != Reset && |t.io.sent| >= |s.io.sent| && |t.io.refused| >= |s.io.refused|
    ensures Follows(s, ResetFor(t, reason), Announced(reason))
  {
    hide Finish;
  }

  lemma {:induction false} PumpTells(s: Stream)
    requires Sendable(s.writeQ) && !Terminal(s.state)
    ensures Follows(s, Pump(s), if PumpFails(s) then Announced(Unavailable) else Nothing)
    ensures |Pump(s).io.sent| >= |s.io.sent| && |Pump(s).io.refused| >= |s.io.refused|
    decreases PumpWork(s.writeQ)
  {
    hide Finish, ResetFor, SendFin, AdmittedPrefix, NextData, PumpFails, Pumped;
    QueuedFin(s);
    PumpedState(s, Pump(s));
    if s.writeQ != [] {
      if s.writeQ[0].offset < |s.writeQ[0].data| {
        if s.tx.credit != 0 && s.tx.creditFrames != 0 {
          if Verdict(s.io) == Admitted {
            ChunkQueue(s);
            PumpTells(SendChunk(s));
            QueuedFin(SendChunk(s));
            PumpedState(SendChunk(s), Pump(s));
          } else {
            var t := CompleteWrite(Send(s, NextData(s)), Some(SendFailed));
            ResetTells(s, t, Unavailable);
            ResetOffers(t, Unavailable);
          }
        }
      } else {
        var t := CompleteWrite(s, None);
        if s.writeQ[0].finAfter {
          FinOffers(t);
        } else {
          TailSendable(s.writeQ);
          PumpTells(t);
          QueuedFin(t);
          PumpedState(t, Pump(s));
        }
      }
    }
  }

  lemma {:induction false} PumpedState(s: Stream, t: Stream)
    requires InRange(s.writeQ) && Pumped(s, t) && s.state != Reset
    ensures t.state == Reset <==> PumpFails(s)
  {
    hide PumpFails, PumpEnds, HasFin;
  }

  lemma {:induction false} ChunkQueue(s: Stream)
    requires Sendable(s.writeQ) && s.writeQ != [] && s.writeQ[0].offset < |s.writeQ[0].data|
    requires s.tx.credit > 0 && s.tx.creditFrames > 0
    ensures Sendable(SendChunk(s).writeQ)
    ensures |SendChunk(s).io.sent| >= |s.io.sent| && |SendChunk(s).io.refused| >= |s.io.refused|
  {
    hide NextData;
  }

  lemma {:induction false} TailSendable(q: seq<PendingWrite>)
    requires Sendable(q) && q != []
    ensures Sendable(q[1..])
  {
  }

  lemma {:induction false} ResetOffers(s: Stream, reason: Status)
    ensures |ResetFor(s, reason).io.sent| >= |s.io.sent| && |ResetFor(s, reason).io.refused| >= |s.io.refused|
  {
    hide Finish;
  }

  lemma {:induction false} FinOffers(s: Stream)
    ensures |SendFin(s).io.sent| >= |s.io.sent| && |SendFin(s).io.refused| >= |s.io.refused|
    ensures SendFin(s).state != Reset
  {
    hide Finish;
  }

  lemma {:induction false} PreludeIsBad(s: Stream, data: seq<byte>)
    requires PreludeInv(s)
    ensures BreaksPrelude(s, data) <==> BadPrelude(s, data)
  {
    hide TakePrelude;
    PreludeBytes(s, data);
    PreludeShort(s);
    if AwaitsPrelude(s) && |s.gw.prelude + data| >= 2 {
      assert (s.gw.prelude + data)[..2] == s.gw.prelude + data[..2 - |s.gw.prelude|];
    }
  }

  lemma {:induction false} DataCause(s: Stream, offset: nat, length: nat, data: seq<byte>)
    requires PreludeInv(s) && InRange(s.writeQ) && !Terminal(s.state)
    ensures Follows(s, OnData(s, offset, length, data), FrameCause(s, Data(offset, length, data)))
  {
    hide Follows, ResetFor, Dispatch, EndOfReceive, TakePrelude, PreludeShare, BadPrelude;
    ResetTells(s, s, ProtocolError);
    ResetTells(s, s, ResourceExhausted);
    NotReset(s, s);
    PreludeIsBad(s, data);
    PreludeFrame(s, data);
    BufferLive(s, data);
    var t := TakePrelude(Charge(s, |data|), data);
    if BreaksPrelude(s, data) {
      ResetTells(s, t, ProtocolError);
    } else {
      var u := Buffer(t, data[PreludeShare(s, data)..]);
      ServedLives(u);
      NotReset(s, Settle(Dispatch(u)));
    }
  }

  lemma {:induction false} NotReset(s: Stream, t: Stream)
    requires t.state != Reset
    ensures Follows(s, t, Nothing)
  {
  }

  lemma {:induction false} ServedLives(s: Stream)
    requires s.state != Reset
    ensures Settle(Dispatch(s)).state != Reset && Dispatch(s).state != Reset
  {
    hide Dispatch, Finish;
    DispatchFrames(s);
  }

  lemma {:induction false} UpdateCause(s: Stream, consumed: nat, bytes: nat, frames: nat)
    requires Sendable(s.writeQ) && !Terminal(s.state)
    ensures Follows(s, OnWindowUpdate(s, consumed, bytes, frames), FrameCause(s, WindowUpdate(consumed, bytes, frames)))
  {
    hide ResetFor, Pump, PumpFails;
    var s1 := s.(tx := s.tx.(consumedByPeer := consumed));
    ResetTells(s, s, ProtocolError);
    ResetTells(s, s1, ResourceExhausted);
    PumpTells(Credited(s1, bytes, frames));
    SameFailure(s, consumed, bytes, frames);
  }

  lemma {:induction false} SameFailure(s: Stream, consumed: nat, bytes: nat, frames: nat)
    requires InRange(s.writeQ)
    ensures PumpFails(Credited(s.(tx := s.tx.(consumedByPeer := consumed)), bytes, frames))
        <==> PumpFails(Credited(s, bytes, frames))
  {
    hide BreaksWithin, Budget;
    SameBudget(s, consumed, bytes, frames);
  }

  lemma {:induction false} FinCause(s: Stream, finalOffset: nat)
    requires InRange(s.writeQ) && !Terminal(s.state)
    ensures Follows(s, OnFin(s, finalOffset), FrameCause(s, Fin(finalOffset)))
  {
    hide ResetFor, Dispatch, Finish;
    var s1 := s.(rx := s.rx.(finReceived := true, finalOffset := finalOffset));
    ResetTells(s, s1, ProtocolError);
    DispatchFrames(s1);
  }

  lemma {:induction false} DeliverCause(s: Stream, frame: Frame)
    requires PreludeInv(s) && Sendable(s.writeQ) && !Terminal(s.state)
    ensures Follows(s, Deliver(s, frame), FrameCause(s, frame))
  {
    hide OnData, OnWindowUpdate, OnFin, Finish, PreludeInv;
    match frame
    case Data(offset, length, data) => hide Follows, FrameCause; DataCause(s, offset, length, data);
    case WindowUpdate(consumed, bytes, frames) => hide Follows, FrameCause; UpdateCause(s, consumed, bytes, frames);
    case Fin(finalOffset) => hide Follows, FrameCause; FinCause(s, finalOffset);
    case ResetFrame(reason) =>
  }

  lemma {:induction false} LocalCause(s: Stream, a: Action)
    requires PreludeInv(s) && Sendable(s.writeQ) && !Terminal(s.state) && !a.Receive?
    requires Marked(s.writeQ) ==> s.tx.finSent
    ensures Follows(s, Step(s, a), StepCause(s, a))
  {
    hide Dispatch, Pump, Finish, ResetFor, Swept, PumpFails, EndReads, EndWrites, UnsentBytes, PreludeInv;
    match a
    case ReadCall(capacity, deadline) =>
      ServedLives(s.(readQ := s.readQ + [PendingRead(s.io.nextOp, capacity, deadline)],
                     io := s.io.(nextOp := s.io.nextOp + 1)));
    case WriteCall(data, deadline) =>
      if Queues(s, data) {
        PushedSendable(s.writeQ, PendingWrite(s.io.nextOp, data, 0, deadline, false));
        PumpTells(WithWrite(s, data, deadline));
      }
    case ShutdownCall =>
    case ResetOp(reason) => ResetTells(s, s, reason);
    case Tick(now) => TickCause(s, now);
    case SessionLoss =>
  }

  lemma {:induction false} TickCause(s: Stream, now: nat)
    requires PreludeInv(s) && InRange(s.writeQ) && !Terminal(s.state)
    ensures Follows(s, Step(s, Tick(now)), StepCause(s, Tick(now)))
  {
    hide ResetFor, LiveReads, LiveWrites, ExpiredReads, ExpiredWrites, EndReads, EndWrites, PreludeInv, PumpFails;
    PreludeShort(s);
    ResetTells(s, Swept(s, now), DeadlineExceeded);
  }

  lemma {:induction false} PushedSendable(q: seq<PendingWrite>, w: PendingWrite)
    requires Sendable(q) && w.offset == 0 && w.data != [] && !w.finAfter && !Marked(q)
    ensures Sendable(q + [w])
  {
  }

  /** In every live state of every run, whatever the step: it resets the stream exactly for the
      listed causes, and then the peer is told the reason, except where the peer or the session
      ended the stream. */
  lemma {:induction false} ResetsExactly(p: Setup, actions: seq<Action>, a: Action)
    requires ValidSetup(p) && !Terminal(Run(Start(p), actions).state)
    ensures var s := Run(Start(p), actions);
            InRange(s.writeQ) && Follows(s, Step(s, a), StepCause(s, a))
  {
    hide Good, Moves, Start, Run, RxInv, PreludeInv, Follows, StepCause, Sendable, PumpFails;
    var s := Run(Start(p), actions);
    StartGood(p);
    RunMoves(Start(p), actions);
    MovesGood(Start(p), s);
    GoodRx(s);
    RxPrelude(s);
    GoodQueue(s);
    CauseHolds(s, a);
  }

  lemma {:induction false} CauseHolds(s: Stream, a: Action)
    requires PreludeInv(s) && Sendable(s.writeQ) && !Terminal(s.state) && (Marked(s.writeQ) ==> s.tx.finSent)
    ensures InRange(s.writeQ) && Follows(s, Step(s, a), StepCause(s, a))
  {
    hide PreludeInv, Follows, FrameCause, Deliver, PumpFails, UnsentBytes;
    if a.Receive? {
      DeliverCause(s, a.frame);
    } else {
      hide Step, StepCause;
      LocalCause(s, a);
    }
  }

  /** When the session goes, every pending operation of a live stream is told so, a write with
      the bytes that are on the wire. */
  lemma {:induction false} LossCancels(s: Stream)
    requires !Terminal(s.state)
    ensures var t := Step(s, SessionLoss);
            && t.readQ == [] && t.writeQ == [] && s.io.done <= t.io.done
            && (forall r :: r in s.readQ ==> ReadDone(r.id, [], Some(SessionLost)) in t.io.done)
            && (forall w :: w in s.writeQ ==> WriteDone(w.id, AdmittedPrefix(w), Some(SessionLost)) in t.io.done)
  {
    hide EndReads, EndWrites, AdmittedPrefix;
    EndReadsShape(s.readQ, Some(SessionLost));
    EndWritesShape(s.writeQ, SessionLost);
    assert forall r :: r in s.readQ ==> ReadDone(r.id, [], Some(SessionLost)) in EndReads(s.readQ, Some(SessionLost));
    assert forall w :: w in s.writeQ ==>
             WriteDone(w.id, AdmittedPrefix(w), Some(SessionLost)) in EndWrites(s.writeQ, SessionLost);
  }

  // ---- Repeated frames ---------------------------------------------------

  /** A DATA frame below the next offset and a WINDOW_UPDATE below the last one change nothing. */
  lemma {:induction false} StaleIgnored(s: Stream, f: Frame)
    requires f.Data? ==> f.length == |f.data| && f.offset < s.rx.next
    requires f.WindowUpdate? ==> f.consumed < s.tx.consumedByPeer
    requires f.Data? || f.WindowUpdate?
    ensures Deliver(s, f) == s
  {
  }

  /** A payload taken, refused or ignored once is ignored the second time. */
  lemma {:induction false} TwiceIsOnce(s: Stream, f: Frame)
    requires Good(s) && f.Data? && f.length == |f.data| && f.data != []
    ensures Deliver(Deliver(s, f), f) == Deliver(s, f)
  {
    hide Good, ResetFor, AcceptData, Moves, Seen, Purse, FramePurse, BreaksPrelude, PreludeShare;
    if !Terminal(s.state) {
      ResetState(s, ProtocolError);
      ResetState(s, ResourceExhausted);
      if f.offset == s.rx.next && |f.data| <= s.rx.remaining && s.rx.remainingFrames != 0 {
        AcceptMoves(s, f.data);
      }
    }
  }

  lemma {:induction false} PairGood(p: Setup, q: Setup, steps: seq<PairStep>)
    requires ValidSetup(p) && ValidSetup(q)
    ensures var w := PairRun(Pair(Start(p), Start(q)), steps); Good(w.a) && Good(w.b)
  {
    hide Good, Direction, Start, PairRun;
    StartDirection(p, q);
    StartDirection(q, p);
    PairRunKeeps(Pair(Start(p), Start(q)), steps);
    var w := PairRun(Pair(Start(p), Start(q)), steps);
    DirectionReceiver(w.a, w.b);
  }

  /** Over any run of two ends, in both directions: a DATA frame of the peer that starts below
      the next offset, so any frame already taken, changes nothing; and delivering any DATA frame
      twice in a row is delivering it once. */
  lemma {:induction false} DuplicateData(p: Setup, q: Setup, steps: seq<PairStep>, first: bool, i: nat)
    requires ValidSetup(p) && ValidSetup(q)
    ensures var w := PairRun(Pair(Start(p), Start(q)), steps);
            var sender, reader := Here(w, first), Here(w, !first);
            i < |sender.io.sent| && sender.io.sent[i].Data? ==>
              var f := sender.io.sent[i];
              && (f.offset < reader.rx.next ==> Deliver(reader, f) == reader)
              && Deliver(Deliver(reader, f), f) == Deliver(reader, f)
  {
    hide Good, Start, PairRun, Deliver, Truthful;
    PairGood(p, q, steps);
    var w := PairRun(Pair(Start(p), Start(q)), steps);
    var sender, reader := Here(w, first), Here(w, !first);
    if i < |sender.io.sent| && sender.io.sent[i].Data? {
      GoodTruthful(sender);
      DataTruth(sender.io.sent, i);
      TwiceIsOnce(reader, sender.io.sent[i]);
      if sender.io.sent[i].offset < reader.rx.next {
        StaleIgnored(reader, sender.io.sent[i]);
      }
    }
  }
}

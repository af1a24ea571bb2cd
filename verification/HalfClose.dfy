/** Half-close: what a FIN of the peer and a FIN of our own do to pending operations, and
    what becomes of a FIN that shutdown_write has to leave behind queued writes. */
module HalfClose {
  import opened Bytes
  import opened StreamModel
  import opened StreamHistory
  import opened ReceiveWindow
  import opened SendSide
  import opened Completions
  import opened Lifecycle
  import opened StreamRuns
  import opened EndOfStream

  // ---- What holds against any peer ---------------------------------------

  /** A read waits only while there is nothing to give it, and a live stream has not read
      less than the FIN it took announced. */
  predicate Waits(s: Stream) {
    Quiet(s) && (s.rx.finReceived && s.state != Reset ==> s.rx.finalOffset <= s.rx.next)
  }

  lemma {:induction false} WaitsKept(s: Stream, t: Stream)
    requires Waits(s) && t.rx == s.rx && (t.readQ == [] || s.readQ != [])
    requires s.state == Reset ==> t.state == Reset
    ensures Waits(t)
  {
  }

  /** Serving reads, and ending the stream if that was the last of them. */
  lemma {:induction false} ServedWaits(s: Stream)
    requires s.rx.finReceived && s.state != Reset ==> s.rx.finalOffset <= s.rx.next
    ensures Waits(Dispatch(s)) && Waits(Settle(Dispatch(s)))
  {
    hide Dispatch, Finish;
    DispatchFrames(s);
  }

  lemma {:induction false} PumpReads(s: Stream)
    ensures Pump(s).readQ == [] || Pump(s).readQ == s.readQ
    decreases PumpWork(s.writeQ)
  {
    hide Finish, AdmittedPrefix, NextData, Offer;
    if !Terminal(s.state) && s.writeQ != [] {
      if s.writeQ[0].offset < |s.writeQ[0].data| {
        if s.tx.credit != 0 && s.tx.creditFrames != 0 && Verdict(s.io) == Admitted {
          PumpReads(SendChunk(s));
        }
      } else if !s.writeQ[0].finAfter {
        PumpReads(CompleteWrite(s, None));
      }
    }
  }

  lemma {:induction false} PumpWaits(s: Stream)
    requires Waits(s) && s.state != Reset
    ensures Waits(Pump(s))
  {
    hide Pump, Waits;
    PumpReads(s);
    PumpFrames(s);
    WaitsKept(s, Pump(s));
  }

  lemma {:induction false} LocalWaits(s: Stream, a: Action)
    requires Waits(s) && !a.Receive?
    ensures Waits(Step(s, a))
  {
    hide Dispatch, Pump, Finish, LiveReads, LiveWrites, ExpiredReads, ExpiredWrites, EndReads, EndWrites, UnsentBytes;
    match a
    case ReadCall(capacity, deadline) =>
      ServedWaits(s.(readQ := s.readQ + [PendingRead(s.io.nextOp, capacity, deadline)],
                     io := s.io.(nextOp := s.io.nextOp + 1)));
    case WriteCall(data, deadline) =>
      if !Terminal(s.state) {
        PumpWaits(s.(writeQ := s.writeQ + [PendingWrite(s.io.nextOp, data, 0, deadline, false)],
                     io := s.io.(nextOp := s.io.nextOp + 1)));
      }
    case ShutdownCall =>
    case ResetOp(reason) =>
    case Tick(now) =>
      NoneLive(now);
    case SessionLoss =>
  }

  lemma {:induction false} NoneLive(now: nat)
    ensures LiveReads([], now) == []
  {
  }

  lemma {:induction false} DeliverWaits(s: Stream, frame: Frame)
    requires Waits(s)
    ensures Waits(Deliver(s, frame))
  {
    hide Dispatch, Pump, Finish, TakePrelude, PreludeShare;
    if Terminal(s.state) {
      return;
    }
    match frame
    case Data(offset, length, data) =>
      PreludeFrame(s, data);
      if length == |data| && offset == s.rx.next {
        ServedWaits(Buffer(TakePrelude(Charge(s, |data|), data), data[PreludeShare(s, data)..]));
      }
    case WindowUpdate(consumed, bytes, frames) =>
      PumpWaits(s.(tx := s.tx.(consumedByPeer := consumed, credit := s.tx.credit + bytes,
                               creditFrames := Min((frames + s.tx.creditFrames) % U64, U32 - 1))));
    case Fin(finalOffset) =>
      var s1 := s.(rx := s.rx.(finReceived := true, finalOffset := finalOffset));
      DispatchFrames(s1);
      if finalOffset == s.rx.next {
        ServedWaits(s1);
      }
    case ResetFrame(reason) =>
  }

  /** In every run against any peer. */
  lemma {:induction false} RunWaits(s: Stream, actions: seq<Action>)
    requires Waits(s)
    ensures Waits(Run(s, actions))
    decreases |actions|
  {
    hide Waits, Step;
    if actions != [] {
      StepWaits(s, actions[0]);
      RunWaits(Step(s, actions[0]), actions[1..]);
    }
  }

  lemma {:induction false} StepWaits(s: Stream, a: Action)
    requires Waits(s)
    ensures Waits(Step(s, a))
  {
    hide Waits, Deliver;
    if a.Receive? {
      DeliverWaits(s, a.frame);
    } else {
      hide Step;
      LocalWaits(s, a);
    }
  }

  lemma {:induction false} StartWaits(p: Setup)
    ensures Waits(Start(p))
  {
  }

  // ---- Pending operations at a FIN ---------------------------------------

  /** Every read of `q` was told about a clean end. */
  predicate AllAtEnd(q: seq<PendingRead>, done: seq<Completion>) {
    forall r :: r in q ==> ReadDone(r.id, [], None) in done
  }

  predicate AllReset(q: seq<PendingRead>, done: seq<Completion>) {
    forall r :: r in q ==> ReadDone(r.id, [], Some(StreamReset)) in done
  }

  /** Every write of `q` was cancelled with the bytes that are on the wire. */
  predicate AllCancelled(q: seq<PendingWrite>, done: seq<Completion>) {
    forall w :: w in q ==> WriteDone(w.id, AdmittedPrefix(w), Some(StreamReset)) in done
  }

  lemma {:induction false} FinishCancels(s: Stream, terminal: StreamState)
    ensures var t := Finish(s, terminal);
            && s.io.done <= t.io.done && AllCancelled(s.writeQ, t.io.done)
            && (if CleanEnd(terminal) then AllAtEnd(s.readQ, t.io.done) else AllReset(s.readQ, t.io.done))
  {
    hide EndReads, EndWrites, AdmittedPrefix;
    var error := if CleanEnd(terminal) then None else Some(StreamReset);
    EndReadsShape(s.readQ, error);
    EndWritesShape(s.writeQ, StreamReset);
    assert forall r :: r in s.readQ ==> ReadDone(r.id, [], error) in EndReads(s.readQ, error);
    assert forall w :: w in s.writeQ ==>
             WriteDone(w.id, AdmittedPrefix(w), Some(StreamReset)) in EndWrites(s.writeQ, StreamReset);
  }

  /** Serving reads keeps the writes, or has ended the stream and cancelled them. */
  lemma {:induction false} DispatchWrites(s: Stream)
    ensures var t := Dispatch(s);
            && s.io.done <= t.io.done
            && (t.writeQ == s.writeQ
                || (t.writeQ == [] && t.rx.chunks == [] && AllCancelled(s.writeQ, t.io.done)))
    decreases |s.readQ|
  {
    hide ServeRead, ServeEof, AdmittedPrefix;
    if s.readQ != [] {
      ServeFrames(s);
      ServeWrites(s);
      if s.rx.chunks != [] {
        DispatchWrites(ServeRead(s));
      } else if AtEnd(s.rx) {
        DispatchWrites(ServeEof(s));
      }
    }
  }

  lemma {:induction false} ServeWrites(s: Stream)
    requires s.readQ != []
    ensures s.rx.chunks != [] ==> ServeRead(s).writeQ == s.writeQ && s.io.done <= ServeRead(s).io.done
    ensures var t := ServeEof(s);
            && t.rx == s.rx && s.io.done + [ReadDone(s.readQ[0].id, [], None)] <= t.io.done
            && (if s.tx.finSent then t.readQ == [] && t.writeQ == [] && AllCancelled(s.writeQ, t.io.done)
                                  && AllAtEnd(s.readQ[1..], t.io.done)
                else t.readQ == s.readQ[1..] && t.writeQ == s.writeQ)
  {
    hide Finish, Sub32, Sub64, AdmittedPrefix;
    FinishCancels(CompleteRead(s, []), Closed);
  }

  /** At the end of the peer's direction with nothing buffered, every read is told. */
  lemma {:induction false} DispatchEnds(s: Stream)
    requires s.rx.chunks == [] && AtEnd(s.rx)
    ensures Dispatch(s).readQ == [] && AllAtEnd(s.readQ, Dispatch(s).io.done) && Dispatch(s).rx == s.rx
    decreases |s.readQ|
  {
    hide ServeEof, ServeRead;
    if s.readQ != [] {
      ServeFrames(s);
      ServeWrites(s);
      DispatchEnds(ServeEof(s));
      DispatchWrites(ServeEof(s));
      var first := ReadDone(s.readQ[0].id, [], None);
      assert (s.io.done + [first])[|s.io.done|] == first;
      assert forall r :: r in s.readQ ==> r == s.readQ[0] || r in s.readQ[1..];
    }
  }

  /** A FIN at the next offset. With nothing buffered it ends every waiting read cleanly
      and cancels every queued write; with bytes still to read it changes no queue, answers
      no one and sends nothing. */
  lemma {:induction false} PeerFin(s: Stream)
    requires Waits(s) && !Terminal(s.state)
    ensures var t := Deliver(s, Fin(s.rx.next));
            if s.rx.chunks == [] then
              && t.state == (if s.tx.finSent then Closed else HalfClosedRemote) && t.readQ == [] && t.writeQ == []
              && AllAtEnd(s.readQ, t.io.done) && AllCancelled(s.writeQ, t.io.done)
            else
              t == s.(rx := s.rx.(finReceived := true, finalOffset := s.rx.next))
  {
    hide Finish, Dispatch, AdmittedPrefix, EndReads;
    var s1 := s.(rx := s.rx.(finReceived := true, finalOffset := s.rx.next));
    var s2 := Dispatch(s1);
    if s.rx.chunks == [] {
      DispatchWrites(s1);
      DispatchFrames(s1);
      FinishCancels(s2, if s2.tx.finSent then Closed else HalfClosedRemote);
      DispatchEnds(s1);
    } else {
      NothingServed(s1);
    }
  }

  /** shutdown_write ends the stream's own direction at once, and with it every waiting
      read, exactly when it is allowed, nothing is queued and the session admits the FIN;
      otherwise no read, no completion and no state changes. */
  lemma {:induction false} LocalFin(s: Stream)
    ensures var t := ShutdownWrite(s);
            if !ShutdownRefused(s) && s.writeQ == [] && Verdict(s.io) == Admitted then
              && t.state == (if s.rx.finReceived then Closed else HalfClosedLocal)
              && t.io.sent == s.io.sent + [Fin(s.tx.next)] && t.readQ == []
              && (if s.rx.finReceived then AllAtEnd(s.readQ, t.io.done) else AllReset(s.readQ, t.io.done))
            else
              t.state == s.state && t.readQ == s.readQ && t.io.done == s.io.done && t.io.sent == s.io.sent
  {
    hide Finish;
    FinishCancels(Send(s.(tx := s.tx.(finSent := true)), Fin(s.tx.next)),
                  if s.rx.finReceived then Closed else HalfClosedLocal);
  }

  // ---- How far the pump gets ---------------------------------------------

  /** The DATA frames that carry `n` bytes: full ones and the rest. */
  function Pieces(n: nat, maxChunk: nat): nat
    requires maxChunk > 0
  {
    if n == 0 then 0 else 1 + Pieces(n - Min(maxChunk, n), maxChunk)
  }

  /** The DATA frames in which `credit` bytes of the queue can be sent. */
  function FramesPaid(q: seq<PendingWrite>, maxChunk: nat, credit: nat): nat
    requires maxChunk > 0 && InRange(q)
  {
    if q == [] then 0
    else
      var left := |q[0].data| - q[0].offset;
      Pieces(Min(left, credit), maxChunk) + if left <= credit then FramesPaid(q[1..], maxChunk, credit - left) else 0
  }

  /** The DATA frames both credits together allow. */
  function Budget(s: Stream): nat
    requires InRange(s.writeQ)
  {
    Min(FramesPaid(s.writeQ, s.cfg.maxChunk, s.tx.credit), s.tx.creditFrames)
  }

  /** Both credits cover the whole queue. */
  predicate Affords(s: Stream)
    requires InRange(s.writeQ)
  {
    && UnsentBytes(s.writeQ) <= s.tx.credit
    && FramesPaid(s.writeQ, s.cfg.maxChunk, s.tx.credit) <= s.tx.creditFrames
  }

  /** The answer of the session to the n-th frame offered from here. */
  function Answer(script: seq<Admission>, n: nat): Admission {
    if n < |script| then script[n] else Admitted
  }

  predicate AdmitsAll(script: seq<Admission>, n: nat) {
    forall j :: 0 <= j < n ==> Answer(script, j) == Admitted
  }

  /** Among the next `n` answers the first that does not admit is a failure. */
  predicate BreaksWithin(script: seq<Admission>, n: nat) {
    exists j :: 0 <= j < n && Answer(script, j) == Failed && AdmitsAll(script, j)
  }

  function NextAnswers(script: seq<Admission>): seq<Admission> {
    if script == [] then [] else script[1..]
  }

  lemma {:induction false} NextAnswer(script: seq<Admission>, n: nat)
    ensures Answer(script, n + 1) == Answer(NextAnswers(script), n)
  {
  }

  lemma {:induction false} OneAdmitted(script: seq<Admission>, n: nat)
    requires Answer(script, 0) == Admitted
    ensures AdmitsAll(script, n + 1) <==> AdmitsAll(NextAnswers(script), n)
  {
    hide Answer, NextAnswers;
    forall j | 0 <= j < n ensures Answer(script, j + 1) == Answer(NextAnswers(script), j) {
      NextAnswer(script, j);
    }
    if AdmitsAll(NextAnswers(script), n) {
      forall j | 0 <= j < n + 1 ensures Answer(script, j) == Admitted {
        if j > 0 {
          NextAnswer(script, j - 1);
        }
      }
    }
  }

  lemma {:induction false} OneBroken(script: seq<Admission>, n: nat)
    requires Answer(script, 0) == Admitted
    ensures BreaksWithin(script, n + 1) <==> BreaksWithin(NextAnswers(script), n)
  {
    hide Answer, NextAnswers, AdmitsAll;
    if BreaksWithin(script, n + 1) {
      var j :| 0 <= j < n + 1 && Answer(script, j) == Failed && AdmitsAll(script, j);
      OneAdmitted(script, j - 1);
      NextAnswer(script, j - 1);
    }
    if BreaksWithin(NextAnswers(script), n) {
      var j :| 0 <= j < n && Answer(NextAnswers(script), j) == Failed && AdmitsAll(NextAnswers(script), j);
      OneAdmitted(script, j);
      NextAnswer(script, j);
      assert Answer(script, j + 1) == Failed;
    }
  }

  lemma {:induction false} NotAdmitted(script: seq<Admission>, n: nat)
    requires Answer(script, 0) != Admitted && n > 0
    ensures !AdmitsAll(script, n) && (BreaksWithin(script, n) <==> Answer(script, 0) == Failed)
  {
    hide Answer;
    if Answer(script, 0) == Failed {
      assert AdmitsAll(script, 0);
    }
  }

  /** A DATA frame uses one frame of the budget. */
  lemma {:induction false} ChunkBudget(s: Stream)
    requires InRange(s.writeQ) && s.writeQ != [] && s.writeQ[0].offset < |s.writeQ[0].data|
    requires s.tx.credit > 0 && s.tx.creditFrames > 0
    ensures InRange(SendChunk(s).writeQ)
    ensures Budget(s) == Budget(SendChunk(s)) + 1 && (Affords(s) <==> Affords(SendChunk(s)))
  {
    hide NextData, Offer;
    var t := SendChunk(s);
    assert t.writeQ[1..] == s.writeQ[1..];
  }

  /** Without credit there is no budget for the front write. */
  lemma {:induction false} NoBudget(s: Stream)
    requires InRange(s.writeQ) && s.writeQ != [] && s.writeQ[0].offset < |s.writeQ[0].data|
    requires s.tx.credit == 0 || s.tx.creditFrames == 0
    ensures Budget(s) == 0 && !Affords(s)
  {
    UnsentIsNat(s.writeQ[1..]);
  }

  /** A finished write costs nothing. */
  lemma {:induction false} DoneBudget(s: Stream)
    requires InRange(s.writeQ) && s.writeQ != [] && s.writeQ[0].offset == |s.writeQ[0].data|
    ensures InRange(s.writeQ[1..])
    ensures Budget(s) == Budget(CompleteWrite(s, None)) && (Affords(s) <==> Affords(CompleteWrite(s, None)))
  {
    hide AdmittedPrefix;
  }

  // ---- Our own FIN -------------------------------------------------------

  /** The last queued write carries the FIN. */
  predicate Marked(q: seq<PendingWrite>) {
    q != [] && q[|q| - 1].finAfter
  }

  predicate Sendable(q: seq<PendingWrite>) {
    InRange(q) && forall i :: 0 <= i < |q| - 1 ==> !q[i].finAfter
  }

  predicate HasFin(sent: seq<Frame>) {
    exists i :: 0 <= i < |sent| && sent[i].Fin?
  }

  lemma {:induction false} HasFinSnoc(sent: seq<Frame>, f: Frame)
    ensures HasFin(sent + [f]) <==> HasFin(sent) || f.Fin?
  {
    var all := sent + [f];
    assert f.Fin? ==> all[|sent|].Fin?;
    if HasFin(sent) {
      var i :| 0 <= i < |sent| && sent[i].Fin?;
      assert all[i].Fin?;
    }
  }

  /** The session fails on a DATA frame that both credits allow. */
  predicate PumpFails(s: Stream)
    requires InRange(s.writeQ)
  {
    BreaksWithin(s.io.script, Budget(s))
  }

  /** Everything queued before the mark is admitted, so the FIN is due. */
  predicate PumpEnds(s: Stream)
    requires InRange(s.writeQ)
  {
    Marked(s.writeQ) && Affords(s) && AdmitsAll(s.io.script, Budget(s))
  }

  /** What the pump makes of `s`. */
  predicate Pumped(s: Stream, t: Stream)
    requires InRange(s.writeQ)
  {
    if PumpFails(s) then
      && t.state == Reset && t.readQ == [] && t.writeQ == [] && AllReset(s.readQ, t.io.done)
      && (HasFin(t.io.sent) <==> HasFin(s.io.sent))
    else if PumpEnds(s) then
      && t.state == (if s.rx.finReceived then Closed else HalfClosedLocal) && t.readQ == [] && t.writeQ == []
      && (if s.rx.finReceived then AllAtEnd(s.readQ, t.io.done) else AllReset(s.readQ, t.io.done))
      && (HasFin(t.io.sent) <==> HasFin(s.io.sent) || Answer(s.io.script, Budget(s)) == Admitted)
    else
      && t.state == s.state && t.readQ == s.readQ
      && (Marked(t.writeQ) <==> Marked(s.writeQ)) && (HasFin(t.io.sent) <==> HasFin(s.io.sent))
  }

  lemma {:induction false} ChunkPumped(s: Stream, t: Stream)
    requires InRange(s.writeQ) && s.writeQ != [] && s.writeQ[0].offset < |s.writeQ[0].data|
    requires s.tx.credit > 0 && s.tx.creditFrames > 0 && Verdict(s.io) == Admitted
    requires InRange(SendChunk(s).writeQ) && Pumped(SendChunk(s), t)
    ensures Pumped(s, t)
  {
    hide Budget, Affords, AdmitsAll, BreaksWithin, Answer, HasFin, NextData;
    var s1 := SendChunk(s);
    ChunkBudget(s);
    HasFinSnoc(s.io.sent, NextData(s));
    DataIsData(s);
    FirstAnswer(s.io);
    OneAdmitted(s.io.script, Budget(s1));
    OneBroken(s.io.script, Budget(s1));
    NextAnswer(s.io.script, Budget(s1));
  }

  lemma {:induction false} DataIsData(s: Stream)
    requires s.writeQ != [] && s.writeQ[0].offset < |s.writeQ[0].data|
    ensures NextData(s).Data?
  {
  }

  lemma {:induction false} FirstAnswer(io: Io)
    ensures Answer(io.script, 0) == Verdict(io)
  {
  }

  lemma {:induction false} DonePumped(s: Stream, t: Stream)
    requires Sendable(s.writeQ) && s.writeQ != [] && s.writeQ[0].offset == |s.writeQ[0].data|
    requires !s.writeQ[0].finAfter && InRange(s.writeQ[1..]) && Pumped(CompleteWrite(s, None), t)
    ensures Pumped(s, t)
  {
    hide Budget, Affords, AdmitsAll, BreaksWithin, Answer, HasFin, AdmittedPrefix;
    DoneBudget(s);
  }

  lemma {:induction false} FailPumped(s: Stream)
    requires InRange(s.writeQ) && s.writeQ != [] && s.writeQ[0].offset < |s.writeQ[0].data| && !Terminal(s.state)
    requires s.tx.credit > 0 && s.tx.creditFrames > 0 && Verdict(s.io) == Failed
    ensures Pumped(s, ResetFor(CompleteWrite(Send(s, NextData(s)), Some(SendFailed)), Unavailable))
  {
    hide Budget, Affords, AdmitsAll, BreaksWithin, Answer, HasFin, NextData, Finish, AdmittedPrefix, EndReads;
    ChunkBudget(s);
    FirstAnswer(s.io);
    NotAdmitted(s.io.script, Budget(s));
    var s1 := CompleteWrite(Send(s, NextData(s)), Some(SendFailed));
    HasFinSnoc(s1.io.sent, ResetFrame(Some(Unavailable)));
    FinishCancels(Send(s1, ResetFrame(Some(Unavailable))), Reset);
  }

  lemma {:induction false} StopPumped(s: Stream)
    requires InRange(s.writeQ) && s.writeQ != [] && s.writeQ[0].offset < |s.writeQ[0].data|
    ensures s.tx.credit == 0 || s.tx.creditFrames == 0 ==> Pumped(s, s)
    ensures s.tx.credit > 0 && s.tx.creditFrames > 0 && Verdict(s.io) == WouldBlock ==> Pumped(s, Send(s, NextData(s)))
  {
    hide Budget, Affords, AdmitsAll, Answer, HasFin, NextData;
    if s.tx.credit == 0 || s.tx.creditFrames == 0 {
      NoBudget(s);
    } else {
      ChunkBudget(s);
      FirstAnswer(s.io);
      if Verdict(s.io) == WouldBlock {
        NotAdmitted(s.io.script, Budget(s));
      }
    }
  }

  lemma {:induction false} EndPumped(s: Stream)
    requires Sendable(s.writeQ) && s.writeQ != [] && s.writeQ[0].offset == |s.writeQ[0].data| && s.writeQ[0].finAfter
    ensures Pumped(s, SendFin(CompleteWrite(s, None)))
  {
    hide Answer, HasFin, Finish, AdmittedPrefix, EndReads, NextData;
    var s1 := CompleteWrite(s, None);
    assert s1.writeQ == [] && |s.writeQ| == 1;
    DoneBudget(s);
    FirstAnswer(s.io);
    HasFinSnoc(s.io.sent, Fin(s.tx.next));
    FinishCancels(Send(s1, Fin(s1.tx.next)), if s.rx.finReceived then Closed else HalfClosedLocal);
  }

  /** Writing out the queue cancels the waiting reads exactly when the session fails on a
      DATA frame or the queue is marked and wholly admitted; in the second case whatever
      the session answers to the FIN itself. Both are decided by the two credits, the
      queue and the answers of the session. */
  lemma {:induction false} QueuedFin(s: Stream)
    requires Sendable(s.writeQ) && !Terminal(s.state)
    ensures Pumped(s, Pump(s))
    decreases PumpWork(s.writeQ)
  {
    hide Pumped, SendFin, ResetFor, AdmittedPrefix, NextData;
    if s.writeQ == [] {
      NothingPumped(s);
    } else if s.writeQ[0].offset < |s.writeQ[0].data| {
      StopPumped(s);
      if s.tx.credit != 0 && s.tx.creditFrames != 0 {
        if Verdict(s.io) == Admitted {
          QueuedFin(SendChunk(s));
          ChunkPumped(s, Pump(s));
        } else if Verdict(s.io) == Failed {
          FailPumped(s);
        }
      }
    } else if s.writeQ[0].finAfter {
      EndPumped(s);
    } else {
      QueuedFin(CompleteWrite(s, None));
      DonePumped(s, Pump(s));
    }
  }

  lemma {:induction false} NothingPumped(s: Stream)
    requires s.writeQ == []
    ensures Pumped(s, s)
  {
  }

  // ---- The fate of a FIN -------------------------------------------------

  /** shutdown_write was called and its FIN waits behind queued writes. */
  predicate FinQueued(s: Stream) {
    s.tx.finSent && Marked(s.writeQ)
  }

  /** shutdown_write was called, but its FIN is neither queued nor sent. */
  predicate FinLost(s: Stream) {
    s.tx.finSent && !Marked(s.writeQ) && !HasFin(s.io.sent)
  }

  /** The two credits a WINDOW_UPDATE leaves. */
  function Credited(s: Stream, bytes: nat, frames: nat): Stream {
    s.(tx := s.tx.(credit := s.tx.credit + bytes,
                   creditFrames := Min((frames + s.tx.creditFrames) % U64, U32 - 1)))
  }

  /** A payload that ends the stream: malformed, out of order, outside a window, a broken
      prelude, or empty once everything before the peer's FIN was read. */
  predicate DataEnds(s: Stream, offset: nat, length: nat, data: seq<byte>) {
    || length != |data|
    || offset > s.rx.next
    || (offset == s.rx.next
        && (|| |data| > s.rx.remaining || s.rx.remainingFrames == 0
            || BreaksPrelude(s, data)
            || (data == [] && s.rx.chunks == [] && AtEnd(s.rx))))
  }

  predicate FrameLosesFin(s: Stream, frame: Frame)
    requires InRange(s.writeQ)
  {
    match frame
    case Data(offset, length, data) => DataEnds(s, offset, length, data)
    case WindowUpdate(consumed, bytes, frames) =>
      && consumed >= s.tx.consumedByPeer
      && (|| consumed > s.tx.next || bytes > U64 - 1 - s.tx.credit
          || PumpFails(Credited(s, bytes, frames))
          || (PumpEnds(Credited(s, bytes, frames))
              && Answer(s.io.script, Budget(Credited(s, bytes, frames))) != Admitted))
    case Fin(finalOffset) => finalOffset != s.rx.next || s.rx.chunks == []
    case ResetFrame(_) => true
  }

  /** What makes a live stream lose its queued FIN. */
  predicate LosesFin(s: Stream, a: Action)
    requires Marked(s.writeQ) && InRange(s.writeQ)
  {
    match a
    case ReadCall(capacity, _) => capacity > 0 && s.rx.chunks == [] && AtEnd(s.rx)
    case WriteCall(_, _) => false
    case ShutdownCall => false
    case ResetOp(_) => true
    case Tick(now) => DialExpired(s, now) || Expired(s.writeQ[|s.writeQ| - 1].deadline, now)
    case SessionLoss => true
    case Receive(frame) => FrameLosesFin(s, frame)
  }

  /** What puts the queued FIN on the wire: a WINDOW_UPDATE that lets the rest of the
      queue and then the FIN be admitted. */
  predicate SendsFin(s: Stream, a: Action)
    requires InRange(s.writeQ)
  {
    && a.Receive? && a.frame.WindowUpdate?
    && s.tx.consumedByPeer <= a.frame.consumed <= s.tx.next && a.frame.bytes <= U64 - 1 - s.tx.credit
    && PumpEnds(Credited(s, a.frame.bytes, a.frame.frames))
    && Answer(s.io.script, Budget(Credited(s, a.frame.bytes, a.frame.frames))) == Admitted
  }

  /** The three ways a step can leave a queued FIN. */
  predicate Fate(t: Stream, sends: bool, loses: bool) {
    && t.tx.finSent
    && (HasFin(t.io.sent) <==> sends)
    && (FinLost(t) <==> loses)
  }

  lemma {:induction false} GoodQueue(s: Stream)
    requires Good(s)
    ensures Sendable(s.writeQ) && (Terminal(s.state) ==> s.writeQ == []) && (Marked(s.writeQ) ==> s.tx.finSent)
    ensures HasFin(s.io.sent) ==> s.tx.finSent && s.writeQ == []
    ensures AwaitsPrelude(s) ==> |s.gw.prelude| < PRELUDE_BYTES
  {
    hide ReadBytes, WriteBytes, SentBytes, Flatten, Prefixes, Truthful, OpInv, ConnectInv, Prompt;
  }

  // Ending the stream.

  lemma {:induction false} ResetFate(s: Stream, reason: Status)
    requires s.tx.finSent && !HasFin(s.io.sent)
    ensures Fate(ResetFor(s, reason), false, true)
  {
    hide Finish, HasFin;
    HasFinSnoc(s.io.sent, ResetFrame(Some(reason)));
  }

  lemma {:induction false} FinishFate(s: Stream, terminal: StreamState)
    requires s.tx.finSent && !HasFin(s.io.sent)
    ensures Fate(Finish(s, terminal), false, true)
  {
    hide Finish, HasFin;
  }

  lemma {:induction false} KeptFate(s: Stream, t: Stream)
    requires FinQueued(s) && t.tx.finSent && t.writeQ == s.writeQ && !HasFin(t.io.sent)
    ensures Fate(t, false, false)
  {
    hide HasFin;
  }

  // Serving reads.

  lemma {:induction false} ServeFins(s: Stream)
    requires s.readQ != []
    ensures s.rx.chunks != [] ==>
              && (HasFin(ServeRead(s).io.sent) <==> HasFin(s.io.sent)) && ServeRead(s).writeQ == s.writeQ
              && |ServeRead(s).readQ| == |s.readQ| - 1
    ensures ServeEof(s).io.sent == s.io.sent
  {
    hide HasFin, Finish, Sub32, Sub64;
    if s.rx.chunks != [] {
      HasFinSnoc(s.io.sent, PendingUpdate(TakeRead(s).rx));
    }
  }

  lemma {:induction false} DispatchFins(s: Stream)
    ensures HasFin(Dispatch(s).io.sent) <==> HasFin(s.io.sent)
    ensures !AtEnd(s.rx) ==> Dispatch(s).writeQ == s.writeQ
    decreases |s.readQ|
  {
    hide HasFin, ServeRead, ServeEof;
    if s.readQ != [] {
      ServeFrames(s);
      ServeFins(s);
      if s.rx.chunks != [] {
        DispatchFins(ServeRead(s));
      } else if AtEnd(s.rx) {
        DispatchFins(ServeEof(s));
      }
    }
  }

  lemma {:induction false} OneRead(s: Stream)
    requires |s.readQ| == 1 && (s.rx.chunks != [] || !AtEnd(s.rx))
    ensures Dispatch(s).writeQ == s.writeQ
  {
    hide ServeRead, ServeEof;
    if s.rx.chunks != [] {
      ServeFins(s);
      NothingServed(ServeRead(s));
    }
  }

  lemma {:induction false} LastRead(s: Stream)
    requires |s.readQ| == 1 && s.rx.chunks == [] && AtEnd(s.rx) && s.tx.finSent
    ensures Dispatch(s).writeQ == [] && Dispatch(s).tx == s.tx
  {
    hide ServeRead;
    assert Dispatch(s) == Dispatch(ServeEof(s));
    NothingServed(ServeEof(s));
  }

  lemma {:induction false} ReadFate(s: Stream, capacity: nat, deadline: Option<nat>)
    requires Waits(s) && FinQueued(s) && !HasFin(s.io.sent) && !Terminal(s.state)
    ensures Fate(AsyncRead(s, capacity, deadline), false, capacity > 0 && s.rx.chunks == [] && AtEnd(s.rx))
  {
    hide HasFin, Dispatch;
    var s1 := s.(readQ := s.readQ + [PendingRead(s.io.nextOp, capacity, deadline)],
                 io := s.io.(nextOp := s.io.nextOp + 1));
    DispatchFins(s1);
    DispatchFrames(s1);
    if s.readQ == [] {
      if s.rx.chunks == [] && AtEnd(s.rx) {
        LastRead(s1);
      } else {
        OneRead(s1);
      }
    }
  }

  // Deadlines.

  lemma {:induction false} LiveMark(q: seq<PendingWrite>, now: nat)
    requires Sendable(q) && Marked(q)
    ensures Marked(LiveWrites(q, now)) <==> !Expired(q[|q| - 1].deadline, now)
  {
    hide Expired;
    if |q| == 1 {
      assert q[1..] == [] && LiveWrites([], now) == [];
    } else {
      LiveMark(q[1..], now);
      assert q[1..][|q| - 2] == q[|q| - 1];
      if Expired(q[|q| - 1].deadline, now) {
        assert LiveWrites(q, now) == LiveWrites(q[1..], now) || LiveWrites(q, now) == [q[0]] + LiveWrites(q[1..], now);
      }
    }
  }

  lemma {:induction false} TickFate(s: Stream, now: nat)
    requires Sendable(s.writeQ) && FinQueued(s) && !HasFin(s.io.sent)
    ensures Fate(CheckDeadlines(s, now), false, DialExpired(s, now) || Expired(s.writeQ[|s.writeQ| - 1].deadline, now))
  {
    hide HasFin, ResetFor, LiveReads, LiveWrites, ExpiredReads, ExpiredWrites, EndReads, EndWrites, Expired;
    LiveMark(s.writeQ, now);
    ResetFate(Swept(s, now), DeadlineExceeded);
  }

  // Frames.

  lemma {:induction false} AcceptFate(s: Stream, data: seq<byte>)
    requires Waits(s) && FinQueued(s) && !HasFin(s.io.sent) && !Terminal(s.state)
    requires AwaitsPrelude(s) ==> |s.gw.prelude| < PRELUDE_BYTES
    ensures Fate(AcceptData(s, data), false, BreaksPrelude(s, data) || (data == [] && s.rx.chunks == [] && AtEnd(s.rx)))
  {
    hide HasFin, Dispatch, TakePrelude, PreludeShare, ResetFor, Finish;
    PreludeFrame(s, data);
    var s1 := TakePrelude(Charge(s, |data|), data);
    var s2 := Buffer(s1, data[PreludeShare(s, data)..]);
    if BreaksPrelude(s, data) {
      ResetFate(s1, ProtocolError);
    } else {
      DispatchFins(s2);
      DispatchFrames(s2);
      if data == [] {
        EmptyPayload(s);
        if AtEnd(s.rx) {
          NothingServed(s2);
        }
      }
    }
  }

  lemma {:induction false} EmptyPayload(s: Stream)
    requires AwaitsPrelude(s) ==> |s.gw.prelude| < PRELUDE_BYTES
    ensures Buffer(TakePrelude(Charge(s, 0), []), [][PreludeShare(s, [])..]).rx.chunks == s.rx.chunks
    ensures !BreaksPrelude(s, [])
  {
    hide EndPrelude;
    assert PreludeShare(s, []) == 0 && s.gw.prelude + [][..0] == s.gw.prelude;
  }

  lemma {:induction false} DataFate(s: Stream, offset: nat, length: nat, data: seq<byte>)
    requires Waits(s) && FinQueued(s) && !HasFin(s.io.sent) && !Terminal(s.state)
    requires AwaitsPrelude(s) ==> |s.gw.prelude| < PRELUDE_BYTES
    ensures Fate(OnData(s, offset, length, data), false, DataEnds(s, offset, length, data))
  {
    hide HasFin, AcceptData, ResetFor, BreaksPrelude;
    ResetFate(s, ProtocolError);
    ResetFate(s, ResourceExhausted);
    AcceptFate(s, data);
  }

  lemma {:induction false} UpdateFate(s: Stream, consumed: nat, bytes: nat, frames: nat)
    requires Sendable(s.writeQ) && FinQueued(s) && !HasFin(s.io.sent) && !Terminal(s.state)
    ensures var f := WindowUpdate(consumed, bytes, frames);
            Fate(OnWindowUpdate(s, consumed, bytes, frames), SendsFin(s, Receive(f)), FrameLosesFin(s, f))
  {
    hide HasFin, ResetFor, Pump, BreaksWithin, AdmitsAll, Answer, Budget, Affords, AllReset, AllAtEnd;
    var s1 := s.(tx := s.tx.(consumedByPeer := consumed));
    var s2 := Credited(s1, bytes, frames);
    ResetFate(s, ProtocolError);
    ResetFate(s1, ResourceExhausted);
    QueuedFin(s2);
    PumpFrames(s2);
    SameBudget(s, consumed, bytes, frames);
    NotBoth(s.io.script, Budget(s2));
  }

  lemma {:induction false} NotBoth(script: seq<Admission>, n: nat)
    ensures AdmitsAll(script, n) ==> !BreaksWithin(script, n)
  {
  }

  lemma {:induction false} SameBudget(s: Stream, consumed: nat, bytes: nat, frames: nat)
    requires InRange(s.writeQ)
    ensures var t := Credited(s.(tx := s.tx.(consumedByPeer := consumed)), bytes, frames);
            && Budget(t) == Budget(Credited(s, bytes, frames))
            && (Affords(t) <==> Affords(Credited(s, bytes, frames)))
  {
  }

  lemma {:induction false} FinFate(s: Stream, finalOffset: nat)
    requires Waits(s) && FinQueued(s) && !HasFin(s.io.sent) && !Terminal(s.state)
    ensures Fate(OnFin(s, finalOffset), false, finalOffset != s.rx.next || s.rx.chunks == [])
  {
    hide HasFin, ResetFor, Dispatch, Finish;
    var s1 := s.(rx := s.rx.(finReceived := true, finalOffset := finalOffset));
    ResetFate(s1, ProtocolError);
    if finalOffset == s.rx.next {
      DispatchFins(s1);
      DispatchFrames(s1);
      if s.rx.chunks != [] {
        NothingServed(s1);
      } else {
        DispatchEnds(s1);
      }
    }
  }

  lemma {:induction false} FrameFate(s: Stream, frame: Frame)
    requires Waits(s) && Sendable(s.writeQ) && FinQueued(s) && !HasFin(s.io.sent) && !Terminal(s.state)
    requires AwaitsPrelude(s) ==> |s.gw.prelude| < PRELUDE_BYTES
    ensures Fate(Deliver(s, frame), SendsFin(s, Receive(frame)), FrameLosesFin(s, frame))
  {
    hide Fate, Waits, HasFin, OnData, OnWindowUpdate, OnFin, DataEnds, PumpEnds, PumpFails, Finish, Budget, Answer;
    match frame
    case Data(offset, length, data) => DataFate(s, offset, length, data);
    case WindowUpdate(consumed, bytes, frames) => UpdateFate(s, consumed, bytes, frames);
    case Fin(finalOffset) => FinFate(s, finalOffset);
    case ResetFrame(reason) => FinishFate(s.(resetReason := KnownReason(s, reason)), Reset);
  }

  /** A queued FIN: what any step does with it, decided by the stream before the step. */
  lemma {:induction false} QueuedFinFate(s: Stream, a: Action)
    requires Good(s) && Waits(s) && FinQueued(s)
    ensures InRange(s.writeQ) && !Terminal(s.state)
    ensures var t := Step(s, a);
            && (HasFin(t.io.sent) <==> SendsFin(s, a))
            && (FinLost(t) <==> LosesFin(s, a))
            && (FinQueued(t) <==> !SendsFin(s, a) && !LosesFin(s, a))
  {
    hide Good, Waits, HasFin, Deliver, AsyncRead, CheckDeadlines, ResetFor, FrameLosesFin, PumpEnds, Budget, Answer,
      EndReads, EndWrites, Expired, Moves;
    GoodQueue(s);
    match a
    case ReadCall(capacity, deadline) => ReadFate(s, capacity, deadline);
    case WriteCall(data, deadline) => KeptFate(s, Step(s, a));
    case ShutdownCall => KeptFate(s, Step(s, a));
    case ResetOp(reason) => ResetFate(s, reason);
    case Tick(now) => TickFate(s, now);
    case SessionLoss =>
    case Receive(frame) => FrameFate(s, frame);
    StepMoves(s, a);
    MovesGood(s, Step(s, a));
    GoodQueue(Step(s, a));
  }

  /** shutdown_write itself: the FIN is queued behind writes, sent, or refused and lost. */
  lemma {:induction false} ShutdownFate(s: Stream)
    requires Good(s) && !ShutdownRefused(s)
    ensures var t := ShutdownWrite(s);
            && (FinQueued(t) <==> s.writeQ != [])
            && (HasFin(t.io.sent) <==> s.writeQ == [] && Verdict(s.io) == Admitted)
            && (FinLost(t) <==> s.writeQ == [] && Verdict(s.io) != Admitted)
  {
    hide Good, HasFin, Finish;
    GoodQueue(s);
    HasFinSnoc(s.io.sent, Fin(s.tx.next));
  }

  // Nothing brings a lost FIN back.

  lemma {:induction false} PumpLost(s: Stream)
    requires Sendable(s.writeQ) && FinLost(s)
    ensures FinLost(Pump(s))
  {
    hide HasFin, Pump, BreaksWithin, AdmitsAll, Answer, Budget, Affords, AllReset, AllAtEnd, InRange;
    if Terminal(s.state) {
      EndedPump(s);
    } else {
      QueuedFin(s);
      PumpFrames(s);
    }
  }

  lemma {:induction false} EndedPump(s: Stream)
    requires Terminal(s.state)
    ensures Pump(s) == s
  {
  }

  lemma {:induction false} DispatchLost(s: Stream)
    requires FinLost(s)
    ensures FinLost(Dispatch(s)) && FinLost(Settle(Dispatch(s)))
  {
    hide HasFin, Dispatch, Finish, AllCancelled;
    DispatchFins(s);
    DispatchFrames(s);
    DispatchWrites(s);
  }

  lemma {:induction false} ResetLost(s: Stream, reason: Status)
    requires FinLost(s)
    ensures FinLost(ResetFor(s, reason))
  {
    hide HasFin;
    ResetFate(s, reason);
  }

  lemma {:induction false} SweptLost(s: Stream, now: nat)
    requires Sendable(s.writeQ) && FinLost(s)
    ensures FinLost(Swept(s, now))
  {
    hide HasFin, LiveReads, LiveWrites, ExpiredReads, ExpiredWrites, EndReads, EndWrites;
    LiveUnmarked(s.writeQ, now);
  }

  lemma {:induction false} LiveUnmarked(q: seq<PendingWrite>, now: nat)
    requires Sendable(q) && !Marked(q)
    ensures !Marked(LiveWrites(q, now))
  {
    hide Expired;
    if q != [] {
      LiveUnmarked(q[1..], now);
    }
  }

  lemma {:induction false} FrameLost(s: Stream, frame: Frame)
    requires Sendable(s.writeQ) && FinLost(s)
    ensures FinLost(Deliver(s, frame))
  {
    hide HasFin, Dispatch, Pump, ResetFor, Finish, TakePrelude, PreludeShare, Sendable, Marked;
    NoneMarked();
    if Terminal(s.state) {
      return;
    }
    match frame
    case Data(offset, length, data) =>
      PreludeFrame(s, data);
      var s1 := TakePrelude(Charge(s, |data|), data);
      ResetLost(s, ProtocolError);
      ResetLost(s, ResourceExhausted);
      ResetLost(s1, ProtocolError);
      DispatchLost(Buffer(s1, data[PreludeShare(s, data)..]));
    case WindowUpdate(consumed, bytes, frames) =>
      var s1 := s.(tx := s.tx.(consumedByPeer := consumed));
      ResetLost(s, ProtocolError);
      ResetLost(s1, ResourceExhausted);
      PumpLost(Credited(s1, bytes, frames));
    case Fin(finalOffset) =>
      var s1 := s.(rx := s.rx.(finReceived := true, finalOffset := finalOffset));
      ResetLost(s1, ProtocolError);
      DispatchFrames(s1);
      DispatchLost(s1);
    case ResetFrame(reason) =>
  }

  lemma {:induction false} NoneMarked()
    ensures !Marked([])
  {
  }

  lemma {:induction false} StepLost(s: Stream, a: Action)
    requires Good(s) && FinLost(s)
    ensures FinLost(Step(s, a))
  {
    hide Good, HasFin, Deliver, Dispatch, ResetFor, Swept, Sendable, Marked, EndReads, EndWrites;
    GoodQueue(s);
    NoneMarked();
    match a
    case ReadCall(capacity, deadline) =>
      DispatchLost(s.(readQ := s.readQ + [PendingRead(s.io.nextOp, capacity, deadline)],
                      io := s.io.(nextOp := s.io.nextOp + 1)));
    case WriteCall(data, deadline) =>
    case ShutdownCall =>
    case ResetOp(reason) => ResetLost(s, reason);
    case Tick(now) =>
      SweptLost(s, now);
      ResetLost(Swept(s, now), DeadlineExceeded);
    case SessionLoss =>
    case Receive(frame) => FrameLost(s, frame);
  }

  // Over whole runs.

  /** The step loses a FIN: a queued one, or one the session refuses to take at once. */
  predicate LosesAt(s: Stream, a: Action) {
    || (FinQueued(s) && InRange(s.writeQ) && LosesFin(s, a))
    || (a.ShutdownCall? && !ShutdownRefused(s) && s.writeQ == [] && Verdict(s.io) != Admitted)
  }

  predicate LosesInRun(s: Stream, actions: seq<Action>)
    decreases |actions|
  {
    actions != [] && (LosesAt(s, actions[0]) || LosesInRun(Step(s, actions[0]), actions[1..]))
  }

  /** Only shutdown_write starts the end of our direction. */
  lemma {:induction false} OnlyShutdown(s: Stream, a: Action)
    requires !a.ShutdownCall?
    ensures Step(s, a).tx.finSent == s.tx.finSent
  {
    hide Dispatch, Pump, Finish, TakePrelude, PreludeShare, LiveReads, LiveWrites, ExpiredReads, ExpiredWrites,
      EndReads, EndWrites, UnsentBytes;
    match a
    case ReadCall(capacity, deadline) =>
      DispatchFrames(s.(readQ := s.readQ + [PendingRead(s.io.nextOp, capacity, deadline)],
                        io := s.io.(nextOp := s.io.nextOp + 1)));
    case WriteCall(data, deadline) =>
      PumpFrames(s.(writeQ := s.writeQ + [PendingWrite(s.io.nextOp, data, 0, deadline, false)],
                    io := s.io.(nextOp := s.io.nextOp + 1)));
    case Receive(frame) => FrameKeepsFin(s, frame);
    case _ =>
  }

  lemma {:induction false} FrameKeepsFin(s: Stream, frame: Frame)
    ensures Deliver(s, frame).tx.finSent == s.tx.finSent
  {
    hide Dispatch, Pump, Finish, TakePrelude, PreludeShare;
    match frame
    case Data(offset, length, data) =>
      PreludeFrame(s, data);
      DispatchFrames(Buffer(TakePrelude(Charge(s, |data|), data), data[PreludeShare(s, data)..]));
    case WindowUpdate(consumed, bytes, frames) =>
      PumpFrames(Credited(s.(tx := s.tx.(consumedByPeer := consumed)), bytes, frames));
    case Fin(finalOffset) =>
      DispatchFrames(s.(rx := s.rx.(finReceived := true, finalOffset := finalOffset)));
    case ResetFrame(reason) =>
  }

  lemma {:induction false} StepLoses(s: Stream, a: Action)
    requires Good(s) && Waits(s)
    ensures FinLost(Step(s, a)) <==> FinLost(s) || LosesAt(s, a)
  {
    hide Good, Waits, HasFin, Step, LosesFin, SendsFin, Marked, ShutdownWrite;
    GoodQueue(s);
    var t := Step(s, a);
    if FinLost(s) {
      StepLost(s, a);
    } else if FinQueued(s) {
      QueuedFinFate(s, a);
    } else if s.tx.finSent {
      StaysSent(s, a);
    } else if a.ShutdownCall? {
      assert t == ShutdownWrite(s) by { ShutdownStep(s); }
      if !ShutdownRefused(s) {
        ShutdownFate(s);
      } else {
        RefusedShutdown(s);
      }
    } else {
      OnlyShutdown(s, a);
    }
  }

  lemma {:induction false} ShutdownStep(s: Stream)
    ensures Step(s, ShutdownCall) == ShutdownWrite(s)
  {
  }

  lemma {:induction false} RefusedShutdown(s: Stream)
    requires ShutdownRefused(s)
    ensures ShutdownWrite(s) == s
  {
  }

  lemma {:induction false} StaysSent(s: Stream, a: Action)
    requires Good(s) && HasFin(s.io.sent)
    ensures HasFin(Step(s, a).io.sent)
  {
    hide Good, Step;
    StepMoves(s, a);
    var i :| 0 <= i < |s.io.sent| && s.io.sent[i].Fin?;
    assert Step(s, a).io.sent[i] == s.io.sent[i];
  }

  lemma {:induction false} RunLoses(s: Stream, actions: seq<Action>)
    requires Good(s) && Waits(s)
    ensures FinLost(Run(s, actions)) <==> FinLost(s) || LosesInRun(s, actions)
    decreases |actions|
  {
    hide Good, Waits, FinLost, LosesAt, Step, Moves;
    if actions != [] {
      StepLoses(s, actions[0]);
      StepMoves(s, actions[0]);
      MovesGood(s, Step(s, actions[0]));
      StepWaits(s, actions[0]);
      RunLoses(Step(s, actions[0]), actions[1..]);
    }
  }

  /** After shutdown_write the FIN is queued, on the wire, or lost for good; it is lost
      exactly when some step of the run met the condition that loses it. */
  lemma {:induction false} FinFates(p: Setup, actions: seq<Action>)
    requires ValidSetup(p)
    ensures var s := Run(Start(p), actions);
            && (FinLost(s) <==> LosesInRun(Start(p), actions))
            && (s.tx.finSent && !FinLost(s) ==> FinQueued(s) != HasFin(s.io.sent))
  {
    hide Good, Waits, LosesInRun, Run, Start, HasFin, Moves;
    StartGood(p);
    StartWaits(p);
    StartUnsent(p);
    RunLoses(Start(p), actions);
    RunMoves(Start(p), actions);
    MovesGood(Start(p), Run(Start(p), actions));
    GoodQueue(Run(Start(p), actions));
  }

  lemma {:induction false} StartUnsent(p: Setup)
    ensures !Start(p).tx.finSent
  {
  }

  lemma {:induction false} RunThree(s: Stream, a: Action, b: Action, c: Action)
    ensures Run(s, [a, b, c]) == Step(Step(Step(s, a), b), c)
  {
    hide Step;
    assert [a, b, c][1..] == [b, c] && [b, c][1..] == [c] && [c][1..] == [];
    assert Run(Step(s, a), [b, c]) == Run(Step(Step(s, a), b), [c]);
    assert Run(Step(Step(s, a), b), [c]) == Run(Step(Step(Step(s, a), b), c), []);
  }

  /** One byte written before any credit came, then shutdown_write: the FIN waits. If the
      write's deadline passes the stream stays open without it; if the peer's FIN comes
      first the stream closes without it. */
  lemma {:induction false} FinLostReachable(p: Setup, b: byte)
    requires ValidSetup(p) && !p.serves && p.gw == PLAIN
    ensures var late := Run(Start(p), [WriteCall([b], Some(0)), ShutdownCall, Tick(1)]);
            var crossed := Run(Start(p), [WriteCall([b], Some(0)), ShutdownCall, Receive(Fin(0))]);
            && FinLost(late) && late.state == Open && late.io.sent == []
            && FinLost(crossed) && crossed.state == Closed && crossed.io.sent == []
  {
    var s := Start(p);
    var write := PendingWrite(0, [b], 0, Some(0), false);
    var s1 := s.(writeQ := [write], io := s.io.(nextOp := 1));
    var s2 := s1.(tx := s1.tx.(finSent := true), writeQ := [write.(finAfter := true)]);
    assert Step(s, WriteCall([b], Some(0))) == s1 by {
      assert s.writeQ + [write] == [write];
    }
    assert Step(s1, ShutdownCall) == s2;
    RunThree(s, WriteCall([b], Some(0)), ShutdownCall, Tick(1));
    RunThree(s, WriteCall([b], Some(0)), ShutdownCall, Receive(Fin(0)));
    assert LiveWrites(s2.writeQ, 1) == [] by {
      assert s2.writeQ[1..] == [] && LiveWrites([], 1) == [];
    }
    NothingServed(s2.(rx := s2.rx.(finReceived := true)));
  }
}

/** When a read may report a clean end of stream. */
module EndOfStream {
  import opened Bytes
  import opened StreamModel
  import opened StreamHistory
  import opened Lifecycle
  import opened SendSide
  import opened ReceiveWindow
  import opened StreamRuns

  predicate HasEof(done: seq<Completion>) {
    exists i :: 0 <= i < |done| && IsEof(done[i])
  }

  /** A read waits only while nothing is buffered and the end was not reached. */
  predicate Quiet(s: Stream) {
    s.readQ != [] ==> s.rx.chunks == [] && !AtEnd(s.rx)
  }

  /** A FIN was taken only at the offset it names. */
  predicate Obeyed(s: Stream) {
    s.rx.finReceived && s.state != Reset ==> AtEnd(s.rx)
  }

  /** A clean end was reported only with everything accepted read. */
  predicate EofInv(s: Stream) {
    HasEof(s.io.done) ==> AtEnd(s.rx) && s.rx.chunks == [] && !PreludeBroken(s.gw)
  }

  /** Reads of no bytes are refused, so every queued read has room. */
  predicate Roomy(s: Stream) {
    forall i :: 0 <= i < |s.readQ| ==> s.readQ[i].capacity > 0
  }

  predicate ReadEnd(s: Stream) {
    Quiet(s) && Obeyed(s) && EofInv(s) && Roomy(s)
  }

  /** No clean end between `s` and `t`, and nothing new to read. */
  predicate NoEof(s: Stream, t: Stream) {
    && (HasEof(t.io.done) ==> HasEof(s.io.done))
    && t.rx == s.rx && t.gw.prelude == s.gw.prelude
    && (t.readQ == [] || t.readQ == s.readQ)
    && (s.state == Reset ==> t.state == Reset)
  }

  lemma {:induction false} NoEofKeeps(s: Stream, t: Stream)
    requires ReadEnd(s) && NoEof(s, t)
    ensures ReadEnd(t)
  {
    hide HasEof;
  }

  lemma {:induction false} HasEofSnoc(done: seq<Completion>, c: Completion)
    ensures HasEof(done + [c]) <==> HasEof(done) || IsEof(c)
  {
    var all := done + [c];
    assert IsEof(c) ==> IsEof(all[|done|]);
    if HasEof(done) {
      var i :| 0 <= i < |done| && IsEof(done[i]);
      assert IsEof(all[i]);
    }
  }

  lemma {:induction false} HasEofAppend(a: seq<Completion>, b: seq<Completion>)
    requires forall i :: 0 <= i < |b| ==> !IsEof(b[i])
    ensures HasEof(a + b) ==> HasEof(a)
  {
  }

  lemma {:induction false} EndAllEof(done: seq<Completion>, rq: seq<PendingRead>, re: Option<IoError>,
                                     wq: seq<PendingWrite>, we: IoError)
    requires re.Some? || rq == []
    ensures HasEof(done + EndReads(rq, re) + EndWrites(wq, we)) ==> HasEof(done)
  {
    hide HasEof, EndReads, EndWrites;
    EndReadsShape(rq, re);
    EndWritesShape(wq, we);
    HasEofAppend(done, EndReads(rq, re));
    HasEofAppend(done + EndReads(rq, re), EndWrites(wq, we));
  }

  /** Ending a stream reports a clean end only to reads that were still waiting. */
  lemma {:induction false} FinishEof(s: Stream, terminal: StreamState)
    requires CleanEnd(terminal) ==> s.readQ == []
    requires s.state == Reset ==> terminal == Reset
    ensures NoEof(s, Finish(s, terminal))
  {
    hide HasEof, EndReads, EndWrites;
    var out := if CleanEnd(terminal) then ConnectClosed else ConnectFailed(s.resetReason);
    var re := if CleanEnd(terminal) then None else Some(StreamReset);
    HasEofSnoc(s.io.done, ConnectDone(out));
    EndAllEof(s.io.done, s.readQ, re, s.writeQ, StreamReset);
    EndAllEof(s.io.done + [ConnectDone(out)], s.readQ, re, s.writeQ, StreamReset);
  }

  lemma {:induction false} ResetEof(s: Stream, reason: Status)
    ensures NoEof(s, ResetFor(s, reason)) && ResetFor(s, reason).state == Reset
  {
    hide HasEof, Finish;
    FinishEof(if s.state == Reset then s else Send(s, ResetFrame(Some(reason))), Reset);
  }

  lemma {:induction false} SendFinEof(s: Stream)
    requires (s.rx.finReceived ==> s.readQ == []) && s.state != Reset
    ensures NoEof(s, SendFin(s))
  {
    hide HasEof, Finish;
    FinishEof(Send(s, Fin(s.tx.next)), if s.rx.finReceived then Closed else HalfClosedLocal);
  }

  lemma {:induction false} PumpEof(s: Stream)
    requires s.rx.finReceived ==> s.readQ == []
    ensures NoEof(s, Pump(s))
    decreases PumpWork(s.writeQ)
  {
    hide HasEof, Finish, ResetFor, AdmittedPrefix, NextData, SendFin;
    if !Terminal(s.state) && s.writeQ != [] {
      var w := WriteDone(s.writeQ[0].id, AdmittedPrefix(s.writeQ[0]), None);
      var e := WriteDone(s.writeQ[0].id, AdmittedPrefix(s.writeQ[0]), Some(SendFailed));
      HasEofSnoc(s.io.done, w);
      HasEofSnoc(s.io.done, e);
      if s.writeQ[0].offset < |s.writeQ[0].data| {
        if s.tx.credit != 0 && s.tx.creditFrames != 0 {
          if Verdict(s.io) == Admitted {
            PumpEof(SendChunk(s));
          } else {
            ResetEof(CompleteWrite(Send(s, NextData(s)), Some(SendFailed)), Unavailable);
          }
        }
      } else if s.writeQ[0].finAfter {
        SendFinEof(CompleteWrite(s, None));
      } else {
        PumpEof(CompleteWrite(s, None));
      }
    }
  }

  lemma {:induction false} ServeEofs(s: Stream)
    requires s.readQ != []
    ensures s.rx.chunks != [] ==> (HasEof(ServeRead(s).io.done) ==> HasEof(s.io.done) || s.rx.chunks[0] == []
                                                                     || s.readQ[0].capacity == 0)
  {
    hide HasEof, Sub32, Sub64;
    if s.rx.chunks != [] {
      var chunk := s.rx.chunks[0];
      var count := Min(s.readQ[0].capacity, |chunk|);
      HasEofSnoc(s.io.done, ReadDone(s.readQ[0].id, chunk[..count], None));
    }
  }

  /** Serving reads reports a clean end only at the end. */
  lemma {:induction false} DispatchEof(s: Stream)
    requires RxInv(s) && s.state != Reset && Roomy(s)
    requires HasEof(s.io.done) ==> AtEnd(s.rx) && s.rx.chunks == []
    ensures HasEof(Dispatch(s).io.done) ==> AtEnd(s.rx) && Dispatch(s).rx.chunks == []
    ensures Roomy(Dispatch(s))
    decreases |s.readQ|
  {
    hide HasEof, RxInv, ServeRead, ServeEof;
    if s.readQ != [] {
      ServeFrames(s);
      ServeRoomy(s);
      ServeRx(s);
      if s.rx.chunks != [] {
        ServeEofs(s);
        ChunkNotEmpty(s);
        DispatchEof(ServeRead(s));
      } else if AtEnd(s.rx) {
        ServeEofChunks(s);
        DispatchEof(ServeEof(s));
      }
    }
  }

  lemma {:induction false} ServeRoomy(s: Stream)
    requires s.readQ != [] && Roomy(s)
    ensures s.rx.chunks != [] ==> Roomy(ServeRead(s))
    ensures Roomy(ServeEof(s))
  {
    hide Finish, Sub32, Sub64;
  }

  lemma {:induction false} ChunkNotEmpty(s: Stream)
    requires RxInv(s) && s.rx.chunks != []
    ensures s.rx.chunks[0] != []
  {
    hide ReadBytes, Flatten;
  }

  lemma {:induction false} ServeEofChunks(s: Stream)
    requires s.readQ != []
    ensures ServeEof(s).rx == s.rx && (ServeEof(s).state == s.state || ServeEof(s).state == Closed)
  {
    hide Finish;
  }

  // ---- Steps -------------------------------------------------------------

  /** Everything a frame or a read call does after it changed the buffer. */
  lemma {:induction false} ServedEnd(s: Stream)
    requires Good(s) && !Terminal(s.state) && Roomy(s) && Obeyed(s) && EofInv(s)
    ensures ReadEnd(Settle(Dispatch(s)))
  {
    hide Good, RxInv, HasEof, Dispatch, Finish;
    NotBroken(s);
    GoodRx(s);
    var t := Dispatch(s);
    DispatchFrames(s);
    DispatchEof(s);
    if AtEnd(t.rx) && t.rx.chunks == [] {
      FinishEof(t, if t.tx.finSent then Closed else HalfClosedRemote);
      NoEofKeeps(t, EndOfReceive(t));
    }
  }

  lemma {:induction false} ReadCallEnd(s: Stream, capacity: nat, deadline: Option<nat>)
    requires Good(s) && ReadEnd(s)
    ensures ReadEnd(AsyncRead(s, capacity, deadline))
  {
    hide Good, RxInv, TxInv, HasEof, Dispatch;
    HasEofSnoc(s.io.done, ReadDone(s.io.nextOp, [], Some(ReadBufferEmpty)));
    HasEofSnoc(s.io.done, ReadDone(s.io.nextOp, [], Some(StreamReset)));
    HasEofSnoc(s.io.done, ReadDone(s.io.nextOp, [], Some(ReadLimit)));
    if capacity != 0 && s.state != Reset {
      var s1 := s.(readQ := s.readQ + [PendingRead(s.io.nextOp, capacity, deadline)],
                   io := s.io.(nextOp := s.io.nextOp + 1));
      PushReadLeads(s, capacity, deadline);
      LeadsGood(s, s1);
      GoodRx(s1);
      NotBroken(s1);
      DispatchFrames(s1);
      DispatchEof(s1);
    }
  }

  lemma {:induction false} GoodRx(s: Stream)
    requires Good(s)
    ensures RxInv(s)
  {
    hide RxInv, TxInv;
  }

  lemma {:induction false} WriteCallEnd(s: Stream, data: seq<byte>, deadline: Option<nat>)
    requires ReadEnd(s)
    ensures ReadEnd(AsyncWrite(s, data, deadline))
  {
    hide HasEof, Pump, UnsentBytes;
    HasEofSnoc(s.io.done, WriteDone(s.io.nextOp, [], None));
    HasEofSnoc(s.io.done, WriteDone(s.io.nextOp, [], Some(NotWritable)));
    HasEofSnoc(s.io.done, WriteDone(s.io.nextOp, [], Some(WriteAfterFin)));
    HasEofSnoc(s.io.done, WriteDone(s.io.nextOp, [], Some(WriteBacklogFull)));
    HasEofSnoc(s.io.done, WriteDone(s.io.nextOp, [], Some(WriteLimit)));
    if !Terminal(s.state) {
      var s1 := s.(writeQ := s.writeQ + [PendingWrite(s.io.nextOp, data, 0, deadline, false)],
                   io := s.io.(nextOp := s.io.nextOp + 1));
      PumpEof(s1);
      NoEofKeeps(s1, Pump(s1));
    }
  }

  lemma {:induction false} ShutdownEnd(s: Stream)
    requires ReadEnd(s)
    ensures ReadEnd(ShutdownWrite(s))
  {
    hide HasEof, SendFin;
    if !ShutdownRefused(s) {
      var s1 := s.(tx := s.tx.(finSent := true));
      SendFinEof(s1);
      NoEofKeeps(s1, SendFin(s1));
    }
  }

  lemma {:induction false} SweptEnd(s: Stream, now: nat)
    requires ReadEnd(s)
    ensures ReadEnd(Swept(s, now))
  {
    hide HasEof, EndReads, EndWrites, ExpiredReads, ExpiredWrites, LiveWrites, LiveReads;
    EndAllEof(s.io.done, ExpiredReads(s.readQ, now), Some(ReadDeadline),
              ExpiredWrites(s.writeQ, now), WriteDeadline);
    LiveRoomy(s.readQ, now);
  }

  lemma {:induction false} LiveRoomy(q: seq<PendingRead>, now: nat)
    requires forall i :: 0 <= i < |q| ==> q[i].capacity > 0
    ensures forall i :: 0 <= i < |LiveReads(q, now)| ==> LiveReads(q, now)[i].capacity > 0
    ensures q == [] ==> LiveReads(q, now) == []
  {
    if q != [] {
      LiveRoomy(q[1..], now);
    }
  }

  lemma {:induction false} LossEnd(s: Stream)
    requires ReadEnd(s)
    ensures ReadEnd(FailAll(s))
  {
    hide HasEof, EndReads, EndWrites;
    HasEofSnoc(s.io.done, ConnectDone(ConnectClosed));
    EndAllEof(s.io.done, s.readQ, Some(SessionLost), s.writeQ, SessionLost);
    EndAllEof(s.io.done + [ConnectDone(ConnectClosed)], s.readQ, Some(SessionLost), s.writeQ, SessionLost);
  }

  lemma {:induction false} LocalEnd(s: Stream, a: Action)
    requires Good(s) && ReadEnd(s) && !a.Receive?
    ensures ReadEnd(Step(s, a))
  {
    hide Good, ReadEnd, AsyncRead, AsyncWrite, ShutdownWrite, Swept, FailAll, ResetFor;
    match a
    case ReadCall(capacity, deadline) => ReadCallEnd(s, capacity, deadline);
    case WriteCall(data, deadline) => WriteCallEnd(s, data, deadline);
    case ShutdownCall => ShutdownEnd(s);
    case ResetOp(reason) =>
      ResetEof(s, reason);
      NoEofKeeps(s, ResetFor(s, reason));
    case Tick(now) =>
      SweptEnd(s, now);
      ResetEof(Swept(s, now), DeadlineExceeded);
      NoEofKeeps(Swept(s, now), ResetFor(Swept(s, now), DeadlineExceeded));
    case SessionLoss => LossEnd(s);
  }

  /** A frame that contradicts no FIN taken before. */
  predicate Consistent(s: Stream, frame: Frame) {
    s.rx.finReceived ==>
      && (frame.Data? ==> frame.offset < s.rx.finalOffset && frame.length == |frame.data|)
      && (frame.Fin? ==> frame.finalOffset == s.rx.finalOffset)
  }

  lemma {:induction false} DataEnd(s: Stream, offset: nat, length: nat, data: seq<byte>)
    requires Good(s) && ReadEnd(s) && Consistent(s, Data(offset, length, data)) && !Terminal(s.state)
    ensures ReadEnd(OnData(s, offset, length, data))
  {
    hide Good, HasEof, ResetFor, AcceptData;
    ResetEof(s, ProtocolError);
    ResetEof(s, ResourceExhausted);
    if length != |data| || offset > s.rx.next {
      NoEofKeeps(s, ResetFor(s, ProtocolError));
    } else if offset == s.rx.next && (|data| > s.rx.remaining || s.rx.remainingFrames == 0) {
      NoEofKeeps(s, ResetFor(s, ResourceExhausted));
    } else if offset == s.rx.next {
      AcceptEnd(s, data);
    }
  }

  lemma {:induction false} AcceptEnd(s: Stream, data: seq<byte>)
    requires Good(s) && ReadEnd(s) && !s.rx.finReceived && !Terminal(s.state)
    requires |data| <= s.rx.remaining && s.rx.remainingFrames != 0
    ensures ReadEnd(AcceptData(s, data))
  {
    hide Good, HasEof, Settle, ResetFor, Dispatch, TakePrelude, PreludeShare;
    var t := TakePrelude(Charge(s, |data|), data);
    BufferLeads(s, data);
    BufferLive(s, data);
    PreludeFrame(s, data);
    PreludeEof(s, data);
    if AwaitsPrelude(s) && PreludeBroken(t.gw) {
      ResetEof(t, ProtocolError);
    } else {
      var s2 := Buffer(t, data[PreludeShare(s, data)..]);
      MovesGood(s, s2);
      ServedEnd(s2);
    }
  }

  lemma {:induction false} PreludeEof(s: Stream, data: seq<byte>)
    ensures HasEof(TakePrelude(Charge(s, |data|), data).io.done) ==> HasEof(s.io.done)
  {
    hide HasEof;
    HasEofSnoc(s.io.done, ConnectDone(Connected));
  }

  lemma {:induction false} FinEnd(s: Stream, finalOffset: nat)
    requires Good(s) && ReadEnd(s) && Consistent(s, Fin(finalOffset)) && !Terminal(s.state)
    ensures ReadEnd(OnFin(s, finalOffset))
  {
    hide Good, HasEof, ResetFor, Dispatch, EndOfReceive;
    var s1 := s.(rx := s.rx.(finReceived := true, finalOffset := finalOffset));
    RetuneLeads(s, s1);
    MovesGood(s, s1);
    if finalOffset != s.rx.next {
      ResetEof(s1, ProtocolError);
    } else {
      DispatchFrames(s1);
      NotBroken(s);
      ServedEnd(s1);
    }
  }

  lemma {:induction false} NotBroken(s: Stream)
    requires Good(s) && s.state != Reset
    ensures !PreludeBroken(s.gw)
  {
    hide TxInv, ReadBytes, Flatten;
  }

  lemma {:induction false} UpdateEnd(s: Stream, consumed: nat, bytes: nat, frames: nat)
    requires ReadEnd(s) && !Terminal(s.state)
    ensures ReadEnd(OnWindowUpdate(s, consumed, bytes, frames))
  {
    hide HasEof, ResetFor, Pump;
    var s1 := s.(tx := s.tx.(consumedByPeer := consumed));
    var s2 := s1.(tx := s1.tx.(credit := s.tx.credit + bytes,
                               creditFrames := Min((frames + s.tx.creditFrames) % U64, U32 - 1)));
    ResetEof(s, ProtocolError);
    ResetEof(s1, ResourceExhausted);
    PumpEof(s2);
    NoEofKeeps(s, ResetFor(s, ProtocolError));
    NoEofKeeps(s1, ResetFor(s1, ResourceExhausted));
    NoEofKeeps(s2, Pump(s2));
  }

  /** Frames that contradict no FIN keep the promise about clean ends. */
  lemma {:induction false} DeliverEnd(s: Stream, frame: Frame)
    requires Good(s) && ReadEnd(s) && Consistent(s, frame)
    ensures ReadEnd(Deliver(s, frame))
  {
    hide Good, ReadEnd, OnData, OnFin, OnWindowUpdate, Finish;
    if !Terminal(s.state) {
      match frame
      case Data(offset, length, data) => DataEnd(s, offset, length, data);
      case WindowUpdate(consumed, bytes, frames) => UpdateEnd(s, consumed, bytes, frames);
      case Fin(finalOffset) => FinEnd(s, finalOffset);
      case ResetFrame(reason) =>
        var s1 := s.(resetReason := KnownReason(s, reason));
        FinishEof(s1, Reset);
        ReasonEnd(s, s1);
        NoEofKeeps(s1, Finish(s1, Reset));
    }
  }

  lemma {:induction false} ReasonEnd(s: Stream, t: Stream)
    requires ReadEnd(s) && t == s.(resetReason := t.resetReason)
    ensures ReadEnd(t)
  {
    hide HasEof;
  }
}

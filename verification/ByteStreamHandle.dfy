/** One end of a byte stream as the mutable object the source keeps. `View` reads its
    fields as a `Stream`, and every method is proved equal to the function of
    `StreamModel` that specifies it. */
module ByteStreamObject {
  import opened Bytes
  import opened StreamModel
  import opened SendSide

  lemma {:induction false} EndReadsSnoc(q: seq<PendingRead>, r: PendingRead, error: Option<IoError>)
    ensures EndReads(q + [r], error) == EndReads(q, error) + [ReadDone(r.id, [], error)]
  {
    if q == [] {
      assert q + [r] == [r] && [r][1..] == [];
      assert EndReads([r], error) == [ReadDone(r.id, [], error)] + EndReads([], error);
    } else {
      assert (q + [r])[1..] == q[1..] + [r];
      EndReadsSnoc(q[1..], r, error);
    }
  }

  lemma {:induction false} EndWritesSnoc(q: seq<PendingWrite>, w: PendingWrite, error: IoError)
    ensures EndWrites(q + [w], error)
         == EndWrites(q, error) + [WriteDone(w.id, AdmittedPrefix(w), Some(error))]
  {
    if q == [] {
      assert q + [w] == [w] && [w][1..] == [];
      assert EndWrites([w], error) == [WriteDone(w.id, AdmittedPrefix(w), Some(error))] + EndWrites([], error);
    } else {
      assert (q + [w])[1..] == q[1..] + [w];
      EndWritesSnoc(q[1..], w, error);
    }
  }

  lemma {:induction false} NothingPending(readError: Option<IoError>, writeError: IoError)
    ensures EndReads([], readError) == [] && EndWrites([], writeError) == []
  {
  }

  class ByteStreamHandle {
    const cfg: ValidConfig
    var state: StreamState
    /** What this end receives: accepted bytes, both windows, the buffer. */
    var rx: Receiver
    /** What this end sends: its offset and the credit it holds. */
    var tx: Sender
    var gw: Gateway
    var resetReason: Option<Status>
    var writeQ: seq<PendingWrite>
    var readQ: seq<PendingRead>
    /** The session as this stream sees it, and the handlers it has run. */
    var io: Io

    ghost function View(): Stream
      reads this
    {
      Stream(state, cfg, rx, tx, gw, resetReason, readQ, writeQ, io)
    }

    /** The opener's end, or the serving end with the credit the OPEN carried; only the
        latter offers its own window at once. */
    constructor (p: Setup)
      requires ValidSetup(p)
      ensures View() == Start(p)
    {
      cfg := p.cfg;
      state := if p.gw.initiator then Opening else Open;
      rx := Receiver(0, p.window, p.windowFrames, p.window, p.windowFrames, [], 0, 0, 0, 0, false, 0);
      tx := Sender(0, 0, p.credit, p.creditFrames, false);
      gw, resetReason := p.gw, None;
      writeQ, readQ := [], [];
      io := Io(p.script, [], [], [], 0);
      new;
      if p.serves {
        var _ := SendFrame(WindowUpdate(0, rx.window, rx.windowFrames));
      }
    }

    // ---- The session and the handlers ------------------------------------

    method SendFrame(frame: Frame) returns (answer: Admission)
      modifies this`io
      ensures answer == Verdict(old(io)) && io == Offer(old(io), frame)
    {
      answer := if io.script == [] then Admitted else io.script[0];
      var rest := if io.script == [] then [] else io.script[1..];
      if answer == Admitted {
        io := io.(script := rest, sent := io.sent + [frame]);
      } else {
        io := io.(script := rest, refused := io.refused + [frame]);
      }
    }

    method Run(handler: Completion)
      modifies this`io
      ensures io == old(io).(done := old(io).done + [handler])
    {
      io := io.(done := io.done + [handler]);
    }

    method RunConnectHandler(outcome: ConnectOutcome)
      modifies this`io, this`gw
      ensures View() == FireConnect(old(View()), outcome)
    {
      if gw.handler && !gw.fired {
        gw := gw.(handler := false, fired := true);
        Run(ConnectDone(outcome));
      }
    }

    // ---- Ending ----------------------------------------------------------

    /** Run every pending handler, reads first, and empty both queues. */
    method CancelPending(readError: Option<IoError>, writeError: IoError)
      modifies this`io, this`readQ, this`writeQ
      ensures io == old(io).(done := old(io.done) + EndReads(old(readQ), readError)
                                     + EndWrites(old(writeQ), writeError))
      ensures readQ == [] && writeQ == []
    {
      CancelReads(readError);
      CancelWrites(writeError);
    }

    method CancelReads(error: Option<IoError>)
      modifies this`io, this`readQ
      ensures io == old(io).(done := old(io.done) + EndReads(old(readQ), error)) && readQ == []
    {
      hide EndReads;
      assert EndReads(readQ[..0], error) == [] by { NothingPending(error, StreamReset); }
      for i := 0 to |readQ|
        invariant readQ == old(readQ)
        invariant io == old(io).(done := old(io.done) + EndReads(readQ[..i], error))
      {
        assert readQ[..i + 1] == readQ[..i] + [readQ[i]];
        EndReadsSnoc(readQ[..i], readQ[i], error);
        Run(ReadDone(readQ[i].id, [], error));
      }
      assert readQ[..|readQ|] == readQ;
      readQ := [];
    }

    method CancelWrites(error: IoError)
      modifies this`io, this`writeQ
      ensures io == old(io).(done := old(io.done) + EndWrites(old(writeQ), error)) && writeQ == []
    {
      hide EndWrites, AdmittedPrefix;
      assert EndWrites(writeQ[..0], error) == [] by { NothingPending(None, error); }
      for i := 0 to |writeQ|
        invariant writeQ == old(writeQ)
        invariant io == old(io).(done := old(io.done) + EndWrites(writeQ[..i], error))
      {
        assert writeQ[..i + 1] == writeQ[..i] + [writeQ[i]];
        EndWritesSnoc(writeQ[..i], writeQ[i], error);
        Run(WriteDone(writeQ[i].id, AdmittedPrefix(writeQ[i]), Some(error)));
      }
      assert writeQ[..|writeQ|] == writeQ;
      writeQ := [];
    }

    method FinishStream(terminal: StreamState)
      modifies this
      ensures View() == Finish(old(View()), terminal)
    {
      state := terminal;
      var clean := terminal == Closed || terminal == HalfClosedRemote;
      if gw.initiator {
        RunConnectHandler(if clean then ConnectClosed else ConnectFailed(resetReason));
      }
      CancelPending(if clean then None else Some(StreamReset), StreamReset);
    }

    method ResetWith(reason: Status)
      modifies this
      ensures View() == ResetFor(old(View()), reason)
    {
      if state != Reset {
        var _ := SendFrame(ResetFrame(Some(reason)));
      }
      FinishStream(Reset);
    }

    /** The part of fail_all that concerns this stream. */
    method Fail()
      modifies this
      ensures View() == FailAll(old(View()))
    {
      if gw.initiator {
        RunConnectHandler(ConnectClosed);
      }
      CancelPending(Some(SessionLost), SessionLost);
      state := Reset;
    }

    // ---- Receiving -------------------------------------------------------

    method MaybeSendWindowUpdate()
      modifies this
      ensures View() == MaybeUpdate(old(View()))
    {
      var consumedBytes := Sub64(rx.consumed, rx.reported);
      var consumedFrames := Sub32(rx.remainingFrames, rx.reportedFrames);
      var windowDrained := rx.remaining == 0;
      var enoughCredit := consumedBytes >= rx.window / 4;
      if !windowDrained && !enoughCredit {
        return;
      }
      var sent := SendFrame(WindowUpdate(rx.consumed, consumedBytes, consumedFrames));
      if sent != Admitted {
        return;
      }
      rx := rx.(reported := rx.consumed, reportedFrames := rx.remainingFrames,
                remaining := Min(rx.remaining + consumedBytes, rx.window));
    }

    method CompleteFrontRead(bytes: seq<byte>)
      requires readQ != []
      modifies this`readQ, this`io
      ensures View() == CompleteRead(old(View()), bytes)
    {
      var read := readQ[0];
      readQ := readQ[1..];
      Run(ReadDone(read.id, bytes, None));
    }

    /** Copy from the front chunk to the front read. */
    method CopyToRead()
      requires readQ != [] && rx.chunks != []
      modifies this
      ensures View() == TakeRead(old(View()))
    {
      var chunk := rx.chunks[0];
      var count := Min(readQ[0].capacity, |chunk|);
      rx := rx.(consumed := rx.consumed + count, buffered := rx.buffered - count);
      if count == |chunk| {
        rx := rx.(chunks := rx.chunks[1..],
                  remainingFrames := Min((rx.remainingFrames + 1) % U32, rx.windowFrames));
      } else {
        rx := rx.(chunks := [chunk[count..]] + rx.chunks[1..]);
      }
      CompleteFrontRead(chunk[..count]);
    }

    method TryDispatchReads()
      modifies this
      ensures View() == Dispatch(old(View()))
    {
      hide CompleteRead, TakeRead, MaybeUpdate, Finish;
      while readQ != []
        invariant Dispatch(View()) == Dispatch(old(View()))
        decreases |readQ|
      {
        ghost var s := View();
        ServeFrames(s);
        if rx.chunks == [] {
          if rx.finReceived && rx.next == rx.finalOffset {
            CompleteFrontRead([]);
            assert tx == s.tx by { CompleteReadKeeps(s, []); }
            if tx.finSent {
              FinishStream(Closed);
            }
            assert View() == ServeEof(s);
            continue;
          }
          return;
        }
        CopyToRead();
        MaybeSendWindowUpdate();
        assert View() == ServeRead(s);
      }
    }

    // ---- Sending ---------------------------------------------------------

    method CompleteFrontWrite(error: Option<IoError>)
      requires writeQ != []
      modifies this`writeQ, this`io
      ensures View() == CompleteWrite(old(View()), error)
    {
      var write := writeQ[0];
      Run(WriteDone(write.id, AdmittedPrefix(write), error));
      writeQ := writeQ[1..];
    }

    /** Turn queued writes into DATA while credit and admission last. */
    method PumpWrites()
      modifies this
      ensures View() == Pump(old(View()))
    {
      hide Finish, AdmittedPrefix, ResetFor, CompleteWrite, SendFin;
      if Terminal(state) {
        return;
      }
      while writeQ != []
        invariant Pump(View()) == Pump(old(View())) && !Terminal(state)
        decreases PumpWork(writeQ)
      {
        ghost var s0 := View();
        var stopped := SendFront();
        if stopped {
          return;
        }
        ghost var s := View();
        CompleteWriteKeeps(s, None);
        var finAfter := writeQ[0].finAfter;
        CompleteFrontWrite(None);
        if finAfter {
          var _ := SendFrame(Fin(tx.next));
          FinishStream(if rx.finReceived then Closed else HalfClosedLocal);
          assert View() == SendFin(CompleteWrite(s, None)) by { SendFinIs(CompleteWrite(s, None)); }
          return;
        }
      }
    }

    /** The front write: send it in bounded chunks, or stop for credit, back-pressure or
        a failed session. */
    method SendFront() returns (stopped: bool)
      requires writeQ != [] && !Terminal(state)
      modifies this
      ensures !stopped ==> Pump(View()) == Pump(old(View()))
      ensures stopped ==> View() == Pump(old(View()))
      ensures !stopped ==> writeQ != [] && writeQ[0].offset >= |writeQ[0].data| && !Terminal(state)
      ensures !stopped ==> writeQ[1..] == old(writeQ[1..]) && PumpWork(writeQ) <= old(PumpWork(writeQ))
    {
      hide Pump, PumpWork, ResetFor, CompleteWrite, NextData, SendChunk;
      while writeQ[0].offset < |writeQ[0].data|
        invariant Pump(View()) == Pump(old(View()))
        invariant writeQ != [] && !Terminal(state)
        invariant writeQ[1..] == old(writeQ[1..]) && PumpWork(writeQ) <= old(PumpWork(writeQ))
        decreases |writeQ[0].data| - writeQ[0].offset
      {
        ghost var s := View();
        PumpCases(s);
        if tx.credit == 0 || tx.creditFrames == 0 {
          return true;
        }
        var sent := SendNextChunk();
        if sent == WouldBlock {
          return true;
        }
        if sent == Failed {
          CompleteFrontWrite(Some(SendFailed));
          ResetWith(Unavailable);
          return true;
        }
        ChunkWork(s);
      }
      return false;
    }

    /** Offer the next chunk of the front write; an admitted one uses up credit. */
    method SendNextChunk() returns (sent: Admission)
      requires writeQ != [] && writeQ[0].offset < |writeQ[0].data| && tx.credit > 0 && tx.creditFrames > 0
      modifies this
      ensures sent == Verdict(old(io))
      ensures View() == if sent == Admitted then SendChunk(old(View())) else Send(old(View()), NextData(old(View())))
    {
      var write := writeQ[0];
      var chunk := Min(cfg.maxChunk, Min(|write.data| - write.offset, tx.credit));
      sent := SendFrame(Data(tx.next, chunk, write.data[write.offset..write.offset + chunk]));
      if sent == Admitted {
        tx := tx.(credit := tx.credit - chunk, creditFrames := tx.creditFrames - 1, next := tx.next + chunk);
        writeQ := [write.(offset := write.offset + chunk)] + writeQ[1..];
      }
    }

    // ---- Frames ----------------------------------------------------------

    method StorePrelude(data: seq<byte>, take: nat)
      requires take <= |data|
      modifies this`gw
      ensures gw == old(gw).(prelude := old(gw.prelude) + data[..take])
    {
      assert gw.prelude + data[..0] == gw.prelude;
      for index := 0 to take
        invariant gw == old(gw).(prelude := old(gw.prelude) + data[..index])
      {
        assert data[..index + 1] == data[..index] + [data[index]];
        gw := gw.(prelude := gw.prelude + [data[index]]);
      }
    }

    /** The prelude bytes of a payload; the rest is deliverable. */
    method TakePreludeBytes(data: seq<byte>) returns (deliverable: seq<byte>)
      modifies this
      ensures View() == TakePrelude(old(View()), data)
      ensures deliverable == data[PreludeShare(old(View()), data)..]
    {
      hide EndPrelude;
      deliverable := data;
      if gw.initiator && gw.pending {
        var needed := if |gw.prelude| <= PRELUDE_BYTES then PRELUDE_BYTES - |gw.prelude| else 0;
        var take := Min(needed, |data|);
        StorePrelude(data, take);
        deliverable := data[take..];
        if |gw.prelude| == PRELUDE_BYTES {
          FinishPrelude();
        }
      }
    }

    method FinishPrelude()
      modifies this
      ensures View() == EndPrelude(old(View()))
    {
      gw := gw.(pending := false);
      if gw.prelude == PRELUDE_CONNECTED {
        if state == Opening {
          state := Open;
        }
        RunConnectHandler(Connected);
      }
    }

    /** An in-order, in-window payload. */
    method AcceptPayload(data: seq<byte>)
      modifies this
      ensures View() == AcceptData(old(View()), data)
    {
      hide ResetFor, TakePrelude, PreludeShare, Dispatch, Settle, Buffer;
      ghost var s := View();
      rx := rx.(remaining := rx.remaining - |data|, remainingFrames := rx.remainingFrames - 1,
                next := rx.next + |data|);
      assert View() == Charge(s, |data|);
      assert PreludeShare(View(), data) == PreludeShare(s, data) by { ShareCharged(s, data); }
      var awaited := gw.initiator && gw.pending;
      var deliverable := TakePreludeBytes(data);
      if awaited && |gw.prelude| == PRELUDE_BYTES && gw.prelude != PRELUDE_CONNECTED {
        ResetWith(ProtocolError);
        return;
      }
      StorePayload(deliverable);
      TryDispatchReads();
      SettleEnd();
    }

    method StorePayload(deliverable: seq<byte>)
      modifies this`rx
      ensures View() == Buffer(old(View()), deliverable)
    {
      rx := rx.(buffered := rx.buffered + |deliverable|);
      if deliverable != [] {
        rx := rx.(chunks := rx.chunks + [deliverable]);
      }
    }

    method SettleEnd()
      modifies this
      ensures View() == Settle(old(View()))
    {
      hide Finish;
      if rx.finReceived && rx.next == rx.finalOffset && rx.chunks == [] {
        FinishStream(if tx.finSent then Closed else HalfClosedRemote);
      }
    }

    method HandleData(offset: nat, length: nat, data: seq<byte>)
      modifies this
      ensures View() == OnData(old(View()), offset, length, data)
    {
      hide ResetFor, AcceptData;
      if Terminal(state) {
        return;
      }
      if length != |data| {
        ResetWith(ProtocolError);
        return;
      }
      if offset < rx.next {
        return;
      }
      if offset > rx.next {
        ResetWith(ProtocolError);
        return;
      }
      if |data| > rx.remaining || rx.remainingFrames == 0 {
        ResetWith(ResourceExhausted);
        return;
      }
      AcceptPayload(data);
    }

    method HandleWindowUpdate(consumed: nat, bytes: nat, frames: nat)
      modifies this
      ensures View() == OnWindowUpdate(old(View()), consumed, bytes, frames)
    {
      hide ResetFor, Pump;
      if consumed < tx.consumedByPeer {
        return;
      }
      if consumed > tx.next {
        ResetWith(ProtocolError);
        return;
      }
      tx := tx.(consumedByPeer := consumed);
      if bytes > U64 - 1 - tx.credit {
        ResetWith(ResourceExhausted);
        return;
      }
      tx := tx.(credit := tx.credit + bytes);
      tx := tx.(creditFrames := Min((frames + tx.creditFrames) % U64, U32 - 1));
      PumpWrites();
    }

    method HandleFin(finalOffset: nat)
      modifies this
      ensures View() == OnFin(old(View()), finalOffset)
    {
      hide ResetFor, Dispatch, Finish;
      if Terminal(state) {
        return;
      }
      rx := rx.(finReceived := true, finalOffset := finalOffset);
      if finalOffset != rx.next {
        ResetWith(ProtocolError);
        return;
      }
      TryDispatchReads();
      if rx.chunks == [] {
        FinishStream(if tx.finSent then Closed else HalfClosedRemote);
      }
    }

    /** A RESET; `reason` is its status field, if it has one. */
    method HandleReset(reason: Option<Status>)
      modifies this
      ensures View() == OnReset(old(View()), reason)
    {
      hide Finish;
      if state == Reset {
        return;
      }
      if reason.Some? {
        resetReason := reason;
      }
      FinishStream(Reset);
    }

    // ---- Caller operations -----------------------------------------------

    method RefuseRead(error: IoError)
      modifies this`io
      ensures View() == RejectRead(old(View()), error)
    {
      Run(ReadDone(io.nextOp, [], Some(error)));
      io := io.(nextOp := io.nextOp + 1);
    }

    method AsyncReadSome(capacity: nat, deadline: Option<nat>)
      modifies this
      ensures View() == AsyncRead(old(View()), capacity, deadline)
    {
      hide Dispatch;
      if capacity == 0 {
        RefuseRead(ReadBufferEmpty);
        return;
      }
      if state == Reset {
        RefuseRead(StreamReset);
        return;
      }
      if |readQ| >= cfg.maxReads {
        RefuseRead(ReadLimit);
        return;
      }
      readQ := readQ + [PendingRead(io.nextOp, capacity, deadline)];
      io := io.(nextOp := io.nextOp + 1);
      TryDispatchReads();
    }

    method EndWrite(error: Option<IoError>)
      modifies this`io
      ensures View() == EndWriteCall(old(View()), error)
    {
      Run(WriteDone(io.nextOp, [], error));
      io := io.(nextOp := io.nextOp + 1);
    }

    method PendingBytes() returns (total: int)
      ensures total == UnsentBytes(writeQ)
    {
      total := 0;
      for i := 0 to |writeQ|
        invariant total == UnsentBytes(writeQ[..i])
      {
        assert writeQ[..i + 1] == writeQ[..i] + [writeQ[i]];
        UnsentSnoc(writeQ[..i], writeQ[i]);
        total := total + |writeQ[i].data| - writeQ[i].offset;
      }
      assert writeQ[..|writeQ|] == writeQ;
    }

    method AsyncWriteAll(data: seq<byte>, deadline: Option<nat>)
      modifies this
      ensures View() == AsyncWrite(old(View()), data, deadline)
    {
      hide Pump, UnsentBytes;
      if state == Reset || state == Closed {
        EndWrite(Some(NotWritable));
        return;
      }
      if tx.finSent || state == HalfClosedLocal {
        EndWrite(Some(WriteAfterFin));
        return;
      }
      if data == [] {
        EndWrite(None);
        return;
      }
      var pending := PendingBytes();
      if pending + |data| > cfg.maxWriteBytes {
        EndWrite(Some(WriteBacklogFull));
        return;
      }
      if |writeQ| >= cfg.maxWrites {
        EndWrite(Some(WriteLimit));
        return;
      }
      writeQ := writeQ + [PendingWrite(io.nextOp, data, 0, deadline, false)];
      io := io.(nextOp := io.nextOp + 1);
      PumpWrites();
    }

    /** Half-close: at once, or after the last queued write. */
    method Shutdown() returns (ok: bool)
      modifies this
      ensures View() == ShutdownWrite(old(View()))
      ensures ok <==> !ShutdownRefused(old(View())) && (old(writeQ) != [] || Verdict(old(io)) == Admitted)
    {
      hide Finish;
      if tx.finSent || state == Reset || state == Closed {
        return false;
      }
      tx := tx.(finSent := true);
      if writeQ != [] {
        var last := |writeQ| - 1;
        writeQ := writeQ[last := writeQ[last].(finAfter := true)];
        return true;
      }
      var sent := SendFrame(Fin(tx.next));
      if sent != Admitted {
        return false;
      }
      FinishStream(if rx.finReceived then Closed else HalfClosedLocal);
      return true;
    }

    method ResetStream(reason: Status)
      modifies this
      ensures View() == ResetCall(old(View()), reason)
    {
      if state == Reset || state == Closed {
        return;
      }
      ResetWith(reason);
    }

    // ---- Deadlines -------------------------------------------------------

    method SweepReads(now: nat)
      modifies this`readQ, this`io
      ensures readQ == LiveReads(old(readQ), now)
      ensures io == old(io).(done := old(io.done) + EndReads(ExpiredReads(old(readQ), now), Some(ReadDeadline)))
    {
      hide LiveReads, ExpiredReads, EndReads;
      var i := 0;
      SweepEnds(now);
      assert readQ[0..] == readQ && [] + LiveReads(readQ, now) == LiveReads(readQ, now);
      while i < |readQ|
        invariant 0 <= i <= |readQ|
        invariant readQ[..i] + LiveReads(readQ[i..], now) == LiveReads(old(readQ), now)
        invariant io == old(io).(done := io.done)
        invariant io.done + EndReads(ExpiredReads(readQ[i..], now), Some(ReadDeadline))
               == old(io.done) + EndReads(ExpiredReads(old(readQ), now), Some(ReadDeadline))
        decreases |readQ| - i
      {
        var read := readQ[i];
        SweepReadStep(readQ, i, now);
        if read.deadline.Some? && now > read.deadline.value {
          readQ := readQ[..i] + readQ[i + 1..];
          Run(ReadDone(read.id, [], Some(ReadDeadline)));
        } else {
          i := i + 1;
        }
      }
      assert readQ[..i] == readQ && readQ[i..] == [];
    }

    method SweepWrites(now: nat)
      modifies this`writeQ, this`io
      ensures writeQ == LiveWrites(old(writeQ), now)
      ensures io == old(io).(done := old(io.done) + EndWrites(ExpiredWrites(old(writeQ), now), WriteDeadline))
    {
      hide LiveWrites, ExpiredWrites, EndWrites, AdmittedPrefix;
      var i := 0;
      SweepEnds(now);
      assert writeQ[0..] == writeQ && [] + LiveWrites(writeQ, now) == LiveWrites(writeQ, now);
      while i < |writeQ|
        invariant 0 <= i <= |writeQ|
        invariant writeQ[..i] + LiveWrites(writeQ[i..], now) == LiveWrites(old(writeQ), now)
        invariant io == old(io).(done := io.done)
        invariant io.done + EndWrites(ExpiredWrites(writeQ[i..], now), WriteDeadline)
               == old(io.done) + EndWrites(ExpiredWrites(old(writeQ), now), WriteDeadline)
        decreases |writeQ| - i
      {
        var write := writeQ[i];
        SweepWriteStep(writeQ, i, now);
        if write.deadline.Some? && now > write.deadline.value {
          writeQ := writeQ[..i] + writeQ[i + 1..];
          Run(WriteDone(write.id, AdmittedPrefix(write), Some(WriteDeadline)));
        } else {
          i := i + 1;
        }
      }
      assert writeQ[..i] == writeQ && writeQ[i..] == [];
    }

    /** The part of the sweep that runs while the live streams are iterated; `expired`
        tells whether the dial deadline has passed, for the caller to reset it after. */
    method Sweep(now: nat) returns (expired: bool)
      modifies this
      ensures View() == Swept(old(View()), now) && expired == DialExpired(old(View()), now)
    {
      hide LiveReads, LiveWrites, ExpiredReads, ExpiredWrites, EndReads, EndWrites;
      expired := gw.initiator && gw.pending && gw.dialDeadline != 0 && now > gw.dialDeadline;
      SweepReads(now);
      SweepWrites(now);
    }
  }

  lemma {:induction false} CompleteReadKeeps(s: Stream, bytes: seq<byte>)
    requires s.readQ != []
    ensures CompleteRead(s, bytes).tx == s.tx
  {
  }

  lemma {:induction false} CompleteWriteKeeps(s: Stream, error: Option<IoError>)
    requires s.writeQ != []
    ensures CompleteWrite(s, error).writeQ == s.writeQ[1..] && CompleteWrite(s, error).state == s.state
    ensures CompleteWrite(s, error).tx == s.tx && CompleteWrite(s, error).rx == s.rx
  {
  }

  lemma {:induction false} SendFinIs(s: Stream)
    ensures SendFin(s) == Finish(Send(s, Fin(s.tx.next)), if s.rx.finReceived then Closed else HalfClosedLocal)
  {
  }

  lemma {:induction false} ShareCharged(s: Stream, data: seq<byte>)
    ensures PreludeShare(Charge(s, |data|), data) == PreludeShare(s, data)
  {
  }

  /** What one round of the sweep over reads does to the queue and to the report. */
  lemma {:induction false} SweepReadStep(q: seq<PendingRead>, i: nat, now: nat)
    requires i < |q|
    ensures var rest := q[..i] + q[i + 1..];
            var error := Some(ReadDeadline);
            if Expired(q[i].deadline, now) then
              && rest[..i] == q[..i] && rest[i..] == q[i + 1..]
              && LiveReads(q[i..], now) == LiveReads(rest[i..], now)
              && EndReads(ExpiredReads(q[i..], now), error)
              == [ReadDone(q[i].id, [], error)] + EndReads(ExpiredReads(rest[i..], now), error)
            else
              && q[..i] + LiveReads(q[i..], now) == q[..i + 1] + LiveReads(q[i + 1..], now)
              && ExpiredReads(q[i..], now) == ExpiredReads(q[i + 1..], now)
  {
    var tail := q[i + 1..];
    assert q[i..] == [q[i]] + tail && q[i..][1..] == tail;
    var out := ExpiredReads(tail, now);
    assert ([q[i]] + out)[1..] == out;
    assert (q[..i] + tail)[i..] == tail;
    assert q[..i + 1] == q[..i] + [q[i]];
  }

  lemma {:induction false} SweepWriteStep(q: seq<PendingWrite>, i: nat, now: nat)
    requires i < |q|
    ensures var rest := q[..i] + q[i + 1..];
            if Expired(q[i].deadline, now) then
              && rest[..i] == q[..i] && rest[i..] == q[i + 1..]
              && LiveWrites(q[i..], now) == LiveWrites(rest[i..], now)
              && EndWrites(ExpiredWrites(q[i..], now), WriteDeadline)
              == [WriteDone(q[i].id, AdmittedPrefix(q[i]), Some(WriteDeadline))]
                 + EndWrites(ExpiredWrites(rest[i..], now), WriteDeadline)
            else
              && q[..i] + LiveWrites(q[i..], now) == q[..i + 1] + LiveWrites(q[i + 1..], now)
              && ExpiredWrites(q[i..], now) == ExpiredWrites(q[i + 1..], now)
  {
    hide AdmittedPrefix;
    var tail := q[i + 1..];
    assert q[i..] == [q[i]] + tail && q[i..][1..] == tail;
    var out := ExpiredWrites(tail, now);
    assert ([q[i]] + out)[1..] == out;
    assert (q[..i] + tail)[i..] == tail;
    assert q[..i + 1] == q[..i] + [q[i]];
  }

  lemma {:induction false} SweepEnds(now: nat)
    ensures LiveReads([], now) == [] && EndReads(ExpiredReads([], now), Some(ReadDeadline)) == []
    ensures LiveWrites([], now) == [] && EndWrites(ExpiredWrites([], now), WriteDeadline) == []
  {
  }

  lemma {:induction false} PumpCases(s: Stream)
    requires !Terminal(s.state) && s.writeQ != [] && s.writeQ[0].offset < |s.writeQ[0].data|
    ensures s.tx.credit == 0 || s.tx.creditFrames == 0 ==> Pump(s) == s
    ensures s.tx.credit > 0 && s.tx.creditFrames > 0 ==>
              match Verdict(s.io)
              case Admitted => Pump(s) == Pump(SendChunk(s))
              case WouldBlock => Pump(s) == Send(s, NextData(s))
              case Failed => Pump(s) == ResetFor(CompleteWrite(Send(s, NextData(s)), Some(SendFailed)), Unavailable)
  {
    hide ResetFor, CompleteWrite, SendChunk, NextData, PumpWork;
  }

  lemma {:induction false} ChunkWork(s: Stream)
    requires s.writeQ != [] && s.writeQ[0].offset < |s.writeQ[0].data|
    requires s.tx.credit > 0 && s.tx.creditFrames > 0
    ensures PumpWork(SendChunk(s).writeQ) <= PumpWork(s.writeQ)
    ensures SendChunk(s).writeQ != [] && SendChunk(s).writeQ[1..] == s.writeQ[1..]
    ensures SendChunk(s).writeQ[0].data == s.writeQ[0].data && SendChunk(s).writeQ[0].offset > s.writeQ[0].offset
    ensures SendChunk(s).state == s.state
  {
    hide Offer, NextData;
  }
}

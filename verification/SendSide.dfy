/** The send side of one stream: what it puts on the wire is what its writes were told. */
module SendSide {
  import opened Bytes
  import opened StreamModel
  import opened StreamHistory

  /** Only the front write is partly sent, and only the last one carries the FIN. */
  predicate QueueInv(s: Stream) {
    forall i :: 0 <= i < |s.writeQ| ==>
      && s.writeQ[i].data != []
      && s.writeQ[i].offset <= |s.writeQ[i].data|
      && (i > 0 ==> s.writeQ[i].offset == 0)
      && (s.writeQ[i].finAfter ==> s.tx.finSent && i == |s.writeQ| - 1)
  }

  /** Every DATA frame is non-empty and carries the bytes of its own offset. */
  predicate Truthful(sent: seq<Frame>) {
    forall i :: 0 <= i < |sent| && sent[i].Data? ==>
      && sent[i].length == |sent[i].data| && sent[i].data != []
      && sent[i].offset == |SentBytes(sent[..i])|
  }

  /** Nothing can be sent any more. */
  predicate Sealed(s: Stream) {
    s.tx.finSent && s.writeQ == []
  }

  /** A FIN on the wire states the final offset and is followed by no DATA. */
  predicate FinInv(s: Stream) {
    forall i :: 0 <= i < |s.io.sent| && s.io.sent[i].Fin? ==>
      && Sealed(s)
      && s.io.sent[i].finalOffset == s.tx.next
      && forall j :: i < j < |s.io.sent| ==> !s.io.sent[j].Data?
  }

  predicate TxInv(s: Stream) {
    && QueueInv(s)
    && |SentBytes(s.io.sent)| == s.tx.next
    && SentBytes(s.io.sent) == WriteBytes(s.io.done) + Prefixes(s.writeQ)
    && Truthful(s.io.sent)
    && FinInv(s)
  }

  // ---- Facts about queues ------------------------------------------------

  /** No write has sent more than it has. */
  predicate InRange(q: seq<PendingWrite>) {
    forall i :: 0 <= i < |q| ==> q[i].offset <= |q[i].data|
  }

  lemma {:induction false} UnsentIsNat(q: seq<PendingWrite>)
    requires InRange(q)
    ensures UnsentBytes(q) >= 0
  {
    if q != [] {
      UnsentIsNat(q[1..]);
    }
  }

  lemma {:induction false} UnsentSnoc(q: seq<PendingWrite>, w: PendingWrite)
    ensures UnsentBytes(q + [w]) == UnsentBytes(q) + |w.data| - w.offset
  {
    if q == [] {
      assert q + [w] == [w] && [w][1..] == [];
      assert UnsentBytes([w]) == |w.data| - w.offset + UnsentBytes([]);
    } else {
      assert (q + [w])[1..] == q[1..] + [w];
      UnsentSnoc(q[1..], w);
    }
  }

  lemma {:induction false} FreshPrefixes(q: seq<PendingWrite>)
    requires forall i :: 0 <= i < |q| ==> q[i].offset == 0
    ensures Prefixes(q) == []
  {
    if q != [] {
      FreshPrefixes(q[1..]);
    }
  }

  lemma {:induction false} FrontPrefixes(q: seq<PendingWrite>)
    requires q != [] && forall i :: 0 < i < |q| ==> q[i].offset == 0
    ensures Prefixes(q) == AdmittedPrefix(q[0]) && Prefixes(q[1..]) == []
  {
    FreshPrefixes(q[1..]);
  }

  lemma {:induction false} PushPrefixes(q: seq<PendingWrite>, w: PendingWrite)
    requires w.offset == 0
    ensures Prefixes(q + [w]) == Prefixes(q)
  {
    if q == [] {
      assert q + [w] == [w];
    } else {
      assert (q + [w])[1..] == q[1..] + [w];
      PushPrefixes(q[1..], w);
    }
  }

  /** The sweep reports the sent part of the writes it removes. */
  lemma {:induction false} SweepPrefixes(q: seq<PendingWrite>, now: nat)
    requires forall i :: 0 < i < |q| ==> q[i].offset == 0
    ensures Prefixes(q) == Prefixes(ExpiredWrites(q, now)) + Prefixes(LiveWrites(q, now))
    ensures forall i :: 0 < i < |LiveWrites(q, now)| ==> LiveWrites(q, now)[i].offset == 0
  {
    if q != [] {
      SweptFresh(q[1..], now);
      FreshPrefixes(LiveWrites(q[1..], now));
      FreshPrefixes(ExpiredWrites(q[1..], now));
      FrontPrefixes(q);
      var live, gone := LiveWrites(q, now), ExpiredWrites(q, now);
      if Expired(q[0].deadline, now) {
        assert live == LiveWrites(q[1..], now) && gone[1..] == ExpiredWrites(q[1..], now);
      } else {
        assert gone == ExpiredWrites(q[1..], now) && live[1..] == LiveWrites(q[1..], now);
      }
    }
  }

  lemma {:induction false} SweptFresh(q: seq<PendingWrite>, now: nat)
    requires forall i :: 0 <= i < |q| ==> q[i].offset == 0
    ensures forall i :: 0 <= i < |LiveWrites(q, now)| ==> LiveWrites(q, now)[i].offset == 0
    ensures forall i :: 0 <= i < |ExpiredWrites(q, now)| ==> ExpiredWrites(q, now)[i].offset == 0
  {
    if q != [] {
      SweptFresh(q[1..], now);
    }
  }

  /** The sweep keeps a subsequence: an entry that stays last was last. */
  lemma {:induction false} SweepKeepsQueue(q: seq<PendingWrite>, now: nat, fin: bool)
    requires forall i :: 0 <= i < |q| ==> q[i].data != [] && q[i].offset <= |q[i].data|
    requires forall i :: 0 <= i < |q| ==> q[i].finAfter ==> fin && i == |q| - 1
    ensures var l := LiveWrites(q, now);
            && |l| <= |q|
            && (forall i :: 0 <= i < |l| ==> l[i].data != [] && l[i].offset <= |l[i].data|)
            && (forall i :: 0 <= i < |l| ==> l[i].finAfter ==> fin && i == |l| - 1)
  {
    if q != [] {
      SweepKeepsQueue(q[1..], now, fin);
    }
  }

  // ---- Primitive steps ---------------------------------------------------

  /** `t` differs from `s` in nothing the send side depends on. */
  lemma {:induction false} QuietTx(s: Stream, t: Stream)
    requires TxInv(s)
    requires t.tx == s.tx && t.writeQ == s.writeQ && t.io.sent == s.io.sent
    requires WriteBytes(t.io.done) == WriteBytes(s.io.done)
    ensures TxInv(t)
  {
    hide WriteBytes, SentBytes, Prefixes;
  }

  lemma {:induction false} TruthfulSnoc(sent: seq<Frame>, f: Frame)
    requires Truthful(sent)
    requires f.Data? ==> f.length == |f.data| && f.data != [] && f.offset == |SentBytes(sent)|
    ensures Truthful(sent + [f])
  {
    hide SentBytes;
    var all := sent + [f];
    forall i | 0 <= i < |all| && all[i].Data?
      ensures all[i].length == |all[i].data| && all[i].data != [] && all[i].offset == |SentBytes(all[..i])|
    {
      assert i < |sent| ==> all[..i] == sent[..i];
      assert i == |sent| ==> all[..i] == sent;
    }
  }

  /** Any frame but DATA; a FIN only from a sealed stream. */
  lemma {:induction false} SendControlTx(s: Stream, f: Frame)
    requires TxInv(s) && !f.Data?
    requires f.Fin? ==> Sealed(s) && f.finalOffset == s.tx.next
    ensures TxInv(Send(s, f))
  {
    hide WriteBytes, SentBytes, Prefixes, Truthful, QueueInv;
    TruthfulSnoc(s.io.sent, f);
    SentBytesSnoc(s.io.sent, f);
    SendKeepsQueue(s, f);
  }

  lemma {:induction false} SendKeepsQueue(s: Stream, f: Frame)
    requires QueueInv(s)
    ensures QueueInv(Send(s, f))
  {
    hide Offer;
  }

  lemma {:induction false} SendChunkTx(s: Stream)
    requires TxInv(s) && s.writeQ != [] && s.writeQ[0].offset < |s.writeQ[0].data|
    requires s.tx.credit > 0 && s.tx.creditFrames > 0 && Verdict(s.io) == Admitted
    ensures TxInv(SendChunk(s))
  {
    hide WriteBytes, SentBytes, Prefixes, Truthful, QueueInv, AdmittedPrefix;
    var f := NextData(s);
    assert !exists i :: 0 <= i < |s.io.sent| && s.io.sent[i].Fin?;
    TruthfulSnoc(s.io.sent, f);
    SentBytesSnoc(s.io.sent, f);
    ChunkPrefixes(s);
    ChunkKeepsQueue(s);
  }

  lemma {:induction false} ChunkPrefixes(s: Stream)
    requires QueueInv(s) && s.writeQ != [] && s.writeQ[0].offset < |s.writeQ[0].data|
    requires s.tx.credit > 0 && s.tx.creditFrames > 0
    ensures Prefixes(SendChunk(s).writeQ) == Prefixes(s.writeQ) + NextData(s).data
  {
    hide Prefixes;
    var w := s.writeQ[0];
    var n := ChunkSize(s);
    var q := SendChunk(s).writeQ;
    FrontPrefixes(s.writeQ);
    FrontPrefixes(q);
    assert w.data[..w.offset + n] == w.data[..w.offset] + w.data[w.offset..w.offset + n];
  }

  lemma {:induction false} ChunkKeepsQueue(s: Stream)
    requires QueueInv(s) && s.writeQ != [] && s.writeQ[0].offset < |s.writeQ[0].data|
    requires s.tx.credit > 0 && s.tx.creditFrames > 0
    ensures QueueInv(SendChunk(s))
  {
  }

  lemma {:induction false} CompleteWriteTx(s: Stream, error: Option<IoError>)
    requires TxInv(s) && s.writeQ != []
    ensures TxInv(CompleteWrite(s, error))
    ensures s.writeQ[0].finAfter ==> Sealed(CompleteWrite(s, error))
  {
    hide WriteBytes, SentBytes, Prefixes, Truthful, AdmittedPrefix;
    WriteBytesSnoc(s.io.done, WriteDone(s.writeQ[0].id, AdmittedPrefix(s.writeQ[0]), error));
    FrontPrefixes(s.writeQ);
  }

  lemma {:induction false} FinishTx(s: Stream, terminal: StreamState)
    requires TxInv(s)
    ensures TxInv(Finish(s, terminal))
  {
    hide WriteBytes, SentBytes, Prefixes, Truthful, Finish;
    FinishWritten(s, terminal);
    FreshPrefixes([]);
  }

  lemma {:induction false} FinishWritten(s: Stream, terminal: StreamState)
    ensures WriteBytes(Finish(s, terminal).io.done) == WriteBytes(s.io.done) + Prefixes(s.writeQ)
  {
    hide ReadBytes, WriteBytes, EndReads, EndWrites, Prefixes;
    var out := if CleanEnd(terminal) then ConnectClosed else ConnectFailed(s.resetReason);
    var re := if CleanEnd(terminal) then None else Some(StreamReset);
    WriteBytesSnoc(s.io.done, ConnectDone(out));
    EndAllReport(s.io.done, s.readQ, re, s.writeQ, StreamReset);
    EndAllReport(s.io.done + [ConnectDone(out)], s.readQ, re, s.writeQ, StreamReset);
  }

  // ---- Dispatch and pump -------------------------------------------------

  lemma {:induction false} CompleteReadTx(s: Stream, bytes: seq<byte>)
    requires TxInv(s) && s.readQ != []
    ensures TxInv(CompleteRead(s, bytes))
  {
    hide WriteBytes, TxInv;
    WriteBytesSnoc(s.io.done, ReadDone(s.readQ[0].id, bytes, None));
    QuietTx(s, CompleteRead(s, bytes));
  }

  lemma {:induction false} TakeReadTx(s: Stream)
    requires TxInv(s) && s.readQ != [] && s.rx.chunks != []
    ensures TxInv(TakeRead(s))
  {
    hide TxInv, WriteBytes;
    var chunk := s.rx.chunks[0];
    WriteBytesSnoc(s.io.done, ReadDone(s.readQ[0].id, chunk[..Min(s.readQ[0].capacity, |chunk|)], None));
    QuietTx(s, TakeRead(s));
  }

  lemma {:induction false} ServeTx(s: Stream)
    requires TxInv(s) && s.readQ != []
    ensures s.rx.chunks != [] ==> TxInv(ServeRead(s))
    ensures TxInv(ServeEof(s))
  {
    hide TxInv, Finish, TakeRead, MaybeUpdate, CompleteRead;
    CompleteReadTx(s, []);
    FinishTx(CompleteRead(s, []), Closed);
    if s.rx.chunks != [] {
      TakeReadTx(s);
      MaybeUpdateTx(TakeRead(s));
    }
  }

  lemma {:induction false} MaybeUpdateTx(s: Stream)
    requires TxInv(s)
    ensures TxInv(MaybeUpdate(s))
  {
    hide TxInv, Sub32, Sub64;
    var s1 := Send(s, PendingUpdate(s.rx));
    SendControlTx(s, PendingUpdate(s.rx));
    if MaybeUpdate(s) != s {
      QuietTx(s1, MaybeUpdate(s));
    }
  }

  /** A refused frame leaves the send side as it was. */
  lemma {:induction false} RefusedTx(s: Stream, f: Frame)
    requires TxInv(s) && Verdict(s.io) != Admitted
    ensures TxInv(Send(s, f))
  {
    hide TxInv;
    QuietTx(s, Send(s, f));
  }

  // ---- Steps -------------------------------------------------------------

  lemma {:induction false} TakePreludeTx(s: Stream, data: seq<byte>)
    requires TxInv(s)
    ensures TxInv(TakePrelude(Charge(s, |data|), data))
    ensures TxInv(Buffer(TakePrelude(Charge(s, |data|), data), data[PreludeShare(s, data)..]))
  {
    hide TxInv, WriteBytes;
    var s1 := TakePrelude(Charge(s, |data|), data);
    WriteBytesSnoc(s.io.done, ConnectDone(Connected));
    QuietTx(s, s1);
    QuietTx(s, Buffer(s1, data[PreludeShare(s, data)..]));
  }

  lemma {:induction false} CreditTx(s: Stream, t: Stream)
    requires TxInv(s)
    requires t == s.(tx := s.tx.(consumedByPeer := t.tx.consumedByPeer, credit := t.tx.credit,
                                 creditFrames := t.tx.creditFrames))
    ensures TxInv(t)
  {
    hide WriteBytes, SentBytes, Prefixes, Truthful;
  }

  lemma {:induction false} PushTx(s: Stream, data: seq<byte>, deadline: Option<nat>)
    requires TxInv(s) && !s.tx.finSent && data != []
    ensures TxInv(s.(writeQ := s.writeQ + [PendingWrite(s.io.nextOp, data, 0, deadline, false)],
                     io := s.io.(nextOp := s.io.nextOp + 1)))
  {
    hide WriteBytes, SentBytes, Prefixes, Truthful;
    PushPrefixes(s.writeQ, PendingWrite(s.io.nextOp, data, 0, deadline, false));
  }

  lemma {:induction false} EndWriteCallTx(s: Stream, error: Option<IoError>)
    requires TxInv(s)
    ensures TxInv(EndWriteCall(s, error))
  {
    hide WriteBytes, TxInv;
    WriteBytesSnoc(s.io.done, WriteDone(s.io.nextOp, [], error));
    QuietTx(s, EndWriteCall(s, error));
  }

  lemma {:induction false} MarkTx(s: Stream)
    requires TxInv(s)
    ensures var s1 := s.(tx := s.tx.(finSent := true));
            && TxInv(s1)
            && (s.writeQ != [] ==>
                  TxInv(s1.(writeQ := s.writeQ[|s.writeQ| - 1 := s.writeQ[|s.writeQ| - 1].(finAfter := true)])))
  {
    hide WriteBytes, SentBytes, Prefixes, Truthful;
    if s.writeQ != [] {
      MarkPrefixes(s.writeQ);
    }
  }

  lemma {:induction false} MarkPrefixes(q: seq<PendingWrite>)
    requires q != []
    ensures Prefixes(q[|q| - 1 := q[|q| - 1].(finAfter := true)]) == Prefixes(q)
  {
    var m := q[|q| - 1 := q[|q| - 1].(finAfter := true)];
    if |q| > 1 {
      assert m[1..] == q[1..][|q| - 2 := q[1..][|q| - 2].(finAfter := true)];
      MarkPrefixes(q[1..]);
    } else {
      assert m[1..] == q[1..];
    }
  }

  /** Writes taken out of the queue and completed with what they had sent. */
  lemma {:induction false} RetireTx(s: Stream, t: Stream, gone: seq<PendingWrite>)
    requires TxInv(s) && QueueInv(t)
    requires t.tx == s.tx && t.io.sent == s.io.sent && (s.writeQ == [] ==> t.writeQ == [])
    requires Prefixes(s.writeQ) == Prefixes(gone) + Prefixes(t.writeQ)
    requires WriteBytes(t.io.done) == WriteBytes(s.io.done) + Prefixes(gone)
    ensures TxInv(t)
  {
    hide WriteBytes, SentBytes, Prefixes, Truthful, QueueInv;
  }

  lemma {:induction false} SweptTx(s: Stream, now: nat)
    requires TxInv(s)
    ensures TxInv(Swept(s, now))
  {
    hide WriteBytes, ReadBytes, SentBytes, Prefixes, Truthful, FinInv, LiveReads, LiveWrites, ExpiredReads,
      ExpiredWrites, EndReads, EndWrites;
    SweepPrefixes(s.writeQ, now);
    SweepKeepsQueue(s.writeQ, now, s.tx.finSent);
    EndAllReport(s.io.done, ExpiredReads(s.readQ, now), Some(ReadDeadline),
                 ExpiredWrites(s.writeQ, now), WriteDeadline);
    RetireTx(s, Swept(s, now), ExpiredWrites(s.writeQ, now));
  }

  lemma {:induction false} LossTx(s: Stream)
    requires TxInv(s)
    ensures TxInv(FailAll(s))
  {
    hide TxInv, WriteBytes, ReadBytes, SentBytes, Prefixes, EndReads, EndWrites;
    WriteBytesSnoc(s.io.done, ConnectDone(ConnectClosed));
    EndAllReport(s.io.done, s.readQ, Some(SessionLost), s.writeQ, SessionLost);
    EndAllReport(s.io.done + [ConnectDone(ConnectClosed)], s.readQ, Some(SessionLost), s.writeQ, SessionLost);
    FreshPrefixes([]);
    RetireTx(s, FailAll(s), s.writeQ);
  }

}

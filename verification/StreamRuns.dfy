/** What every step of a stream keeps, over whole runs and against any peer. */
module StreamRuns {
  import opened Bytes
  import opened StreamModel
  import opened StreamHistory
  import opened ReceiveWindow
  import opened CreditLedger
  import opened SendSide
  import opened Completions
  import opened Lifecycle

  predicate Good(s: Stream) {
    RxInv(s) && Prompt(s) && TxInv(s) && OpInv(s) && LifeInv(s) && ConnectInv(s)
  }

  /** Everything accepted from the peer and not dropped, in order: the prelude,
      what was read, what is buffered. */
  function Seen(s: Stream): seq<byte> {
    s.gw.prelude + ReadBytes(s.io.done) + Flatten(s.rx.chunks)
  }

  predicate SameSeen(s: Stream, t: Stream) {
    Seen(t) == Seen(s) && t.rx.next == s.rx.next
  }

  predicate SameFin(s: Stream, t: Stream) {
    t.rx.finReceived == s.rx.finReceived && t.rx.finalOffset == s.rx.finalOffset
  }

  /** All the byte credit ever received: what is left plus what was spent. */
  function Purse(s: Stream): nat {
    s.tx.credit + s.tx.next
  }

  /** All the frame credit ever received: what is left plus the DATA frames sent. */
  function FramePurse(s: Stream): nat {
    s.tx.creditFrames + DataCount(s.io.sent)
  }

  predicate SamePurse(s: Stream, t: Stream) {
    Purse(t) == Purse(s) && t.tx.consumedByPeer == s.tx.consumedByPeer && FramePurse(t) == FramePurse(s)
  }

  lemma {:induction false} SendCounts(s: Stream, f: Frame)
    ensures DataCount(Send(s, f).io.sent)
         == DataCount(s.io.sent) + if f.Data? && Verdict(s.io) == Admitted then 1 else 0
  {
    hide DataCount;
    FrameCountsSnoc(s.io.sent, f);
  }

  /** What only an incoming DATA, FIN or WINDOW_UPDATE can change. */
  predicate Steady(s: Stream, t: Stream) {
    SameSeen(s, t) && SameFin(s, t) && SamePurse(s, t)
  }

  /** `t` is a good continuation of `s`. */
  predicate Moves(s: Stream, t: Stream) {
    && Good(t)
    && Continues(s, t)
    && Forward(s.state, t.state)
    && Supplied(t) == Supplied(s)
    && t.cfg == s.cfg && t.gw.initiator == s.gw.initiator
    && t.rx.window == s.rx.window && t.rx.windowFrames == s.rx.windowFrames
  }

  /** A good continuation that took nothing from the peer. */
  predicate Leads(s: Stream, t: Stream) {
    Moves(s, t) && Steady(s, t)
  }

  lemma {:induction false} MovesTransitive(s: Stream, t: Stream, u: Stream)
    requires Moves(s, t) && Moves(t, u)
    ensures Moves(s, u)
  {
    hide Good, Continues;
    ContinuesTransitive(s, t, u);
  }

  lemma {:induction false} LeadsTransitive(s: Stream, t: Stream, u: Stream)
    requires Leads(s, t) && Leads(t, u)
    ensures Leads(s, u)
  {
    hide Moves, Seen, Purse, FramePurse;
    MovesTransitive(s, t, u);
  }

  /** A continuation that took something, followed by one that did not. */
  lemma {:induction false} MovesOn(s: Stream, t: Stream, u: Stream)
    requires Moves(s, t) && Leads(t, u)
    ensures Moves(s, u) && Steady(t, u)
    ensures SameSeen(s, t) ==> SameSeen(s, u)
    ensures SameFin(s, t) ==> SameFin(s, u)
    ensures SamePurse(s, t) ==> SamePurse(s, u)
  {
    hide Moves, Seen, Purse, FramePurse;
    MovesTransitive(s, t, u);
  }

  lemma {:induction false} SameRxSteady(s: Stream, t: Stream)
    requires SameRx(s, t) && SamePurse(s, t)
    ensures Steady(s, t)
  {
    hide ReadBytes, Flatten, Purse, FramePurse;
  }

  lemma {:induction false} SelfLeads(s: Stream)
    requires Good(s)
    ensures Leads(s, s)
  {
    hide Good, Continues, Seen, DataCount;
    SelfContinues(s);
  }

  // ---- Primitive steps ---------------------------------------------------

  lemma {:induction false} FinishLeads(s: Stream, terminal: StreamState)
    requires Good(s) && MayFinish(s, terminal)
    ensures Leads(s, Finish(s, terminal))
  {
    hide DataCount, RxInv, Prompt, TxInv, OpInv, Finish, Continues, SameRx, LifeInv, ConnectInv;
    FinishSameRx(s, terminal);
    SameRxKeeps(s, Finish(s, terminal));
    SameRxSteady(s, Finish(s, terminal));
    PromptKeeps(s, Finish(s, terminal));
    FinishTx(s, terminal);
    FinishOps(s, terminal);
    FinishContinues(s, terminal);
    FinishLives(s, terminal);
  }

  /** A frame other than DATA and WINDOW_UPDATE; a FIN only from a sealed stream. */
  lemma {:induction false} SendLeads(s: Stream, f: Frame)
    requires Good(s) && !f.Data? && !f.WindowUpdate?
    requires f.Fin? ==> Sealed(s) && f.finalOffset == s.tx.next
    ensures Leads(s, Send(s, f))
  {
    hide DataCount, RxInv, Prompt, TxInv, OpInv, Continues, LifeInv, ConnectInv;
    SendCounts(s, f);
    SameRxKeeps(s, Send(s, f));
    SameRxSteady(s, Send(s, f));
    PromptKeeps(s, Send(s, f));
    SendControlTx(s, f);
    QuietOps(s, Send(s, f));
    SendContinues(s, f);
    SendLives(s, f);
  }

  lemma {:induction false} SendLives(s: Stream, f: Frame)
    requires LifeInv(s) && ConnectInv(s)
    ensures Lives(s, Send(s, f))
  {
    hide LifeInv, ConnectInv, Connects;
    LifeReset(s);
    QuietLives(s, Send(s, f));
  }

  lemma {:induction false} LifeReset(s: Stream)
    requires LifeInv(s)
    ensures s.state == Reset ==> s.readQ == [] && s.writeQ == []
  {
  }

  lemma {:induction false} RefusedLeads(s: Stream, f: Frame)
    requires Good(s) && Verdict(s.io) != Admitted
    ensures Leads(s, Send(s, f))
  {
    hide DataCount, RxInv, Prompt, TxInv, OpInv, Continues, LifeInv, ConnectInv;
    SendCounts(s, f);
    SameRxKeeps(s, Send(s, f));
    SameRxSteady(s, Send(s, f));
    PromptKeeps(s, Send(s, f));
    RefusedTx(s, f);
    QuietOps(s, Send(s, f));
    QuietContinues(s, Send(s, f));
    SendLives(s, f);
  }

  lemma {:induction false} SendChunkLeads(s: Stream)
    requires Good(s) && s.writeQ != [] && s.writeQ[0].offset < |s.writeQ[0].data|
    requires s.tx.credit > 0 && s.tx.creditFrames > 0 && Verdict(s.io) == Admitted
    ensures Leads(s, SendChunk(s))
  {
    hide DataCount, RxInv, Prompt, TxInv, OpInv, Continues, LifeInv, ConnectInv, Connects, ReadBytes;
    SendCounts(s, NextData(s));
    SameRxKeeps(s, SendChunk(s));
    SameRxSteady(s, SendChunk(s));
    PromptKeeps(s, SendChunk(s));
    SendChunkTx(s);
    SendChunkOps(s);
    SendContinues(s, NextData(s));
    QuietContinues(Send(s, NextData(s)), SendChunk(s));
    ContinuesTransitive(s, Send(s, NextData(s)), SendChunk(s));
    LifeReset(s);
    QuietLives(s, SendChunk(s));
  }

  lemma {:induction false} CompleteWriteLeads(s: Stream, error: Option<IoError>)
    requires Good(s) && s.writeQ != []
    ensures Leads(s, CompleteWrite(s, error))
    ensures s.writeQ[0].finAfter ==> Sealed(CompleteWrite(s, error))
  {
    hide DataCount, RxInv, Prompt, TxInv, OpInv, Continues, LifeInv, ConnectInv, AdmittedPrefix, SameRx;
    CompleteWriteSameRx(s, error);
    SameRxKeeps(s, CompleteWrite(s, error));
    SameRxSteady(s, CompleteWrite(s, error));
    PromptKeeps(s, CompleteWrite(s, error));
    CompleteWriteTx(s, error);
    CompleteWriteOps(s, error);
    QuietContinues(s, CompleteWrite(s, error));
    LifeReset(s);
    SnocLives(s, CompleteWrite(s, error), WriteDone(s.writeQ[0].id, AdmittedPrefix(s.writeQ[0]), error));
  }

  lemma {:induction false} ServeReadLeads(s: Stream)
    requires Good(s) && s.readQ != [] && s.rx.chunks != []
    ensures Leads(s, ServeRead(s))
  {
    hide DataCount, RxInv, Prompt, TxInv, OpInv, Continues, LifeInv, ConnectInv, MaybeUpdate, TakeRead;
    var s1 := TakeRead(s);
    ServeRx(s);
    ServeTx(s);
    ServeOps(s);
    TakeReadRx(s);
    TakeReadQuiet(s);
    QuietContinues(s, s1);
    MaybeUpdateContinues(s1);
    ContinuesTransitive(s, s1, ServeRead(s));
    ServeFrames(s);
    ServeSeen(s);
    UpdatePrompt(s1);
    ServeLives(s);
  }

  lemma {:induction false} ServeSeen(s: Stream)
    requires s.readQ != [] && s.rx.chunks != []
    ensures Steady(s, ServeRead(s))
  {
    hide ReadBytes, Flatten, TakeRead, DataCount;
    TakeReadQuiet(s);
    SendCounts(TakeRead(s), PendingUpdate(TakeRead(s).rx));
    TakeReadBytes(s);
    ServeFrames(s);
    var t := TakeRead(s);
    UpdateKeepsReads(t);
    assert TakeRead(s).gw == s.gw by { TakeReadGateway(s); }
    assert s.gw.prelude + ReadBytes(s.io.done) + Flatten(s.rx.chunks)
        == s.gw.prelude + (ReadBytes(s.io.done) + Flatten(s.rx.chunks));
    assert t.gw.prelude + ReadBytes(t.io.done) + Flatten(t.rx.chunks)
        == t.gw.prelude + (ReadBytes(t.io.done) + Flatten(t.rx.chunks));
  }

  lemma {:induction false} TakeReadGateway(s: Stream)
    requires s.readQ != [] && s.rx.chunks != []
    ensures TakeRead(s).gw == s.gw
  {
  }

  lemma {:induction false} UpdateKeepsReads(s: Stream)
    ensures var t := MaybeUpdate(s);
            t.io.done == s.io.done && t.rx.chunks == s.rx.chunks && t.gw == s.gw
  {
    hide Sub32, Sub64;
  }

  lemma {:induction false} ServeLives(s: Stream)
    requires LifeInv(s) && ConnectInv(s) && s.readQ != [] && s.rx.chunks != []
    ensures Lives(s, ServeRead(s))
  {
    hide LifeInv, ConnectInv, Sub32, Sub64;
    LifeReset(s);
    var chunk := s.rx.chunks[0];
    SnocLives(s, ServeRead(s), ReadDone(s.readQ[0].id, chunk[..Min(s.readQ[0].capacity, |chunk|)], None));
  }

  lemma {:induction false} ServeEofLeads(s: Stream)
    requires Good(s) && s.readQ != [] && AtEnd(s.rx) && s.state != Reset
    ensures Leads(s, ServeEof(s))
  {
    hide Good, Leads, Finish;
    CompleteReadLeads(s);
    var s1 := CompleteRead(s, []);
    assert Good(s1) by { LeadsGood(s, s1); }
    if s.tx.finSent {
      FinishLeads(s1, Closed);
      LeadsTransitive(s, s1, Finish(s1, Closed));
    }
  }

  lemma {:induction false} MovesGood(s: Stream, t: Stream)
    requires Moves(s, t)
    ensures Good(t) && Forward(s.state, t.state)
  {
    hide Good, Continues;
  }

  lemma {:induction false} LeadsGood(s: Stream, t: Stream)
    requires Leads(s, t)
    ensures Good(t) && Forward(s.state, t.state) && Moves(s, t)
  {
    hide Moves, Steady;
    MovesGood(s, t);
  }

  lemma {:induction false} CompleteReadLeads(s: Stream)
    requires Good(s) && s.readQ != []
    ensures Leads(s, CompleteRead(s, []))
  {
    hide DataCount, RxInv, Prompt, TxInv, OpInv, Continues, LifeInv, ConnectInv, ReadBytes;
    var t := CompleteRead(s, []);
    ReadBytesSnoc(s.io.done, ReadDone(s.readQ[0].id, [], None));
    SameRxKeeps(s, t);
    SameRxSteady(s, t);
    PromptKeeps(s, t);
    CompleteReadTx(s, []);
    CompleteReadOps(s, []);
    QuietContinues(s, t);
    LifeReset(s);
    SnocLives(s, t, ReadDone(s.readQ[0].id, [], None));
  }

  /** A change of fields that no completion, frame or queue reflects: credit,
      a received FIN, a recorded reset reason. */
  predicate Retuned(s: Stream, t: Stream) {
    t == s.(tx := s.tx.(consumedByPeer := t.tx.consumedByPeer, credit := t.tx.credit,
                        creditFrames := t.tx.creditFrames),
            rx := s.rx.(finReceived := t.rx.finReceived, finalOffset := t.rx.finalOffset),
            resetReason := t.resetReason)
    && (s.rx.finReceived ==> t.rx.finReceived)
  }

  lemma {:induction false} RetuneLeads(s: Stream, t: Stream)
    requires Good(s) && Retuned(s, t)
    ensures Moves(s, t) && SameSeen(s, t)
  {
    hide Prompt, TxInv, OpInv, Continues, ReadBytes, Flatten, Connects;
    PromptKeeps(s, t);
    var s1 := s.(tx := t.tx);
    CreditTx(s, s1);
    QuietTx(s1, t);
    QuietOps(s, t);
    QuietContinues(s, t);
  }

  /** An in-window payload up to the point where reads are served. */
  lemma {:induction false} BufferLeads(s: Stream, data: seq<byte>)
    requires Good(s) && !Terminal(s.state)
    requires |data| <= s.rx.remaining && s.rx.remainingFrames != 0
    ensures var t := TakePrelude(Charge(s, |data|), data);
            if AwaitsPrelude(s) && PreludeBroken(t.gw) then Moves(s, ResetFor(t, ProtocolError))
            else Moves(s, Buffer(t, data[PreludeShare(s, data)..]))
  {
    hide DataCount, RxInv, Prompt, TxInv, OpInv, Continues, LifeInv, ConnectInv, TakePrelude, PreludeShare;
    var t := TakePrelude(Charge(s, |data|), data);
    PreludePending(s);
    BufferRx(s, data);
    TakePreludeTx(s, data);
    TakePreludeOps(s, data);
    PreludeLives(s, data);
    PreludeFrame(s, data);
    if AwaitsPrelude(s) && PreludeBroken(t.gw) {
      QuietContinues(s, t);
      PromptKeeps(s, t);
      BrokenLeads(s, t);
    } else {
      QuietContinues(s, Buffer(t, data[PreludeShare(s, data)..]));
      PromptKeeps(s, Buffer(t, data[PreludeShare(s, data)..]));
    }
  }

  lemma {:induction false} PreludePending(s: Stream)
    requires RxInv(s)
    ensures |s.gw.prelude| <= PRELUDE_BYTES
    ensures s.gw.prelude != PRELUDE_CONNECTED || !s.gw.pending
  {
    hide ReadBytes, Flatten;
  }

  lemma {:induction false} PreludeFrame(s: Stream, data: seq<byte>)
    ensures var t := TakePrelude(Charge(s, |data|), data);
            && t.io.sent == s.io.sent && t.io.refused == s.io.refused && t.tx == s.tx && t.cfg == s.cfg
            && t.readQ == s.readQ && t.writeQ == s.writeQ
            && t.rx == Charge(s, |data|).rx && t.gw.initiator == s.gw.initiator
            && (t.gw.pending ==> s.gw.pending)
            && (AwaitsPrelude(s) && PreludeBroken(t.gw) ==> t.state == s.state)
  {
  }

  /** A broken prelude resets the stream; the rest of the payload is dropped. */
  lemma {:induction false} BrokenLeads(s: Stream, t: Stream)
    requires Good(s) && !Terminal(s.state) && t.state == s.state
    requires RxInv(t.(state := Reset)) && TxInv(t) && OpInv(t) && ConnectInv(t)
    requires Prompt(t) && Continues(s, t) && Supplied(t) == Supplied(s)
    requires t.cfg == s.cfg && t.gw.initiator == s.gw.initiator
    requires t.rx.window == s.rx.window && t.rx.windowFrames == s.rx.windowFrames
    ensures Moves(s, ResetFor(t, ProtocolError))
  {
    hide RxInv, Prompt, TxInv, OpInv, ConnectInv, Continues, Finish, SameRx;
    var t1 := Send(t, ResetFrame(Some(ProtocolError)));
    var r := Finish(t1, Reset);
    SendControlTx(t, ResetFrame(Some(ProtocolError)));
    FinishTx(t1, Reset);
    QuietOps(t, t1);
    FinishOps(t1, Reset);
    SendConnects(t, ResetFrame(Some(ProtocolError)));
    FinishConnects(t1, Reset);
    FinishSameRx(t1, Reset);
    ResetRx(t, r);
    PromptKeeps(t, r);
    SendContinues(t, ResetFrame(Some(ProtocolError)));
    FinishContinues(t1, Reset);
    ContinuesTransitive(s, t, t1);
    ContinuesTransitive(s, t1, r);
  }

  lemma {:induction false} SendConnects(s: Stream, f: Frame)
    requires ConnectInv(s)
    ensures ConnectInv(Send(s, f))
  {
    hide Connects;
  }

  lemma {:induction false} ResetRx(t: Stream, r: Stream)
    requires RxInv(t.(state := Reset)) && r.state == Reset && SameRx(Send(t, ResetFrame(Some(ProtocolError))), r)
    ensures RxInv(r)
  {
    hide RxInv, ReadBytes;
    SameRxKeeps(t.(state := Reset), r);
  }

  // ---- Compound steps ----------------------------------------------------

  lemma {:induction false} ResetLeads(s: Stream, reason: Status)
    requires Good(s) && s.state != Closed
    ensures Leads(s, ResetFor(s, reason))
  {
    hide Good, Leads, Finish;
    if s.state == Reset {
      FinishLeads(s, Reset);
    } else {
      var s1 := Send(s, ResetFrame(Some(reason)));
      SendLeads(s, ResetFrame(Some(reason)));
      LeadsGood(s, s1);
      FinishLeads(s1, Reset);
      LeadsTransitive(s, s1, Finish(s1, Reset));
    }
  }

  lemma {:induction false} DispatchLeads(s: Stream)
    requires Good(s) && s.state != Reset
    ensures Leads(s, Dispatch(s))
    decreases |s.readQ|
  {
    hide Good, Leads, ServeRead, ServeEof;
    SelfLeads(s);
    if s.readQ != [] {
      ServeFrames(s);
      if s.rx.chunks != [] {
        ServeReadLeads(s);
        LeadsGood(s, ServeRead(s));
        DispatchLeads(ServeRead(s));
        LeadsTransitive(s, ServeRead(s), Dispatch(s));
      } else if AtEnd(s.rx) {
        ServeEofLeads(s);
        LeadsGood(s, ServeEof(s));
        DispatchLeads(ServeEof(s));
        LeadsTransitive(s, ServeEof(s), Dispatch(s));
      }
    }
  }

  lemma {:induction false} SendFinLeads(s: Stream)
    requires Good(s) && Sealed(s) && !Terminal(s.state)
    ensures Leads(s, SendFin(s))
  {
    hide Good, Leads, Finish;
    var s1 := Send(s, Fin(s.tx.next));
    SendLeads(s, Fin(s.tx.next));
    LeadsGood(s, s1);
    FinishLeads(s1, if s.rx.finReceived then Closed else HalfClosedLocal);
    LeadsTransitive(s, s1, SendFin(s));
  }

  lemma {:induction false} PumpLeads(s: Stream)
    requires Good(s)
    ensures Leads(s, Pump(s))
    decreases PumpWork(s.writeQ)
  {
    hide Good, Leads, Finish, ResetFor, AdmittedPrefix, NextData, SendFin;
    SelfLeads(s);
    if !Terminal(s.state) && s.writeQ != [] {
      if s.writeQ[0].offset < |s.writeQ[0].data| {
        if s.tx.credit != 0 && s.tx.creditFrames != 0 {
          if Verdict(s.io) == Admitted {
            SendChunkLeads(s);
            LeadsGood(s, SendChunk(s));
            PumpLeads(SendChunk(s));
            LeadsTransitive(s, SendChunk(s), Pump(s));
          } else {
            var s1 := Send(s, NextData(s));
            var s2 := CompleteWrite(s1, Some(SendFailed));
            RefusedLeads(s, NextData(s));
            LeadsGood(s, s1);
            CompleteWriteLeads(s1, Some(SendFailed));
            LeadsGood(s1, s2);
            ResetLeads(s2, Unavailable);
            LeadsTransitive(s, s1, s2);
            LeadsTransitive(s, s2, ResetFor(s2, Unavailable));
          }
        }
      } else {
        var s1 := CompleteWrite(s, None);
        CompleteWriteLeads(s, None);
        LeadsGood(s, s1);
        if s.writeQ[0].finAfter {
          SendFinLeads(s1);
        } else {
          PumpLeads(s1);
        }
        LeadsTransitive(s, s1, Pump(s));
      }
    }
  }

  lemma {:induction false} EndOfReceiveLeads(s: Stream)
    requires Good(s) && s.rx.finReceived && s.state != Reset
    ensures Leads(s, EndOfReceive(s))
  {
    hide Good, Leads, Finish;
    FinishLeads(s, if s.tx.finSent then Closed else HalfClosedRemote);
  }

  /** The payload completes a prelude that is not the connected one. */
  predicate BreaksPrelude(s: Stream, data: seq<byte>) {
    AwaitsPrelude(s) && PreludeBroken(TakePrelude(Charge(s, |data|), data).gw)
  }

  /** The share of a payload that goes to the prelude is appended to it. */
  lemma {:induction false} PreludeBytes(s: Stream, data: seq<byte>)
    ensures var t := TakePrelude(Charge(s, |data|), data);
            && t.gw.prelude == s.gw.prelude + data[..PreludeShare(s, data)]
            && (!AwaitsPrelude(s) ==> t == Charge(s, |data|) && PreludeShare(s, data) == 0)
  {
    hide EndPrelude;
  }

  /** Up to the point where reads are served, an unbroken payload is all kept. */
  lemma {:induction false} BufferSeen(s: Stream, data: seq<byte>)
    requires RxInv(s) && !BreaksPrelude(s, data)
    ensures var t := Buffer(TakePrelude(Charge(s, |data|), data), data[PreludeShare(s, data)..]);
            && Seen(t) == Seen(s) + data && t.rx.next == s.rx.next + |data|
            && SameFin(s, t) && SamePurse(s, t)
  {
    hide RxInv, ReadBytes, Flatten, TakePrelude, PreludeShare, DataCount;
    TakePreludeRead(Charge(s, |data|), data);
    PreludeBytes(s, data);
    PreludeFrame(s, data);
    var share := PreludeShare(s, data);
    FlattenAppend(s.rx.chunks, data[share..]);
    if AwaitsPrelude(s) {
      PreludePending(s);
      NothingRead(s);
      assert data == data[..share] + data[share..];
    } else {
      assert data[share..] == data;
    }
  }

  /** Nothing reaches the reader before the prelude is complete and valid. */
  lemma {:induction false} NothingRead(s: Stream)
    requires RxInv(s) && s.gw.initiator && s.gw.prelude != PRELUDE_CONNECTED
    ensures ReadBytes(s.io.done) == [] && s.rx.chunks == [] && Flatten(s.rx.chunks) == []
  {
    hide ReadBytes;
  }

  lemma {:induction false} BrokenSeen(s: Stream, data: seq<byte>)
    requires RxInv(s) && BreaksPrelude(s, data)
    ensures var t := ResetFor(TakePrelude(Charge(s, |data|), data), ProtocolError);
            && Seen(t) == Seen(s) + data[..PreludeShare(s, data)] && t.rx.next == s.rx.next + |data|
            && SameFin(s, t) && SamePurse(s, t) && t.state == Reset
  {
    hide RxInv, ReadBytes, Flatten, Finish, TakePrelude, PreludeShare, DataCount;
    var p := TakePrelude(Charge(s, |data|), data);
    SendCounts(p, ResetFrame(Some(ProtocolError)));
    TakePreludeRead(Charge(s, |data|), data);
    PreludeBytes(s, data);
    PreludeFrame(s, data);
    PreludePending(s);
    NothingRead(s);
    FinishSameRx(if p.state == Reset then p else Send(p, ResetFrame(Some(ProtocolError))), Reset);
  }

  /** What an in-window payload does: all of it is kept, unless it completes a
      broken prelude. */
  lemma {:induction false} AcceptMoves(s: Stream, data: seq<byte>)
    requires Good(s) && !Terminal(s.state)
    requires |data| <= s.rx.remaining && s.rx.remainingFrames != 0
    ensures var t := AcceptData(s, data);
            && Moves(s, t) && t.rx.next == s.rx.next + |data| && SameFin(s, t) && SamePurse(s, t)
            && (if BreaksPrelude(s, data) then
                  t.state == Reset && Seen(t) == Seen(s) + data[..PreludeShare(s, data)]
                else Seen(t) == Seen(s) + data)
  {
    hide RxInv, Prompt, TxInv, OpInv, LifeInv, ConnectInv, Moves, Leads, Dispatch, EndOfReceive, ResetFor, TakePrelude,
      Charge, Buffer, PreludeShare, Seen, Purse, FramePurse;
    BufferLeads(s, data);
    var s1 := TakePrelude(Charge(s, |data|), data);
    if BreaksPrelude(s, data) {
      BrokenSeen(s, data);
    } else {
      var s2 := Buffer(s1, data[PreludeShare(s, data)..]);
      BufferLive(s, data);
      BufferSeen(s, data);
      MovesGood(s, s2);
      ServedMoves(s, s2);
    }
  }

  /** Serving reads and settling the end of stream take nothing more. */
  lemma {:induction false} ServedMoves(s: Stream, t: Stream)
    requires Moves(s, t) && Good(t) && t.state != Reset
    ensures Moves(s, Settle(Dispatch(t))) && Steady(t, Settle(Dispatch(t)))
  {
    hide Good, Moves, Steady, Dispatch, EndOfReceive;
    var u := Dispatch(t);
    DispatchLeads(t);
    DispatchFrames(t);
    LeadsGood(t, u);
    if AtEnd(u.rx) && u.rx.chunks == [] {
      EndOfReceiveLeads(u);
      LeadsTransitive(t, u, EndOfReceive(u));
      MovesOn(s, t, EndOfReceive(u));
    } else {
      MovesOn(s, t, u);
    }
  }

  lemma {:induction false} BufferLive(s: Stream, data: seq<byte>)
    requires !Terminal(s.state)
    ensures !Terminal(Buffer(TakePrelude(Charge(s, |data|), data), data[PreludeShare(s, data)..]).state)
  {
  }

  /** What a WINDOW_UPDATE does: it is stale, or fatal, or adds exactly its bytes. */
  lemma {:induction false} UpdateMoves(s: Stream, consumed: nat, bytes: nat, frames: nat)
    requires Good(s) && !Terminal(s.state)
    ensures var t := OnWindowUpdate(s, consumed, bytes, frames);
            && Moves(s, t) && SameSeen(s, t) && SameFin(s, t)
            && (if consumed < s.tx.consumedByPeer then t == s
                else if consumed > s.tx.next || bytes > U64 - 1 - s.tx.credit then t.state == Reset
                else Purse(t) == Purse(s) + bytes && t.tx.consumedByPeer == consumed)
            && FramePurse(t) <= FramePurse(s) + frames
  {
    hide Good, Moves, Leads, ResetFor, Pump, Seen, DataCount;
    var s1 := s.(tx := s.tx.(consumedByPeer := consumed));
    var s2 := s1.(tx := s1.tx.(credit := s.tx.credit + bytes,
                               creditFrames := Min((frames + s.tx.creditFrames) % U64, U32 - 1)));
    SelfLeads(s);
    LeadsGood(s, s);
    if consumed > s.tx.next {
      ResetLeads(s, ProtocolError);
      MovesOn(s, s, ResetFor(s, ProtocolError));
      ResetState(s, ProtocolError);
    } else if bytes > U64 - 1 - s.tx.credit {
      RetuneLeads(s, s1);
      MovesGood(s, s1);
      ResetLeads(s1, ResourceExhausted);
      MovesOn(s, s1, ResetFor(s1, ResourceExhausted));
      ResetState(s1, ResourceExhausted);
    } else {
      RetuneLeads(s, s2);
      MovesGood(s, s2);
      PumpLeads(s2);
      MovesOn(s, s2, Pump(s2));
    }
  }

  lemma {:induction false} ResetState(s: Stream, reason: Status)
    ensures ResetFor(s, reason).state == Reset
  {
    hide Finish;
  }

  lemma {:induction false} FinMoves(s: Stream, finalOffset: nat)
    requires Good(s) && !Terminal(s.state)
    ensures var t := OnFin(s, finalOffset);
            && Moves(s, t) && SameSeen(s, t) && SamePurse(s, t)
            && t.rx.finReceived && t.rx.finalOffset == finalOffset
            && (finalOffset != s.rx.next ==> t.state == Reset)
  {
    hide Good, Moves, Leads, ResetFor, Dispatch, Seen, Purse, EndOfReceive;
    var s1 := s.(rx := s.rx.(finReceived := true, finalOffset := finalOffset));
    RetuneLeads(s, s1);
    RetunePurse(s, s1);
    MovesGood(s, s1);
    if finalOffset != s.rx.next {
      ResetLeads(s1, ProtocolError);
      MovesOn(s, s1, ResetFor(s1, ProtocolError));
      ResetState(s1, ProtocolError);
    } else {
      DispatchFrames(s1);
      ServedMoves(s, s1);
    }
  }

  lemma {:induction false} RetunePurse(s: Stream, t: Stream)
    requires t.tx == s.tx && t.io.sent == s.io.sent
    ensures SamePurse(s, t)
  {
    hide DataCount;
  }

  /** Every frame from the peer is a good continuation; only DATA adds bytes, only
      FIN sets the end, only WINDOW_UPDATE adds credit. */
  lemma {:induction false} DeliverMoves(s: Stream, frame: Frame)
    requires Good(s)
    ensures var t := Deliver(s, frame);
            && Moves(s, t)
            && (frame.Data? || SameSeen(s, t))
            && (frame.Fin? || SameFin(s, t))
            && (frame.WindowUpdate? || SamePurse(s, t))
  {
    hide RxInv, Prompt, TxInv, OpInv, LifeInv, ConnectInv, Moves, Leads, OnWindowUpdate, OnFin, AcceptData, ResetFor,
      Finish, Seen, Purse, FramePurse;
    SelfLeads(s);
    LeadsGood(s, s);
    if !Terminal(s.state) {
      match frame
      case Data(offset, length, data) =>
        ResetLeads(s, ProtocolError);
        ResetLeads(s, ResourceExhausted);
        MovesOn(s, s, ResetFor(s, ProtocolError));
        MovesOn(s, s, ResetFor(s, ResourceExhausted));
        if |data| <= s.rx.remaining && s.rx.remainingFrames != 0 {
          AcceptMoves(s, data);
        }
      case WindowUpdate(consumed, bytes, frames) =>
        UpdateMoves(s, consumed, bytes, frames);
      case Fin(finalOffset) =>
        FinMoves(s, finalOffset);
      case ResetFrame(reason) =>
        var s1 := s.(resetReason := KnownReason(s, reason));
        RetuneLeads(s, s1);
        RetunePurse(s, s1);
        MovesGood(s, s1);
        FinishLeads(s1, Reset);
        MovesOn(s, s1, Finish(s1, Reset));
    }
  }

  // ---- Caller operations -------------------------------------------------

  lemma {:induction false} RejectReadLeads(s: Stream, error: IoError)
    requires Good(s)
    ensures Leads(s, RejectRead(s, error))
  {
    hide DataCount, RxInv, Prompt, TxInv, OpInv, Continues, LifeInv, ConnectInv, ReadBytes, WriteBytes;
    var t := RejectRead(s, error);
    var c := ReadDone(s.io.nextOp, [], Some(error));
    ReadBytesSnoc(s.io.done, c);
    WriteBytesSnoc(s.io.done, c);
    SameRxKeeps(s, t);
    SameRxSteady(s, t);
    PromptKeeps(s, t);
    QuietTx(s, t);
    RejectReadOps(s, error);
    QuietContinues(s, t);
    LifeReset(s);
    SnocLives(s, t, c);
  }

  lemma {:induction false} EndWriteCallLeads(s: Stream, error: Option<IoError>)
    requires Good(s)
    ensures Leads(s, EndWriteCall(s, error))
  {
    hide DataCount, RxInv, Prompt, TxInv, OpInv, Continues, LifeInv, ConnectInv, ReadBytes;
    var t := EndWriteCall(s, error);
    var c := WriteDone(s.io.nextOp, [], error);
    ReadBytesSnoc(s.io.done, c);
    SameRxKeeps(s, t);
    SameRxSteady(s, t);
    PromptKeeps(s, t);
    EndWriteCallTx(s, error);
    EndWriteCallOps(s, error);
    QuietContinues(s, t);
    LifeReset(s);
    SnocLives(s, t, c);
  }

  lemma {:induction false} ReadCallLeads(s: Stream, capacity: nat, deadline: Option<nat>)
    requires Good(s)
    ensures Leads(s, AsyncRead(s, capacity, deadline))
  {
    hide Good, Leads, Dispatch;
    RejectReadLeads(s, ReadBufferEmpty);
    RejectReadLeads(s, StreamReset);
    RejectReadLeads(s, ReadLimit);
    if s.state != Reset {
      var s1 := s.(readQ := s.readQ + [PendingRead(s.io.nextOp, capacity, deadline)],
                   io := s.io.(nextOp := s.io.nextOp + 1));
      PushReadLeads(s, capacity, deadline);
      LeadsGood(s, s1);
      DispatchLeads(s1);
      LeadsTransitive(s, s1, Dispatch(s1));
    }
  }

  lemma {:induction false} PushReadLeads(s: Stream, capacity: nat, deadline: Option<nat>)
    requires Good(s) && s.state != Reset
    ensures Leads(s, s.(readQ := s.readQ + [PendingRead(s.io.nextOp, capacity, deadline)],
                        io := s.io.(nextOp := s.io.nextOp + 1)))
  {
    hide DataCount, RxInv, Prompt, TxInv, OpInv, Continues, LifeInv, ConnectInv, Connects;
    var t := s.(readQ := s.readQ + [PendingRead(s.io.nextOp, capacity, deadline)],
                io := s.io.(nextOp := s.io.nextOp + 1));
    SameRxKeeps(s, t);
    SameRxSteady(s, t);
    PromptKeeps(s, t);
    QuietTx(s, t);
    PushReadOps(s, capacity, deadline);
    QuietContinues(s, t);
    QuietLives(s, t);
  }

  lemma {:induction false} WriteCallLeads(s: Stream, data: seq<byte>, deadline: Option<nat>)
    requires Good(s)
    ensures Leads(s, AsyncWrite(s, data, deadline))
  {
    hide Good, Leads, Pump, UnsentBytes;
    EndWriteCallLeads(s, None);
    EndWriteCallLeads(s, Some(NotWritable));
    EndWriteCallLeads(s, Some(WriteAfterFin));
    EndWriteCallLeads(s, Some(WriteBacklogFull));
    EndWriteCallLeads(s, Some(WriteLimit));
    if !Terminal(s.state) && !s.tx.finSent && data != [] {
      var s1 := s.(writeQ := s.writeQ + [PendingWrite(s.io.nextOp, data, 0, deadline, false)],
                   io := s.io.(nextOp := s.io.nextOp + 1));
      PushWriteLeads(s, data, deadline);
      LeadsGood(s, s1);
      PumpLeads(s1);
      LeadsTransitive(s, s1, Pump(s1));
    }
  }

  lemma {:induction false} PushWriteLeads(s: Stream, data: seq<byte>, deadline: Option<nat>)
    requires Good(s) && !Terminal(s.state) && !s.tx.finSent && data != []
    ensures Leads(s, s.(writeQ := s.writeQ + [PendingWrite(s.io.nextOp, data, 0, deadline, false)],
                        io := s.io.(nextOp := s.io.nextOp + 1)))
  {
    hide DataCount, RxInv, Prompt, TxInv, OpInv, Continues, Connects, ReadBytes;
    var t := s.(writeQ := s.writeQ + [PendingWrite(s.io.nextOp, data, 0, deadline, false)],
                io := s.io.(nextOp := s.io.nextOp + 1));
    SameRxKeeps(s, t);
    SameRxSteady(s, t);
    PromptKeeps(s, t);
    PushTx(s, data, deadline);
    PushWriteOps(s, data, deadline);
    QuietContinues(s, t);
  }

  lemma {:induction false} ShutdownLeads(s: Stream)
    requires Good(s)
    ensures Leads(s, ShutdownWrite(s))
  {
    hide Good, Leads, SendFin;
    SelfLeads(s);
    if !ShutdownRefused(s) {
      MarkLeads(s);
      if s.writeQ == [] {
        var s1 := s.(tx := s.tx.(finSent := true));
        LeadsGood(s, s1);
        if Verdict(s.io) != Admitted {
          RefusedLeads(s1, Fin(s.tx.next));
          LeadsTransitive(s, s1, Send(s1, Fin(s.tx.next)));
        }
        SendFinLeads(s1);
        LeadsTransitive(s, s1, SendFin(s1));
      }
    }
  }

  lemma {:induction false} MarkLeads(s: Stream)
    requires Good(s) && !ShutdownRefused(s)
    ensures var s1 := s.(tx := s.tx.(finSent := true));
            && Leads(s, s1)
            && (s.writeQ != [] ==>
                  Leads(s, s1.(writeQ := s.writeQ[|s.writeQ| - 1 := s.writeQ[|s.writeQ| - 1].(finAfter := true)])))
  {
    hide DataCount, RxInv, Prompt, TxInv, OpInv, Continues, Connects, ReadBytes;
    var s1 := s.(tx := s.tx.(finSent := true));
    MarkTx(s);
    QuietOps(s, s1);
    SameRxKeeps(s, s1);
    SameRxSteady(s, s1);
    PromptKeeps(s, s1);
    QuietContinues(s, s1);
    if s.writeQ != [] {
      var s2 := s1.(writeQ := s.writeQ[|s.writeQ| - 1 := s.writeQ[|s.writeQ| - 1].(finAfter := true)]);
      MarkOps(s1);
      SameRxKeeps(s, s2);
      SameRxSteady(s, s2);
      PromptKeeps(s, s2);
      QuietContinues(s, s2);
    }
  }

  lemma {:induction false} SweptLeads(s: Stream, now: nat)
    requires Good(s)
    ensures Leads(s, Swept(s, now)) && Swept(s, now).state == s.state
  {
    hide DataCount, RxInv, Prompt, TxInv, OpInv, Continues, LifeInv, ConnectInv, SameRx, LiveReads, LiveWrites,
      ExpiredReads, ExpiredWrites, EndReads, EndWrites;
    SweptSameRx(s, now);
    SameRxKeeps(s, Swept(s, now));
    SameRxSteady(s, Swept(s, now));
    PromptKeeps(s, Swept(s, now));
    SweptTx(s, now);
    SweptOps(s, now);
    QuietContinues(s, Swept(s, now));
    SweptLives(s, now);
  }

  lemma {:induction false} LossLeads(s: Stream)
    requires Good(s) && s.state != Closed
    ensures Leads(s, FailAll(s))
  {
    hide DataCount, RxInv, Prompt, TxInv, OpInv, Continues, LifeInv, ConnectInv, SameRx, EndReads, EndWrites;
    LossSameRx(s);
    SameRxKeeps(s, FailAll(s));
    SameRxSteady(s, FailAll(s));
    PromptKeeps(s, FailAll(s));
    LossTx(s);
    LossOps(s);
    QuietContinues(s, FailAll(s));
    LossLives(s);
  }

  /** Every local step of a good stream leads on and takes nothing from the peer. */
  lemma {:induction false} LocalLeads(s: Stream, a: Action)
    requires Good(s) && !a.Receive?
    ensures Leads(s, Step(s, a))
  {
    hide Good, Leads, AsyncRead, AsyncWrite, ShutdownWrite, Swept, FailAll, Deliver, ResetFor;
    SelfLeads(s);
    match a
    case ReadCall(capacity, deadline) => ReadCallLeads(s, capacity, deadline);
    case WriteCall(data, deadline) => WriteCallLeads(s, data, deadline);
    case ShutdownCall => ShutdownLeads(s);
    case ResetOp(reason) =>
      if !Terminal(s.state) {
        ResetLeads(s, reason);
      }
    case Tick(now) =>
      if !Terminal(s.state) {
        SweptLeads(s, now);
        LeadsGood(s, Swept(s, now));
        ResetLeads(Swept(s, now), DeadlineExceeded);
        LeadsTransitive(s, Swept(s, now), ResetFor(Swept(s, now), DeadlineExceeded));
      }
    case SessionLoss =>
      if !Terminal(s.state) {
        LossLeads(s);
      }
  }

  /** Every step of a good stream is a good continuation, whatever the action. */
  lemma {:induction false} StepMoves(s: Stream, a: Action)
    requires Good(s)
    ensures Moves(s, Step(s, a))
  {
    if a.Receive? {
      hide Good, Moves, Deliver, Seen;
      DeliverMoves(s, a.frame);
    } else {
      hide Good, Moves, Step;
      LocalLeads(s, a);
      LeadsGood(s, Step(s, a));
    }
  }

  /** Every run of a good stream is a good continuation of it. */
  lemma {:induction false} RunMoves(s: Stream, actions: seq<Action>)
    requires Good(s)
    ensures Moves(s, Run(s, actions))
    decreases |actions|
  {
    hide Good, Leads, Moves, Step;
    SelfLeads(s);
    LeadsGood(s, s);
    if actions != [] {
      StepMoves(s, actions[0]);
      MovesGood(s, Step(s, actions[0]));
      RunMoves(Step(s, actions[0]), actions[1..]);
      MovesTransitive(s, Step(s, actions[0]), Run(s, actions));
    }
  }

  // ---- Starting points ---------------------------------------------------

  lemma {:induction false} StartGood(p: Setup)
    requires ValidSetup(p)
    ensures Good(Start(p))
  {
    var s := Start(p.(serves := false, credit := 0, creditFrames := 0));
    var s1 := s.(tx := s.tx.(credit := p.credit, creditFrames := p.creditFrames));
    FreshGood(s);
    if p.serves {
      hide Good;
      RetuneLeads(s, s1);
      MovesGood(s, s1);
      GrantGood(s1, WindowUpdate(0, p.window, p.windowFrames));
    }
  }

  lemma {:induction false} FreshGood(s: Stream)
    requires 1 <= s.rx.window < U64 && 1 <= s.rx.windowFrames < U32 && FreshGateway(s.gw)
    requires s == NewStream(s.cfg, s.rx.window, s.rx.windowFrames, s.gw,
                            if s.gw.initiator then Opening else Open, s.io.script)
    ensures Good(s)
  {
  }

  lemma {:induction false} GrantGood(s: Stream, f: Frame)
    requires Good(s) && f.WindowUpdate?
    ensures Good(Send(s, f))
  {
    hide RxInv, Prompt, TxInv, OpInv, LifeInv, ConnectInv, ReadBytes;
    SameRxKeeps(s, Send(s, f));
    PromptKeeps(s, Send(s, f));
    SendControlTx(s, f);
    QuietOps(s, Send(s, f));
    SendLives(s, f);
  }
}

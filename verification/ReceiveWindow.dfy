/** The receive side of one stream against any sequence of frames and calls. */
module ReceiveWindow {
  import opened Bytes
  import opened StreamModel
  import opened StreamHistory

  predicate PreludeInv(s: Stream) {
    && |s.gw.prelude| <= PRELUDE_BYTES
    && (!s.gw.initiator ==> s.gw.prelude == [] && !s.gw.pending)
    && (s.gw.pending ==> |s.gw.prelude| < PRELUDE_BYTES)
    && (s.gw.initiator && !s.gw.pending ==> |s.gw.prelude| == PRELUDE_BYTES)
    && (s.gw.initiator && s.gw.prelude != PRELUDE_CONNECTED ==> s.rx.consumed == 0 && s.rx.chunks == [])
    && (s.gw.initiator && s.rx.window <= PRELUDE_BYTES ==> s.rx.consumed == 0 && s.rx.chunks == [])
    && (PreludeBroken(s.gw) ==> s.state == Reset)
  }

  /** Window and buffer accounting. Bytes accepted are either prelude, read or
      buffered; the byte window is spent by what was accepted and not yet reported
      consumed; the frame window by what is buffered. */
  predicate RxInv(s: Stream) {
    && 1 <= s.rx.window < U64
    && 1 <= s.rx.windowFrames < U32
    && (forall i :: 0 <= i < |s.rx.chunks| ==> s.rx.chunks[i] != [])
    && s.rx.buffered == |Flatten(s.rx.chunks)|
    && s.rx.consumed == |ReadBytes(s.io.done)|
    && s.rx.reported <= s.rx.consumed
    && s.rx.remaining == s.rx.window - (s.rx.next - s.rx.reported)
    && 0 <= s.rx.remaining
    && 0 <= s.rx.remainingFrames
    && s.rx.remainingFrames + |s.rx.chunks| <= s.rx.windowFrames
    && 0 <= s.rx.reportedFrames <= s.rx.windowFrames
    && |s.gw.prelude| + s.rx.consumed + s.rx.buffered <= s.rx.next
    && (!PreludeBroken(s.gw) ==> |s.gw.prelude| + s.rx.consumed + s.rx.buffered == s.rx.next)
    && PreludeInv(s)
  }

  function Quarter(window: nat): nat {
    if window / 4 > 1 then window / 4 else 1
  }

  /** Unless an update was refused, less than a quarter of the window is consumed
      and not granted back. */
  predicate Prompt(s: Stream) {
    (forall f :: f in s.io.refused ==> !f.WindowUpdate?) ==>
      s.rx.consumed - s.rx.reported < Quarter(s.rx.window)
  }

  lemma {:induction false} PromptKeeps(s: Stream, t: Stream)
    requires Prompt(s) && s.io.refused <= t.io.refused
    requires t.rx.consumed == s.rx.consumed && t.rx.reported == s.rx.reported && t.rx.window == s.rx.window
    ensures Prompt(t)
  {
    assert forall f :: f in s.io.refused ==> f in t.io.refused;
  }

  /** Each served read is followed by the update it makes due. */
  lemma {:induction false} UpdatePrompt(s: Stream)
    requires RxInv(s)
    ensures Prompt(MaybeUpdate(s))
  {
    hide ReadBytes, Flatten, Sub32;
    Sub64Exact(s.rx.consumed, s.rx.reported);
    var t := MaybeUpdate(s);
    if t.io.refused != s.io.refused {
      assert t.io.refused[|s.io.refused|] == PendingUpdate(s.rx);
    }
  }

  lemma {:induction false} FinishRx(s: Stream, terminal: StreamState)
    requires RxInv(s) && (PreludeBroken(s.gw) ==> terminal == Reset)
    ensures RxInv(Finish(s, terminal)) && Finish(s, terminal).rx == s.rx
    ensures ReadBytes(Finish(s, terminal).io.done) == ReadBytes(s.io.done)
  {
    hide ReadBytes, EndReads, EndWrites, Flatten;
    FinishRead(s, terminal);
  }

  lemma {:induction false} FinishRead(s: Stream, terminal: StreamState)
    ensures ReadBytes(Finish(s, terminal).io.done) == ReadBytes(s.io.done)
  {
    hide ReadBytes, WriteBytes, EndReads, EndWrites;
    var out := if CleanEnd(terminal) then ConnectClosed else ConnectFailed(s.resetReason);
    var re := if CleanEnd(terminal) then None else Some(StreamReset);
    ReadBytesSnoc(s.io.done, ConnectDone(out));
    EndAllReport(s.io.done, s.readQ, re, s.writeQ, StreamReset);
    EndAllReport(s.io.done + [ConnectDone(out)], s.readQ, re, s.writeQ, StreamReset);
  }

  lemma {:induction false} FlattenSplit(chunks: seq<seq<byte>>, count: nat)
    requires chunks != [] && count <= |chunks[0]|
    ensures Flatten(chunks) == chunks[0][..count] + Flatten([chunks[0][count..]] + chunks[1..])
    ensures count == |chunks[0]| ==> Flatten(chunks) == chunks[0][..count] + Flatten(chunks[1..])
  {
    var rest := [chunks[0][count..]] + chunks[1..];
    assert rest[1..] == chunks[1..];
    assert chunks[0] == chunks[0][..count] + chunks[0][count..];
  }

  /** A read moves a prefix of the buffered bytes to the caller. */
  lemma {:induction false} TakeReadBytes(s: Stream)
    requires s.readQ != [] && s.rx.chunks != []
    ensures ReadBytes(TakeRead(s).io.done) + Flatten(TakeRead(s).rx.chunks)
         == ReadBytes(s.io.done) + Flatten(s.rx.chunks)
    ensures |ReadBytes(TakeRead(s).io.done)| - |ReadBytes(s.io.done)|
         == TakeRead(s).rx.consumed - s.rx.consumed
  {
    hide ReadBytes, Flatten;
    var chunk := s.rx.chunks[0];
    var count := Min(s.readQ[0].capacity, |chunk|);
    ReadBytesSnoc(s.io.done, ReadDone(s.readQ[0].id, chunk[..count], None));
    FlattenSplit(s.rx.chunks, count);
  }

  lemma {:induction false} TakeReadRx(s: Stream)
    requires RxInv(s) && s.readQ != [] && s.rx.chunks != []
    ensures RxInv(TakeRead(s))
  {
    hide ReadBytes, Flatten;
    TakeReadBytes(s);
    var t := TakeRead(s);
    assert |Flatten(t.rx.chunks)| == |Flatten(s.rx.chunks)| - (t.rx.consumed - s.rx.consumed);
  }

  lemma {:induction false} MaybeUpdateRx(s: Stream)
    requires RxInv(s)
    ensures RxInv(MaybeUpdate(s))
  {
    hide ReadBytes, Flatten, Sub32;
    Sub64Exact(s.rx.consumed, s.rx.reported);
  }

  lemma {:induction false} ServeRx(s: Stream)
    requires RxInv(s) && s.readQ != []
    ensures s.rx.chunks != [] ==> RxInv(ServeRead(s))
    ensures s.state != Reset ==> RxInv(ServeEof(s))
  {
    hide ReadBytes, Flatten, Finish, TakeRead, MaybeUpdate;
    if s.rx.chunks != [] {
      TakeReadRx(s);
      MaybeUpdateRx(TakeRead(s));
    }
    if s.state != Reset {
      ReadBytesSnoc(s.io.done, ReadDone(s.readQ[0].id, [], None));
      FinishRx(CompleteRead(s, []), Closed);
    }
  }

  /** `t` differs from `s` in nothing the receive side depends on. */
  predicate SameRx(s: Stream, t: Stream) {
    && t.rx == s.rx
    && t.gw == s.gw.(handler := t.gw.handler, fired := t.gw.fired)
    && ReadBytes(t.io.done) == ReadBytes(s.io.done)
    && (s.state == Reset ==> t.state == Reset)
  }

  lemma {:induction false} FinishSameRx(s: Stream, terminal: StreamState)
    requires s.state == Reset ==> terminal == Reset
    ensures SameRx(s, Finish(s, terminal))
  {
    hide ReadBytes, EndReads, EndWrites;
    FinishRead(s, terminal);
  }

  lemma {:induction false} CompleteWriteSameRx(s: Stream, error: Option<IoError>)
    requires s.writeQ != []
    ensures SameRx(s, CompleteWrite(s, error))
  {
    hide ReadBytes;
    ReadBytesSnoc(s.io.done, WriteDone(s.writeQ[0].id, AdmittedPrefix(s.writeQ[0]), error));
  }

  lemma {:induction false} TakePreludeRead(s: Stream, data: seq<byte>)
    ensures ReadBytes(TakePrelude(s, data).io.done) == ReadBytes(s.io.done)
  {
    hide ReadBytes;
    ReadBytesSnoc(s.io.done, ConnectDone(Connected));
  }

  /** What a payload does to the prelude. */
  lemma {:induction false} TakePreludeShape(s: Stream, data: seq<byte>)
    requires PreludeInv(s) && s.rx.consumed >= 0 && !Terminal(s.state)
    ensures var t := TakePrelude(s, data);
            && t.rx == s.rx && t.gw.initiator == s.gw.initiator
            && |t.gw.prelude| == |s.gw.prelude| + PreludeShare(s, data) <= PRELUDE_BYTES
            && (t.gw.pending <==> s.gw.pending && |t.gw.prelude| < PRELUDE_BYTES)
            && (!AwaitsPrelude(s) ==> t == s)
            && (t.gw.pending ==> PreludeShare(s, data) == |data|)
            && !Terminal(t.state)
  {
  }

  /** An ordinary payload is charged to the window and buffered. */
  lemma {:induction false} BufferPlainRx(s: Stream, data: seq<byte>)
    requires RxInv(s) && !Terminal(s.state) && !AwaitsPrelude(s)
    requires |data| <= s.rx.remaining && s.rx.remainingFrames != 0
    ensures RxInv(Buffer(Charge(s, |data|), data))
  {
    FlattenAppend(s.rx.chunks, data);
    hide ReadBytes, Flatten;
  }

  /** While the prelude is awaited nothing is buffered, so the rest of the payload
      is all there is. */
  lemma {:induction false} BufferPreludeRx(s: Stream, t: Stream, data: seq<byte>, share: nat)
    requires RxInv(s) && !Terminal(s.state) && AwaitsPrelude(s)
    requires |data| <= s.rx.remaining && s.rx.remainingFrames != 0
    requires t.rx == Charge(s, |data|).rx && t.gw.initiator && share <= |data|
    requires |t.gw.prelude| == |s.gw.prelude| + share <= PRELUDE_BYTES
    requires t.gw.pending <==> |t.gw.prelude| < PRELUDE_BYTES
    requires t.gw.pending ==> share == |data|
    requires ReadBytes(t.io.done) == ReadBytes(s.io.done)
    ensures if PreludeBroken(t.gw) then RxInv(t.(state := Reset)) else RxInv(Buffer(t, data[share..]))
  {
    hide ReadBytes;
    var rest := data[share..];
    assert s.rx.chunks == [] && Flatten([rest]) == rest + Flatten([]);
    assert s.rx.chunks + [rest] == [rest];
  }

  /** A payload is charged to the window and split between prelude and buffer. */
  lemma {:induction false} BufferRx(s: Stream, data: seq<byte>)
    requires RxInv(s) && !Terminal(s.state)
    requires |data| <= s.rx.remaining && s.rx.remainingFrames != 0
    ensures var s1 := TakePrelude(Charge(s, |data|), data);
            if AwaitsPrelude(s) && PreludeBroken(s1.gw) then RxInv(s1.(state := Reset))
            else RxInv(Buffer(s1, data[PreludeShare(s, data)..]))
  {
    var c := Charge(s, |data|);
    assert PreludeInv(c) && PreludeShare(c, data) == PreludeShare(s, data);
    TakePreludeRead(c, data);
    TakePreludeShape(c, data);
    if AwaitsPrelude(s) {
      hide ReadBytes, RxInv, TakePrelude;
      BufferPreludeRx(s, TakePrelude(c, data), data, PreludeShare(s, data));
    } else {
      hide ReadBytes, RxInv, TakePrelude;
      assert data[PreludeShare(s, data)..] == data;
      BufferPlainRx(s, data);
    }
  }

  lemma {:induction false} SameRxKeeps(s: Stream, t: Stream)
    requires RxInv(s) && SameRx(s, t)
    ensures RxInv(t)
  {
    hide ReadBytes, Flatten;
  }

  lemma {:induction false} SweptSameRx(s: Stream, now: nat)
    ensures SameRx(s, Swept(s, now))
  {
    hide ReadBytes, EndReads, EndWrites, LiveReads, LiveWrites, ExpiredReads, ExpiredWrites;
    EndAllReport(s.io.done, ExpiredReads(s.readQ, now), Some(ReadDeadline),
                 ExpiredWrites(s.writeQ, now), WriteDeadline);
  }

  lemma {:induction false} LossSameRx(s: Stream)
    ensures SameRx(s, FailAll(s))
  {
    hide ReadBytes, EndReads, EndWrites;
    ReadBytesSnoc(s.io.done, ConnectDone(ConnectClosed));
    EndAllReport(s.io.done, s.readQ, Some(SessionLost), s.writeQ, SessionLost);
    EndAllReport(s.io.done + [ConnectDone(ConnectClosed)], s.readQ, Some(SessionLost), s.writeQ, SessionLost);
  }

}

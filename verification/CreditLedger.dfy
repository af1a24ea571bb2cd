/** The byte credit one side grants: what its updates add up to, and in which order they go out. */
module CreditLedger {
  import opened Bytes
  import opened StreamModel
  import opened StreamHistory
  import opened ReceiveWindow

  /** Updates carry a consumed offset that never decreases and never passes `limit`. */
  predicate Monotone(sent: seq<Frame>, limit: nat) {
    && (forall i :: 0 <= i < |sent| && sent[i].WindowUpdate? ==> sent[i].consumed <= limit)
    && (forall i, j :: 0 <= i < j < |sent| && sent[i].WindowUpdate? && sent[j].WindowUpdate? ==>
          sent[i].consumed <= sent[j].consumed)
  }

  /** No update handed out more frames than the window has, so none of them wrapped. */
  predicate Unwrapped(s: Stream) {
    && s.rx.windowFrames < U32 / 2
    && forall f :: f in s.io.sent && f.WindowUpdate? ==> f.frames <= s.rx.windowFrames
  }

  /** Frame grants telescope: they add up to `base` plus the frame window last
      reported, not to the frames that were freed. */
  predicate FrameLedger(s: Stream, base: nat) {
    Unwrapped(s) ==> GrantedFrames(s.io.sent) == base + s.rx.reportedFrames
  }

  /** The updates sent so far grant `base` plus exactly the consumed bytes reported. */
  predicate Ledger(s: Stream, base: nat) {
    && GrantedBytes(s.io.sent) == base + s.rx.reported
    && Monotone(s.io.sent, s.rx.reported)
  }

  predicate FramesContinue(s: Stream, t: Stream) {
    && t.rx.windowFrames == s.rx.windowFrames
    && (Unwrapped(t) ==>
          Unwrapped(s) && GrantedFrames(t.io.sent) - t.rx.reportedFrames
                       == GrantedFrames(s.io.sent) - s.rx.reportedFrames)
  }

  /** `t` continues the history of `s` and keeps its ledger. */
  predicate Continues(s: Stream, t: Stream) {
    && s.io.sent <= t.io.sent
    && s.rx.reported <= t.rx.reported
    && GrantedBytes(t.io.sent) - t.rx.reported == GrantedBytes(s.io.sent) - s.rx.reported
    && (Monotone(s.io.sent, s.rx.reported) ==> Monotone(t.io.sent, t.rx.reported))
    && FramesContinue(s, t)
  }

  lemma {:induction false} ContinuesTransitive(s: Stream, t: Stream, u: Stream)
    requires Continues(s, t) && Continues(t, u)
    ensures Continues(s, u)
  {
    hide Monotone, GrantedBytes, GrantedFrames, Unwrapped;
    assert s.io.sent <= t.io.sent <= u.io.sent;
  }

  lemma {:induction false} SendContinues(s: Stream, frame: Frame)
    requires !frame.WindowUpdate?
    ensures Continues(s, Send(s, frame))
  {
    hide GrantedBytes, GrantedFrames;
    GrantedBytesSnoc(s.io.sent, frame);
    FrameCountsSnoc(s.io.sent, frame);
    assert forall f :: f in s.io.sent ==> f in Send(s, frame).io.sent;
  }

  lemma {:induction false} FinishContinues(s: Stream, terminal: StreamState)
    ensures Continues(s, Finish(s, terminal))
  {
    hide GrantedBytes, GrantedFrames, Finish;
  }

  lemma {:induction false} SelfContinues(s: Stream)
    ensures Continues(s, s)
  {
    hide Monotone, GrantedBytes, GrantedFrames, Unwrapped;
  }

  lemma {:induction false} MaybeUpdateContinues(s: Stream)
    requires RxInv(s)
    ensures Continues(s, MaybeUpdate(s))
  {
    hide GrantedBytes, Monotone, RxInv, Sub32, Sub64, FramesContinue;
    SelfContinues(s);
    UpdateExact(s);
    UpdateFrames(s);
    GrantedBytesSnoc(s.io.sent, PendingUpdate(s.rx));
    MonotoneSnoc(s.io.sent, s.rx.reported, PendingUpdate(s.rx));
  }

  /** An update grants what was consumed since the last report. */
  lemma {:induction false} UpdateExact(s: Stream)
    requires RxInv(s)
    ensures Sub64(s.rx.consumed, s.rx.reported) == s.rx.consumed - s.rx.reported
    ensures s.rx.reported <= s.rx.consumed
  {
    hide ReadBytes, Flatten;
    Sub64Exact(s.rx.consumed, s.rx.reported);
  }

  lemma {:induction false} UpdateFrames(s: Stream)
    requires RxInv(s)
    ensures FramesContinue(s, MaybeUpdate(s))
  {
    hide GrantedFrames, ReadBytes, Flatten, Sub64;
    var t := MaybeUpdate(s);
    Sub32Exact(s.rx.remainingFrames, s.rx.reportedFrames);
    FrameCountsSnoc(s.io.sent, PendingUpdate(s.rx));
    assert forall f :: f in s.io.sent ==> f in t.io.sent;
    if t.io.sent != s.io.sent {
      assert t.io.sent[|s.io.sent|] == PendingUpdate(s.rx);
    }
  }

  lemma {:induction false} MonotoneSnoc(sent: seq<Frame>, limit: nat, f: Frame)
    requires f.WindowUpdate? && limit <= f.consumed
    ensures Monotone(sent, limit) ==> Monotone(sent + [f], f.consumed)
  {
  }

  lemma {:induction false} TakeReadQuiet(s: Stream)
    requires s.readQ != [] && s.rx.chunks != []
    ensures TakeRead(s).io.sent == s.io.sent && TakeRead(s).rx.reported == s.rx.reported
    ensures TakeRead(s).rx.reportedFrames == s.rx.reportedFrames && TakeRead(s).rx.windowFrames == s.rx.windowFrames
  {
  }

  /** Nothing on the wire and nothing reported. */
  lemma {:induction false} QuietContinues(s: Stream, t: Stream)
    requires t.io.sent == s.io.sent && t.rx.reported == s.rx.reported
    requires t.rx.reportedFrames == s.rx.reportedFrames && t.rx.windowFrames == s.rx.windowFrames
    ensures Continues(s, t)
  {
    hide GrantedBytes, GrantedFrames;
  }

}

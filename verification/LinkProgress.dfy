/** What byte-credit conservation gives the two ends of a link: progress, the one
    admission it depends on, and when the DATA or the FIN of an honest peer still resets
    its receiver. */
module LinkProgress {
  import opened Bytes
  import opened StreamModel
  import opened StreamHistory
  import opened ReceiveWindow
  import opened CreditLedger
  import opened SendSide
  import opened Completions
  import opened Lifecycle
  import opened StreamRuns
  import opened ReliableLink

  /** Both ends live, nothing is in flight, the reader has caught up and the session
      refused none of its updates. */
  predicate Quiescent(s: Stream, r: Stream, k: nat, c: nat) {
    && !Terminal(s.state) && !Terminal(r.state)
    && k == |Datas(s.io.sent)| && c == |Ctrls(r.io.sent)|
    && r.rx.chunks == [] && forall f :: f in r.io.refused ==> !f.WindowUpdate?
  }

  lemma {:induction false} ReaderRoom(r: Stream)
    requires RxInv(r) && Prompt(r) && !Terminal(r.state) && r.rx.chunks == []
    requires forall f :: f in r.io.refused ==> !f.WindowUpdate?
    ensures r.rx.remaining == r.rx.window - |r.gw.prelude| - (r.rx.consumed - r.rx.reported)
    ensures 4 * (r.rx.remaining + |r.gw.prelude|) > 3 * r.rx.window
  {
    hide ReadBytes;
  }

  lemma {:induction false} LaneProgress(s: Stream, r: Stream, k: nat, c: nat, start: nat, base: nat)
    requires Lane(s, r, k, c, start, base) && start + base == r.rx.window && Quiescent(s, r, k, c)
    ensures s.tx.credit == r.rx.window - |r.gw.prelude| - (r.rx.consumed - r.rx.reported)
    ensures 4 * (s.tx.credit + |r.gw.prelude|) > 3 * r.rx.window
  {
    hide Lane, Good, Datas, Ctrls, SentBytes, GrantedBytes, RxInv, Prompt, TxInv;
    LaneGood(s, r, k, c, start, base);
    GoodParts(r);
    LaneBalance(s, r, k, c, start, base);
    EmptyWire();
    assert Datas(s.io.sent)[k..] == [] && Ctrls(r.io.sent)[c..] == [];
    ReaderRoom(r);
  }

  lemma {:induction false} OrdinaryPrelude(s: Stream)
    requires RxInv(s)
    ensures |s.gw.prelude| <= PRELUDE_BYTES && (!s.gw.initiator ==> s.gw.prelude == [])
  {
    hide ReadBytes, Flatten;
  }

  lemma {:induction false} ServerOrdinary(q: Setup)
    requires ValidSetup(q) && q.serves
    ensures !Start(q).gw.initiator
  {
  }

  /** With an admitted first grant, a quiescent direction of an ordinary stream leaves
      its sender more than three quarters of the window in byte credit; on a gateway
      initiator the prelude bytes are lost from the window for good. */
  lemma {:induction false} ByteProgress(p: Setup, q: Setup, steps: seq<LinkStep>)
    requires Matched(p, q) && FirstGrant(q) == q.window
    ensures var l := LinkRun(Connect(p, q), steps);
            && (Quiescent(l.a, l.b, l.dataA, l.ctrlB) ==> 4 * l.a.tx.credit > 3 * q.window)
            && (Quiescent(l.b, l.a, l.dataB, l.ctrlA) ==>
                  && 4 * (l.b.tx.credit + |l.a.gw.prelude|) > 3 * l.a.rx.window
                  && (!l.a.gw.initiator ==> 4 * l.b.tx.credit > 3 * l.a.rx.window))
  {
    hide Lane, Good, Connect, LinkRun, Purse, FirstGrant, Quiescent, RxInv, Start;
    ConnectInv0(p, q);
    LinkRunKeeps(Connect(p, q), FirstGrant(q), steps);
    WindowsKept(p, q, steps);
    RunOrdinary(p, q, steps);
    var l := LinkRun(Connect(p, q), steps);
    LaneGood(l.a, l.b, l.dataA, l.ctrlB, 0, FirstGrant(q));
    GoodParts(l.a);
    GoodParts(l.b);
    OrdinaryPrelude(l.a);
    OrdinaryPrelude(l.b);
    if Quiescent(l.a, l.b, l.dataA, l.ctrlB) {
      LaneProgress(l.a, l.b, l.dataA, l.ctrlB, 0, FirstGrant(q));
    }
    if Quiescent(l.b, l.a, l.dataB, l.ctrlA) {
      LaneProgress(l.b, l.a, l.dataB, l.ctrlA, l.a.rx.window, 0);
    }
  }

  /** The serving side of a link never awaits a prelude. */
  lemma {:induction false} RunOrdinary(p: Setup, q: Setup, steps: seq<LinkStep>)
    requires Matched(p, q)
    ensures !LinkRun(Connect(p, q), steps).b.gw.initiator
  {
    hide LinkRun, LinkInv, Start, Good, Continues;
    ConnectInv0(p, q);
    ServerOrdinary(q);
    ServerMoves(Connect(p, q), FirstGrant(q), steps);
  }

  // ---- The first grant ---------------------------------------------------

  lemma {:induction false} LaneUnfunded(s: Stream, r: Stream, k: nat, c: nat)
    requires Lane(s, r, k, c, 0, 0) && !Terminal(s.state) && !Terminal(r.state)
    ensures s.tx.credit == 0 && s.tx.next == 0
  {
    hide Good, SentBytes, GrantedBytes, Datas, Ctrls, Monotone, RxInv, TxInv;
    GoodParts(r);
    ReceiverTotal(r);
    ClassesTotal(r.io.sent);
    SentSplit(Ctrls(r.io.sent), c);
  }

  /** If the session refuses the serving side's first grant, the opener never gets to
      send a byte while both ends live: the grant is not retried. */
  lemma {:induction false} LostGrant(p: Setup, q: Setup, steps: seq<LinkStep>)
    requires Matched(p, q) && FirstGrant(q) == 0
    ensures var l := LinkRun(Connect(p, q), steps);
            !Terminal(l.a.state) && !Terminal(l.b.state) ==> l.a.tx.credit == 0 && l.a.tx.next == 0
  {
    hide Lane, Connect, LinkRun, Purse, FirstGrant;
    ConnectInv0(p, q);
    LinkRunKeeps(Connect(p, q), FirstGrant(q), steps);
    var l := LinkRun(Connect(p, q), steps);
    if !Terminal(l.a.state) && !Terminal(l.b.state) {
      LaneUnfunded(l.a, l.b, l.dataA, l.ctrlB);
    }
  }

  /** If it admits that grant, then in every run, once it arrived and while both ends
      live, the credit the opener has spent and still holds is at least the whole window. */
  lemma {:induction false} GrantArrives(p: Setup, q: Setup, steps: seq<LinkStep>)
    requires Matched(p, q) && FirstGrant(q) == q.window
    ensures var l := LinkRun(Connect(p, q), steps);
            l.ctrlB > 0 && !Terminal(l.a.state) && !Terminal(l.b.state) ==> l.a.tx.credit + l.a.tx.next >= q.window
  {
    hide Lane, Good, Connect, LinkRun, FirstGrant, Start, GrantedBytes, Ctrls, Datas;
    ConnectInv0(p, q);
    LinkRunKeeps(Connect(p, q), FirstGrant(q), steps);
    FirstControl(p, q, steps);
    var l := LinkRun(Connect(p, q), steps);
    if l.ctrlB > 0 && !Terminal(l.a.state) && !Terminal(l.b.state) {
      LaneFunded(l.a, l.b, l.dataA, l.ctrlB, FirstGrant(q));
    }
  }

  /** The first grant stays the first control frame of the serving side. */
  lemma {:induction false} FirstControl(p: Setup, q: Setup, steps: seq<LinkStep>)
    requires Matched(p, q) && FirstGrant(q) == q.window
    ensures var sent := Ctrls(LinkRun(Connect(p, q), steps).b.io.sent);
            sent != [] && sent[0] == WindowUpdate(0, q.window, q.windowFrames)
  {
    hide LinkRun, LinkInv, Good, Moves, Ctrls, Datas;
    ConnectInv0(p, q);
    ServerMoves(Connect(p, q), FirstGrant(q), steps);
    MovesWire(Start(q), LinkRun(Connect(p, q), steps).b);
    EmptyWire();
    ClassesSnoc([], WindowUpdate(0, q.window, q.windowFrames));
    assert Start(q).io.sent == [] + [WindowUpdate(0, q.window, q.windowFrames)];
  }

  lemma {:induction false} LaneFunded(s: Stream, r: Stream, k: nat, c: nat, base: nat)
    requires Lane(s, r, k, c, 0, base) && !Terminal(s.state) && !Terminal(r.state)
    requires 0 < c && Ctrls(r.io.sent)[0].WindowUpdate?
    ensures s.tx.credit + s.tx.next >= Ctrls(r.io.sent)[0].bytes
  {
    hide Good, SentBytes, GrantedBytes, Datas, Ctrls, Monotone;
    var sent := Ctrls(r.io.sent)[..c];
    assert sent[..1] == [] + [sent[0]];
    EmptyWire();
    GrantedBytesSnoc([], sent[0]);
    SentSplit(sent, 1);
  }

  // ---- Resets caused by DATA ---------------------------------------------

  /** Of all the checks on an honest peer's DATA only the frame window and the prelude
      can fail. */
  predicate ResetsOnlyByFrames(s: Stream, r: Stream, k: nat) {
    !Terminal(s.state) && !Terminal(r.state) && k < |Datas(s.io.sent)| ==>
      var f := Datas(s.io.sent)[k];
      && f.Data?
      && (Deliver(r, f).state == Reset <==> r.rx.remainingFrames == 0 || BreaksPrelude(r, f.data))
  }

  lemma {:induction false} AcceptLive(r: Stream, data: seq<byte>)
    requires !Terminal(r.state) && !BreaksPrelude(r, data)
    ensures AcceptData(r, data).state != Reset
  {
    hide Dispatch, Finish, TakePrelude, Charge, Buffer, PreludeShare;
    var t := Buffer(TakePrelude(Charge(r, |data|), data), data[PreludeShare(r, data)..]);
    BufferLive(r, data);
    DispatchFrames(t);
  }

  lemma {:induction false} LaneResets(s: Stream, r: Stream, k: nat, c: nat, start: nat, base: nat)
    requires Lane(s, r, k, c, start, base)
    ensures ResetsOnlyByFrames(s, r, k)
  {
    hide Lane, Good, Moves, Datas, Ctrls, SentBytes, AcceptData, ResetFor, BreaksPrelude, PreludeShare, Seen, Purse,
      FramePurse;
    if !Terminal(s.state) && !Terminal(r.state) && k < |Datas(s.io.sent)| {
      var f := Datas(s.io.sent)[k];
      LaneGood(s, r, k, c, start, base);
      NextDataFits(s, r, k, c, start, base);
      ResetState(r, ResourceExhausted);
      if r.rx.remainingFrames != 0 {
        AcceptMoves(r, f.data);
        if !BreaksPrelude(r, f.data) {
          AcceptLive(r, f.data);
        }
      }
    }
  }

  /** In every state of every run, the next DATA frame resets its receiver exactly when
      the frame window is used up or the frame completes a broken prelude. */
  lemma {:induction false} HonestResets(p: Setup, q: Setup, steps: seq<LinkStep>)
    requires Matched(p, q)
    ensures var l := LinkRun(Connect(p, q), steps);
            ResetsOnlyByFrames(l.a, l.b, l.dataA) && ResetsOnlyByFrames(l.b, l.a, l.dataB)
  {
    hide Lane, Connect, LinkRun, Purse, FirstGrant, ResetsOnlyByFrames;
    ConnectInv0(p, q);
    LinkRunKeeps(Connect(p, q), FirstGrant(q), steps);
    var l := LinkRun(Connect(p, q), steps);
    LaneResets(l.a, l.b, l.dataA, l.ctrlB, 0, FirstGrant(q));
    LaneResets(l.b, l.a, l.dataB, l.ctrlA, l.a.rx.window, 0);
  }

  // ---- Resets caused by a FIN --------------------------------------------

  /** A FIN on the wire names the end of everything sent; it resets a live receiver
      exactly when that receiver has not taken all of it yet, over any network. */
  lemma {:induction false} FinNeedsAll(s: Stream, r: Stream, f: Frame)
    requires Good(s) && f in s.io.sent && f.Fin? && !Terminal(r.state)
    ensures Deliver(r, f).state == Reset <==> r.rx.next != |SentBytes(s.io.sent)|
  {
    hide SentBytes, WriteBytes, Prefixes, Truthful, QueueInv, RxInv, Prompt, OpInv, LifeInv, ConnectInv, ResetFor,
      Dispatch, Finish;
    assert f.finalOffset == s.tx.next;
    var r1 := r.(rx := r.rx.(finReceived := true, finalOffset := f.finalOffset));
    ResetState(r1, ProtocolError);
    DispatchFrames(r1);
  }

  lemma {:induction false} CtrlSent(frames: seq<Frame>, i: nat)
    requires i < |Ctrls(frames)|
    ensures Ctrls(frames)[i] in frames
  {
    if frames != [] {
      var n := |frames| - 1;
      assert frames == frames[..n] + [frames[n]];
      if i < |Ctrls(frames[..n])| {
        CtrlSent(frames[..n], i);
      }
    }
  }

  /** DATA frames carry something, so bytes are missing as long as one is in flight. */
  lemma {:induction false} BytesInFlight(frames: seq<Frame>, k: nat)
    requires Truthful(frames) && k <= |frames| && forall i :: 0 <= i < |frames| ==> frames[i].Data?
    ensures |SentBytes(frames[..k])| <= |SentBytes(frames)|
    ensures |SentBytes(frames[..k])| == |SentBytes(frames)| <==> k == |frames|
  {
    hide SentBytes, Truthful;
    SentSplit(frames, k);
    if k == |frames| {
      assert frames[..k] == frames;
    } else {
      TruthfulAt(frames, k);
      assert frames[..k + 1] == frames[..k] + [frames[k]];
      SentBytesSnoc(frames[..k], frames[k]);
      SentSplit(frames, k + 1);
    }
  }

  /** `n` control frames of the sender have arrived. */
  predicate FinOvertakes(s: Stream, r: Stream, k: nat, n: nat) {
    !Terminal(s.state) && !Terminal(r.state) && n < |Ctrls(s.io.sent)| && Ctrls(s.io.sent)[n].Fin? ==>
      (Deliver(r, Ctrls(s.io.sent)[n]).state == Reset <==> k < |Datas(s.io.sent)|)
  }

  lemma {:induction false} LaneFin(s: Stream, r: Stream, k: nat, c: nat, start: nat, base: nat, n: nat)
    requires Lane(s, r, k, c, start, base)
    ensures FinOvertakes(s, r, k, n)
  {
    hide Good, Deliver, SentBytes, GrantedBytes, Datas, Ctrls, Monotone, Purse, Heard, Truthful, RxInv, Prompt, TxInv;
    if !Terminal(s.state) && !Terminal(r.state) && n < |Ctrls(s.io.sent)| && Ctrls(s.io.sent)[n].Fin? {
      CtrlSent(s.io.sent, n);
      FinNeedsAll(s, r, Ctrls(s.io.sent)[n]);
      GoodParts(s);
      DatasTruthful(s.io.sent);
      ClassesTotal(s.io.sent);
      BytesInFlight(Datas(s.io.sent), k);
    }
  }

  /** FIN is a control frame and may overtake DATA. In every state of every run with both
      ends live, a FIN that arrives next resets its receiver exactly when DATA sent before
      it is still in flight. */
  lemma {:induction false} HonestFinResets(p: Setup, q: Setup, steps: seq<LinkStep>)
    requires Matched(p, q)
    ensures var l := LinkRun(Connect(p, q), steps);
            FinOvertakes(l.a, l.b, l.dataA, l.ctrlA) && FinOvertakes(l.b, l.a, l.dataB, l.ctrlB)
  {
    hide Lane, Connect, LinkRun, Purse, FirstGrant, FinOvertakes;
    ConnectInv0(p, q);
    LinkRunKeeps(Connect(p, q), FirstGrant(q), steps);
    var l := LinkRun(Connect(p, q), steps);
    LaneFin(l.a, l.b, l.dataA, l.ctrlB, 0, FirstGrant(q), l.ctrlA);
    LaneFin(l.b, l.a, l.dataB, l.ctrlA, l.a.rx.window, 0, l.ctrlB);
  }

  /** An idle sender with credit on an admitting session. */
  predicate Ready(s: Stream, sent: seq<Frame>) {
    && !Terminal(s.state) && s.state != HalfClosedLocal && !s.rx.finReceived
    && s.writeQ == [] && !s.tx.finSent && s.io.script == [] && s.io.sent == sent
    && s.tx.credit > 0 && s.tx.creditFrames > 0
  }

  lemma {:induction false} OneByteWrite(s: Stream, x: byte)
    requires Ready(s, []) && s.tx.next == 0
    ensures var t := Step(s, WriteCall([x], None));
            && t.state == s.state && t.writeQ == [] && !t.tx.finSent && t.io.script == [] && t.tx.next == 1
            && t.rx == s.rx && t.io.sent == [Data(0, 1, [x])]
  {
    hide Pump;
    var w := PendingWrite(s.io.nextOp, [x], 0, None, false);
    var s1 := s.(writeQ := [w], io := s.io.(nextOp := s.io.nextOp + 1));
    assert s.writeQ + [w] == [w] && UnsentBytes(s.writeQ) == 0;
    assert Step(s, WriteCall([x], None)) == Pump(s1);
    OneBytePump(s1, x);
  }

  lemma {:induction false} OneBytePump(s: Stream, x: byte)
    requires !Terminal(s.state) && s.tx.next == 0 && s.tx.credit > 0 && s.tx.creditFrames > 0
    requires s.io.script == [] && s.io.sent == [] && |s.writeQ| == 1
    requires s.writeQ[0] == PendingWrite(s.writeQ[0].id, [x], 0, None, false)
    ensures var t := Pump(s);
            && t.state == s.state && t.writeQ == [] && t.tx.finSent == s.tx.finSent && t.io.script == []
            && t.tx.next == 1 && t.rx == s.rx && t.io.sent == [Data(0, 1, [x])]
  {
    hide AdmittedPrefix, Finish;
    assert [x][0..1] == [x] && NextData(s) == Data(0, 1, [x]);
    var s1 := SendChunk(s);
    assert s1.writeQ == [s.writeQ[0].(offset := 1)] && s1.io.sent == [] + [Data(0, 1, [x])];
    assert Pump(s) == Pump(s1) == Pump(CompleteWrite(s1, None));
  }

  lemma {:induction false} FinAfterByte(t: Stream, x: byte)
    requires !ShutdownRefused(t) && t.writeQ == [] && t.io.script == [] && !t.rx.finReceived && t.tx.next == 1
    requires t.io.sent == [Data(0, 1, [x])]
    ensures var u := Step(t, ShutdownCall);
            && u.state == HalfClosedLocal && u.io.sent == [Data(0, 1, [x]), Fin(1)]
            && Datas(u.io.sent) == [Data(0, 1, [x])] && Ctrls(u.io.sent) == [Fin(1)]
  {
    hide Finish, Datas, Ctrls;
    EmptyWire();
    ClassesSnoc([], Data(0, 1, [x]));
    ClassesSnoc([Data(0, 1, [x])], Fin(1));
    assert [] + [Data(0, 1, [x])] == [Data(0, 1, [x])];
    assert [Data(0, 1, [x])] + [Fin(1)] == [Data(0, 1, [x]), Fin(1)];
  }

  lemma {:induction false} GrantReady(p: Setup, q: Setup)
    requires Matched(p, q) && p.script == [] && q.script == [] && p.window <= MAX_OPEN_WINDOW
    ensures var l := LinkNext(LinkNext(Connect(p, q), AcceptOpen), CtrlToA);
            && Ready(l.a, []) && l.a.tx.next == 0 && l.b == Start(q) && l.accepted && l.dataA == 0 && l.ctrlA == 0
  {
    hide Datas, Ctrls, LinkNext;
    Granted(p, q);
  }

  /** Write one byte, half-close, and let the FIN arrive first: the receiver resets. */
  lemma {:induction false} WriteThenHalfClose(p: Setup, q: Setup, x: byte)
    requires Matched(p, q) && p.script == [] && q.script == [] && p.window <= MAX_OPEN_WINDOW
    ensures var steps := [AcceptOpen, CtrlToA, CallA(WriteCall([x], None)), CallA(ShutdownCall), CtrlToB];
            LinkRun(Connect(p, q), steps).b.state == Reset
  {
    hide Step, Start, Ready, Datas, Ctrls, Deliver;
    var l0 := Connect(p, q);
    var l2 := LinkNext(LinkNext(l0, AcceptOpen), CtrlToA);
    GrantReady(p, q);
    assert Ready(l2.a, []);
    ReadyFacts(l2.a);
    OneByteWrite(l2.a, x);
    var l3 := LinkNext(l2, CallA(WriteCall([x], None)));
    FinAfterByte(l3.a, x);
    var l4 := LinkNext(l3, CallA(ShutdownCall));
    EarlyFin(q);
    LinkFive(l0, AcceptOpen, CtrlToA, CallA(WriteCall([x], None)), CallA(ShutdownCall), CtrlToB);
  }

  lemma {:induction false} ReadyFacts(s: Stream)
    requires Ready(s, [])
    ensures !Terminal(s.state) && !s.rx.finReceived
  {
  }

  lemma {:induction false} EarlyFin(q: Setup)
    ensures Deliver(Start(q), Fin(1)).state == Reset
  {
    hide Finish;
  }

  lemma {:induction false} LinkFive(l: Link, a: LinkStep, b: LinkStep, c: LinkStep, d: LinkStep, e: LinkStep)
    ensures LinkRun(l, [a, b, c, d, e]) == LinkNext(LinkNext(LinkNext(LinkNext(LinkNext(l, a), b), c), d), e)
  {
    hide LinkNext;
    assert [a, b, c, d, e][1..] == [b, c, d, e];
    FourSteps(LinkNext(l, a), b, c, d, e);
  }
}

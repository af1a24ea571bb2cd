/** Frame credit over a link. Unlike byte credit it is not conserved: an update reports
    the change of the receiver's remaining frame window since the last update, not the
    frames that were freed, and the first update counts from zero. */
module FrameCredit {
  import opened Bytes
  import opened StreamModel
  import opened StreamHistory
  import opened ReceiveWindow
  import opened CreditLedger
  import opened SendSide
  import opened Completions
  import opened Lifecycle
  import opened StreamRuns
  import opened ReliableLink

  lemma {:induction false} EmptyCounts()
    ensures GrantedFrames([]) == 0 && DataCount([]) == 0
  {
  }

  lemma {:induction false} FramesTotal(frames: seq<Frame>)
    ensures GrantedFrames(Ctrls(frames)) == GrantedFrames(frames)
  {
    hide GrantedFrames, Datas, Ctrls;
    EmptyCounts();
    EmptyWire();
    if frames != [] {
      var n := |frames| - 1;
      assert frames == frames[..n] + [frames[n]];
      FramesTotal(frames[..n]);
      ClassesSnoc(frames[..n], frames[n]);
      FrameCountsSnoc(frames[..n], frames[n]);
      FrameCountsSnoc(Ctrls(frames[..n]), frames[n]);
      assert Ctrls(frames[..n]) + [] == Ctrls(frames[..n]);
    }
  }

  lemma {:induction false} FramesUpTo(frames: seq<Frame>, k: nat)
    requires k <= |frames|
    ensures GrantedFrames(frames[..k]) <= GrantedFrames(frames)
    decreases |frames|
  {
    if k < |frames| {
      var n := |frames| - 1;
      assert frames[..n][..k] == frames[..k];
      FramesUpTo(frames[..n], k);
    } else {
      assert frames[..k] == frames;
    }
  }

  /** A sender never used or holds more frame credit than it started with and was
      granted by the `c` control frames that came back. */
  predicate FrameLane(s: Stream, r: Stream, c: nat, start: nat, base: nat) {
    && Good(s) && Good(r) && FrameLedger(r, base)
    && c <= |Ctrls(r.io.sent)|
    && FramePurse(s) <= start + GrantedFrames(Ctrls(r.io.sent)[..c])
  }

  lemma {:induction false} MovesFrames(s: Stream, t: Stream)
    requires Moves(s, t)
    ensures Ctrls(s.io.sent) <= Ctrls(t.io.sent)
    ensures t.rx.windowFrames == s.rx.windowFrames
    ensures forall base: nat :: FrameLedger(s, base) ==> FrameLedger(t, base)
  {
    hide Good, GrantedBytes, GrantedFrames, Datas, Ctrls, Monotone, Unwrapped;
    ClassesMonotone(s.io.sent, t.io.sent);
  }

  lemma {:induction false} FrameLaneSender(s: Stream, s1: Stream, r: Stream, c: nat, start: nat, base: nat)
    requires FrameLane(s, r, c, start, base) && Moves(s, s1) && SamePurse(s, s1)
    ensures FrameLane(s1, r, c, start, base)
  {
    hide Good, Moves, GrantedFrames, Ctrls, FrameLedger, Purse, FramePurse;
    MovesGood(s, s1);
  }

  lemma {:induction false} FrameLaneReceiver(s: Stream, r: Stream, r1: Stream, c: nat, start: nat, base: nat)
    requires FrameLane(s, r, c, start, base) && Moves(r, r1)
    ensures FrameLane(s, r1, c, start, base)
  {
    hide Good, Moves, GrantedFrames, Ctrls, FrameLedger, FramePurse;
    MovesGood(r, r1);
    MovesFrames(r, r1);
    PrefixTake(Ctrls(r.io.sent), Ctrls(r1.io.sent), c);
  }

  lemma {:induction false} FrameLaneCtrl(s: Stream, r: Stream, c: nat, start: nat, base: nat)
    requires FrameLane(s, r, c, start, base) && c < |Ctrls(r.io.sent)|
    ensures FrameLane(Deliver(s, Ctrls(r.io.sent)[c]), r, c + 1, start, base)
  {
    hide Good, Moves, GrantedFrames, Ctrls, FrameLedger, Purse, FramePurse, Seen, OnData, OnFin, OnReset,
      OnWindowUpdate;
    var q := Ctrls(r.io.sent);
    var f := q[c];
    DeliverMoves(s, f);
    MovesGood(s, Deliver(s, f));
    assert q[..c + 1] == q[..c] + [f];
    FrameCountsSnoc(q[..c], f);
    if f.WindowUpdate? && !Terminal(s.state) {
      UpdateMoves(s, f.consumed, f.bytes, f.frames);
    }
  }

  /** Both lanes; `fa` and `fb` are the two frame windows. */
  predicate FrameInv(l: Link, fa: nat, fb: nat, base: nat) {
    && l.a.rx.windowFrames == fa && l.b.rx.windowFrames == fb
    && FrameLane(l.a, l.b, l.ctrlB, 0, base) && FrameLane(l.b, l.a, l.ctrlA, fa, 0)
  }

  lemma {:induction false} FrameLaneGood(s: Stream, r: Stream, c: nat, start: nat, base: nat)
    requires FrameLane(s, r, c, start, base)
    ensures Good(s) && Good(r) && c <= |Ctrls(r.io.sent)|
  {
    hide Good, GrantedFrames, Ctrls, FrameLedger, FramePurse;
  }

  /** The opener moved on its own. */
  lemma {:induction false} OpenerKeeps(l: Link, a1: Stream, fa: nat, fb: nat, base: nat)
    requires FrameInv(l, fa, fb, base) && Moves(l.a, a1) && SamePurse(l.a, a1)
    ensures FrameInv(l.(a := a1), fa, fb, base)
  {
    hide FrameLane, Moves, SamePurse;
    MovesFrames(l.a, a1);
    FrameLaneSender(l.a, a1, l.b, l.ctrlB, 0, base);
    FrameLaneReceiver(l.b, l.a, a1, l.ctrlA, fa, 0);
  }

  /** The serving side moved on its own. */
  lemma {:induction false} ServerKeeps(l: Link, b1: Stream, fa: nat, fb: nat, base: nat)
    requires FrameInv(l, fa, fb, base) && Moves(l.b, b1) && SamePurse(l.b, b1)
    ensures FrameInv(l.(b := b1), fa, fb, base)
  {
    hide FrameLane, Moves, SamePurse;
    MovesFrames(l.b, b1);
    FrameLaneSender(l.b, b1, l.a, l.ctrlA, fa, 0);
    FrameLaneReceiver(l.a, l.b, b1, l.ctrlB, 0, base);
  }

  lemma {:induction false} ToOpenerKeeps(l: Link, fa: nat, fb: nat, base: nat)
    requires FrameInv(l, fa, fb, base) && l.ctrlB < |Ctrls(l.b.io.sent)|
    ensures FrameInv(l.(ctrlB := l.ctrlB + 1, a := Deliver(l.a, Ctrls(l.b.io.sent)[l.ctrlB])), fa, fb, base)
  {
    hide Good, FrameLane, Moves, Deliver, Ctrls, SameSeen, SameFin, SamePurse, FrameLedger;
    var f := Ctrls(l.b.io.sent)[l.ctrlB];
    FrameLaneGood(l.a, l.b, l.ctrlB, 0, base);
    FrameLaneCtrl(l.a, l.b, l.ctrlB, 0, base);
    DeliverMoves(l.a, f);
    MovesFrames(l.a, Deliver(l.a, f));
    FrameLaneReceiver(l.b, l.a, Deliver(l.a, f), l.ctrlA, fa, 0);
  }

  lemma {:induction false} ToServerKeeps(l: Link, fa: nat, fb: nat, base: nat)
    requires FrameInv(l, fa, fb, base) && l.ctrlA < |Ctrls(l.a.io.sent)|
    ensures FrameInv(l.(ctrlA := l.ctrlA + 1, b := Deliver(l.b, Ctrls(l.a.io.sent)[l.ctrlA])), fa, fb, base)
    ensures FrameInv(l.(ctrlA := l.ctrlA + 1), fa, fb, base)
  {
    hide Good, Moves, Deliver, Ctrls, SameSeen, SameFin, SamePurse, FramePurse, GrantedFrames, FrameLedger;
    var q := Ctrls(l.a.io.sent);
    DeliverMoves(l.b, q[l.ctrlA]);
    MovesFrames(l.b, Deliver(l.b, q[l.ctrlA]));
    FrameLaneCtrl(l.b, l.a, l.ctrlA, fa, 0);
    FrameLaneReceiver(l.a, l.b, Deliver(l.b, q[l.ctrlA]), l.ctrlB, 0, base);
    assert q[..l.ctrlA + 1] == q[..l.ctrlA] + [q[l.ctrlA]];
    FrameCountsSnoc(q[..l.ctrlA], q[l.ctrlA]);
  }

  lemma {:induction false} FrameStep(l: Link, step: LinkStep, fa: nat, fb: nat, base: nat)
    requires FrameInv(l, fa, fb, base)
    ensures FrameInv(LinkNext(l, step), fa, fb, base)
  {
    hide Step, Deliver, Datas, Ctrls, Moves, SameSeen, SameFin, SamePurse, Good;
    FrameLaneGood(l.a, l.b, l.ctrlB, 0, base);
    DatasAreData(l.a.io.sent);
    DatasAreData(l.b.io.sent);
    hide FrameLane;
    match step
    case CallA(action) =>
      if !action.Receive? {
        LocalLeads(l.a, action);
        OpenerKeeps(l, Step(l.a, action), fa, fb, base);
      }
    case CallB(action) =>
      if !action.Receive? {
        LocalLeads(l.b, action);
        ServerKeeps(l, Step(l.b, action), fa, fb, base);
      }
    case AcceptOpen =>
    case RefuseOpen(reason) =>
      DeliverMoves(l.a, ResetFrame(Some(reason)));
      OpenerKeeps(l, Deliver(l.a, ResetFrame(Some(reason))), fa, fb, base);
    case DataToB =>
      if l.dataA < |Datas(l.a.io.sent)| {
        DeliverMoves(l.b, Datas(l.a.io.sent)[l.dataA]);
        ServerKeeps(l, Deliver(l.b, Datas(l.a.io.sent)[l.dataA]), fa, fb, base);
      }
    case CtrlToB =>
      if l.ctrlA < |Ctrls(l.a.io.sent)| {
        ToServerKeeps(l, fa, fb, base);
      }
    case DataToA =>
      if l.dataB < |Datas(l.b.io.sent)| {
        DeliverMoves(l.a, Datas(l.b.io.sent)[l.dataB]);
        OpenerKeeps(l, Deliver(l.a, Datas(l.b.io.sent)[l.dataB]), fa, fb, base);
      }
    case CtrlToA =>
      if l.ctrlB < |Ctrls(l.b.io.sent)| {
        ToOpenerKeeps(l, fa, fb, base);
      }
  }

  lemma {:induction false} DatasAreData(frames: seq<Frame>)
    ensures forall i :: 0 <= i < |Datas(frames)| ==> Datas(frames)[i].Data?
  {
    if frames != [] {
      DatasAreData(frames[..|frames| - 1]);
    }
  }

  lemma {:induction false} FrameRun(l: Link, steps: seq<LinkStep>, fa: nat, fb: nat, base: nat)
    requires FrameInv(l, fa, fb, base)
    ensures FrameInv(LinkRun(l, steps), fa, fb, base)
    decreases |steps|
  {
    hide FrameInv, LinkNext;
    if steps != [] {
      FrameStep(l, steps[0], fa, fb, base);
      FrameRun(LinkNext(l, steps[0]), steps[1..], fa, fb, base);
    }
  }

  /** The frames of the serving side's first grant. */
  function FirstFrames(q: Setup): nat {
    if q.script == [] || q.script[0] == Admitted then q.windowFrames else 0
  }

  lemma {:induction false} FrameStart(p: Setup, q: Setup)
    requires Matched(p, q)
    ensures FrameInv(Connect(p, q), p.windowFrames, q.windowFrames, FirstFrames(q))
  {
    hide Good, GrantedFrames, DataCount, Datas, Ctrls;
    StartGood(p);
    StartGood(q);
    EmptyCounts();
    EmptyWire();
    FrameCountsSnoc([], WindowUpdate(0, q.window, q.windowFrames));
    assert [] + [WindowUpdate(0, q.window, q.windowFrames)] == [WindowUpdate(0, q.window, q.windowFrames)];
    ClassesSnoc([], WindowUpdate(0, q.window, q.windowFrames));
  }

  // ---- Results -----------------------------------------------------------

  lemma {:induction false} LaneBudget(s: Stream, r: Stream, c: nat, start: nat, base: nat)
    requires FrameLane(s, r, c, start, base) && Unwrapped(r) && start + base <= r.rx.windowFrames
    ensures DataCount(s.io.sent) + s.tx.creditFrames <= 2 * r.rx.windowFrames
  {
    hide GrantedFrames, DataCount, Ctrls, RxInv, Prompt, Unwrapped;
    FramesTotal(r.io.sent);
    FramesUpTo(Ctrls(r.io.sent), c);
    ReportedBound(r);
  }

  lemma {:induction false} ReportedBound(r: Stream)
    requires RxInv(r)
    ensures r.rx.reportedFrames <= r.rx.windowFrames
  {
    hide ReadBytes, Flatten;
  }

  /** In every run of a link, a direction whose updates never wrapped carries at most
      twice its frame window of DATA frames in its whole life, however much is read. */
  lemma {:induction false} FrameBudget(p: Setup, q: Setup, steps: seq<LinkStep>)
    requires Matched(p, q)
    ensures var l := LinkRun(Connect(p, q), steps);
            && (Unwrapped(l.b) ==> DataCount(l.a.io.sent) + l.a.tx.creditFrames <= 2 * q.windowFrames)
            && (Unwrapped(l.a) ==> DataCount(l.b.io.sent) + l.b.tx.creditFrames <= 2 * p.windowFrames)
  {
    hide FrameLane, Connect, LinkRun, Unwrapped, DataCount;
    FrameStart(p, q);
    FrameRun(Connect(p, q), steps, p.windowFrames, q.windowFrames, FirstFrames(q));
    var l := LinkRun(Connect(p, q), steps);
    if Unwrapped(l.b) {
      LaneBudget(l.a, l.b, l.ctrlB, 0, FirstFrames(q));
    }
    if Unwrapped(l.a) {
      LaneBudget(l.b, l.a, l.ctrlA, p.windowFrames, 0);
    }
  }

  /** The frame window is all free and the last report is either none or all of it. */
  predicate WindowFree(s: Stream) {
    && 1 <= s.rx.windowFrames < U32 && s.rx.remainingFrames == s.rx.windowFrames
    && (s.rx.reportedFrames == 0 || s.rx.reportedFrames == s.rx.windowFrames)
    && Unwrapped(s)
  }

  /** A reader that has read everything: the whole frame window is free. */
  predicate CaughtUp(s: Stream) {
    && Good(s) && !Terminal(s.state) && !s.gw.initiator && !s.rx.finReceived
    && s.readQ == [] && s.rx.chunks == [] && WindowFree(s)
  }

  /** One DATA frame arrives and is read at once. */
  function ReadBlock(s: Stream, block: seq<byte>): Stream {
    Step(Step(s, Receive(Data(s.rx.next, |block|, block))), ReadCall(|block|, None))
  }

  function ReadBlocks(s: Stream, blocks: seq<seq<byte>>): Stream
    decreases |blocks|
  {
    if blocks == [] then s else ReadBlocks(ReadBlock(s, blocks[0]), blocks[1..])
  }

  predicate BlocksFit(s: Stream, blocks: seq<seq<byte>>)
    decreases |blocks|
  {
    blocks == []
    || (blocks[0] != [] && |blocks[0]| <= s.rx.remaining && BlocksFit(ReadBlock(s, blocks[0]), blocks[1..]))
  }

  lemma {:induction false} BlockArrives(s: Stream, block: seq<byte>)
    requires CaughtUp(s) && block != [] && |block| <= s.rx.remaining
    ensures Step(s, Receive(Data(s.rx.next, |block|, block)))
         == s.(rx := s.rx.(next := s.rx.next + |block|, remaining := s.rx.remaining - |block|,
                           remainingFrames := s.rx.windowFrames - 1, chunks := [block],
                           buffered := s.rx.buffered + |block|))
  {
    hide Prompt, ReadBytes, Flatten, Finish, Unwrapped;
    assert block[0..] == block && [] + [block] == [block];
  }

  lemma {:induction false} FreeUpdate(s: Stream)
    requires WindowFree(s)
    ensures var u := MaybeUpdate(s);
            && WindowFree(u) && u.readQ == s.readQ && u.rx.chunks == s.rx.chunks && u.state == s.state
            && u.gw == s.gw && u.rx.finReceived == s.rx.finReceived && u.rx.windowFrames == s.rx.windowFrames
  {
    hide Sub64, Sub32;
    Sub32Exact(s.rx.remainingFrames, s.rx.reportedFrames);
    var u := MaybeUpdate(s);
    forall f | f in u.io.sent && f.WindowUpdate?
      ensures f.frames <= u.rx.windowFrames
    {
      assert f in s.io.sent || f == PendingUpdate(s.rx);
    }
  }

  /** Taking the only chunk frees the whole frame window. */
  lemma {:induction false} BlockTaken(t: Stream, block: seq<byte>, read: PendingRead)
    requires t.readQ == [read] && t.rx.chunks == [block] && read.capacity == |block|
    requires 1 <= t.rx.windowFrames < U32 && t.rx.remainingFrames == t.rx.windowFrames - 1
    ensures var u := TakeRead(t);
            && u.readQ == [] && u.rx.chunks == [] && u.rx.remainingFrames == t.rx.windowFrames
            && u.rx.reportedFrames == t.rx.reportedFrames && u.rx.windowFrames == t.rx.windowFrames
            && u.io.sent == t.io.sent && u.state == t.state && u.gw == t.gw && u.rx.finReceived == t.rx.finReceived
  {
  }

  lemma {:induction false} BlockRead(t: Stream, block: seq<byte>)
    requires t.state != Reset && t.readQ == [] && t.rx.chunks == [block] && block != []
    requires WindowFree(t.(rx := t.rx.(remainingFrames := t.rx.remainingFrames + 1)))
    ensures var u := Step(t, ReadCall(|block|, None));
            && u.state == t.state && u.gw == t.gw && u.rx.finReceived == t.rx.finReceived
            && u.rx.windowFrames == t.rx.windowFrames && u.readQ == [] && u.rx.chunks == [] && WindowFree(u)
  {
    hide TakeRead, MaybeUpdate, ServeEof;
    var read := PendingRead(t.io.nextOp, |block|, None);
    var t1 := t.(readQ := [read], io := t.io.(nextOp := t.io.nextOp + 1));
    assert t.readQ + [read] == [read];
    BlockTaken(t1, block, read);
    FreeUpdate(TakeRead(t1));
    assert Dispatch(t1) == Dispatch(ServeRead(t1)) == ServeRead(t1);
  }

  lemma {:induction false} BlockKeeps(s: Stream, block: seq<byte>)
    requires CaughtUp(s) && block != [] && |block| <= s.rx.remaining
    ensures CaughtUp(ReadBlock(s, block)) && ReadBlock(s, block).rx.windowFrames == s.rx.windowFrames
    ensures Moves(s, ReadBlock(s, block))
  {
    hide RxInv, Prompt, TxInv, OpInv, LifeInv, ConnectInv, Moves, Step, Unwrapped;
    var t := Step(s, Receive(Data(s.rx.next, |block|, block)));
    BlockArrives(s, block);
    StepMoves(s, Receive(Data(s.rx.next, |block|, block)));
    MovesGood(s, t);
    StepMoves(t, ReadCall(|block|, None));
    MovesGood(t, Step(t, ReadCall(|block|, None)));
    MovesTransitive(s, t, ReadBlock(s, block));
    SameUpdates(s, t.(rx := t.rx.(remainingFrames := t.rx.remainingFrames + 1)));
    BlockRead(t, block);
  }

  lemma {:induction false} SameUpdates(s: Stream, t: Stream)
    requires Unwrapped(s) && t.io.sent == s.io.sent && t.rx.windowFrames == s.rx.windowFrames
    ensures Unwrapped(t)
  {
  }

  lemma {:induction false} BlocksKeep(s: Stream, blocks: seq<seq<byte>>)
    requires CaughtUp(s) && BlocksFit(s, blocks)
    ensures CaughtUp(ReadBlocks(s, blocks)) && Moves(s, ReadBlocks(s, blocks))
    decreases |blocks|
  {
    hide CaughtUp, Moves, ReadBlock;
    if blocks == [] {
      CaughtUpMoves(s);
    } else {
      BlockKeeps(s, blocks[0]);
      BlocksKeep(ReadBlock(s, blocks[0]), blocks[1..]);
      MovesTransitive(s, ReadBlock(s, blocks[0]), ReadBlocks(s, blocks));
    }
  }

  lemma {:induction false} CaughtUpMoves(s: Stream)
    requires CaughtUp(s)
    ensures Moves(s, s)
  {
    hide Good, Moves, Unwrapped;
    SelfLeads(s);
    LeadsGood(s, s);
  }

  /** A serving side that reads every DATA frame as it arrives never grants more than
      twice its frame window in total, however many frames it frees. */
  lemma {:induction false} PromptReader(q: Setup, blocks: seq<seq<byte>>)
    requires ValidSetup(q) && q.serves && q.windowFrames < U32 / 2 && BlocksFit(Start(q), blocks)
    ensures var s := ReadBlocks(Start(q), blocks);
            && Unwrapped(s) && GrantedFrames(s.io.sent) <= 2 * q.windowFrames
            && s.rx.remainingFrames == q.windowFrames && s.rx.chunks == []
  {
    hide Good, Moves, GrantedFrames, ReadBlocks, BlocksFit, FrameLedger;
    StartGood(q);
    ServerFrames(q);
    hide Start;
    BlocksKeep(Start(q), blocks);
    var s := ReadBlocks(Start(q), blocks);
    MovesFrames(Start(q), s);
    CaughtUpTotal(s, FirstFrames(q));
  }

  lemma {:induction false} CaughtUpTotal(s: Stream, base: nat)
    requires CaughtUp(s) && FrameLedger(s, base) && base <= s.rx.windowFrames
    ensures GrantedFrames(s.io.sent) <= 2 * s.rx.windowFrames
  {
    hide Good, GrantedFrames, Unwrapped;
  }

  lemma {:induction false} ServerFrames(q: Setup)
    requires ValidSetup(q) && q.serves && q.windowFrames < U32 / 2 && Good(Start(q))
    ensures CaughtUp(Start(q)) && FrameLedger(Start(q), FirstFrames(q)) && Start(q).rx.windowFrames == q.windowFrames
  {
    hide Good, GrantedFrames;
    EmptyCounts();
    FrameCountsSnoc([], WindowUpdate(0, q.window, q.windowFrames));
    assert [] + [WindowUpdate(0, q.window, q.windowFrames)] == [WindowUpdate(0, q.window, q.windowFrames)];
  }
}

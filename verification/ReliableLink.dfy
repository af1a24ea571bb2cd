/** Two ends of a stream over the session's own channel: frames are neither lost nor
    duplicated, DATA stays in order and so do the control frames, but a control
    frame may overtake DATA (the scheduler keeps one queue per frame class). */
module ReliableLink {
  import opened Bytes
  import opened StreamModel
  import opened StreamHistory
  import opened ReceiveWindow
  import opened CreditLedger
  import opened SendSide
  import opened Completions
  import opened Lifecycle
  import opened StreamRuns
  import opened LossyNetwork

  /** `a` opened the stream, `b` serves it. `accepted` tells whether the OPEN has
      arrived; the four counters say how many frames of each class have arrived. */
  datatype Link = Link(a: Stream, b: Stream, accepted: bool, dataA: nat, ctrlA: nat, dataB: nat, ctrlB: nat)

  datatype LinkStep =
    | CallA(action: Action)
    | CallB(action: Action)
    | AcceptOpen
    | RefuseOpen(reason: Status)
    | DataToB
    | CtrlToB
    | DataToA
    | CtrlToA

  function Datas(frames: seq<Frame>): seq<Frame> {
    if frames == [] then []
    else Datas(frames[..|frames| - 1])
         + (if frames[|frames| - 1].Data? then [frames[|frames| - 1]] else [])
  }

  function Ctrls(frames: seq<Frame>): seq<Frame> {
    if frames == [] then []
    else Ctrls(frames[..|frames| - 1])
         + (if frames[|frames| - 1].Data? then [] else [frames[|frames| - 1]])
  }

  const MAX_OPEN_WINDOW := 64 * 1024 * 1024

  function LinkNext(l: Link, step: LinkStep): Link {
    match step
    case CallA(action) => if action.Receive? then l else l.(a := Step(l.a, action))
    case CallB(action) => if action.Receive? || !l.accepted then l else l.(b := Step(l.b, action))
    case AcceptOpen => if l.a.rx.window <= MAX_OPEN_WINDOW then l.(accepted := true) else l
    case RefuseOpen(reason) => if l.accepted then l else l.(a := Deliver(l.a, ResetFrame(Some(reason))))
    case DataToB =>
      if l.dataA < |Datas(l.a.io.sent)| then
        l.(dataA := l.dataA + 1, b := if l.accepted then Deliver(l.b, Datas(l.a.io.sent)[l.dataA]) else l.b)
      else l
    case CtrlToB =>
      if l.ctrlA < |Ctrls(l.a.io.sent)| then
        l.(ctrlA := l.ctrlA + 1, b := if l.accepted then Deliver(l.b, Ctrls(l.a.io.sent)[l.ctrlA]) else l.b)
      else l
    case DataToA =>
      if l.accepted && l.dataB < |Datas(l.b.io.sent)| then
        l.(dataB := l.dataB + 1, a := Deliver(l.a, Datas(l.b.io.sent)[l.dataB]))
      else l
    case CtrlToA =>
      if l.accepted && l.ctrlB < |Ctrls(l.b.io.sent)| then
        l.(ctrlB := l.ctrlB + 1, a := Deliver(l.a, Ctrls(l.b.io.sent)[l.ctrlB]))
      else l
  }

  function LinkRun(l: Link, steps: seq<LinkStep>): Link
    decreases |steps|
  {
    if steps == [] then l else LinkRun(LinkNext(l, steps[0]), steps[1..])
  }

  // ---- Facts about the two classes ---------------------------------------

  lemma {:induction false} ClassesSnoc(frames: seq<Frame>, f: Frame)
    ensures Datas(frames + [f]) == Datas(frames) + (if f.Data? then [f] else [])
    ensures Ctrls(frames + [f]) == Ctrls(frames) + (if f.Data? then [] else [f])
  {
    assert (frames + [f])[..|frames|] == frames;
  }

  lemma {:induction false} ClassesMonotone(x: seq<Frame>, y: seq<Frame>)
    requires x <= y
    ensures Datas(x) <= Datas(y) && Ctrls(x) <= Ctrls(y)
    decreases |y|
  {
    if |x| < |y| {
      var n := |y| - 1;
      assert x <= y[..n];
      ClassesMonotone(x, y[..n]);
      assert Datas(y[..n]) <= Datas(y) && Ctrls(y[..n]) <= Ctrls(y);
    } else {
      assert x == y;
    }
  }

  lemma {:induction false} EmptyWire()
    ensures SentBytes([]) == [] && GrantedBytes([]) == 0 && Datas([]) == [] && Ctrls([]) == []
  {
  }

  /** Splitting the wire into classes loses neither bytes nor grants. */
  lemma {:induction false} ClassesTotal(frames: seq<Frame>)
    ensures SentBytes(Datas(frames)) == SentBytes(frames)
    ensures GrantedBytes(Ctrls(frames)) == GrantedBytes(frames)
  {
    hide SentBytes, GrantedBytes, Datas, Ctrls;
    EmptyWire();
    if frames != [] {
      var n := |frames| - 1;
      var f := frames[n];
      assert frames == frames[..n] + [f];
      ClassesTotal(frames[..n]);
      ClassesSnoc(frames[..n], f);
      SentBytesSnoc(frames[..n], f);
      GrantedBytesSnoc(frames[..n], f);
      if f.Data? {
        SentBytesSnoc(Datas(frames[..n]), f);
        assert Ctrls(frames) == Ctrls(frames[..n]) + [] == Ctrls(frames[..n]);
      } else {
        GrantedBytesSnoc(Ctrls(frames[..n]), f);
        assert Datas(frames) == Datas(frames[..n]) + [] == Datas(frames[..n]);
      }
    }
  }

  lemma {:induction false} TruthfulInit(frames: seq<Frame>, n: nat)
    requires Truthful(frames) && n <= |frames|
    ensures Truthful(frames[..n])
  {
    hide SentBytes;
    forall i | 0 <= i < n && frames[..n][i].Data?
      ensures frames[..n][i].length == |frames[..n][i].data| && frames[..n][i].data != []
           && frames[..n][i].offset == |SentBytes(frames[..n][..i])|
    {
      assert frames[..n][..i] == frames[..i];
    }
  }

  lemma {:induction false} DatasTruthful(frames: seq<Frame>)
    requires Truthful(frames)
    ensures Truthful(Datas(frames)) && forall i :: 0 <= i < |Datas(frames)| ==> Datas(frames)[i].Data?
  {
    hide SentBytes, Datas, Ctrls;
    EmptyWire();
    if frames != [] {
      var n := |frames| - 1;
      var f := frames[n];
      assert frames == frames[..n] + [f];
      TruthfulInit(frames, n);
      DatasTruthful(frames[..n]);
      ClassesSnoc(frames[..n], f);
      ClassesTotal(frames[..n]);
      if f.Data? {
        assert f.offset == |SentBytes(frames[..n])|;
        hide Truthful;
        TruthfulSnoc(Datas(frames[..n]), f);
      } else {
        assert Datas(frames) == Datas(frames[..n]);
      }
    }
  }

  /** A control frame went out before another one only if its original did. */
  lemma {:induction false} CtrlsMonotone(frames: seq<Frame>, limit: nat)
    requires Monotone(frames, limit)
    ensures Monotone(Ctrls(frames), limit) && forall i :: 0 <= i < |Ctrls(frames)| ==> Ctrls(frames)[i] in frames
  {
    hide Ctrls;
    EmptyWire();
    if frames != [] {
      var n := |frames| - 1;
      assert frames == frames[..n] + [frames[n]];
      CtrlsMonotone(frames[..n], limit);
      ClassesSnoc(frames[..n], frames[n]);
    }
  }

  lemma {:induction false} SentSplit(frames: seq<Frame>, k: nat)
    requires k <= |frames|
    ensures |SentBytes(frames)| == |SentBytes(frames[..k])| + |SentBytes(frames[k..])|
    ensures GrantedBytes(frames) == GrantedBytes(frames[..k]) + GrantedBytes(frames[k..])
    decreases |frames|
  {
    hide SentBytes, GrantedBytes;
    EmptyWire();
    if k == |frames| {
      assert frames[..k] == frames && frames[k..] == [];
    } else {
      var n := |frames| - 1;
      assert frames == frames[..n] + [frames[n]];
      assert frames[k..] == frames[..n][k..] + [frames[n]];
      assert frames[..n][..k] == frames[..k];
      SentSplit(frames[..n], k);
      SentBytesSnoc(frames[..n], frames[n]);
      SentBytesSnoc(frames[..n][k..], frames[n]);
      GrantedBytesSnoc(frames[..n], frames[n]);
      GrantedBytesSnoc(frames[..n][k..], frames[n]);
    }
  }

  // ---- One lane ----------------------------------------------------------

  /** The sender's record of consumed bytes is one the receiver reported. */
  predicate Heard(s: Stream, r: Stream, c: nat) {
    s.tx.consumedByPeer == 0
    || exists j :: 0 <= j < c && j < |Ctrls(r.io.sent)| && Ctrls(r.io.sent)[j].WindowUpdate?
                && Ctrls(r.io.sent)[j].consumed == s.tx.consumedByPeer
  }

  /** While both ends live: every delivered DATA frame was accepted, and the sender's
      purse holds its opening credit plus every delivered grant. */
  predicate LaneLive(s: Stream, r: Stream, k: nat, c: nat, start: nat, base: nat)
    requires k <= |Datas(s.io.sent)| && c <= |Ctrls(r.io.sent)|
  {
    && r.rx.next == |SentBytes(Datas(s.io.sent)[..k])|
    && Purse(s) == start + GrantedBytes(Ctrls(r.io.sent)[..c])
    && Heard(s, r, c)
    && (start + base == 0 ==> r.rx.next == 0)
  }

  /** The lane from sender `s` to receiver `r`: `k` DATA frames have arrived, and `c`
      control frames have come back. `start` is the credit the sender began with,
      `base` what the receiver granted before it had consumed anything. */
  predicate Lane(s: Stream, r: Stream, k: nat, c: nat, start: nat, base: nat) {
    && Good(s) && Good(r) && Ledger(r, base)
    && start + base <= r.rx.window
    && k <= |Datas(s.io.sent)| && c <= |Ctrls(r.io.sent)|
    && (!Terminal(s.state) && !Terminal(r.state) ==> LaneLive(s, r, k, c, start, base))
  }

  lemma {:induction false} PrefixTake(x: seq<Frame>, y: seq<Frame>, n: nat)
    requires x <= y && n <= |x|
    ensures y[..n] == x[..n]
  {
  }

  lemma {:induction false} MovesWire(s: Stream, t: Stream)
    requires Moves(s, t)
    ensures Datas(s.io.sent) <= Datas(t.io.sent) && Ctrls(s.io.sent) <= Ctrls(t.io.sent)
    ensures Terminal(s.state) ==> t.state == s.state
    ensures t.rx.window == s.rx.window
    ensures forall base: nat :: Ledger(s, base) ==> Ledger(t, base)
  {
    hide Good, GrantedBytes, Datas, Ctrls, Monotone;
    ClassesMonotone(s.io.sent, t.io.sent);
  }

  lemma {:induction false} LaneSender(s: Stream, s1: Stream, r: Stream, k: nat, c: nat, start: nat, base: nat)
    requires Lane(s, r, k, c, start, base) && Moves(s, s1) && SamePurse(s, s1)
    ensures Lane(s1, r, k, c, start, base)
  {
    hide Good, Moves, SentBytes, GrantedBytes, Datas, Ctrls, Monotone, Purse, FramePurse;
    MovesWire(s, s1);
    MovesGood(s, s1);
    PrefixTake(Datas(s.io.sent), Datas(s1.io.sent), k);
  }

  lemma {:induction false} LaneReceiver(s: Stream, r: Stream, r1: Stream, k: nat, c: nat, start: nat, base: nat)
    requires Lane(s, r, k, c, start, base) && Moves(r, r1) && r1.rx.next == r.rx.next
    ensures Lane(s, r1, k, c, start, base)
  {
    hide Good, Moves, SentBytes, GrantedBytes, Datas, Ctrls, Monotone, Purse, FramePurse;
    MovesWire(r, r1);
    MovesGood(r, r1);
    PrefixTake(Ctrls(r.io.sent), Ctrls(r1.io.sent), c);
    if Heard(s, r, c) {
      assert Heard(s, r1, c);
    }
  }

  // ---- Balance -----------------------------------------------------------

  function DataInFlight(s: Stream, k: nat): nat
    requires k <= |Datas(s.io.sent)|
  {
    |SentBytes(Datas(s.io.sent)[k..])|
  }

  function CreditInFlight(r: Stream, c: nat): nat
    requires c <= |Ctrls(r.io.sent)|
  {
    GrantedBytes(Ctrls(r.io.sent)[c..])
  }

  /** Byte credit is conserved: what the sender may still send, what it has sent and
      what it is being granted add up to the room the receiver has, less the part of
      the window that was never granted. */
  lemma {:induction false} LaneBalance(s: Stream, r: Stream, k: nat, c: nat, start: nat, base: nat)
    requires Lane(s, r, k, c, start, base) && !Terminal(s.state) && !Terminal(r.state)
    ensures s.tx.credit + DataInFlight(s, k) + CreditInFlight(r, c) + (r.rx.window - start - base) == r.rx.remaining
    ensures r.rx.next <= s.tx.next && r.rx.remaining <= r.rx.window
  {
    hide SentBytes, GrantedBytes, Datas, Ctrls, Monotone, RxInv, Prompt, TxInv, OpInv, LifeInv, ConnectInv;
    ClassesTotal(s.io.sent);
    ClassesTotal(r.io.sent);
    SentSplit(Datas(s.io.sent), k);
    SentSplit(Ctrls(r.io.sent), c);
    SenderTotal(s);
    ReceiverTotal(r);
  }

  lemma {:induction false} SenderTotal(s: Stream)
    requires TxInv(s)
    ensures |SentBytes(s.io.sent)| == s.tx.next
  {
    hide SentBytes, WriteBytes, Prefixes, Truthful, QueueInv, FinInv;
  }

  lemma {:induction false} ReceiverTotal(r: Stream)
    requires RxInv(r)
    ensures r.rx.remaining == r.rx.window - (r.rx.next - r.rx.reported)
    ensures r.rx.reported <= r.rx.consumed <= r.rx.next && r.rx.window < U64
  {
    hide ReadBytes, Flatten;
  }

  lemma {:induction false} GoodParts(s: Stream)
    requires Good(s)
    ensures RxInv(s) && TxInv(s) && Prompt(s) && Truthful(s.io.sent)
  {
    hide RxInv, Prompt, SentBytes, WriteBytes, Prefixes, Truthful, QueueInv, FinInv;
  }

  // ---- Deliveries --------------------------------------------------------

  /** A well-formed DATA frame, next in order and within the receiver's byte window. */
  predicate DataFits(r: Stream, f: Frame) {
    f.Data? && f.length == |f.data| && f.data != [] && f.offset == r.rx.next && |f.data| <= r.rx.remaining
  }

  /** An update that is fresh, reports no more than was sent and overflows nothing. */
  predicate UpdateFits(s: Stream, f: Frame) {
    f.WindowUpdate? && s.tx.consumedByPeer <= f.consumed <= s.tx.next && f.bytes <= U64 - 1 - s.tx.credit
  }

  /** The next DATA frame in flight is in order and fits the receiver's byte window. */
  lemma {:induction false} NextDataFits(s: Stream, r: Stream, k: nat, c: nat, start: nat, base: nat)
    requires Lane(s, r, k, c, start, base) && !Terminal(s.state) && !Terminal(r.state)
    requires k < |Datas(s.io.sent)|
    ensures DataFits(r, Datas(s.io.sent)[k])
    ensures |SentBytes(Datas(s.io.sent)[..k + 1])| == r.rx.next + |Datas(s.io.sent)[k].data|
    ensures start + base > 0
  {
    hide Good, SentBytes, GrantedBytes, Datas, Ctrls, Monotone, RxInv, TxInv, Truthful;
    var d := Datas(s.io.sent);
    var f := d[k];
    GoodParts(s);
    GoodParts(r);
    DatasTruthful(s.io.sent);
    TruthfulAt(d, k);
    LaneBalance(s, r, k, c, start, base);
    assert d[..k + 1] == d[..k] + [f];
    SentBytesSnoc(d[..k], f);
    SentSplit(d, k + 1);
    SentSplit(d, k);
    ClassesTotal(s.io.sent);
    SenderTotal(s);
    ReceiverTotal(r);
    if start + base == 0 {
      ClassesTotal(r.io.sent);
      SentSplit(Ctrls(r.io.sent), c);
    }
  }

  lemma {:induction false} TruthfulAt(d: seq<Frame>, k: nat)
    requires Truthful(d) && k < |d| && d[k].Data?
    ensures d[k].length == |d[k].data| && d[k].data != [] && d[k].offset == |SentBytes(d[..k])|
  {
    hide SentBytes;
  }

  lemma {:induction false} LaneData(s: Stream, r: Stream, k: nat, c: nat, start: nat, base: nat)
    requires Lane(s, r, k, c, start, base) && k < |Datas(s.io.sent)|
    ensures Lane(s, Deliver(r, Datas(s.io.sent)[k]), k + 1, c, start, base)
  {
    hide Good, Moves, SentBytes, GrantedBytes, Datas, Ctrls, Monotone, Purse, FramePurse, Seen, AcceptData, ResetFor,
      OnWindowUpdate, OnFin, PreludeShare, BreaksPrelude;
    var f := Datas(s.io.sent)[k];
    var r1 := Deliver(r, f);
    DeliverMoves(r, f);
    MovesWire(r, r1);
    MovesGood(r, r1);
    if !Terminal(s.state) && !Terminal(r1.state) {
      NextDataFits(s, r, k, c, start, base);
      ResetState(r, ResourceExhausted);
      AcceptMoves(r, f.data);
      PrefixTake(Ctrls(r.io.sent), Ctrls(r1.io.sent), c);
      assert Heard(s, r, c) ==> Heard(s, r1, c);
    }
  }

  /** The next update in flight is neither stale, nor beyond what was sent, nor too big. */
  lemma {:induction false} NextUpdateFits(s: Stream, r: Stream, k: nat, c: nat, start: nat, base: nat)
    requires Lane(s, r, k, c, start, base) && !Terminal(s.state) && !Terminal(r.state)
    requires c < |Ctrls(r.io.sent)| && Ctrls(r.io.sent)[c].WindowUpdate?
    ensures UpdateFits(s, Ctrls(r.io.sent)[c])
  {
    hide Good, SentBytes, GrantedBytes, Datas, Ctrls, RxInv, TxInv, Truthful;
    var q := Ctrls(r.io.sent);
    GoodParts(r);
    ReceiverTotal(r);
    CtrlsMonotone(r.io.sent, r.rx.reported);
    LaneBalance(s, r, k, c, start, base);
    assert q[c..] == [q[c]] + q[c + 1..];
    assert [q[c]] == q[c..][..1] && q[c..][1..] == q[c + 1..];
    SentSplit(q[c..], 1);
    EmptyWire();
    GrantedBytesSnoc([], q[c]);
    assert [] + [q[c]] == [q[c]];
  }

  lemma {:induction false} LaneCtrl(s: Stream, r: Stream, k: nat, c: nat, start: nat, base: nat)
    requires Lane(s, r, k, c, start, base) && c < |Ctrls(r.io.sent)|
    ensures Lane(Deliver(s, Ctrls(r.io.sent)[c]), r, k, c + 1, start, base)
  {
    hide Good, Moves, SentBytes, GrantedBytes, Datas, Ctrls, Monotone, Purse, FramePurse, Seen, OnData, OnFin,
      OnWindowUpdate, Finish;
    var q := Ctrls(r.io.sent);
    var f := q[c];
    var s1 := Deliver(s, f);
    DeliverMoves(s, f);
    MovesWire(s, s1);
    MovesGood(s, s1);
    if !Terminal(s1.state) && !Terminal(r.state) {
      PrefixTake(Datas(s.io.sent), Datas(s1.io.sent), k);
      assert q[..c + 1] == q[..c] + [f];
      GrantedBytesSnoc(q[..c], f);
      if f.WindowUpdate? {
        NextUpdateFits(s, r, k, c, start, base);
        UpdateMoves(s, f.consumed, f.bytes, f.frames);
        assert q[c].consumed == s1.tx.consumedByPeer;
        assert Heard(s1, r, c + 1);
      } else {
        assert Heard(s, r, c) ==> Heard(s1, r, c + 1);
      }
    }
  }

  // ---- Both lanes --------------------------------------------------------

  /** Both lanes of a link whose serving side granted `grant` bytes at first. Until the
      OPEN arrives nothing has reached the opener. */
  predicate LinkInv(l: Link, grant: nat) {
    && Lane(l.a, l.b, l.dataA, l.ctrlB, 0, grant)
    && Lane(l.b, l.a, l.dataB, l.ctrlA, l.a.rx.window, 0)
    && (!l.accepted ==> l.a.rx.next == 0 && Purse(l.a) == 0 && l.b.tx.consumedByPeer == 0)
  }

  lemma {:induction false} CallAKeeps(l: Link, grant: nat, action: Action)
    requires LinkInv(l, grant) && !action.Receive?
    ensures LinkInv(l.(a := Step(l.a, action)), grant)
  {
    hide Lane, Good, Step, Moves, Seen, Purse, FramePurse;
    LaneGood(l.a, l.b, l.dataA, l.ctrlB, 0, grant);
    LocalLeads(l.a, action);
    LeadsGood(l.a, Step(l.a, action));
    MovesWire(l.a, Step(l.a, action));
    LaneSender(l.a, Step(l.a, action), l.b, l.dataA, l.ctrlB, 0, grant);
    LaneReceiver(l.b, l.a, Step(l.a, action), l.dataB, l.ctrlA, l.a.rx.window, 0);
  }

  lemma {:induction false} CallBKeeps(l: Link, grant: nat, action: Action)
    requires LinkInv(l, grant) && !action.Receive? && l.accepted
    ensures LinkInv(l.(b := Step(l.b, action)), grant)
  {
    hide Lane, Good, Step, Moves, Seen, Purse, FramePurse;
    LaneGood(l.a, l.b, l.dataA, l.ctrlB, 0, grant);
    LocalLeads(l.b, action);
    LeadsGood(l.b, Step(l.b, action));
    LaneSender(l.b, Step(l.b, action), l.a, l.dataB, l.ctrlA, l.a.rx.window, 0);
    LaneReceiver(l.a, l.b, Step(l.b, action), l.dataA, l.ctrlB, 0, grant);
  }

  lemma {:induction false} LaneGood(s: Stream, r: Stream, k: nat, c: nat, start: nat, base: nat)
    requires Lane(s, r, k, c, start, base)
    ensures Good(s) && Good(r) && k <= |Datas(s.io.sent)| && c <= |Ctrls(r.io.sent)|
  {
    hide Good, GrantedBytes, Datas, Ctrls, Monotone, LaneLive;
  }

  lemma {:induction false} RefuseKeeps(l: Link, grant: nat, reason: Status)
    requires LinkInv(l, grant) && !l.accepted
    ensures LinkInv(l.(a := Deliver(l.a, ResetFrame(Some(reason)))), grant)
  {
    hide Lane, Good, Deliver, Moves, Seen, Purse, FramePurse;
    var a1 := Deliver(l.a, ResetFrame(Some(reason)));
    LaneGood(l.a, l.b, l.dataA, l.ctrlB, 0, grant);
    DeliverMoves(l.a, ResetFrame(Some(reason)));
    MovesWire(l.a, a1);
    LaneSender(l.a, a1, l.b, l.dataA, l.ctrlB, 0, grant);
    LaneReceiver(l.b, l.a, a1, l.dataB, l.ctrlA, l.a.rx.window, 0);
  }

  /** An opener without credit has sent no DATA. */
  lemma {:induction false} NoDataYet(l: Link, grant: nat)
    requires LinkInv(l, grant) && !l.accepted
    ensures |Datas(l.a.io.sent)| == 0
  {
    hide Lane, Good, SentBytes, Datas, Truthful;
    LaneGood(l.a, l.b, l.dataA, l.ctrlB, 0, grant);
    GoodParts(l.a);
    SenderTotal(l.a);
    ClassesTotal(l.a.io.sent);
    DatasTruthful(l.a.io.sent);
    var d := Datas(l.a.io.sent);
    if |d| > 0 {
      TruthfulAt(d, 0);
      assert d[..1] == d[..0] + [d[0]];
      SentBytesSnoc(d[..0], d[0]);
      SentSplit(d, 1);
    }
  }

  /** Control frames that reach the serving side before the OPEN are dropped; the
      opener has granted nothing by then. */
  lemma {:induction false} DroppedKeeps(l: Link, grant: nat)
    requires LinkInv(l, grant) && !l.accepted && l.ctrlA < |Ctrls(l.a.io.sent)|
    ensures LinkInv(l.(ctrlA := l.ctrlA + 1), grant)
  {
    hide Good, SentBytes, GrantedBytes, Datas, Ctrls, Monotone, RxInv, TxInv, Purse, FramePurse;
    GoodParts(l.a);
    ReceiverTotal(l.a);
    ClassesTotal(l.a.io.sent);
    SentSplit(Ctrls(l.a.io.sent), l.ctrlA);
    SentSplit(Ctrls(l.a.io.sent), l.ctrlA + 1);
  }

  lemma {:induction false} DataToBKeeps(l: Link, grant: nat)
    requires LinkInv(l, grant) && l.accepted && l.dataA < |Datas(l.a.io.sent)|
    ensures LinkInv(l.(dataA := l.dataA + 1, b := Deliver(l.b, Datas(l.a.io.sent)[l.dataA])), grant)
  {
    hide Lane, Good, Deliver, Moves, Seen, Purse, FramePurse, Datas, Ctrls;
    var f := Datas(l.a.io.sent)[l.dataA];
    LaneGood(l.a, l.b, l.dataA, l.ctrlB, 0, grant);
    LaneData(l.a, l.b, l.dataA, l.ctrlB, 0, grant);
    DeliverMoves(l.b, f);
    GoodParts(l.a);
    DatasTruthful(l.a.io.sent);
    LaneSender(l.b, Deliver(l.b, f), l.a, l.dataB, l.ctrlA, l.a.rx.window, 0);
  }

  lemma {:induction false} DataToAKeeps(l: Link, grant: nat)
    requires LinkInv(l, grant) && l.accepted && l.dataB < |Datas(l.b.io.sent)|
    ensures LinkInv(l.(dataB := l.dataB + 1, a := Deliver(l.a, Datas(l.b.io.sent)[l.dataB])), grant)
  {
    hide Lane, Good, Deliver, Moves, Seen, Purse, FramePurse, Datas, Ctrls;
    var f := Datas(l.b.io.sent)[l.dataB];
    LaneGood(l.b, l.a, l.dataB, l.ctrlA, l.a.rx.window, 0);
    LaneData(l.b, l.a, l.dataB, l.ctrlA, l.a.rx.window, 0);
    DeliverMoves(l.a, f);
    MovesWire(l.a, Deliver(l.a, f));
    GoodParts(l.b);
    DatasTruthful(l.b.io.sent);
    LaneSender(l.a, Deliver(l.a, f), l.b, l.dataA, l.ctrlB, 0, grant);
  }

  lemma {:induction false} CtrlsHaveNoData(frames: seq<Frame>)
    ensures forall i :: 0 <= i < |Ctrls(frames)| ==> !Ctrls(frames)[i].Data?
  {
    if frames != [] {
      CtrlsHaveNoData(frames[..|frames| - 1]);
    }
  }

  lemma {:induction false} CtrlToBKeeps(l: Link, grant: nat)
    requires LinkInv(l, grant) && l.accepted && l.ctrlA < |Ctrls(l.a.io.sent)|
    ensures LinkInv(l.(ctrlA := l.ctrlA + 1, b := Deliver(l.b, Ctrls(l.a.io.sent)[l.ctrlA])), grant)
  {
    hide Lane, Good, Deliver, Moves, Seen, Purse, FramePurse, Datas, Ctrls;
    var f := Ctrls(l.a.io.sent)[l.ctrlA];
    LaneGood(l.a, l.b, l.dataA, l.ctrlB, 0, grant);
    LaneCtrl(l.b, l.a, l.dataB, l.ctrlA, l.a.rx.window, 0);
    CtrlsHaveNoData(l.a.io.sent);
    DeliverMoves(l.b, f);
    LaneReceiver(l.a, l.b, Deliver(l.b, f), l.dataA, l.ctrlB, 0, grant);
  }

  lemma {:induction false} CtrlToAKeeps(l: Link, grant: nat)
    requires LinkInv(l, grant) && l.accepted && l.ctrlB < |Ctrls(l.b.io.sent)|
    ensures LinkInv(l.(ctrlB := l.ctrlB + 1, a := Deliver(l.a, Ctrls(l.b.io.sent)[l.ctrlB])), grant)
  {
    hide Lane, Good, Deliver, Moves, Seen, Purse, FramePurse, Datas, Ctrls;
    var f := Ctrls(l.b.io.sent)[l.ctrlB];
    LaneGood(l.a, l.b, l.dataA, l.ctrlB, 0, grant);
    LaneCtrl(l.a, l.b, l.dataA, l.ctrlB, 0, grant);
    CtrlsHaveNoData(l.b.io.sent);
    DeliverMoves(l.a, f);
    MovesWire(l.a, Deliver(l.a, f));
    LaneReceiver(l.b, l.a, Deliver(l.a, f), l.dataB, l.ctrlA, l.a.rx.window, 0);
  }

  lemma {:induction false} AcceptKeeps(l: Link, grant: nat)
    requires LinkInv(l, grant)
    ensures LinkInv(l.(accepted := true), grant)
  {
    hide Lane, Purse, FramePurse;
  }

  lemma {:induction false} LinkStepKeeps(l: Link, grant: nat, step: LinkStep)
    requires LinkInv(l, grant)
    ensures LinkInv(LinkNext(l, step), grant)
  {
    hide LinkInv, Step, Deliver, Datas, Ctrls;
    match step
    case CallA(action) => if !action.Receive? { CallAKeeps(l, grant, action); }
    case CallB(action) => if !action.Receive? && l.accepted { CallBKeeps(l, grant, action); }
    case AcceptOpen => AcceptKeeps(l, grant);
    case RefuseOpen(reason) => if !l.accepted { RefuseKeeps(l, grant, reason); }
    case DataToB =>
      if l.dataA < |Datas(l.a.io.sent)| {
        if l.accepted { DataToBKeeps(l, grant); } else { NoDataYet(l, grant); }
      }
    case CtrlToB =>
      if l.ctrlA < |Ctrls(l.a.io.sent)| {
        if l.accepted { CtrlToBKeeps(l, grant); } else { DroppedKeeps(l, grant); }
      }
    case DataToA =>
      if l.accepted && l.dataB < |Datas(l.b.io.sent)| { DataToAKeeps(l, grant); }
    case CtrlToA =>
      if l.accepted && l.ctrlB < |Ctrls(l.b.io.sent)| { CtrlToAKeeps(l, grant); }
  }

  lemma {:induction false} LinkRunKeeps(l: Link, grant: nat, steps: seq<LinkStep>)
    requires LinkInv(l, grant)
    ensures LinkInv(LinkRun(l, steps), grant)
    decreases |steps|
  {
    hide LinkInv, LinkNext;
    if steps != [] {
      LinkStepKeeps(l, grant, steps[0]);
      LinkRunKeeps(LinkNext(l, steps[0]), grant, steps[1..]);
    }
  }

  // ---- Results -----------------------------------------------------------

  /** An opener and the serving side its OPEN creates. */
  predicate Matched(p: Setup, q: Setup) {
    && ValidSetup(p) && ValidSetup(q) && !p.serves && q.serves
    && q.credit == p.window && q.creditFrames == p.windowFrames
  }

  function Connect(p: Setup, q: Setup): Link {
    Link(Start(p), Start(q), false, 0, 0, 0, 0)
  }

  /** What the serving side's first grant put on the wire. */
  function FirstGrant(q: Setup): nat {
    if q.script == [] || q.script[0] == Admitted then q.window else 0
  }

  lemma {:induction false} ConnectInv0(p: Setup, q: Setup)
    requires Matched(p, q)
    ensures LinkInv(Connect(p, q), FirstGrant(q))
  {
    StartGood(p);
    StartGood(q);
    StartOpener(p);
    StartServer(q);
    hide Good, Start, SentBytes, GrantedBytes, Datas, Ctrls, Monotone;
    EmptyWire();
  }

  lemma {:induction false} StartOpener(p: Setup)
    requires ValidSetup(p) && !p.serves
    ensures var s := Start(p); Ledger(s, 0) && s.rx.next == 0 && Purse(s) == 0
                               && s.rx.window == p.window && s.tx.consumedByPeer == 0
  {
  }

  lemma {:induction false} StartServer(q: Setup)
    requires ValidSetup(q) && q.serves
    ensures var s := Start(q); Ledger(s, FirstGrant(q)) && s.rx.next == 0 && Purse(s) == q.credit
                               && s.rx.window == q.window && s.tx.consumedByPeer == 0
  {
    EmptyWire();
    GrantedBytesSnoc([], WindowUpdate(0, q.window, q.windowFrames));
    hide GrantedBytes;
  }

  /** Byte-credit conservation of one lane, and the resets it rules out. */
  predicate Balanced(s: Stream, r: Stream, k: nat, c: nat, ungranted: int) {
    k <= |Datas(s.io.sent)| && c <= |Ctrls(r.io.sent)| &&
    (!Terminal(s.state) && !Terminal(r.state) ==>
      && s.tx.credit + DataInFlight(s, k) + CreditInFlight(r, c) + ungranted == r.rx.remaining
      && (k < |Datas(s.io.sent)| ==> DataFits(r, Datas(s.io.sent)[k]))
      && (c < |Ctrls(r.io.sent)| && Ctrls(r.io.sent)[c].WindowUpdate? ==> UpdateFits(s, Ctrls(r.io.sent)[c])))
  }

  lemma {:induction false} LaneBalanced(s: Stream, r: Stream, k: nat, c: nat, start: nat, base: nat)
    requires Lane(s, r, k, c, start, base)
    ensures Balanced(s, r, k, c, r.rx.window - start - base)
  {
    hide Lane, Good, Datas, Ctrls, DataInFlight, CreditInFlight, DataFits, UpdateFits;
    LaneGood(s, r, k, c, start, base);
    if !Terminal(s.state) && !Terminal(r.state) {
      LaneBalance(s, r, k, c, start, base);
      if k < |Datas(s.io.sent)| {
        NextDataFits(s, r, k, c, start, base);
      }
      if c < |Ctrls(r.io.sent)| && Ctrls(r.io.sent)[c].WindowUpdate? {
        NextUpdateFits(s, r, k, c, start, base);
      }
    }
  }

  /** In every state of every run of a link, byte credit is conserved in both
      directions. The window of the serving side counts from its first grant; if the
      session refused that grant, all of it stays ungranted for ever. */
  lemma {:induction false} ByteConservation(p: Setup, q: Setup, steps: seq<LinkStep>)
    requires Matched(p, q)
    ensures var l := LinkRun(Connect(p, q), steps);
            && Balanced(l.a, l.b, l.dataA, l.ctrlB, l.b.rx.window - FirstGrant(q))
            && Balanced(l.b, l.a, l.dataB, l.ctrlA, 0)
            && l.b.rx.window == q.window
  {
    hide Lane, Balanced, Connect, LinkRun, Purse, FirstGrant;
    ConnectInv0(p, q);
    LinkRunKeeps(Connect(p, q), FirstGrant(q), steps);
    WindowsKept(p, q, steps);
    var l := LinkRun(Connect(p, q), steps);
    LaneBalanced(l.a, l.b, l.dataA, l.ctrlB, 0, FirstGrant(q));
    LaneBalanced(l.b, l.a, l.dataB, l.ctrlA, l.a.rx.window, 0);
  }

  lemma {:induction false} WindowsKept(p: Setup, q: Setup, steps: seq<LinkStep>)
    requires Matched(p, q)
    ensures LinkRun(Connect(p, q), steps).b.rx.window == q.window
  {
    hide LinkRun, LinkInv, Start, Good, Continues;
    ConnectInv0(p, q);
    StartServer(q);
    ServerMoves(Connect(p, q), FirstGrant(q), steps);
  }

  /** A run of the link is a run of its serving side. */
  lemma {:induction false} ServerMoves(l: Link, grant: nat, steps: seq<LinkStep>)
    requires LinkInv(l, grant)
    ensures Moves(l.b, LinkRun(l, steps).b)
    decreases |steps|
  {
    hide LinkInv, LinkNext, Moves, Good;
    ServerGood(l, grant);
    SelfLeads(l.b);
    LeadsGood(l.b, l.b);
    if steps != [] {
      LinkStepKeeps(l, grant, steps[0]);
      ServerStep(l, grant, steps[0]);
      ServerMoves(LinkNext(l, steps[0]), grant, steps[1..]);
      MovesTransitive(l.b, LinkNext(l, steps[0]).b, LinkRun(l, steps).b);
    }
  }

  lemma {:induction false} ServerGood(l: Link, grant: nat)
    requires LinkInv(l, grant)
    ensures Good(l.b)
  {
    hide Lane, Good, Purse, Datas, Ctrls;
    LaneGood(l.a, l.b, l.dataA, l.ctrlB, 0, grant);
  }

  lemma {:induction false} ServerStep(l: Link, grant: nat, step: LinkStep)
    requires LinkInv(l, grant)
    ensures Moves(l.b, LinkNext(l, step).b)
  {
    hide LinkInv, Good, Moves, Step, Deliver, Datas, Ctrls, Purse, FramePurse, Seen;
    ServerGood(l, grant);
    SelfLeads(l.b);
    LeadsGood(l.b, l.b);
    match step
    case CallB(action) => StepMoves(l.b, action);
    case DataToB =>
      if l.dataA < |Datas(l.a.io.sent)| {
        DeliverMoves(l.b, Datas(l.a.io.sent)[l.dataA]);
      }
    case CtrlToB =>
      if l.ctrlA < |Ctrls(l.a.io.sent)| {
        DeliverMoves(l.b, Ctrls(l.a.io.sent)[l.ctrlA]);
      }
    case _ =>
  }

  // ---- Short runs --------------------------------------------------------

  /** The OPEN is accepted and the first grant arrives. */
  lemma {:induction false} Granted(p: Setup, q: Setup)
    requires Matched(p, q) && q.script == [] && p.window <= MAX_OPEN_WINDOW
    ensures var l := LinkNext(LinkNext(Connect(p, q), AcceptOpen), CtrlToA);
            && l.a == Start(p).(tx := l.a.tx) && !l.a.tx.finSent && l.a.tx.next == 0
            && l.a.tx.credit > 0 && l.a.tx.creditFrames > 0
            && l == Link(l.a, Start(q), true, 0, 0, 0, 1)
            && Ctrls(l.b.io.sent) == [WindowUpdate(0, q.window, q.windowFrames)]
  {
    hide Datas, Ctrls;
    var f := WindowUpdate(0, q.window, q.windowFrames);
    EmptyWire();
    ClassesSnoc([], f);
    assert [] + [f] == [f];
    var l := LinkNext(Connect(p, q), AcceptOpen);
    assert LinkNext(l, CtrlToA).a == OnWindowUpdate(Start(p), 0, q.window, q.windowFrames);
  }

  lemma {:induction false} FourSteps(l: Link, a: LinkStep, b: LinkStep, c: LinkStep, d: LinkStep)
    ensures LinkRun(l, [a, b, c, d]) == LinkNext(LinkNext(LinkNext(LinkNext(l, a), b), c), d)
  {
    hide LinkNext;
    assert [a, b, c, d][1..] == [b, c, d] && [b, c, d][1..] == [c, d] && [c, d][1..] == [d] && [d][1..] == [];
    var l2 := LinkNext(LinkNext(l, a), b);
    assert LinkRun(l, [a, b, c, d]) == LinkRun(LinkNext(l, a), [b, c, d]) == LinkRun(l2, [c, d]);
    assert LinkRun(l2, [c, d]) == LinkRun(LinkNext(l2, c), [d]);
    assert LinkRun(LinkNext(l2, c), [d]) == LinkRun(LinkNext(LinkNext(l2, c), d), []);
  }
}

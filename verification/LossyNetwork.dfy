/** Two ends of a stream over a network that drops, duplicates and reorders at will.

    A delivery hands one end any frame the other end ever had admitted, any number
    of times and in any order; a frame that is never chosen is lost. */
module LossyNetwork {
  import opened Bytes
  import opened StreamModel
  import opened StreamHistory
  import opened ReceiveWindow
  import opened CreditLedger
  import opened SendSide
  import opened Completions
  import opened Lifecycle
  import opened StreamRuns
  import opened EndOfStream

  datatype Pair = Pair(a: Stream, b: Stream)

  datatype PairStep =
    | AtA(action: Action)
    | AtB(action: Action)
    | ToB(index: nat)
    | ToA(index: nat)

  function PairNext(p: Pair, step: PairStep): Pair {
    match step
    case AtA(action) => if action.Receive? then p else p.(a := Step(p.a, action))
    case AtB(action) => if action.Receive? then p else p.(b := Step(p.b, action))
    case ToB(i) => if i < |p.a.io.sent| then p.(b := Deliver(p.b, p.a.io.sent[i])) else p
    case ToA(i) => if i < |p.b.io.sent| then p.(a := Deliver(p.a, p.b.io.sent[i])) else p
  }

  function PairRun(p: Pair, steps: seq<PairStep>): Pair
    decreases |steps|
  {
    if steps == [] then p else PairRun(PairNext(p, steps[0]), steps[1..])
  }

  /** One direction: what `b` has seen is a prefix of what `a` had admitted, and an
      end `b` was told about is the one `a` announced. */
  predicate Direction(a: Stream, b: Stream) {
    && Good(a) && Good(b) && ReadEnd(b)
    && Seen(b) <= SentBytes(a.io.sent)
    && b.rx.next <= |SentBytes(a.io.sent)|
    && (b.rx.finReceived ==> Fin(b.rx.finalOffset) in a.io.sent)
  }

  predicate PairInv(p: Pair) {
    Direction(p.a, p.b) && Direction(p.b, p.a)
  }

  // ---- Facts about the wire ----------------------------------------------

  lemma {:induction false} SentBytesMonotone(x: seq<Frame>, y: seq<Frame>)
    requires x <= y
    ensures SentBytes(x) <= SentBytes(y)
    decreases |y|
  {
    if |x| < |y| {
      var n := |y| - 1;
      assert x <= y[..n];
      SentBytesMonotone(x, y[..n]);
    } else {
      assert x == y;
    }
  }

  /** A DATA frame on the wire carries the sender's bytes at its offset. */
  lemma {:induction false} DataTruth(sent: seq<Frame>, i: nat)
    requires Truthful(sent) && i < |sent| && sent[i].Data?
    ensures sent[i].length == |sent[i].data| && sent[i].data != []
    ensures sent[i].offset + |sent[i].data| <= |SentBytes(sent)|
    ensures SentBytes(sent)[sent[i].offset..sent[i].offset + |sent[i].data|] == sent[i].data
  {
    hide SentBytes;
    assert sent[..i] + [sent[i]] == sent[..i + 1];
    SentBytesSnoc(sent[..i], sent[i]);
    SentBytesMonotone(sent[..i + 1], sent);
  }

  /** A FIN on the wire names the number of bytes ever sent. */
  lemma {:induction false} FinTruth(a: Stream, f: Frame)
    requires Good(a) && f.Fin? && f in a.io.sent
    ensures f.finalOffset == |SentBytes(a.io.sent)| && Sealed(a)
  {
    hide RxInv, Prompt, SentBytes, WriteBytes, Prefixes, Truthful;
  }

  lemma {:induction false} GoodTruthful(s: Stream)
    requires Good(s)
    ensures Truthful(s.io.sent)
  {
    hide RxInv, SentBytes, Truthful;
  }

  lemma {:induction false} GoodSeen(s: Stream)
    requires Good(s)
    ensures |Seen(s)| <= s.rx.next
    ensures s.state != Reset ==> |Seen(s)| == s.rx.next
  {
    hide TxInv, ReadBytes, Flatten;
  }

  // ---- One direction -----------------------------------------------------

  lemma {:induction false} SenderMoves(a: Stream, a1: Stream, b: Stream)
    requires Direction(a, b) && Moves(a, a1)
    ensures Direction(a1, b)
  {
    hide Good, Seen, SentBytes, ReadEnd, GrantedBytes, Monotone;
    SentBytesMonotone(a.io.sent, a1.io.sent);
    assert forall f :: f in a.io.sent ==> f in a1.io.sent;
  }

  lemma {:induction false} ReceiverLeads(a: Stream, b: Stream, b1: Stream)
    requires Direction(a, b) && Leads(b, b1) && ReadEnd(b1)
    ensures Direction(a, b1)
  {
    hide Good, Seen, SentBytes, ReadEnd, Moves, Purse;
    LeadsGood(b, b1);
  }

  lemma {:induction false} SentConsistent(a: Stream, b: Stream, i: nat)
    requires Direction(a, b) && i < |a.io.sent|
    ensures Consistent(b, a.io.sent[i])
  {
    hide Good, Seen, SentBytes, ReadEnd;
    var f := a.io.sent[i];
    GoodTruthful(a);
    if b.rx.finReceived {
      FinTruth(a, Fin(b.rx.finalOffset));
      if f.Data? {
        DataTruth(a.io.sent, i);
      }
      if f.Fin? {
        FinTruth(a, f);
      }
    }
  }

  lemma {:induction false} PrefixGrows(seen: seq<byte>, all: seq<byte>, data: seq<byte>, share: nat)
    requires seen <= all && |seen| + |data| <= |all| && share <= |data|
    requires all[|seen|..|seen| + |data|] == data
    ensures seen + data <= all && seen + data[..share] <= all
  {
  }

  /** An accepted payload extends what was seen by the next bytes of the sender. */
  lemma {:induction false} DeliverData(a: Stream, b: Stream, i: nat)
    requires Direction(a, b) && i < |a.io.sent| && a.io.sent[i].Data?
    ensures var b1 := Deliver(b, a.io.sent[i]);
            Seen(b1) <= SentBytes(a.io.sent) && b1.rx.next <= |SentBytes(a.io.sent)|
  {
    hide Good, Seen, SentBytes, ReadEnd, ResetFor, AcceptData, PreludeShare, BreaksPrelude;
    var f := a.io.sent[i];
    GoodTruthful(a);
    DataTruth(a.io.sent, i);
    GoodSeen(b);
    if !Terminal(b.state) && f.offset >= b.rx.next {
      if f.offset > b.rx.next {
        ResetLeads(b, ProtocolError);
        LeadsSeen(b, ResetFor(b, ProtocolError));
      } else if |f.data| > b.rx.remaining || b.rx.remainingFrames == 0 {
        ResetLeads(b, ResourceExhausted);
        LeadsSeen(b, ResetFor(b, ResourceExhausted));
      } else {
        AcceptMoves(b, f.data);
        PrefixGrows(Seen(b), SentBytes(a.io.sent), f.data, PreludeShare(b, f.data));
      }
    }
  }

  lemma {:induction false} LeadsSeen(s: Stream, t: Stream)
    requires Leads(s, t)
    ensures Seen(t) == Seen(s) && t.rx.next == s.rx.next
  {
    hide Moves, Seen;
  }

  lemma {:induction false} DeliverDirection(a: Stream, b: Stream, i: nat)
    requires Direction(a, b) && i < |a.io.sent|
    ensures Direction(a, Deliver(b, a.io.sent[i]))
  {
    hide Good, Seen, SentBytes, ReadEnd, Moves, Purse, OnData, OnWindowUpdate, Finish;
    var f := a.io.sent[i];
    var b1 := Deliver(b, f);
    DeliverMoves(b, f);
    MovesGood(b, b1);
    SentConsistent(a, b, i);
    DeliverEnd(b, f);
    if f.Data? {
      DeliverData(a, b, i);
    }
    if f.Fin? && !Terminal(b.state) {
      hide OnFin;
      FinMoves(b, f.finalOffset);
    }
  }

  lemma {:induction false} DirectionReceiver(a: Stream, b: Stream)
    requires Direction(a, b)
    ensures Good(a) && Good(b) && ReadEnd(b)
  {
    hide Good, Seen, SentBytes, ReadEnd;
  }

  // ---- Runs of the pair --------------------------------------------------

  /** A local step of `b` keeps both directions. */
  lemma {:induction false} LocalKeeps(a: Stream, b: Stream, action: Action)
    requires Direction(a, b) && Direction(b, a) && !action.Receive?
    ensures Direction(a, Step(b, action)) && Direction(Step(b, action), a)
  {
    hide Good, Direction, Step, ReadEnd, Moves;
    DirectionReceiver(a, b);
    LocalLeads(b, action);
    LocalEnd(b, action);
    LeadsGood(b, Step(b, action));
    ReceiverLeads(a, b, Step(b, action));
    SenderMoves(b, Step(b, action), a);
  }

  /** A delivery to `b` of any frame `a` ever sent keeps both directions. */
  lemma {:induction false} DeliverKeeps(a: Stream, b: Stream, i: nat)
    requires Direction(a, b) && Direction(b, a) && i < |a.io.sent|
    ensures var b1 := Deliver(b, a.io.sent[i]); Direction(a, b1) && Direction(b1, a)
  {
    hide Good, Direction, Deliver, ReadEnd, Moves, Seen, Purse;
    DirectionReceiver(a, b);
    DeliverDirection(a, b, i);
    DeliverMoves(b, a.io.sent[i]);
    SenderMoves(b, Deliver(b, a.io.sent[i]), a);
  }

  lemma {:induction false} PairStepKeeps(p: Pair, step: PairStep)
    requires PairInv(p)
    ensures PairInv(PairNext(p, step))
  {
    hide Direction, Step, Deliver;
    match step
    case AtA(action) => if !action.Receive? { LocalKeeps(p.b, p.a, action); }
    case AtB(action) => if !action.Receive? { LocalKeeps(p.a, p.b, action); }
    case ToB(i) => if i < |p.a.io.sent| { DeliverKeeps(p.a, p.b, i); }
    case ToA(i) => if i < |p.b.io.sent| { DeliverKeeps(p.b, p.a, i); }
  }

  lemma {:induction false} PairRunKeeps(p: Pair, steps: seq<PairStep>)
    requires PairInv(p)
    ensures PairInv(PairRun(p, steps))
    decreases |steps|
  {
    hide PairInv, PairNext;
    if steps != [] {
      PairStepKeeps(p, steps[0]);
      PairRunKeeps(PairNext(p, steps[0]), steps[1..]);
    }
  }

  // ---- Results -----------------------------------------------------------

  lemma {:induction false} StartDirection(p: Setup, q: Setup)
    requires ValidSetup(p) && ValidSetup(q)
    ensures Direction(Start(p), Start(q))
  {
    StartGood(p);
    StartGood(q);
    StartEmpty(q);
    hide Good, SentBytes, GrantedBytes, Start;
  }

  /** Nothing was received yet. */
  lemma {:induction false} StartEmpty(p: Setup)
    requires ValidSetup(p)
    ensures Seen(Start(p)) == [] && Start(p).rx.next == 0 && ReadEnd(Start(p)) && !Start(p).rx.finReceived
  {
  }

  /** Prefix safety and no silent truncation, in every state of every run over a
      lossy, duplicating, reordering network. */
  lemma {:induction false} PrefixSafety(p: Setup, q: Setup, steps: seq<PairStep>)
    requires ValidSetup(p) && ValidSetup(q)
    ensures var w := PairRun(Pair(Start(p), Start(q)), steps);
            && Delivered(w.a, w.b) && Delivered(w.b, w.a)
  {
    hide Direction, Start, PairRun, Delivered;
    StartDirection(p, q);
    StartDirection(q, p);
    PairRunKeeps(Pair(Start(p), Start(q)), steps);
    var w := PairRun(Pair(Start(p), Start(q)), steps);
    DirectionDelivers(w.a, w.b);
    DirectionDelivers(w.b, w.a);
  }

  /** What the receiver `b` may rely on about the sender `a`. */
  predicate Delivered(a: Stream, b: Stream) {
    var admitted := SentBytes(a.io.sent);
    var taken := b.gw.prelude + ReadBytes(b.io.done);
    // Bytes read followed by bytes buffered are exactly the accepted prefix of the
    // admitted bytes; after a broken prelude nothing but the prelude is kept.
    && b.rx.next <= |admitted|
    && (if PreludeBroken(b.gw) then taken == b.gw.prelude && taken <= admitted && b.rx.chunks == []
        else taken + Flatten(b.rx.chunks) == admitted[..b.rx.next])
    // A clean end of stream is reported only once everything was read, and then
    // nothing more will ever be sent.
    && (HasEof(b.io.done) ==> taken == admitted && Sealed(a))
    // What was admitted is what the sender's writes were told.
    && admitted == WriteBytes(a.io.done) + Prefixes(a.writeQ)
    // No DATA follows a FIN.
    && (forall i, j :: 0 <= i < j < |a.io.sent| && a.io.sent[i].Fin? ==> !a.io.sent[j].Data?)
  }

  lemma {:induction false} DirectionDelivers(a: Stream, b: Stream)
    requires Direction(a, b)
    ensures Delivered(a, b)
  {
    hide SentBytes, ReadBytes, WriteBytes, Prefixes, HasEof, RxInv, TxInv, OpInv, LifeInv, ConnectInv;
    GoodSeen(b);
    SeenShape(b);
    SenderShape(a);
    if HasEof(b.io.done) {
      FinTruth(a, Fin(b.rx.finalOffset));
    }
  }

  lemma {:induction false} SenderShape(a: Stream)
    requires TxInv(a)
    ensures SentBytes(a.io.sent) == WriteBytes(a.io.done) + Prefixes(a.writeQ)
    ensures forall i, j :: 0 <= i < j < |a.io.sent| && a.io.sent[i].Fin? ==> !a.io.sent[j].Data?
  {
    hide SentBytes, WriteBytes, Prefixes, Truthful, QueueInv;
  }

  lemma {:induction false} SeenShape(b: Stream)
    requires RxInv(b)
    ensures |b.gw.prelude| <= PRELUDE_BYTES
    ensures PreludeBroken(b.gw) ==> b.rx.chunks == [] && ReadBytes(b.io.done) == [] && Flatten(b.rx.chunks) == []
    ensures !PreludeBroken(b.gw) ==> |Seen(b)| == b.rx.next
    ensures b.rx.chunks == [] ==> Flatten(b.rx.chunks) == []
  {
    hide ReadBytes;
  }
}

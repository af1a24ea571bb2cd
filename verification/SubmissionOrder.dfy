/** From the caller's writes to the peer's reads: the bytes on the wire are prefixes of the
    submitted writes, one after the other in the order of the calls. */
module SubmissionOrder {
  import opened Bytes
  import opened StreamModel
  import opened StreamHistory
  import opened ReceiveWindow
  import opened SendSide
  import opened Completions
  import opened Lifecycle
  import opened StreamRuns
  import opened EndOfStream
  import opened Submissions
  import opened ReadBoundaries
  import opened StreamLedger
  import opened LossyNetwork

  /** Bytes that entered the send window for one write. */
  datatype Piece = Piece(id: nat, bytes: seq<byte>)

  function ToldPieces(done: seq<Completion>): seq<Piece> {
    if done == [] then []
    else
      var c := done[|done| - 1];
      ToldPieces(done[..|done| - 1]) + if c.WriteDone? then [Piece(c.id, c.bytes)] else []
  }

  function QueuedPieces(q: seq<PendingWrite>): seq<Piece> {
    if q == [] then [] else [Piece(q[0].id, AdmittedPrefix(q[0]))] + QueuedPieces(q[1..])
  }

  /** What every write moved: the completed ones as they were told, then the pending ones. */
  function Pieces(s: Stream): seq<Piece> {
    ToldPieces(s.io.done) + QueuedPieces(s.writeQ)
  }

  /** What one write moved. */
  function MovedBy(pieces: seq<Piece>, id: nat): seq<byte> {
    if pieces == [] then []
    else
      var p := pieces[|pieces| - 1];
      MovedBy(pieces[..|pieces| - 1], id) + if p.id == id then p.bytes else []
  }

  /** What the first `n` calls moved, in the order of the calls. */
  function ByCall(pieces: seq<Piece>, n: nat): seq<byte> {
    if n == 0 then [] else ByCall(pieces, n - 1) + MovedBy(pieces, n - 1)
  }

  function Joined(pieces: seq<Piece>): seq<byte> {
    if pieces == [] then [] else Joined(pieces[..|pieces| - 1]) + pieces[|pieces| - 1].bytes
  }

  function Movers(pieces: seq<Piece>): seq<nat> {
    if pieces == [] then []
    else
      var p := pieces[|pieces| - 1];
      Movers(pieces[..|pieces| - 1]) + if p.bytes != [] then [p.id] else []
  }

  // ---- Sorting the pieces ------------------------------------------------

  lemma {:induction false} PieceSnoc(pieces: seq<Piece>, p: Piece, id: nat)
    ensures MovedBy(pieces + [p], id) == MovedBy(pieces, id) + if p.id == id then p.bytes else []
    ensures Joined(pieces + [p]) == Joined(pieces) + p.bytes
    ensures Movers(pieces + [p]) == Movers(pieces) + if p.bytes != [] then [p.id] else []
  {
    assert (pieces + [p])[..|pieces|] == pieces;
  }

  lemma {:induction false} MovedByNone(pieces: seq<Piece>, id: nat)
    requires id !in Movers(pieces)
    ensures MovedBy(pieces, id) == []
  {
    if pieces != [] {
      var n := |pieces| - 1;
      assert forall k :: k in Movers(pieces[..n]) ==> k in Movers(pieces);
      assert pieces[n].bytes != [] ==> pieces[n].id in Movers(pieces);
      MovedByNone(pieces[..n], id);
    }
  }

  /** Calls beyond the last mover add nothing. */
  lemma {:induction false} ByCallTail(pieces: seq<Piece>, from: nat, n: nat)
    requires from <= n && forall k :: k in Movers(pieces) ==> k < from
    ensures ByCall(pieces, n) == ByCall(pieces, from)
    decreases n
  {
    hide MovedBy, Movers;
    if from < n {
      ByCallTail(pieces, from, n - 1);
      MovedByNone(pieces, n - 1);
    }
  }

  /** A piece of call `p.id` does not change what earlier calls moved, nor does an empty one. */
  lemma {:induction false} ByCallSnoc(pieces: seq<Piece>, p: Piece, n: nat)
    requires p.bytes == [] || n <= p.id
    ensures ByCall(pieces + [p], n) == ByCall(pieces, n)
  {
    hide MovedBy, Joined, Movers;
    if n > 0 {
      ByCallSnoc(pieces, p, n - 1);
      PieceSnoc(pieces, p, n - 1);
      assert MovedBy(pieces + [p], n - 1) == MovedBy(pieces, n - 1);
      hide ByCall;
      ByCallNext(pieces, n - 1);
      ByCallNext(pieces + [p], n - 1);
    }
  }

  lemma {:induction false} RisingEnd(ids: seq<nat>, id: nat, n: nat)
    requires Rising(ids + [id], n)
    ensures Rising(ids, n) && id < n && forall k :: k in ids ==> k < id
  {
    var all := ids + [id];
    assert all[|ids|] == id;
    assert forall i :: 0 <= i < |ids| ==> all[i] == ids[i];
  }

  /** If the calls that moved bytes did so in order, joining the pieces is joining the calls. */
  lemma {:induction false} PiecesSorted(pieces: seq<Piece>, n: nat)
    requires Rising(Movers(pieces), n)
    ensures Joined(pieces) == ByCall(pieces, n)
    decreases |pieces|
  {
    hide MovedBy, ByCall, Rising, Movers, Joined;
    if pieces == [] {
      NoPieces(n);
    } else {
      var k := |pieces| - 1;
      var rest, p := pieces[..k], pieces[k];
      assert pieces == rest + [p];
      PieceSnoc(rest, p, p.id);
      if p.bytes == [] {
        assert Movers(rest) + [] == Movers(rest) && Joined(rest) + [] == Joined(rest);
        PiecesSorted(rest, n);
        ByCallSnoc(rest, p, n);
      } else {
        RisingEnd(Movers(rest), p.id, n);
        PiecesSorted(rest, n);
        LastMover(rest, p, n);
      }
    }
  }

  lemma {:induction false} NoPieces(n: nat)
    ensures Joined([]) == [] && Movers([]) == [] && ByCall([], n) == []
  {
    if n > 0 {
      NoPieces(n - 1);
    }
  }

  lemma {:induction false} LastMover(rest: seq<Piece>, p: Piece, n: nat)
    requires p.id < n && forall k :: k in Movers(rest) ==> k < p.id
    ensures ByCall(rest + [p], n) == ByCall(rest, n) + p.bytes
  {
    hide MovedBy, Movers, ByCall;
    PieceSnoc(rest, p, p.id);
    ByCallSnoc(rest, p, p.id);
    ByCallNext(rest + [p], p.id);
    MovedByNone(rest, p.id);
    ByCallTail(rest, p.id, n);
    assert forall k :: k in Movers(rest + [p]) ==> k < p.id + 1;
    ByCallTail(rest + [p], p.id + 1, n);
  }

  lemma {:induction false} ByCallNext(pieces: seq<Piece>, n: nat)
    ensures ByCall(pieces, n + 1) == ByCall(pieces, n) + MovedBy(pieces, n)
  {
  }

  // ---- The pieces of a stream --------------------------------------------

  lemma {:induction false} ToldPiecesAre(done: seq<Completion>)
    ensures Joined(ToldPieces(done)) == WriteBytes(done) && Movers(ToldPieces(done)) == WritesTold(done)
  {
    if done != [] {
      var n := |done| - 1;
      var c := done[n];
      var told := ToldPieces(done[..n]);
      ToldPiecesAre(done[..n]);
      hide Joined, Movers;
      if c.WriteDone? {
        PieceSnoc(told, Piece(c.id, c.bytes), c.id);
      } else {
        assert told + [] == told && Joined(told) + [] == Joined(told) && Movers(told) + [] == Movers(told);
      }
    } else {
      NoPieces(0);
    }
  }

  lemma {:induction false} FreshPieces(pieces: seq<Piece>, q: seq<PendingWrite>)
    requires forall i :: 0 <= i < |q| ==> q[i].offset == 0
    ensures Joined(pieces + QueuedPieces(q)) == Joined(pieces) && Movers(pieces + QueuedPieces(q)) == Movers(pieces)
    decreases |q|
  {
    hide Joined, Movers;
    if q == [] {
      assert pieces + [] == pieces;
    } else {
      var p := Piece(q[0].id, AdmittedPrefix(q[0]));
      assert pieces + QueuedPieces(q) == pieces + [p] + QueuedPieces(q[1..]);
      FreshPieces(pieces + [p], q[1..]);
      PieceSnoc(pieces, p, p.id);
      assert Joined(pieces) + [] == Joined(pieces) && Movers(pieces) + [] == Movers(pieces);
    }
  }

  lemma {:induction false} PiecesAre(s: Stream)
    requires FrontOnly(s.writeQ) && Rising(WritesTold(s.io.done) + WriteOrder(s.writeQ), s.io.nextOp)
    ensures Joined(Pieces(s)) == WriteBytes(s.io.done) + Prefixes(s.writeQ)
    ensures Rising(Movers(Pieces(s)), s.io.nextOp)
  {
    hide Joined, Movers, WritesTold, WriteBytes, Rising, ToldPieces;
    var told, q := ToldPieces(s.io.done), s.writeQ;
    ToldPiecesAre(s.io.done);
    RisingPrefix(WritesTold(s.io.done), WriteOrder(q), s.io.nextOp);
    if q == [] {
      assert told + [] == told && WriteBytes(s.io.done) + [] == WriteBytes(s.io.done);
    } else {
      var p := Piece(q[0].id, AdmittedPrefix(q[0]));
      assert told + QueuedPieces(q) == told + [p] + QueuedPieces(q[1..]);
      FreshPieces(told + [p], q[1..]);
      PieceSnoc(told, p, p.id);
      FrontPrefixes(q);
      assert WritesTold(s.io.done) + WriteOrder(q) == WritesTold(s.io.done) + [p.id] + WriteOrder(q[1..]);
      RisingPrefix(WritesTold(s.io.done) + [p.id], WriteOrder(q[1..]), s.io.nextOp);
      assert WritesTold(s.io.done) + [] == WritesTold(s.io.done);
    }
  }

  /** The wire carries what the calls moved, in their order. */
  lemma {:induction false} SentByCall(s: Stream)
    requires Good(s) && InTurn(s)
    ensures SentBytes(s.io.sent) == ByCall(Pieces(s), s.io.nextOp)
  {
    hide Good, ByCall, Pieces, Rising, QueueInv, FrontOnly;
    GoodFront(s);
    PiecesAre(s);
    PiecesSorted(Pieces(s), s.io.nextOp);
    GoodSent(s);
  }

  lemma {:induction false} GoodSent(s: Stream)
    requires Good(s)
    ensures SentBytes(s.io.sent) == WriteBytes(s.io.done) + Prefixes(s.writeQ)
  {
    hide SentBytes, WriteBytes, Prefixes, Truthful, QueueInv;
  }

  // ---- What each write moved ---------------------------------------------

  lemma {:induction false} MovedByAppend(a: seq<Piece>, b: seq<Piece>, id: nat)
    ensures MovedBy(a + b, id) == MovedBy(a, id) + MovedBy(b, id)
    decreases |b|
  {
    if b == [] {
      assert a + b == a;
    } else {
      var n := |b| - 1;
      assert a + b == (a + b[..n]) + [b[n]];
      MovedByAppend(a, b[..n], id);
      PieceSnoc(a + b[..n], b[n], id);
    }
  }

  lemma {:induction false} ToldPiecesSnoc(done: seq<Completion>, c: Completion, id: nat)
    ensures MovedBy(ToldPieces(done + [c]), id)
         == MovedBy(ToldPieces(done), id) + if c.WriteDone? && c.id == id then c.bytes else []
  {
    hide MovedBy;
    assert (done + [c])[..|done|] == done;
    var told := ToldPieces(done);
    if c.WriteDone? {
      PieceSnoc(told, Piece(c.id, c.bytes), id);
    } else {
      assert told + [] == told;
    }
  }

  /** An operation completed once is the one piece of its number. */
  lemma {:induction false} ToldOnce(done: seq<Completion>, id: nat)
    requires DoneIds(done)[id] <= 1
    ensures DoneIds(done)[id] == 0 ==> MovedBy(ToldPieces(done), id) == []
    ensures forall i :: 0 <= i < |done| && done[i].WriteDone? && done[i].id == id ==>
              DoneIds(done)[id] == 1 && MovedBy(ToldPieces(done), id) == done[i].bytes
  {
    hide MovedBy, ToldPieces, DoneIds;
    if done == [] {
      NothingMoved(id);
    } else {
      var n := |done| - 1;
      var before, c := done[..n], done[n];
      assert done == before + [c];
      DoneIdsSnoc(before, c);
      ToldOnce(before, id);
      ToldPiecesSnoc(before, c, id);
      forall i | 0 <= i < |done| && done[i].WriteDone? && done[i].id == id
        ensures DoneIds(done)[id] == 1 && MovedBy(ToldPieces(done), id) == done[i].bytes
      {
        if i < n {
          assert done[i] == before[i];
        }
      }
    }
  }

  lemma {:induction false} ToldPrefix(done: seq<Completion>, id: nat, calls: seq<Action>)
    requires DoneIds(done)[id] <= 1 && AllAnswer(done, calls) && id < |calls|
    ensures MovedBy(ToldPieces(done), id) <= DataOf(calls[id])
  {
    hide MovedBy, ToldPieces, DoneIds;
    if done == [] {
      NothingMoved(id);
    } else {
      var n := |done| - 1;
      var before, c := done[..n], done[n];
      assert done == before + [c];
      assert Answers(c, calls);
      assert forall i :: 0 <= i < n ==> before[i] == done[i];
      DoneIdsSnoc(before, c);
      ToldPrefix(before, id, calls);
      ToldOnce(before, id);
      ToldPiecesSnoc(before, c, id);
    }
  }

  lemma {:induction false} NothingMoved(id: nat)
    ensures MovedBy([], id) == [] && ToldPieces([]) == []
  {
  }

  lemma {:induction false} QueuedOnce(q: seq<PendingWrite>, id: nat)
    requires WriteIds(q)[id] <= 1
    ensures WriteIds(q)[id] == 0 ==> MovedBy(QueuedPieces(q), id) == []
    ensures forall i :: 0 <= i < |q| && q[i].id == id ==>
              WriteIds(q)[id] == 1 && MovedBy(QueuedPieces(q), id) == AdmittedPrefix(q[i])
    ensures WriteIds(q)[id] == 1 ==> exists i :: 0 <= i < |q| && q[i].id == id
  {
    if q == [] {
      NothingMoved(id);
    } else {
      hide MovedBy, AdmittedPrefix, QueuedPieces, WriteIds;
      QueuedCons(q, id);
      QueuedOnce(q[1..], id);
      assert forall i :: 0 < i < |q| ==> q[i] == q[1..][i - 1];
      if WriteIds(q[1..])[id] == 1 {
        var i :| 0 <= i < |q[1..]| && q[1..][i].id == id;
        assert q[i + 1].id == id;
      }
    }
  }

  lemma {:induction false} QueuedCons(q: seq<PendingWrite>, id: nat)
    requires q != []
    ensures WriteIds(q)[id] == (if q[0].id == id then 1 else 0) + WriteIds(q[1..])[id]
    ensures MovedBy(QueuedPieces(q), id)
         == (if q[0].id == id then AdmittedPrefix(q[0]) else []) + MovedBy(QueuedPieces(q[1..]), id)
  {
    hide MovedBy, AdmittedPrefix;
    var p := Piece(q[0].id, AdmittedPrefix(q[0]));
    MovedByAppend([p], QueuedPieces(q[1..]), id);
    PieceSnoc([], p, id);
    NothingMoved(id);
    assert [] + [p] == [p];
  }

  lemma {:induction false} OnceEach(s: Stream, id: nat)
    requires Good(s)
    ensures WriteIds(s.writeQ)[id] + DoneIds(s.io.done)[id] <= 1
    ensures id < s.io.nextOp ==> ReadIds(s.readQ)[id] + WriteIds(s.writeQ)[id] + DoneIds(s.io.done)[id] == 1
  {
    hide RxInv, Prompt, TxInv, LifeInv, ConnectInv, ReadIds, WriteIds, DoneIds, Issued;
    ExactlyOnce(s, id);
    IssuedOnce(s.io.nextOp, id);
  }

  /** A write moved what its completion was told, or what it has on the wire while it is
      pending, and that is a prefix of the data it was submitted with. */
  lemma {:induction false} MovedIsReported(s: Stream, calls: seq<Action>, id: nat)
    requires Good(s) && Books(s, calls) && id < |calls|
    ensures MovedBy(Pieces(s), id) <= DataOf(calls[id])
    ensures forall i :: 0 <= i < |s.io.done| && s.io.done[i].WriteDone? && s.io.done[i].id == id ==>
              MovedBy(Pieces(s), id) == s.io.done[i].bytes
    ensures forall i :: 0 <= i < |s.writeQ| && s.writeQ[i].id == id ==>
              MovedBy(Pieces(s), id) == AdmittedPrefix(s.writeQ[i])
  {
    hide Good, MovedBy, WriteIds, DoneIds, ReadIds, ToldPieces, QueuedPieces, AdmittedPrefix, ReadOf;
    OnceEach(s, id);
    ToldOnce(s.io.done, id);
    QueuedOnce(s.writeQ, id);
    var told, queued := MovedBy(ToldPieces(s.io.done), id), MovedBy(QueuedPieces(s.writeQ), id);
    MovedByAppend(ToldPieces(s.io.done), QueuedPieces(s.writeQ), id);
    assert told + [] == told && [] + queued == queued;
    if WriteIds(s.writeQ)[id] == 1 {
      var i :| 0 <= i < |s.writeQ| && s.writeQ[i].id == id;
      QueuedPrefix(s.writeQ[i], calls);
    } else {
      ToldPrefix(s.io.done, id, calls);
    }
  }

  lemma {:induction false} QueuedPrefix(w: PendingWrite, calls: seq<Action>)
    requires WriteOf(w, calls)
    ensures AdmittedPrefix(w) <= DataOf(calls[w.id])
  {
  }

  /** What the caller's writes put on the wire. */
  predicate Submitted(s: Stream, calls: seq<Action>) {
    && |calls| == s.io.nextOp
    && SentBytes(s.io.sent) == ByCall(Pieces(s), |calls|)
    && (forall id :: 0 <= id < |calls| ==> MovedBy(Pieces(s), id) <= DataOf(calls[id]))
    && (forall i :: 0 <= i < |s.io.done| && s.io.done[i].WriteDone? ==>
          MovedBy(Pieces(s), s.io.done[i].id) == s.io.done[i].bytes)
    && (forall i :: 0 <= i < |s.writeQ| ==> MovedBy(Pieces(s), s.writeQ[i].id) == AdmittedPrefix(s.writeQ[i]))
  }

  lemma {:induction false} SubmittedHolds(s: Stream, calls: seq<Action>)
    requires Good(s) && Books(s, calls) && InTurn(s)
    ensures Submitted(s, calls)
  {
    hide Good, MovedBy, ByCall, Pieces, Rising, AdmittedPrefix, SentBytes;
    SentByCall(s);
    forall id | 0 <= id < |calls|
      ensures MovedBy(Pieces(s), id) <= DataOf(calls[id])
    {
      MovedIsReported(s, calls, id);
    }
    forall i | 0 <= i < |s.io.done| && s.io.done[i].WriteDone?
      ensures MovedBy(Pieces(s), s.io.done[i].id) == s.io.done[i].bytes
    {
      assert Answers(s.io.done[i], calls);
      MovedIsReported(s, calls, s.io.done[i].id);
    }
    forall i | 0 <= i < |s.writeQ|
      ensures MovedBy(Pieces(s), s.writeQ[i].id) == AdmittedPrefix(s.writeQ[i])
    {
      assert WriteOf(s.writeQ[i], calls);
      MovedIsReported(s, calls, s.writeQ[i].id);
    }
  }

  /** In every state of every run against any peer, the bytes on the wire are prefixes of the
      submitted writes, joined in the order of the calls; the prefix of a completed write is the
      one it was told, that of a pending one is what it has sent. */
  lemma {:induction false} SentIsSubmitted(p: Setup, actions: seq<Action>)
    requires ValidSetup(p)
    ensures Submitted(Run(Start(p), actions), Calls(actions))
  {
    hide Good, Moves, Start, Run, Books, InTurn, Submitted, AllFilled, Thrifty;
    CallsAnswered(p, actions);
    StartGood(p);
    RunMoves(Start(p), actions);
    MovesGood(Start(p), Run(Start(p), actions));
    SubmittedHolds(Run(Start(p), actions), Calls(actions));
  }
}

/** What the caller submitted, read off the calls themselves, and how the pending operations
    and the completions of a stream relate to it. */
module Submissions {
  import opened Bytes
  import opened StreamModel

  predicate IsCall(a: Action) {
    a.ReadCall? || a.WriteCall?
  }

  /** The read and write calls among the actions, in order. Operation `id` is call number `id`. */
  function Calls(actions: seq<Action>): seq<Action> {
    if actions == [] then []
    else (if IsCall(actions[0]) then [actions[0]] else []) + Calls(actions[1..])
  }

  function DataOf(call: Action): seq<byte> {
    if call.WriteCall? then call.data else []
  }

  predicate ReadOf(r: PendingRead, calls: seq<Action>) {
    r.id < |calls| && calls[r.id] == ReadCall(r.capacity, r.deadline)
  }

  predicate WriteOf(w: PendingWrite, calls: seq<Action>) {
    w.id < |calls| && calls[w.id] == WriteCall(w.data, w.deadline)
  }

  /** A completion answers the call of its number: a read gets no more than its buffer holds,
      and nothing with an error; a write is told a prefix of its data, and all of it unless
      there was an error. */
  predicate Answers(c: Completion, calls: seq<Action>) {
    match c
    case ReadDone(id, bytes, error) =>
      && id < |calls| && calls[id].ReadCall?
      && |bytes| <= calls[id].capacity && (error.Some? ==> bytes == [])
    case WriteDone(id, bytes, error) =>
      && id < |calls| && calls[id].WriteCall?
      && bytes <= calls[id].data && (error.None? ==> bytes == calls[id].data)
    case ConnectDone(_) => true
  }

  predicate AllAnswer(done: seq<Completion>, calls: seq<Action>) {
    forall i :: 0 <= i < |done| ==> Answers(done[i], calls)
  }

  /** Every queued operation is a call that was made, and every completion answers one. */
  predicate Books(s: Stream, calls: seq<Action>) {
    && |calls| == s.io.nextOp
    && (forall i :: 0 <= i < |s.readQ| ==> ReadOf(s.readQ[i], calls))
    && (forall i :: 0 <= i < |s.writeQ| ==> WriteOf(s.writeQ[i], calls))
    && AllAnswer(s.io.done, calls)
  }

  // ---- Order -------------------------------------------------------------

  /** Operations that were told bytes, in the order they were told. */
  function ReadsServed(done: seq<Completion>): seq<nat> {
    if done == [] then []
    else
      var c := done[|done| - 1];
      ReadsServed(done[..|done| - 1]) + if c.ReadDone? && c.bytes != [] then [c.id] else []
  }

  function WritesTold(done: seq<Completion>): seq<nat> {
    if done == [] then []
    else
      var c := done[|done| - 1];
      WritesTold(done[..|done| - 1]) + if c.WriteDone? && c.bytes != [] then [c.id] else []
  }

  function ReadOrder(q: seq<PendingRead>): seq<nat> {
    if q == [] then [] else [q[0].id] + ReadOrder(q[1..])
  }

  function WriteOrder(q: seq<PendingWrite>): seq<nat> {
    if q == [] then [] else [q[0].id] + WriteOrder(q[1..])
  }

  /** Strictly increasing operation numbers below `n`. */
  predicate Rising(ids: seq<nat>, n: nat) {
    && (forall i :: 0 <= i < |ids| ==> ids[i] < n)
    && (forall i, j :: 0 <= i < j < |ids| ==> ids[i] < ids[j])
  }

  /** Bytes move in the order of the calls: what was served and what waits has rising numbers. */
  predicate InTurn(s: Stream) {
    && Rising(ReadsServed(s.io.done) + ReadOrder(s.readQ), s.io.nextOp)
    && Rising(WritesTold(s.io.done) + WriteOrder(s.writeQ), s.io.nextOp)
  }

  lemma {:induction false} RisingDrop(a: seq<nat>, x: nat, b: seq<nat>, n: nat)
    requires Rising(a + [x] + b, n)
    ensures Rising(a + b, n)
  {
    var all := a + [x] + b;
    assert forall i :: 0 <= i < |a + b| ==> (a + b)[i] == all[if i < |a| then i else i + 1];
  }

  lemma {:induction false} RisingPush(ids: seq<nat>, n: nat)
    requires Rising(ids, n)
    ensures Rising(ids + [n], n + 1) && Rising(ids, n + 1)
  {
  }

  lemma {:induction false} ToldSnoc(done: seq<Completion>, c: Completion)
    ensures ReadsServed(done + [c]) == ReadsServed(done) + if c.ReadDone? && c.bytes != [] then [c.id] else []
    ensures WritesTold(done + [c]) == WritesTold(done) + if c.WriteDone? && c.bytes != [] then [c.id] else []
  {
    assert (done + [c])[..|done|] == done;
  }

  lemma {:induction false} ToldAppend(a: seq<Completion>, b: seq<Completion>)
    ensures ReadsServed(a + b) == ReadsServed(a) + ReadsServed(b)
    ensures WritesTold(a + b) == WritesTold(a) + WritesTold(b)
    decreases |b|
  {
    hide ReadsServed, WritesTold;
    if b == [] {
      NoneTold();
      assert a + b == a;
    } else {
      var n := |b| - 1;
      assert a + b == (a + b[..n]) + [b[n]] && b == b[..n] + [b[n]];
      ToldAppend(a, b[..n]);
      ToldSnoc(a + b[..n], b[n]);
      ToldSnoc(b[..n], b[n]);
    }
  }

  lemma {:induction false} ToldCons(c: Completion, rest: seq<Completion>)
    ensures ReadsServed([c] + rest) == (if c.ReadDone? && c.bytes != [] then [c.id] else []) + ReadsServed(rest)
    ensures WritesTold([c] + rest) == (if c.WriteDone? && c.bytes != [] then [c.id] else []) + WritesTold(rest)
  {
    ToldSnoc([], c);
    assert [] + [c] == [c];
    hide ReadsServed, WritesTold;
    ToldAppend([c], rest);
    NoneTold();
  }

  lemma {:induction false} NoneTold()
    ensures ReadsServed([]) == [] && WritesTold([]) == []
  {
  }

  lemma {:induction false} EndReadsTold(q: seq<PendingRead>, error: Option<IoError>)
    ensures ReadsServed(EndReads(q, error)) == [] && WritesTold(EndReads(q, error)) == []
  {
    if q != [] {
      EndReadsTold(q[1..], error);
      ToldCons(ReadDone(q[0].id, [], error), EndReads(q[1..], error));
    }
  }

  /** Only the front write of a queue can have bytes on the wire. */
  predicate FrontOnly(q: seq<PendingWrite>) {
    forall i :: 0 < i < |q| ==> q[i].offset == 0
  }

  lemma {:induction false} FreshTold(q: seq<PendingWrite>, error: IoError)
    requires forall i :: 0 <= i < |q| ==> q[i].offset == 0
    ensures ReadsServed(EndWrites(q, error)) == [] && WritesTold(EndWrites(q, error)) == []
  {
    if q != [] {
      FreshTold(q[1..], error);
      ToldCons(WriteDone(q[0].id, AdmittedPrefix(q[0]), Some(error)), EndWrites(q[1..], error));
    }
  }

  lemma {:induction false} EndWritesTold(q: seq<PendingWrite>, error: IoError)
    requires FrontOnly(q)
    ensures ReadsServed(EndWrites(q, error)) == []
    ensures WritesTold(EndWrites(q, error)) == [] || (q != [] && WritesTold(EndWrites(q, error)) == [q[0].id])
  {
    if q != [] {
      FreshTold(q[1..], error);
      ToldCons(WriteDone(q[0].id, AdmittedPrefix(q[0]), Some(error)), EndWrites(q[1..], error));
    }
  }

  // ---- Completing what is queued -----------------------------------------

  lemma {:induction false} EndReadsAnswer(q: seq<PendingRead>, error: Option<IoError>, calls: seq<Action>)
    requires forall i :: 0 <= i < |q| ==> ReadOf(q[i], calls)
    ensures AllAnswer(EndReads(q, error), calls)
  {
    if q != [] {
      EndReadsAnswer(q[1..], error, calls);
    }
  }

  lemma {:induction false} EndWritesAnswer(q: seq<PendingWrite>, error: IoError, calls: seq<Action>)
    requires forall i :: 0 <= i < |q| ==> WriteOf(q[i], calls)
    ensures AllAnswer(EndWrites(q, error), calls)
  {
    if q != [] {
      EndWritesAnswer(q[1..], error, calls);
    }
  }

  /** What the calls say about a stream. */
  predicate Tracked(s: Stream, calls: seq<Action>) {
    Books(s, calls) && InTurn(s)
  }

  lemma {:induction false} BooksGrow(s: Stream, t: Stream, x: seq<Completion>, calls: seq<Action>)
    requires Books(s, calls) && t.io.nextOp == s.io.nextOp && t.io.done == s.io.done + x && AllAnswer(x, calls)
    requires forall i :: 0 <= i < |t.readQ| ==> t.readQ[i] in s.readQ
    requires forall i :: 0 <= i < |t.writeQ| ==> WriteOf(t.writeQ[i], calls)
    ensures Books(t, calls)
  {
    hide Answers, WriteOf, ReadOf;
  }

  lemma {:induction false} QuietTracked(s: Stream, t: Stream, calls: seq<Action>)
    requires Tracked(s, calls)
    requires t.readQ == s.readQ && t.writeQ == s.writeQ && t.io.done == s.io.done && t.io.nextOp == s.io.nextOp
    ensures Tracked(t, calls)
  {
    hide Rising, AllAnswer, ReadOf, WriteOf;
  }

  lemma {:induction false} FireTracked(s: Stream, outcome: ConnectOutcome, calls: seq<Action>)
    requires Tracked(s, calls)
    ensures Tracked(FireConnect(s, outcome), calls)
  {
    hide Rising, ReadOf, WriteOf, ReadsServed, WritesTold;
    var t := FireConnect(s, outcome);
    if t != s {
      ToldSnoc(s.io.done, ConnectDone(outcome));
      assert ReadsServed(s.io.done) + [] == ReadsServed(s.io.done);
      assert WritesTold(s.io.done) + [] == WritesTold(s.io.done);
      BooksGrow(s, t, [ConnectDone(outcome)], calls);
    }
  }

  lemma {:induction false} RisingPrefix(a: seq<nat>, b: seq<nat>, n: nat)
    requires Rising(a + b, n)
    ensures Rising(a, n)
  {
    assert forall i :: 0 <= i < |a| ==> (a + b)[i] == a[i];
  }

  lemma {:induction false} EndAllTold(done: seq<Completion>, rq: seq<PendingRead>, re: Option<IoError>,
                                      wq: seq<PendingWrite>, we: IoError)
    ensures var all := done + EndReads(rq, re) + EndWrites(wq, we);
            && ReadsServed(all) == ReadsServed(done) + ReadsServed(EndWrites(wq, we))
            && WritesTold(all) == WritesTold(done) + WritesTold(EndWrites(wq, we))
  {
    hide ReadsServed, WritesTold, EndReads, EndWrites;
    ToldAppend(done, EndReads(rq, re));
    ToldAppend(done + EndReads(rq, re), EndWrites(wq, we));
    EndReadsTold(rq, re);
  }

  /** Both queues completed at once. */
  lemma {:induction false} EndAllTracked(s: Stream, t: Stream, re: Option<IoError>, we: IoError, calls: seq<Action>)
    requires Tracked(s, calls) && FrontOnly(s.writeQ)
    requires t.readQ == [] && t.writeQ == [] && t.io.nextOp == s.io.nextOp
    requires t.io.done == s.io.done + EndReads(s.readQ, re) + EndWrites(s.writeQ, we)
    ensures Tracked(t, calls)
  {
    hide Rising, ReadsServed, WritesTold, EndReads, EndWrites, FrontOnly, Answers, ReadOf, WriteOf;
    EndReadsAnswer(s.readQ, re, calls);
    EndWritesAnswer(s.writeQ, we, calls);
    BooksGrow(s, t, EndReads(s.readQ, re) + EndWrites(s.writeQ, we), calls);
    EndAllTold(s.io.done, s.readQ, re, s.writeQ, we);
    EndWritesTold(s.writeQ, we);
    var served, told := ReadsServed(s.io.done), WritesTold(s.io.done);
    assert served + [] == served && told + [] == told;
    RisingPrefix(served, ReadOrder(s.readQ), s.io.nextOp);
    RisingPrefix(told, WriteOrder(s.writeQ), s.io.nextOp);
    if s.writeQ != [] {
      assert told + WriteOrder(s.writeQ) == told + [s.writeQ[0].id] + WriteOrder(s.writeQ[1..]);
      RisingPrefix(told + [s.writeQ[0].id], WriteOrder(s.writeQ[1..]), s.io.nextOp);
    }
    assert ReadsServed(t.io.done) + ReadOrder(t.readQ) == served;
    assert WritesTold(t.io.done) + WriteOrder(t.writeQ) == WritesTold(t.io.done);
  }

  lemma {:induction false} FinishTracked(s: Stream, terminal: StreamState, calls: seq<Action>)
    requires Tracked(s, calls) && FrontOnly(s.writeQ)
    ensures Tracked(Finish(s, terminal), calls)
  {
    hide Tracked, EndReads, EndWrites, FireConnect, FrontOnly;
    var out := if CleanEnd(terminal) then ConnectClosed else ConnectFailed(s.resetReason);
    var s1 := s.(state := terminal);
    QuietTracked(s, s1, calls);
    FireTracked(s1, out, calls);
    var s2 := if s.gw.initiator then FireConnect(s1, out) else s1;
    EndAllTracked(s2, Finish(s, terminal), if CleanEnd(terminal) then None else Some(StreamReset), StreamReset, calls);
  }

  lemma {:induction false} LossTracked(s: Stream, calls: seq<Action>)
    requires Tracked(s, calls) && FrontOnly(s.writeQ)
    ensures Tracked(FailAll(s), calls)
  {
    hide Tracked, EndReads, EndWrites, FireConnect, FrontOnly;
    FireTracked(s, ConnectClosed, calls);
    EndAllTracked(if s.gw.initiator then FireConnect(s, ConnectClosed) else s, FailAll(s),
                  Some(SessionLost), SessionLost, calls);
  }

  // ---- The sweep ---------------------------------------------------------

  lemma {:induction false} SweptReadsOf(q: seq<PendingRead>, now: nat)
    ensures forall r :: r in LiveReads(q, now) ==> r in q && !Expired(r.deadline, now)
    ensures forall r :: r in ExpiredReads(q, now) ==> r in q && Expired(r.deadline, now)
    ensures forall r :: r in q ==> r in LiveReads(q, now) || r in ExpiredReads(q, now)
  {
    hide Expired;
    if q != [] {
      SweptReadsOf(q[1..], now);
    }
  }

  lemma {:induction false} SweptWritesOf(q: seq<PendingWrite>, now: nat)
    ensures forall w :: w in LiveWrites(q, now) ==> w in q && !Expired(w.deadline, now)
    ensures forall w :: w in ExpiredWrites(q, now) ==> w in q && Expired(w.deadline, now)
    ensures forall w :: w in q ==> w in LiveWrites(q, now) || w in ExpiredWrites(q, now)
  {
    hide Expired;
    if q != [] {
      SweptWritesOf(q[1..], now);
    }
  }

  lemma {:induction false} LiveReadsRise(before: seq<nat>, q: seq<PendingRead>, now: nat, n: nat)
    requires Rising(before + ReadOrder(q), n)
    ensures Rising(before + ReadOrder(LiveReads(q, now)), n)
    decreases |q|
  {
    hide Rising, Expired;
    if q != [] {
      var id, rest := q[0].id, ReadOrder(q[1..]);
      assert before + ReadOrder(q) == before + [id] + rest;
      if Expired(q[0].deadline, now) {
        RisingDrop(before, id, rest, n);
        LiveReadsRise(before, q[1..], now, n);
        assert LiveReads(q, now) == LiveReads(q[1..], now);
      } else {
        LiveReadsRise(before + [id], q[1..], now, n);
        var live := LiveReads(q, now);
        assert live[1..] == LiveReads(q[1..], now);
        assert before + ReadOrder(live) == before + [id] + ReadOrder(live[1..]);
      }
    }
  }

  lemma {:induction false} LiveWritesRise(before: seq<nat>, q: seq<PendingWrite>, now: nat, n: nat)
    requires Rising(before + WriteOrder(q), n)
    ensures Rising(before + WriteOrder(LiveWrites(q, now)), n)
    decreases |q|
  {
    hide Rising, Expired;
    if q != [] {
      var id, rest := q[0].id, WriteOrder(q[1..]);
      assert before + WriteOrder(q) == before + [id] + rest;
      if Expired(q[0].deadline, now) {
        RisingDrop(before, id, rest, n);
        LiveWritesRise(before, q[1..], now, n);
        assert LiveWrites(q, now) == LiveWrites(q[1..], now);
      } else {
        LiveWritesRise(before + [id], q[1..], now, n);
        var live := LiveWrites(q, now);
        assert live[1..] == LiveWrites(q[1..], now);
        assert before + WriteOrder(live) == before + [id] + WriteOrder(live[1..]);
      }
    }
  }

  lemma {:induction false} FreshSwept(q: seq<PendingWrite>, now: nat)
    requires forall i :: 0 <= i < |q| ==> q[i].offset == 0
    ensures forall i :: 0 <= i < |ExpiredWrites(q, now)| ==> ExpiredWrites(q, now)[i].offset == 0
  {
    if q != [] {
      FreshSwept(q[1..], now);
    }
  }

  /** Expired writes are told their bytes before the ones behind them are sent. */
  lemma {:induction false} SweptWritesRise(before: seq<nat>, q: seq<PendingWrite>, now: nat, n: nat)
    requires Rising(before + WriteOrder(q), n) && FrontOnly(q)
    ensures ReadsServed(EndWrites(ExpiredWrites(q, now), WriteDeadline)) == []
    ensures Rising(before + WritesTold(EndWrites(ExpiredWrites(q, now), WriteDeadline))
                   + WriteOrder(LiveWrites(q, now)), n)
  {
    hide Rising, Expired, ReadsServed, WritesTold;
    var gone := ExpiredWrites(q, now);
    if q == [] {
      NoneTold();
      assert before + [] == before;
    } else {
      FreshSwept(q[1..], now);
      var id, rest := q[0].id, WriteOrder(q[1..]);
      assert before + WriteOrder(q) == before + [id] + rest;
      if Expired(q[0].deadline, now) {
        assert gone == [q[0]] + ExpiredWrites(q[1..], now) && LiveWrites(q, now) == LiveWrites(q[1..], now);
        EndWritesTold(gone, WriteDeadline);
        RisingDrop(before, id, rest, n);
        LiveWritesRise(before + [id], q[1..], now, n);
        LiveWritesRise(before, q[1..], now, n);
        assert before + [] == before;
      } else {
        assert gone == ExpiredWrites(q[1..], now);
        FreshTold(gone, WriteDeadline);
        LiveWritesRise(before, q, now, n);
        assert before + [] == before;
      }
    }
  }

  lemma {:induction false} SweptBooks(s: Stream, now: nat, calls: seq<Action>)
    requires Books(s, calls)
    ensures Books(Swept(s, now), calls)
  {
    hide Answers, ReadOf, WriteOf, EndReads, EndWrites, LiveReads, LiveWrites, ExpiredReads, ExpiredWrites;
    SweptReadsOf(s.readQ, now);
    SweptWritesOf(s.writeQ, now);
    var rs, ws := ExpiredReads(s.readQ, now), ExpiredWrites(s.writeQ, now);
    assert forall i :: 0 <= i < |rs| ==> rs[i] in s.readQ;
    assert forall i :: 0 <= i < |ws| ==> ws[i] in s.writeQ;
    EndReadsAnswer(rs, Some(ReadDeadline), calls);
    EndWritesAnswer(ws, WriteDeadline, calls);
    var t := Swept(s, now);
    assert forall i :: 0 <= i < |t.readQ| ==> t.readQ[i] in LiveReads(s.readQ, now);
    assert forall i :: 0 <= i < |t.writeQ| ==> t.writeQ[i] in LiveWrites(s.writeQ, now);
    BooksGrow(s, t, EndReads(rs, Some(ReadDeadline)) + EndWrites(ws, WriteDeadline), calls);
  }

  lemma {:induction false} SweptTracked(s: Stream, now: nat, calls: seq<Action>)
    requires Tracked(s, calls) && FrontOnly(s.writeQ)
    ensures Tracked(Swept(s, now), calls)
  {
    hide Books, Rising, ReadsServed, WritesTold, ReadOrder, WriteOrder, FrontOnly, EndReads, EndWrites,
      LiveReads, LiveWrites, ExpiredReads, ExpiredWrites;
    SweptBooks(s, now, calls);
    EndAllTold(s.io.done, ExpiredReads(s.readQ, now), Some(ReadDeadline), ExpiredWrites(s.writeQ, now), WriteDeadline);
    LiveReadsRise(ReadsServed(s.io.done), s.readQ, now, s.io.nextOp);
    SweptWritesRise(WritesTold(s.io.done), s.writeQ, now, s.io.nextOp);
    assert ReadsServed(s.io.done) + [] == ReadsServed(s.io.done);
  }

  // ---- One operation -----------------------------------------------------

  /** The front read completed with what fits its buffer. */
  lemma {:induction false} CompleteReadTracked(s: Stream, bytes: seq<byte>, calls: seq<Action>)
    requires Tracked(s, calls) && s.readQ != [] && |bytes| <= s.readQ[0].capacity
    ensures Tracked(CompleteRead(s, bytes), calls)
  {
    hide Rising, ReadsServed, WritesTold, WriteOrder, WriteOf;
    var c := ReadDone(s.readQ[0].id, bytes, None);
    var t := CompleteRead(s, bytes);
    assert ReadOf(s.readQ[0], calls);
    BooksGrow(s, t, [c], calls);
    ToldSnoc(s.io.done, c);
    var served, rest := ReadsServed(s.io.done), ReadOrder(s.readQ[1..]);
    assert served + ReadOrder(s.readQ) == served + [c.id] + rest;
    RisingDrop(served, c.id, rest, s.io.nextOp);
    assert served + [] == served && WritesTold(s.io.done) + [] == WritesTold(s.io.done);
  }

  /** The front write completed; without an error only once all of it was sent. */
  lemma {:induction false} CompleteWriteTracked(s: Stream, error: Option<IoError>, calls: seq<Action>)
    requires Tracked(s, calls) && s.writeQ != [] && (error.None? ==> s.writeQ[0].offset == |s.writeQ[0].data|)
    ensures Tracked(CompleteWrite(s, error), calls)
  {
    hide Rising, ReadsServed, WritesTold, ReadOrder, ReadOf;
    var c := WriteDone(s.writeQ[0].id, AdmittedPrefix(s.writeQ[0]), error);
    var t := CompleteWrite(s, error);
    assert WriteOf(s.writeQ[0], calls);
    BooksGrow(s, t, [c], calls);
    ToldSnoc(s.io.done, c);
    var told, rest := WritesTold(s.io.done), WriteOrder(s.writeQ[1..]);
    assert told + WriteOrder(s.writeQ) == told + [c.id] + rest;
    RisingDrop(told, c.id, rest, s.io.nextOp);
    assert told + [] == told && ReadsServed(s.io.done) + [] == ReadsServed(s.io.done);
  }

  /** A write queue whose entries changed in nothing the calls speak about. */
  lemma {:induction false} SameWrites(p: seq<PendingWrite>, q: seq<PendingWrite>)
    requires |p| == |q| && forall i :: 0 <= i < |p| ==> p[i].id == q[i].id
    ensures WriteOrder(p) == WriteOrder(q)
  {
    if p != [] {
      SameWrites(p[1..], q[1..]);
    }
  }

  lemma {:induction false} RewriteTracked(s: Stream, t: Stream, calls: seq<Action>)
    requires Tracked(s, calls) && t.readQ == s.readQ && t.io.done == s.io.done && t.io.nextOp == s.io.nextOp
    requires |t.writeQ| == |s.writeQ|
    requires forall i :: 0 <= i < |s.writeQ| ==>
               && t.writeQ[i].id == s.writeQ[i].id && t.writeQ[i].data == s.writeQ[i].data
               && t.writeQ[i].deadline == s.writeQ[i].deadline
    ensures Tracked(t, calls)
  {
    hide Rising, ReadsServed, WritesTold, ReadOrder, ReadOf, WriteOrder, AllAnswer;
    SameWrites(t.writeQ, s.writeQ);
  }

  // ---- Calls -------------------------------------------------------------

  lemma {:induction false} AnswersMore(c: Completion, calls: seq<Action>, call: Action)
    requires Answers(c, calls)
    ensures Answers(c, calls + [call])
  {
  }

  lemma {:induction false} CalledBooks(s: Stream, t: Stream, call: Action, calls: seq<Action>)
    requires Books(s, calls) && t.io.nextOp == s.io.nextOp + 1
    requires t.readQ == s.readQ && t.writeQ == s.writeQ && t.io.done == s.io.done
    ensures Books(t, calls + [call])
  {
    hide Answers;
    forall i | 0 <= i < |s.io.done|
      ensures Answers(s.io.done[i], calls + [call])
    {
      AnswersMore(s.io.done[i], calls, call);
    }
  }

  /** A call answered at once with no bytes. */
  lemma {:induction false} AnsweredTracked(s: Stream, t: Stream, c: Completion, call: Action, calls: seq<Action>)
    requires Tracked(s, calls) && !c.ConnectDone? && c.bytes == [] && Answers(c, calls + [call])
    requires t.io.nextOp == s.io.nextOp + 1 && t.io.done == s.io.done + [c]
    requires t.readQ == s.readQ && t.writeQ == s.writeQ
    ensures Tracked(t, calls + [call])
  {
    hide Rising, ReadsServed, WritesTold, ReadOrder, WriteOrder, ReadOf, WriteOf, Answers;
    var u := s.(io := s.io.(nextOp := s.io.nextOp + 1));
    CalledBooks(s, u, call, calls);
    BooksGrow(u, t, [c], calls + [call]);
    ToldSnoc(s.io.done, c);
    assert ReadsServed(s.io.done) + [] == ReadsServed(s.io.done) && WritesTold(s.io.done) + [] == WritesTold(s.io.done);
    RisingPush(ReadsServed(s.io.done) + ReadOrder(s.readQ), s.io.nextOp);
    RisingPush(WritesTold(s.io.done) + WriteOrder(s.writeQ), s.io.nextOp);
  }

  lemma {:induction false} OrderSnoc(rq: seq<PendingRead>, r: PendingRead, wq: seq<PendingWrite>, w: PendingWrite)
    ensures ReadOrder(rq + [r]) == ReadOrder(rq) + [r.id]
    ensures WriteOrder(wq + [w]) == WriteOrder(wq) + [w.id]
    decreases |rq| + |wq|
  {
    if rq != [] {
      OrderSnoc(rq[1..], r, wq, w);
      assert (rq + [r])[1..] == rq[1..] + [r];
    }
    if wq != [] {
      OrderSnoc(rq, r, wq[1..], w);
      assert (wq + [w])[1..] == wq[1..] + [w];
    }
  }

  lemma {:induction false} PushReadTracked(s: Stream, capacity: nat, deadline: Option<nat>, calls: seq<Action>)
    requires Tracked(s, calls)
    ensures Tracked(s.(readQ := s.readQ + [PendingRead(s.io.nextOp, capacity, deadline)],
                       io := s.io.(nextOp := s.io.nextOp + 1)),
                    calls + [ReadCall(capacity, deadline)])
  {
    hide Rising, ReadsServed, WritesTold, ReadOrder, WriteOrder, Answers;
    var u := s.(io := s.io.(nextOp := s.io.nextOp + 1));
    var r := PendingRead(s.io.nextOp, capacity, deadline);
    CalledBooks(s, u, ReadCall(capacity, deadline), calls);
    OrderSnoc(s.readQ, r, [], PendingWrite(0, [], 0, None, false));
    var served := ReadsServed(s.io.done);
    RisingPush(served + ReadOrder(s.readQ), s.io.nextOp);
    RisingPush(WritesTold(s.io.done) + WriteOrder(s.writeQ), s.io.nextOp);
    assert served + ReadOrder(s.readQ + [r]) == served + ReadOrder(s.readQ) + [r.id];
  }

  lemma {:induction false} PushWriteTracked(s: Stream, data: seq<byte>, deadline: Option<nat>, calls: seq<Action>)
    requires Tracked(s, calls)
    ensures Tracked(s.(writeQ := s.writeQ + [PendingWrite(s.io.nextOp, data, 0, deadline, false)],
                       io := s.io.(nextOp := s.io.nextOp + 1)),
                    calls + [WriteCall(data, deadline)])
  {
    hide Rising, ReadsServed, WritesTold, ReadOrder, WriteOrder, Answers;
    var u := s.(io := s.io.(nextOp := s.io.nextOp + 1));
    var w := PendingWrite(s.io.nextOp, data, 0, deadline, false);
    CalledBooks(s, u, WriteCall(data, deadline), calls);
    OrderSnoc([], PendingRead(0, 0, None), s.writeQ, w);
    var told := WritesTold(s.io.done);
    RisingPush(ReadsServed(s.io.done) + ReadOrder(s.readQ), s.io.nextOp);
    RisingPush(told + WriteOrder(s.writeQ), s.io.nextOp);
    assert told + WriteOrder(s.writeQ + [w]) == told + WriteOrder(s.writeQ) + [w.id];
  }
}

/** Every submitted read and write is pending or has been completed exactly once. */
module Completions {
  import opened Bytes
  import opened StreamModel

  function ReadIds(q: seq<PendingRead>): multiset<nat> {
    if q == [] then multiset{} else multiset{q[0].id} + ReadIds(q[1..])
  }

  function WriteIds(q: seq<PendingWrite>): multiset<nat> {
    if q == [] then multiset{} else multiset{q[0].id} + WriteIds(q[1..])
  }

  /** Operations whose handler has run, with multiplicity. */
  function DoneIds(done: seq<Completion>): multiset<nat> {
    if done == [] then multiset{}
    else DoneIds(done[..|done| - 1]) + IdOf(done[|done| - 1])
  }

  function IdOf(c: Completion): multiset<nat> {
    if c.ConnectDone? then multiset{} else multiset{c.id}
  }

  /** Operations submitted so far, each once. */
  function Issued(n: nat): multiset<nat> {
    if n == 0 then multiset{} else Issued(n - 1) + multiset{n - 1}
  }

  predicate OpInv(s: Stream) {
    ReadIds(s.readQ) + WriteIds(s.writeQ) + DoneIds(s.io.done) == Issued(s.io.nextOp)
  }

  lemma {:induction false} IssuedOnce(n: nat, id: nat)
    ensures Issued(n)[id] == if id < n then 1 else 0
  {
    if n > 0 {
      IssuedOnce(n - 1, id);
    }
  }

  /** The invariant, operation by operation: pending or completed, never both,
      never twice, and nothing else was completed. */
  lemma {:induction false} ExactlyOnce(s: Stream, id: nat)
    requires OpInv(s)
    ensures id < s.io.nextOp ==>
              ReadIds(s.readQ)[id] + WriteIds(s.writeQ)[id] + DoneIds(s.io.done)[id] == 1
    ensures id >= s.io.nextOp ==> id !in DoneIds(s.io.done)
  {
    hide ReadIds, WriteIds, DoneIds, Issued;
    IssuedOnce(s.io.nextOp, id);
  }

  // ---- Facts about the id bags -------------------------------------------

  lemma {:induction false} DoneIdsSnoc(done: seq<Completion>, c: Completion)
    ensures DoneIds(done + [c]) == DoneIds(done) + IdOf(c)
  {
    assert (done + [c])[..|done|] == done;
  }

  lemma {:induction false} DoneIdsAppend(a: seq<Completion>, b: seq<Completion>)
    ensures DoneIds(a + b) == DoneIds(a) + DoneIds(b)
    decreases |b|
  {
    if b == [] {
      assert a + b == a;
    } else {
      var n := |b| - 1;
      assert a + b == (a + b[..n]) + [b[n]];
      DoneIdsAppend(a, b[..n]);
      DoneIdsSnoc(a + b[..n], b[n]);
    }
  }

  lemma {:induction false} DoneIdsCons(c: Completion, rest: seq<Completion>)
    ensures DoneIds([c] + rest) == IdOf(c) + DoneIds(rest)
  {
    hide DoneIds;
    DoneIdsAppend([c], rest);
    DoneIdsSnoc([], c);
    DoneIdsEmpty();
    assert [] + [c] == [c];
  }

  lemma {:induction false} DoneIdsEmpty()
    ensures DoneIds([]) == multiset{}
  {
  }

  lemma {:induction false} EndReadsIds(q: seq<PendingRead>, error: Option<IoError>)
    ensures DoneIds(EndReads(q, error)) == ReadIds(q)
  {
    if q != [] {
      EndReadsIds(q[1..], error);
      DoneIdsCons(ReadDone(q[0].id, [], error), EndReads(q[1..], error));
    }
  }

  lemma {:induction false} EndWritesIds(q: seq<PendingWrite>, error: IoError)
    ensures DoneIds(EndWrites(q, error)) == WriteIds(q)
  {
    if q != [] {
      EndWritesIds(q[1..], error);
      DoneIdsCons(WriteDone(q[0].id, AdmittedPrefix(q[0]), Some(error)), EndWrites(q[1..], error));
    }
  }

  lemma {:induction false} EndAllIds(done: seq<Completion>, rq: seq<PendingRead>, re: Option<IoError>,
                                     wq: seq<PendingWrite>, we: IoError)
    ensures DoneIds(done + EndReads(rq, re) + EndWrites(wq, we)) == DoneIds(done) + ReadIds(rq) + WriteIds(wq)
  {
    hide DoneIds, ReadIds, WriteIds, EndReads, EndWrites;
    DoneIdsAppend(done, EndReads(rq, re));
    DoneIdsAppend(done + EndReads(rq, re), EndWrites(wq, we));
    EndReadsIds(rq, re);
    EndWritesIds(wq, we);
  }

  lemma {:induction false} PushReadIds(q: seq<PendingRead>, r: PendingRead)
    ensures ReadIds(q + [r]) == ReadIds(q) + multiset{r.id}
  {
    if q == [] {
      assert q + [r] == [r];
    } else {
      assert (q + [r])[1..] == q[1..] + [r];
      PushReadIds(q[1..], r);
    }
  }

  lemma {:induction false} PushWriteIds(q: seq<PendingWrite>, w: PendingWrite)
    ensures WriteIds(q + [w]) == WriteIds(q) + multiset{w.id}
  {
    if q == [] {
      assert q + [w] == [w];
    } else {
      assert (q + [w])[1..] == q[1..] + [w];
      PushWriteIds(q[1..], w);
    }
  }

  lemma {:induction false} SweepReadIds(q: seq<PendingRead>, now: nat)
    ensures ReadIds(q) == ReadIds(ExpiredReads(q, now)) + ReadIds(LiveReads(q, now))
  {
    if q != [] {
      SweepReadIds(q[1..], now);
      var live, gone := LiveReads(q, now), ExpiredReads(q, now);
      if Expired(q[0].deadline, now) {
        assert gone[1..] == ExpiredReads(q[1..], now) && live == LiveReads(q[1..], now);
      } else {
        assert live[1..] == LiveReads(q[1..], now) && gone == ExpiredReads(q[1..], now);
      }
    }
  }

  lemma {:induction false} SweepWriteIds(q: seq<PendingWrite>, now: nat)
    ensures WriteIds(q) == WriteIds(ExpiredWrites(q, now)) + WriteIds(LiveWrites(q, now))
  {
    if q != [] {
      SweepWriteIds(q[1..], now);
      var live, gone := LiveWrites(q, now), ExpiredWrites(q, now);
      if Expired(q[0].deadline, now) {
        assert gone[1..] == ExpiredWrites(q[1..], now) && live == LiveWrites(q[1..], now);
      } else {
        assert live[1..] == LiveWrites(q[1..], now) && gone == ExpiredWrites(q[1..], now);
      }
    }
  }

  /** Same ids at every position. */
  lemma {:induction false} SameWriteIds(p: seq<PendingWrite>, q: seq<PendingWrite>)
    requires |p| == |q| && forall i :: 0 <= i < |p| ==> p[i].id == q[i].id
    ensures WriteIds(p) == WriteIds(q)
  {
    if p != [] {
      SameWriteIds(p[1..], q[1..]);
    }
  }

  // ---- Steps -------------------------------------------------------------

  lemma {:induction false} QuietOps(s: Stream, t: Stream)
    requires OpInv(s)
    requires t.readQ == s.readQ && t.writeQ == s.writeQ && t.io.done == s.io.done && t.io.nextOp == s.io.nextOp
    ensures OpInv(t)
  {
    hide ReadIds, WriteIds, DoneIds, Issued;
  }

  lemma {:induction false} FireOps(s: Stream, outcome: ConnectOutcome)
    requires OpInv(s)
    ensures OpInv(FireConnect(s, outcome))
    ensures FireConnect(s, outcome).readQ == s.readQ && FireConnect(s, outcome).writeQ == s.writeQ
    ensures DoneIds(FireConnect(s, outcome).io.done) == DoneIds(s.io.done)
  {
    hide ReadIds, WriteIds, DoneIds, Issued;
    DoneIdsSnoc(s.io.done, ConnectDone(outcome));
  }

  /** Both queues completed at once. */
  lemma {:induction false} EndAllOps(s: Stream, t: Stream, re: Option<IoError>, we: IoError)
    requires OpInv(s) && t.readQ == [] && t.writeQ == [] && t.io.nextOp == s.io.nextOp
    requires t.io.done == s.io.done + EndReads(s.readQ, re) + EndWrites(s.writeQ, we)
    ensures OpInv(t)
  {
    hide DoneIds, Issued, EndReads, EndWrites;
    EndAllIds(s.io.done, s.readQ, re, s.writeQ, we);
    assert ReadIds([]) == multiset{} && WriteIds([]) == multiset{};
  }

  lemma {:induction false} FinishOps(s: Stream, terminal: StreamState)
    requires OpInv(s)
    ensures OpInv(Finish(s, terminal))
  {
    hide OpInv, EndReads, EndWrites, FireConnect;
    var out := if CleanEnd(terminal) then ConnectClosed else ConnectFailed(s.resetReason);
    var s1 := s.(state := terminal);
    QuietOps(s, s1);
    FireOps(s1, out);
    var s2 := if s.gw.initiator then FireConnect(s1, out) else s1;
    EndAllOps(s2, Finish(s, terminal), if CleanEnd(terminal) then None else Some(StreamReset), StreamReset);
  }

  lemma {:induction false} CompleteReadOps(s: Stream, bytes: seq<byte>)
    requires OpInv(s) && s.readQ != []
    ensures OpInv(CompleteRead(s, bytes))
  {
    hide DoneIds, WriteIds, Issued;
    DoneIdsSnoc(s.io.done, ReadDone(s.readQ[0].id, bytes, None));
  }

  lemma {:induction false} ServeOps(s: Stream)
    requires OpInv(s) && s.readQ != []
    ensures s.rx.chunks != [] ==> OpInv(ServeRead(s))
    ensures OpInv(ServeEof(s))
  {
    hide OpInv, Finish, Sub32, Sub64;
    CompleteReadOps(s, []);
    FinishOps(CompleteRead(s, []), Closed);
    if s.rx.chunks != [] {
      var chunk := s.rx.chunks[0];
      var s1 := CompleteRead(s, chunk[..Min(s.readQ[0].capacity, |chunk|)]);
      CompleteReadOps(s, chunk[..Min(s.readQ[0].capacity, |chunk|)]);
      QuietOps(s1, ServeRead(s));
    }
  }

  lemma {:induction false} CompleteWriteOps(s: Stream, error: Option<IoError>)
    requires OpInv(s) && s.writeQ != []
    ensures OpInv(CompleteWrite(s, error))
  {
    hide DoneIds, ReadIds, Issued, AdmittedPrefix;
    DoneIdsSnoc(s.io.done, WriteDone(s.writeQ[0].id, AdmittedPrefix(s.writeQ[0]), error));
  }

  lemma {:induction false} SendChunkOps(s: Stream)
    requires OpInv(s) && s.writeQ != [] && s.writeQ[0].offset < |s.writeQ[0].data|
    requires s.tx.credit > 0 && s.tx.creditFrames > 0
    ensures OpInv(SendChunk(s))
  {
    hide DoneIds, ReadIds, WriteIds, Issued, NextData;
    SameWriteIds(s.writeQ, SendChunk(s).writeQ);
  }

  lemma {:induction false} TakePreludeOps(s: Stream, data: seq<byte>)
    requires OpInv(s)
    ensures OpInv(TakePrelude(Charge(s, |data|), data))
    ensures OpInv(Buffer(TakePrelude(Charge(s, |data|), data), data[PreludeShare(s, data)..]))
  {
    hide OpInv, DoneIds;
    var s0 := Charge(s, |data|);
    QuietOps(s, s0);
    var s1 := TakePrelude(s0, data);
    if s1.io != s0.io {
      var s2 := s0.(gw := s0.gw.(handler := true, fired := false));
      QuietOps(s0, s2);
      FireOps(s2, Connected);
      QuietOps(FireConnect(s2, Connected), s1);
    } else {
      QuietOps(s0, s1);
    }
    QuietOps(s1, Buffer(s1, data[PreludeShare(s, data)..]));
  }

  lemma {:induction false} RejectReadOps(s: Stream, error: IoError)
    requires OpInv(s)
    ensures OpInv(RejectRead(s, error))
  {
    hide DoneIds, ReadIds, WriteIds;
    DoneIdsSnoc(s.io.done, ReadDone(s.io.nextOp, [], Some(error)));
  }

  lemma {:induction false} PushReadOps(s: Stream, capacity: nat, deadline: Option<nat>)
    requires OpInv(s)
    ensures OpInv(s.(readQ := s.readQ + [PendingRead(s.io.nextOp, capacity, deadline)],
                     io := s.io.(nextOp := s.io.nextOp + 1)))
  {
    hide DoneIds, ReadIds, WriteIds;
    PushReadIds(s.readQ, PendingRead(s.io.nextOp, capacity, deadline));
  }

  lemma {:induction false} EndWriteCallOps(s: Stream, error: Option<IoError>)
    requires OpInv(s)
    ensures OpInv(EndWriteCall(s, error))
  {
    hide DoneIds, ReadIds, WriteIds;
    DoneIdsSnoc(s.io.done, WriteDone(s.io.nextOp, [], error));
  }

  lemma {:induction false} PushWriteOps(s: Stream, data: seq<byte>, deadline: Option<nat>)
    requires OpInv(s)
    ensures OpInv(s.(writeQ := s.writeQ + [PendingWrite(s.io.nextOp, data, 0, deadline, false)],
                     io := s.io.(nextOp := s.io.nextOp + 1)))
  {
    hide DoneIds, ReadIds, WriteIds;
    PushWriteIds(s.writeQ, PendingWrite(s.io.nextOp, data, 0, deadline, false));
  }

  lemma {:induction false} MarkOps(s: Stream)
    requires OpInv(s) && s.writeQ != []
    ensures OpInv(s.(writeQ := s.writeQ[|s.writeQ| - 1 := s.writeQ[|s.writeQ| - 1].(finAfter := true)]))
  {
    hide DoneIds, ReadIds, WriteIds, Issued;
    SameWriteIds(s.writeQ, s.writeQ[|s.writeQ| - 1 := s.writeQ[|s.writeQ| - 1].(finAfter := true)]);
  }

  lemma {:induction false} SweptOps(s: Stream, now: nat)
    requires OpInv(s)
    ensures OpInv(Swept(s, now))
  {
    hide DoneIds, ReadIds, WriteIds, Issued, LiveReads, LiveWrites, ExpiredReads, ExpiredWrites, EndReads, EndWrites;
    SweepReadIds(s.readQ, now);
    SweepWriteIds(s.writeQ, now);
    EndAllIds(s.io.done, ExpiredReads(s.readQ, now), Some(ReadDeadline),
              ExpiredWrites(s.writeQ, now), WriteDeadline);
  }

  lemma {:induction false} LossOps(s: Stream)
    requires OpInv(s)
    ensures OpInv(FailAll(s))
  {
    hide OpInv, EndReads, EndWrites, FireConnect;
    FireOps(s, ConnectClosed);
    EndAllOps(if s.gw.initiator then FireConnect(s, ConnectClosed) else s, FailAll(s),
              Some(SessionLost), SessionLost);
  }

}

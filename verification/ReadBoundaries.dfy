/** How much one read gives and when window updates are sent: a read fills its buffer or stops
    where a received payload stopped, and no update is offered before it is due. */
module ReadBoundaries {
  import opened Bytes
  import opened StreamModel
  import opened StreamHistory
  import opened ReceiveWindow
  import opened Lifecycle

  // ---- Payload boundaries ------------------------------------------------

  /** Stream offsets at which a DATA payload from the peer ended. */
  function PayloadEnds(actions: seq<Action>): set<nat> {
    if actions == [] then {}
    else
      var a := actions[0];
      (if a.Receive? && a.frame.Data? then {a.frame.offset + |a.frame.data|} else {}) + PayloadEnds(actions[1..])
  }

  /** Every buffered chunk ends where a payload ended. */
  predicate Ending(chunks: seq<seq<byte>>, from: nat, ends: set<nat>) {
    chunks != [] ==> from + |chunks[0]| in ends && Ending(chunks[1..], from + |chunks[0]|, ends)
  }

  /** The bytes that come before the first one a read gets. */
  function Base(gw: Gateway): nat {
    if gw.initiator then PRELUDE_BYTES else 0
  }

  /** Completion `i`, if it gave a reader bytes, filled the buffer of its call or stopped where a
      payload ended. */
  predicate Filled(done: seq<Completion>, i: nat, base: nat, calls: seq<Action>, ends: set<nat>)
    requires i < |done|
  {
    var c := done[i];
    c.ReadDone? && c.bytes != [] ==>
      && c.id < |calls| && calls[c.id].ReadCall?
      && (|c.bytes| == calls[c.id].capacity || base + |ReadBytes(done[..i + 1])| in ends)
  }

  predicate AllFilled(done: seq<Completion>, base: nat, calls: seq<Action>, ends: set<nat>) {
    forall i :: 0 <= i < |done| ==> Filled(done, i, base, calls, ends)
  }

  predicate Bounded(s: Stream, calls: seq<Action>, ends: set<nat>) {
    && Ending(s.rx.chunks, Base(s.gw) + s.rx.consumed, ends)
    && AllFilled(s.io.done, Base(s.gw), calls, ends)
  }

  predicate NoBytesRead(x: seq<Completion>) {
    forall i :: 0 <= i < |x| ==> BytesRead(x[i]) == []
  }

  lemma {:induction false} FilledAppend(done: seq<Completion>, x: seq<Completion>, base: nat, calls: seq<Action>,
                                        ends: set<nat>)
    requires AllFilled(done, base, calls, ends) && NoBytesRead(x)
    ensures AllFilled(done + x, base, calls, ends)
  {
    hide ReadBytes;
    forall i | 0 <= i < |done + x|
      ensures Filled(done + x, i, base, calls, ends)
    {
      if i < |done| {
        assert (done + x)[..i + 1] == done[..i + 1];
        assert Filled(done, i, base, calls, ends);
      } else {
        assert BytesRead(x[i - |done|]) == [];
      }
    }
  }

  lemma {:induction false} FilledSnoc(done: seq<Completion>, c: Completion, base: nat, calls: seq<Action>,
                                      ends: set<nat>)
    requires AllFilled(done, base, calls, ends) && Filled(done + [c], |done|, base, calls, ends)
    ensures AllFilled(done + [c], base, calls, ends)
  {
    hide ReadBytes;
    forall i | 0 <= i < |done|
      ensures Filled(done + [c], i, base, calls, ends)
    {
      assert (done + [c])[..i + 1] == done[..i + 1];
      assert Filled(done, i, base, calls, ends);
    }
  }

  lemma {:induction false} EndAllGivesNothing(rq: seq<PendingRead>, re: Option<IoError>, wq: seq<PendingWrite>,
                                              we: IoError)
    ensures NoBytesRead(EndReads(rq, re) + EndWrites(wq, we))
  {
    hide EndReads, EndWrites;
    EndReadsShape(rq, re);
    EndWritesShape(wq, we);
  }

  /** More calls and more payloads change nothing about what was given. */
  lemma {:induction false} FilledMore(done: seq<Completion>, base: nat, calls: seq<Action>, more: seq<Action>,
                                      ends: set<nat>, later: set<nat>)
    requires AllFilled(done, base, calls, ends) && calls <= more && ends <= later
    ensures AllFilled(done, base, more, later)
  {
    hide ReadBytes;
    forall i | 0 <= i < |done|
      ensures Filled(done, i, base, more, later)
    {
      assert Filled(done, i, base, calls, ends);
    }
  }

  lemma {:induction false} EndingMore(chunks: seq<seq<byte>>, from: nat, ends: set<nat>, later: set<nat>)
    requires Ending(chunks, from, ends) && ends <= later
    ensures Ending(chunks, from, later)
  {
    if chunks != [] {
      EndingMore(chunks[1..], from + |chunks[0]|, ends, later);
    }
  }

  lemma {:induction false} BoundedMore(s: Stream, calls: seq<Action>, more: seq<Action>, ends: set<nat>,
                                       later: set<nat>)
    requires Bounded(s, calls, ends) && calls <= more && ends <= later
    ensures Bounded(s, more, later)
  {
    hide Ending, AllFilled;
    FilledMore(s.io.done, Base(s.gw), calls, more, ends, later);
    EndingMore(s.rx.chunks, Base(s.gw) + s.rx.consumed, ends, later);
  }

  lemma {:induction false} EndingSnoc(chunks: seq<seq<byte>>, last: seq<byte>, from: nat, ends: set<nat>)
    requires Ending(chunks, from, ends) && from + |Flatten(chunks)| + |last| in ends
    ensures Ending(chunks + [last], from, ends)
  {
    if chunks == [] {
      assert chunks + [last] == [last] && [last][1..] == [];
    } else {
      assert (chunks + [last])[1..] == chunks[1..] + [last];
      EndingSnoc(chunks[1..], last, from + |chunks[0]|, ends);
    }
  }

  /** Completions that give a reader nothing, and no change to the buffer. */
  lemma {:induction false} QuietBounded(s: Stream, t: Stream, x: seq<Completion>, calls: seq<Action>, ends: set<nat>)
    requires Bounded(s, calls, ends) && NoBytesRead(x) && t.io.done == s.io.done + x
    requires t.rx.chunks == s.rx.chunks && t.rx.consumed == s.rx.consumed && t.gw.initiator == s.gw.initiator
    ensures Bounded(t, calls, ends)
  {
    hide Ending, AllFilled;
    FilledAppend(s.io.done, x, Base(s.gw), calls, ends);
  }

  lemma {:induction false} FinishBounded(s: Stream, terminal: StreamState, calls: seq<Action>, ends: set<nat>)
    requires Bounded(s, calls, ends)
    ensures Bounded(Finish(s, terminal), calls, ends)
  {
    hide Bounded, EndReads, EndWrites, NoBytesRead;
    var out := if CleanEnd(terminal) then ConnectClosed else ConnectFailed(s.resetReason);
    var re := if CleanEnd(terminal) then None else Some(StreamReset);
    var x := EndReads(s.readQ, re) + EndWrites(s.writeQ, StreamReset);
    EndAllGivesNothing(s.readQ, re, s.writeQ, StreamReset);
    ConnectGivesNothing(out, x);
    var t := Finish(s, terminal);
    assert t.io.done == s.io.done + x || t.io.done == s.io.done + ([ConnectDone(out)] + x);
    QuietBounded(s, t, if t.io.done == s.io.done + x then x else [ConnectDone(out)] + x, calls, ends);
  }

  lemma {:induction false} ConnectGivesNothing(out: ConnectOutcome, x: seq<Completion>)
    requires NoBytesRead(x)
    ensures NoBytesRead([ConnectDone(out)] + x) && NoBytesRead([ConnectDone(out)]) && NoBytesRead([])
  {
  }

  lemma {:induction false} LossBounded(s: Stream, calls: seq<Action>, ends: set<nat>)
    requires Bounded(s, calls, ends)
    ensures Bounded(FailAll(s), calls, ends)
  {
    hide Bounded, EndReads, EndWrites, NoBytesRead;
    var x := EndReads(s.readQ, Some(SessionLost)) + EndWrites(s.writeQ, SessionLost);
    EndAllGivesNothing(s.readQ, Some(SessionLost), s.writeQ, SessionLost);
    ConnectGivesNothing(ConnectClosed, x);
    var t := FailAll(s);
    assert t.io.done == s.io.done + x || t.io.done == s.io.done + ([ConnectDone(ConnectClosed)] + x);
    QuietBounded(s, t, if t.io.done == s.io.done + x then x else [ConnectDone(ConnectClosed)] + x, calls, ends);
  }

  lemma {:induction false} SweptBounded(s: Stream, now: nat, calls: seq<Action>, ends: set<nat>)
    requires Bounded(s, calls, ends)
    ensures Bounded(Swept(s, now), calls, ends)
  {
    hide Bounded, EndReads, EndWrites, NoBytesRead, ExpiredReads, ExpiredWrites, LiveReads, LiveWrites;
    var rs, ws := ExpiredReads(s.readQ, now), ExpiredWrites(s.writeQ, now);
    EndAllGivesNothing(rs, Some(ReadDeadline), ws, WriteDeadline);
    QuietBounded(s, Swept(s, now), EndReads(rs, Some(ReadDeadline)) + EndWrites(ws, WriteDeadline), calls, ends);
  }

  // ---- Serving and buffering ---------------------------------------------

  /** A read of buffered bytes. */
  lemma {:induction false} TakeReadBounded(s: Stream, calls: seq<Action>, ends: set<nat>)
    requires RxInv(s) && Bounded(s, calls, ends) && s.readQ != [] && s.rx.chunks != []
    requires s.readQ[0].id < |calls| && calls[s.readQ[0].id].ReadCall?
    requires calls[s.readQ[0].id].capacity == s.readQ[0].capacity
    ensures Bounded(TakeRead(s), calls, ends)
  {
    hide AllFilled, ReadBytes, Flatten;
    var chunk := s.rx.chunks[0];
    var count := Min(s.readQ[0].capacity, |chunk|);
    var c := ReadDone(s.readQ[0].id, chunk[..count], None);
    var done := s.io.done + [c];
    ReadBytesSnoc(s.io.done, c);
    assert done[..|done|] == done;
    FilledSnoc(s.io.done, c, Base(s.gw), calls, ends);
  }

  /** A payload that ends at a recorded offset, after the prelude took its share. */
  lemma {:induction false} BufferBounded(s: Stream, t: Stream, data: seq<byte>, calls: seq<Action>, ends: set<nat>)
    requires Bounded(s, calls, ends) && t.rx.consumed == s.rx.consumed && t.gw.initiator == s.gw.initiator
    requires t.io.done == s.io.done || exists out :: t.io.done == s.io.done + [ConnectDone(out)]
    requires t.rx.chunks == if data == [] then s.rx.chunks else s.rx.chunks + [data]
    requires data != [] ==> Base(s.gw) + s.rx.consumed + |Flatten(s.rx.chunks)| + |data| in ends
    ensures Bounded(t, calls, ends)
  {
    hide AllFilled, Ending, Flatten;
    if t.io.done != s.io.done {
      var out :| t.io.done == s.io.done + [ConnectDone(out)];
      FilledAppend(s.io.done, [ConnectDone(out)], Base(s.gw), calls, ends);
    }
    if data != [] {
      EndingSnoc(s.rx.chunks, data, Base(s.gw) + s.rx.consumed, ends);
    }
  }

  // ---- Window updates ----------------------------------------------------

  /** An update grants back at least a quarter of the window, or the peer had used all of the
      window beyond what was granted back before. */
  predicate Due(f: Frame, window: nat, next: nat) {
    f.WindowUpdate? ==> f.bytes >= window / 4 || f.consumed + window <= next + f.bytes
  }

  /** Every update offered was due. */
  predicate Thrifty(s: Stream) {
    && (forall f :: f in s.io.sent ==> Due(f, s.rx.window, s.rx.next))
    && (forall f :: f in s.io.refused ==> Due(f, s.rx.window, s.rx.next))
  }

  lemma {:induction false} ThriftyKeeps(s: Stream, t: Stream)
    requires Thrifty(s) && t.rx.window == s.rx.window && t.rx.next >= s.rx.next
    requires t.io.sent == s.io.sent && t.io.refused == s.io.refused
    ensures Thrifty(t)
  {
  }

  lemma {:induction false} ThriftySend(s: Stream, f: Frame)
    requires Thrifty(s) && Due(f, s.rx.window, s.rx.next)
    ensures Thrifty(Send(s, f))
  {
  }

  lemma {:induction false} UpdateThrifty(s: Stream)
    requires RxInv(s) && Thrifty(s)
    ensures Thrifty(MaybeUpdate(s))
  {
    hide ReadBytes, Flatten, Sub32;
    Sub64Exact(s.rx.consumed, s.rx.reported);
    var t := MaybeUpdate(s);
    if t != s {
      ThriftySend(s, PendingUpdate(s.rx));
      ThriftyKeeps(Send(s, PendingUpdate(s.rx)), t);
    }
  }
}

/** Stream states only move forward, and the connect handler fires once. */
module Lifecycle {
  import opened Bytes
  import opened StreamModel

  function Rank(state: StreamState): nat {
    match state
    case Opening => 0
    case Open => 1
    case HalfClosedLocal | HalfClosedRemote => 2
    case Closed | Reset => 3
  }

  /** A state is kept or left for a later one; the two half-closed states do not
      exchange, and neither do the two terminal ones. */
  predicate Forward(a: StreamState, b: StreamState) {
    a == b || Rank(a) < Rank(b)
  }

  /** What each state says about the two directions and the queues. */
  predicate LifeInv(s: Stream) {
    && (s.state == Opening ==> AwaitsPrelude(s))
    && (s.state == HalfClosedLocal ==> s.tx.finSent && s.writeQ == [])
    && (s.state == HalfClosedRemote ==> s.rx.finReceived)
    && (s.state == Closed ==> s.tx.finSent && s.rx.finReceived && s.writeQ == [])
    && (s.state == Reset ==> s.readQ == [] && s.writeQ == [])
  }

  /** How often the connect handler ran. */
  function Connects(done: seq<Completion>): nat {
    if done == [] then 0
    else Connects(done[..|done| - 1]) + (if done[|done| - 1].ConnectDone? then 1 else 0)
  }

  /** The handler is held until it fires; it has fired once the stream left the
      open state, and it reports success only after a valid prelude. */
  predicate ConnectInv(s: Stream) {
    && Connects(s.io.done) == (if s.gw.fired then 1 else 0)
    && (s.gw.fired ==> !s.gw.handler)
    && (!s.gw.initiator ==> !s.gw.handler && !s.gw.fired)
    && (s.state != Opening && s.state != Open ==> !s.gw.handler)
    && (ConnectDone(Connected) in s.io.done ==> s.gw.prelude == PRELUDE_CONNECTED)
  }

  /** A connect handler was supplied when the stream was opened. */
  predicate Supplied(s: Stream) {
    s.gw.handler || s.gw.fired
  }

  /** One or more steps of a stream, seen by its state and its connect handler. */
  predicate Lives(s: Stream, t: Stream) {
    && Forward(s.state, t.state)
    && LifeInv(t) && ConnectInv(t)
    && Supplied(t) == Supplied(s)
  }

  lemma {:induction false} ConnectsSnoc(done: seq<Completion>, c: Completion)
    ensures Connects(done + [c]) == Connects(done) + if c.ConnectDone? then 1 else 0
  {
    assert (done + [c])[..|done|] == done;
  }

  lemma {:induction false} ConnectsAppend(a: seq<Completion>, b: seq<Completion>)
    requires forall i :: 0 <= i < |b| ==> !b[i].ConnectDone?
    ensures Connects(a + b) == Connects(a)
    ensures ConnectDone(Connected) in a + b <==> ConnectDone(Connected) in a
    decreases |b|
  {
    if b == [] {
      assert a + b == a;
    } else {
      var n := |b| - 1;
      assert a + b == (a + b[..n]) + [b[n]];
      ConnectsAppend(a, b[..n]);
      ConnectsSnoc(a + b[..n], b[n]);
    }
  }

  lemma {:induction false} EndReadsShape(q: seq<PendingRead>, error: Option<IoError>)
    ensures |EndReads(q, error)| == |q|
    ensures forall i :: 0 <= i < |q| ==> EndReads(q, error)[i] == ReadDone(q[i].id, [], error)
  {
    if q != [] {
      EndReadsShape(q[1..], error);
    }
  }

  lemma {:induction false} EndWritesShape(q: seq<PendingWrite>, error: IoError)
    ensures |EndWrites(q, error)| == |q|
    ensures forall i :: 0 <= i < |q| ==>
              EndWrites(q, error)[i] == WriteDone(q[i].id, AdmittedPrefix(q[i]), Some(error))
  {
    if q != [] {
      EndWritesShape(q[1..], error);
    }
  }

  lemma {:induction false} EndAllConnects(done: seq<Completion>, rq: seq<PendingRead>, re: Option<IoError>,
                                          wq: seq<PendingWrite>, we: IoError)
    ensures Connects(done + EndReads(rq, re) + EndWrites(wq, we)) == Connects(done)
    ensures ConnectDone(Connected) in done + EndReads(rq, re) + EndWrites(wq, we) <==>
            ConnectDone(Connected) in done
  {
    hide Connects, EndReads, EndWrites;
    EndReadsShape(rq, re);
    EndWritesShape(wq, we);
    ConnectsAppend(done, EndReads(rq, re));
    ConnectsAppend(done + EndReads(rq, re), EndWrites(wq, we));
  }

  /** The handler, fired with an outcome that fits the prelude. */
  lemma {:induction false} FireLives(s: Stream, outcome: ConnectOutcome)
    requires ConnectInv(s) && (outcome == Connected ==> s.gw.prelude == PRELUDE_CONNECTED)
    ensures ConnectInv(FireConnect(s, outcome))
    ensures !FireConnect(s, outcome).gw.handler && Supplied(FireConnect(s, outcome)) == Supplied(s)
  {
    hide Connects;
    ConnectsSnoc(s.io.done, ConnectDone(outcome));
  }

  /** The conditions under which the source ends a stream or one of its directions. */
  predicate MayFinish(s: Stream, terminal: StreamState) {
    && (terminal == HalfClosedLocal ==> s.tx.finSent && !s.rx.finReceived && s.state != Reset)
    && (terminal == HalfClosedRemote ==> s.rx.finReceived && !s.tx.finSent && s.state != Reset)
    && (terminal == Closed ==> s.rx.finReceived && s.tx.finSent && s.state != Reset)
    && (terminal == Reset ==> s.state != Closed)
    && terminal != Opening && terminal != Open
  }

  lemma {:induction false} FinishLives(s: Stream, terminal: StreamState)
    requires LifeInv(s) && ConnectInv(s) && MayFinish(s, terminal)
    ensures Lives(s, Finish(s, terminal))
  {
    FinishConnects(s, terminal);
    hide Finish, ConnectInv;
  }

  lemma {:induction false} FinishConnects(s: Stream, terminal: StreamState)
    requires ConnectInv(s)
    ensures ConnectInv(Finish(s, terminal)) && Supplied(Finish(s, terminal)) == Supplied(s)
  {
    hide Connects, EndReads, EndWrites, FireConnect;
    var out := if CleanEnd(terminal) then ConnectClosed else ConnectFailed(s.resetReason);
    var re := if CleanEnd(terminal) then None else Some(StreamReset);
    var s0 := s.(state := Opening);
    FireLives(s0, out);
    FireShape(s, terminal, out);
    EndAllConnects(s.io.done, s.readQ, re, s.writeQ, StreamReset);
    EndAllConnects(FireConnect(s0, out).io.done, s.readQ, re, s.writeQ, StreamReset);
  }

  /** Firing does not look at the state. */
  lemma {:induction false} FireShape(s: Stream, state: StreamState, outcome: ConnectOutcome)
    ensures FireConnect(s.(state := state), outcome).gw == FireConnect(s.(state := Opening), outcome).gw
    ensures FireConnect(s.(state := state), outcome).io == FireConnect(s.(state := Opening), outcome).io
  {
  }

  /** Steps that touch neither the state, the directions' ends nor the handler. */
  lemma {:induction false} QuietLives(s: Stream, t: Stream)
    requires LifeInv(s) && ConnectInv(s)
    requires t.state == s.state && t.gw == s.gw
    requires t.tx.finSent == s.tx.finSent && t.rx.finReceived == s.rx.finReceived
    requires s.writeQ == [] ==> t.writeQ == []
    requires s.state == Reset ==> t.readQ == []
    requires Connects(t.io.done) == Connects(s.io.done)
    requires ConnectDone(Connected) in t.io.done <==> ConnectDone(Connected) in s.io.done
    ensures Lives(s, t)
  {
    hide Connects;
  }

  lemma {:induction false} SnocLives(s: Stream, t: Stream, c: Completion)
    requires LifeInv(s) && ConnectInv(s)
    requires t.state == s.state && t.gw == s.gw
    requires t.tx.finSent == s.tx.finSent && t.rx.finReceived == s.rx.finReceived
    requires s.writeQ == [] ==> t.writeQ == []
    requires s.state == Reset ==> t.readQ == []
    requires t.io.done == s.io.done + [c] && !c.ConnectDone?
    ensures Lives(s, t)
  {
    hide Connects, LifeInv, ConnectInv;
    ConnectsSnoc(s.io.done, c);
    QuietLives(s, t);
  }

  lemma {:induction false} SweptLives(s: Stream, now: nat)
    requires LifeInv(s) && ConnectInv(s)
    ensures Lives(s, Swept(s, now))
  {
    EndAllConnects(s.io.done, ExpiredReads(s.readQ, now), Some(ReadDeadline),
                   ExpiredWrites(s.writeQ, now), WriteDeadline);
    hide Connects, ConnectInv, EndReads, EndWrites;
    QuietLives(s, Swept(s, now));
  }

  lemma {:induction false} LossLives(s: Stream)
    requires LifeInv(s) && ConnectInv(s) && s.state != Closed
    ensures Lives(s, FailAll(s))
  {
    hide Connects, EndReads, EndWrites, FireConnect;
    var s1 := if s.gw.initiator then FireConnect(s, ConnectClosed) else s;
    FireLives(s, ConnectClosed);
    EndAllConnects(s1.io.done, s.readQ, Some(SessionLost), s.writeQ, SessionLost);
  }

  /** A payload: the prelude may complete, and then the stream is open. */
  lemma {:induction false} PreludeLives(s: Stream, data: seq<byte>)
    requires LifeInv(s) && ConnectInv(s) && !Terminal(s.state)
    requires s.gw.prelude != PRELUDE_CONNECTED || !s.gw.pending
    requires |s.gw.prelude| <= PRELUDE_BYTES
    ensures var t := TakePrelude(Charge(s, |data|), data);
            && ConnectInv(t) && Supplied(t) == Supplied(s)
            && (if AwaitsPrelude(s) && PreludeBroken(t.gw) then t.state == s.state
                else Lives(s, Buffer(t, data[PreludeShare(s, data)..])))
  {
    hide Connects, FireConnect, PreludeShare;
    var s0 := Charge(s, |data|);
    var t := TakePrelude(s0, data);
    if AwaitsPrelude(s) && t.gw.prelude == PRELUDE_CONNECTED {
      var s1 := s0.(state := if s.state == Opening then Open else s.state,
                    gw := s.gw.(prelude := t.gw.prelude, pending := false));
      FireLives(s1, Connected);
    }
  }
}

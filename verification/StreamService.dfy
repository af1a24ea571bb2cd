/** The streams of one session: the registry of live streams and everything that can
    happen to it, as functions, with the promises that span streams. */
module StreamService {
  import opened Bytes
  import opened StreamModel
  import opened Completions
  import opened Lifecycle
  import opened StreamRuns
  import ReliableLink
  import Submissions

  datatype Limits = Limits(cfg: ValidConfig, window: nat, windowFrames: nat, maxStreams: nat)

  type ValidLimits = l: Limits |
    1 <= l.window <= 64 * 1024 * 1024 && 1 <= l.windowFrames <= 65536 && 1 <= l.maxStreams <= 1024
    witness Limits(Config(1, 1, 1, 1), 1, 1, 1)

  /** What the service was set up with: attached to a session, the gateway capability
      negotiated, handlers for the two kinds of inbound stream. */
  datatype Hooks = Hooks(attached: bool, negotiated: bool, inbound: bool, gatewayInbound: bool)

  /** A RESET sent for a stream that was never registered. */
  datatype Refusal = Refusal(id: nat, status: Status)

  datatype Service = Service(
    limits: ValidLimits,
    hooks: Hooks,
    streams: map<nat, Stream>,
    refusals: seq<Refusal>)

  /** A stream after a step: terminal streams leave the registry. */
  function Put(streams: map<nat, Stream>, id: nat, s: Stream): map<nat, Stream> {
    if Terminal(s.state) then streams - {id} else streams[id := s]
  }

  function ToStream(v: Service, id: nat, a: Action): Service {
    if id in v.streams then v.(streams := Put(v.streams, id, Step(v.streams[id], a))) else v
  }

  /** The deadline sweep; a gateway stream past its dial deadline is reset and removed. */
  function SweepAll(v: Service, now: nat): Service {
    v.(streams := map id | id in v.streams && !DialExpired(v.streams[id], now) :: Swept(v.streams[id], now))
  }

  // ---- Opening -----------------------------------------------------------

  /** A local open: the window, the role, and what the session answered: whether the
      target is valid and a channel was had (gateway only), and whether OPEN was admitted. */
  datatype LocalOpen = LocalOpen(window: nat, windowFrames: nat, gw: Gateway, prepared: bool, admitted: bool,
                                 script: seq<Admission>)

  predicate OpensLocally(v: Service, o: LocalOpen) {
    && v.hooks.attached && o.window != 0 && o.windowFrames != 0
    && (o.gw.gateway ==> o.prepared && v.hooks.negotiated)
    && |v.streams| < v.limits.maxStreams && o.admitted
  }

  function LocalSetup(v: Service, o: LocalOpen): Setup {
    Setup(false, v.limits.cfg, o.window, o.windowFrames, o.gw, 0, 0, o.script)
  }

  /** An id that is already registered is left alone. */
  function OpenLocal(v: Service, id: nat, o: LocalOpen): Service {
    if OpensLocally(v, o) && id !in v.streams then
      v.(streams := v.streams[id := Start(LocalSetup(v, o))])
    else v
  }

  datatype GatewayField = Absent | Malformed | InvalidTarget | Target

  /** A received OPEN: the announced windows, the gateway field, and whether the session
      let the service adopt the channel. */
  datatype OpenRequest = OpenRequest(window: Option<nat>, windowFrames: Option<nat>, gateway: GatewayField,
                                     adopted: bool, script: seq<Admission>)

  predicate WindowsAcceptable(r: OpenRequest) {
    && r.window.Some? && r.windowFrames.Some?
    && 0 < r.window.value <= 64 * 1024 * 1024 && 0 < r.windowFrames.value < U32
  }

  function InboundSetup(v: Service, r: OpenRequest): Setup
    requires WindowsAcceptable(r)
  {
    Setup(true, v.limits.cfg, v.limits.window, v.limits.windowFrames, if r.gateway == Absent then PLAIN else SERVING,
          r.window.value, r.windowFrames.value, r.script)
  }

  function Refuse(v: Service, id: nat, status: Status): Service {
    v.(refusals := v.refusals + [Refusal(id, status)])
  }

  function OnOpen(v: Service, id: nat, r: OpenRequest): Service {
    if id in v.streams then
      if v.streams[id].state == Reset then v
      else v.(streams := Put(v.streams, id, ResetFor(v.streams[id], AlreadyExists)))
    else if !WindowsAcceptable(r) then v
    else if r.gateway != Absent && (!v.hooks.negotiated || r.gateway == Malformed) then v
    else if r.gateway == InvalidTarget then Refuse(v, id, PermissionDenied)
    else if |v.streams| >= v.limits.maxStreams then Refuse(v, id, ResourceExhausted)
    else if !r.adopted then v
    else if (if r.gateway == Absent then v.hooks.inbound else v.hooks.gatewayInbound) then
      v.(streams := v.streams[id := Start(InboundSetup(v, r))])
    else Refuse(v, id, if r.gateway == Absent then PermissionDenied else Unimplemented)
  }

  // ---- Runs --------------------------------------------------------------

  datatype Message = OpenMessage(request: OpenRequest) | StreamMessage(frame: Frame)

  function HandOver(v: Service, id: nat, m: Message): Service {
    match m
    case OpenMessage(request) => OnOpen(v, id, request)
    case StreamMessage(frame) => ToStream(v, id, Receive(frame))
  }

  /** A received frame: the sweep first, then the frame. */
  function Admit(v: Service, now: nat, id: nat, m: Message): Service {
    HandOver(SweepAll(v, now), id, m)
  }

  /** The write was queued and not answered on the spot. */
  predicate Queues(s: Stream, data: seq<byte>) {
    && !Terminal(s.state) && !s.tx.finSent && s.state != HalfClosedLocal && data != []
    && UnsentBytes(s.writeQ) + |data| <= s.cfg.maxWriteBytes && |s.writeQ| < s.cfg.maxWrites
  }

  /** A write call; a queued write is followed by the sweep. */
  function WriteTo(v: Service, id: nat, data: seq<byte>, deadline: Option<nat>, now: nat): Service {
    var v1 := ToStream(v, id, WriteCall(data, deadline));
    if id in v.streams && Queues(v.streams[id], data) then SweepAll(v1, now) else v1
  }

  datatype Event =
    | OpenEvent(id: nat, open: LocalOpen)
    | AdmitEvent(now: nat, id: nat, message: Message)
    | WriteEvent(now: nat, id: nat, data: seq<byte>, deadline: Option<nat>)
    | CallEvent(id: nat, call: Action)
    | SweepEvent(now: nat)
    | LossEvent

  function Handle(v: Service, e: Event): Service {
    match e
    case OpenEvent(id, open) => OpenLocal(v, id, open)
    case AdmitEvent(now, id, message) => Admit(v, now, id, message)
    case WriteEvent(now, id, data, deadline) => WriteTo(v, id, data, deadline, now)
    case CallEvent(id, call) =>
      if call.ReadCall? || call.ShutdownCall? || call.ResetOp? then ToStream(v, id, call) else v
    case SweepEvent(now) => SweepAll(v, now)
    case LossEvent => v.(streams := map[])
  }

  function HandleAll(v: Service, events: seq<Event>): Service
    decreases |events|
  {
    if events == [] then v else HandleAll(Handle(v, events[0]), events[1..])
  }

  /** Opens ask for windows of the source's integer widths and in one of its roles. */
  predicate WellTyped(e: Event) {
    e.OpenEvent? ==>
      && e.open.window < U64 && e.open.windowFrames < U32
      && (e.open.gw == PLAIN || e.open.gw == Dialing(e.open.gw.dialDeadline, e.open.gw.handler))
  }

  // ---- The registry ------------------------------------------------------

  /** Some run of some stream ends here. */
  ghost predicate Reachable(s: Stream) {
    exists p, actions :: ValidSetup(p) && s == Run(Start(p), actions)
  }

  lemma {:induction false} StartReachable(p: Setup)
    requires ValidSetup(p)
    ensures Reachable(Start(p))
  {
    hide Start, ValidSetup;
    assert Run(Start(p), []) == Start(p);
  }

  lemma {:induction false} RunSnoc(s: Stream, actions: seq<Action>, a: Action)
    ensures Run(s, actions + [a]) == Step(Run(s, actions), a)
    decreases |actions|
  {
    hide Step;
    if actions == [] {
      assert actions + [a] == [a] && [a][1..] == [];
      assert Run(s, [a]) == Run(Step(s, a), []);
    } else {
      assert (actions + [a])[1..] == actions[1..] + [a];
      RunSnoc(Step(s, actions[0]), actions[1..], a);
    }
  }

  lemma {:induction false} StepReachable(s: Stream, a: Action)
    requires Reachable(s)
    ensures Reachable(Step(s, a))
  {
    hide Step, Start, ValidSetup, Run;
    var p, actions :| ValidSetup(p) && s == Run(Start(p), actions);
    RunSnoc(Start(p), actions, a);
  }

  /** Only live streams are registered, no more than allowed, each in a state one of its
      runs reaches. */
  ghost predicate RegistryInv(v: Service) {
    && |v.streams| <= v.limits.maxStreams
    && forall id :: id in v.streams ==> !Terminal(v.streams[id].state) && Reachable(v.streams[id])
  }

  lemma {:induction false} FewerKeys(x: map<nat, Stream>, y: map<nat, Stream>)
    requires x.Keys <= y.Keys
    ensures |x| <= |y|
  {
    SubsetCardinality(x.Keys, y.Keys);
  }

  lemma {:induction false} SubsetCardinality(x: set<nat>, y: set<nat>)
    requires x <= y
    ensures |x| <= |y|
    decreases |x|
  {
    if x != {} {
      var e :| e in x;
      SubsetCardinality(x - {e}, y - {e});
    }
  }

  lemma {:induction false} ToStreamKeeps(v: Service, id: nat, a: Action)
    requires RegistryInv(v)
    ensures RegistryInv(ToStream(v, id, a))
  {
    hide Reachable, Step;
    if id in v.streams {
      var s := Step(v.streams[id], a);
      StepReachable(v.streams[id], a);
      FewerKeys(Put(v.streams, id, s), v.streams);
    }
  }

  lemma {:induction false} SweepKeeps(v: Service, now: nat)
    requires RegistryInv(v)
    ensures RegistryInv(SweepAll(v, now))
  {
    hide Reachable, Swept;
    var t := SweepAll(v, now).streams;
    FewerKeys(t, v.streams);
    forall id | id in t
      ensures !Terminal(t[id].state) && Reachable(t[id])
    {
      SweptIsStep(v.streams[id], now);
      StepReachable(v.streams[id], Tick(now));
    }
  }

  lemma {:induction false} SweptIsStep(s: Stream, now: nat)
    requires !Terminal(s.state) && !DialExpired(s, now)
    ensures Swept(s, now) == Step(s, Tick(now)) && Swept(s, now).state == s.state
  {
  }

  lemma {:induction false} StartLive(p: Setup)
    requires ValidSetup(p)
    ensures Reachable(Start(p)) && !Terminal(Start(p).state)
  {
    StartReachable(p);
  }

  lemma {:induction false} AddKeeps(v: Service, id: nat, p: Setup)
    requires RegistryInv(v) && |v.streams| < v.limits.maxStreams && ValidSetup(p) && id !in v.streams
    ensures RegistryInv(v.(streams := v.streams[id := Start(p)]))
  {
    hide Reachable, Start, ValidSetup;
    StartLive(p);
    OneMore(v.streams, id, Start(p));
  }

  lemma {:induction false} OneMore(m: map<nat, Stream>, id: nat, s: Stream)
    requires id !in m
    ensures |m[id := s]| == |m| + 1
  {
    var t := m[id := s];
    assert t.Keys == m.Keys + {id};
    assert |t| == |t.Keys| && |m| == |m.Keys|;
  }

  lemma {:induction false} OnOpenKeeps(v: Service, id: nat, r: OpenRequest)
    requires RegistryInv(v)
    ensures RegistryInv(OnOpen(v, id, r))
  {
    hide Reachable, Start, ResetFor;
    if id in v.streams {
      var s := ResetFor(v.streams[id], AlreadyExists);
      ResetState(v.streams[id], AlreadyExists);
      FewerKeys(Put(v.streams, id, s), v.streams);
    } else if WindowsAcceptable(r) && |v.streams| < v.limits.maxStreams {
      AddKeeps(v, id, InboundSetup(v, r));
    }
  }

  lemma {:induction false} HandleKeeps(v: Service, e: Event)
    requires RegistryInv(v) && WellTyped(e)
    ensures RegistryInv(Handle(v, e)) && Handle(v, e).limits == v.limits
  {
    hide RegistryInv, ToStream, SweepAll, OnOpen, Queues, Start;
    ServiceFrame(v);
    match e
    case OpenEvent(id, open) =>
      if OpensLocally(v, open) && id !in v.streams {
        AddKeeps(v, id, LocalSetup(v, open));
      }
    case AdmitEvent(now, id, message) =>
      var v1 := SweepAll(v, now);
      SweepKeeps(v, now);
      ServiceFrame(v1);
      match message {
        case OpenMessage(request) => OnOpenKeeps(v1, id, request);
        case StreamMessage(frame) => ToStreamKeeps(v1, id, Receive(frame));
      }
    case WriteEvent(now, id, data, deadline) =>
      var v1 := ToStream(v, id, WriteCall(data, deadline));
      ToStreamKeeps(v, id, WriteCall(data, deadline));
      ServiceFrame(v1);
      SweepKeeps(v1, now);
    case CallEvent(id, call) => ToStreamKeeps(v, id, call);
    case SweepEvent(now) => SweepKeeps(v, now);
    case LossEvent => EmptyRegistry(v.(streams := map[]));
  }

  lemma {:induction false} EmptyRegistry(v: Service)
    requires v.streams == map[]
    ensures RegistryInv(v)
  {
    hide Reachable;
  }

  lemma {:induction false} ServiceFrame(v: Service)
    ensures forall id, a :: ToStream(v, id, a).limits == v.limits
    ensures forall now :: SweepAll(v, now).limits == v.limits
    ensures forall id, r :: OnOpen(v, id, r).limits == v.limits
  {
    hide Step, Swept, ResetFor, Start;
  }

  lemma {:induction false} HandleAllKeeps(v: Service, events: seq<Event>)
    requires RegistryInv(v) && forall i :: 0 <= i < |events| ==> WellTyped(events[i])
    ensures RegistryInv(HandleAll(v, events)) && HandleAll(v, events).limits == v.limits
    decreases |events|
  {
    hide RegistryInv, Handle, WellTyped;
    if events != [] {
      HandleKeeps(v, events[0]);
      HandleAllKeeps(Handle(v, events[0]), events[1..]);
    }
  }

  /** Between any two events of any run the registry holds only live streams, each as some
      run of a single stream leaves it, and never more than the limit. So what holds of
      every run of one stream holds of every registered one. */
  lemma {:induction false} LiveRegistry(limits: ValidLimits, hooks: Hooks, events: seq<Event>)
    requires forall i :: 0 <= i < |events| ==> WellTyped(events[i])
    ensures var v := HandleAll(Service(limits, hooks, map[], []), events);
            && |v.streams| <= limits.maxStreams
            && forall id :: id in v.streams ==> !Terminal(v.streams[id].state) && Reachable(v.streams[id])
  {
    hide HandleAll, WellTyped, Reachable;
    EmptyRegistry(Service(limits, hooks, map[], []));
    HandleAllKeeps(Service(limits, hooks, map[], []), events);
  }

  // ---- Isolation ---------------------------------------------------------

  /** Some deadline of the stream has passed. */
  predicate DeadlinePassed(s: Stream, now: nat) {
    || DialExpired(s, now)
    || (exists i :: 0 <= i < |s.readQ| && Expired(s.readQ[i].deadline, now))
    || (exists i :: 0 <= i < |s.writeQ| && Expired(s.writeQ[i].deadline, now))
  }

  lemma {:induction false} LiveReadsAll(q: seq<PendingRead>, now: nat)
    ensures LiveReads(q, now) == q && ExpiredReads(q, now) == []
            <==> forall i :: 0 <= i < |q| ==> !Expired(q[i].deadline, now)
    ensures |LiveReads(q, now)| + |ExpiredReads(q, now)| == |q|
  {
    if q != [] {
      LiveReadsAll(q[1..], now);
      assert forall i :: 0 < i < |q| ==> q[i] == q[1..][i - 1];
      if forall i :: 0 <= i < |q| ==> !Expired(q[i].deadline, now) {
        assert q == [q[0]] + q[1..];
      }
    }
  }

  lemma {:induction false} LiveWritesAll(q: seq<PendingWrite>, now: nat)
    ensures LiveWrites(q, now) == q && ExpiredWrites(q, now) == []
            <==> forall i :: 0 <= i < |q| ==> !Expired(q[i].deadline, now)
    ensures |LiveWrites(q, now)| + |ExpiredWrites(q, now)| == |q|
  {
    if q != [] {
      LiveWritesAll(q[1..], now);
      assert forall i :: 0 < i < |q| ==> q[i] == q[1..][i - 1];
      if forall i :: 0 <= i < |q| ==> !Expired(q[i].deadline, now) {
        assert q == [q[0]] + q[1..];
      }
    }
  }

  lemma {:induction false} SplitReads(q: seq<PendingRead>, now: nat)
    ensures forall r :: r in LiveReads(q, now) ==> r in q && !Expired(r.deadline, now)
    ensures forall r :: r in ExpiredReads(q, now) ==> r in q && Expired(r.deadline, now)
    ensures forall r :: r in q ==> r in LiveReads(q, now) || r in ExpiredReads(q, now)
  {
    hide Expired;
    if q != [] {
      SplitReads(q[1..], now);
    }
  }

  lemma {:induction false} SplitWrites(q: seq<PendingWrite>, now: nat)
    ensures forall w :: w in LiveWrites(q, now) ==> w in q && !Expired(w.deadline, now)
    ensures forall w :: w in ExpiredWrites(q, now) ==> w in q && Expired(w.deadline, now)
    ensures forall w :: w in q ==> w in LiveWrites(q, now) || w in ExpiredWrites(q, now)
  {
    hide Expired;
    if q != [] {
      SplitWrites(q[1..], now);
    }
  }

  /** The sweep completes exactly the operations whose deadline has passed, with a timeout
      and the bytes already on the wire, and keeps exactly the others. */
  lemma {:induction false} SweepSelects(s: Stream, now: nat)
    ensures var t := Swept(s, now);
            && (forall r :: r in t.readQ <==> r in s.readQ && !Expired(r.deadline, now))
            && (forall w :: w in t.writeQ <==> w in s.writeQ && !Expired(w.deadline, now))
            && (forall r :: r in s.readQ && Expired(r.deadline, now) ==>
                  ReadDone(r.id, [], Some(ReadDeadline)) in t.io.done)
            && (forall w :: w in s.writeQ && Expired(w.deadline, now) ==>
                  WriteDone(w.id, AdmittedPrefix(w), Some(WriteDeadline)) in t.io.done)
            && |t.io.done| - |s.io.done| == |s.readQ| - |t.readQ| + |s.writeQ| - |t.writeQ|
  {
    hide LiveReads, LiveWrites, ExpiredReads, ExpiredWrites, EndReads, EndWrites, Expired, AdmittedPrefix;
    SplitReads(s.readQ, now);
    SplitWrites(s.writeQ, now);
    LiveReadsAll(s.readQ, now);
    LiveWritesAll(s.writeQ, now);
    EndReadsShape(ExpiredReads(s.readQ, now), Some(ReadDeadline));
    EndWritesShape(ExpiredWrites(s.writeQ, now), WriteDeadline);
    assert forall r :: r in ExpiredReads(s.readQ, now) ==>
             ReadDone(r.id, [], Some(ReadDeadline)) in EndReads(ExpiredReads(s.readQ, now), Some(ReadDeadline));
    assert forall w :: w in ExpiredWrites(s.writeQ, now) ==>
             WriteDone(w.id, AdmittedPrefix(w), Some(WriteDeadline))
             in EndWrites(ExpiredWrites(s.writeQ, now), WriteDeadline);
  }

  /** The sweep leaves a stream alone exactly when none of its deadlines has passed. */
  lemma {:induction false} SweepSpares(s: Stream, now: nat)
    ensures !DialExpired(s, now) && Swept(s, now) == s <==> !DeadlinePassed(s, now)
  {
    hide LiveReads, LiveWrites, ExpiredReads, ExpiredWrites, EndReads, EndWrites, DialExpired, Expired;
    LiveReadsAll(s.readQ, now);
    LiveWritesAll(s.writeQ, now);
    NothingEnded();
  }

  lemma {:induction false} NothingEnded()
    ensures EndReads([], Some(ReadDeadline)) == [] && EndWrites([], WriteDeadline) == []
  {
  }

  /** A frame for one stream leaves another one registered and unchanged exactly when no
      deadline of the other has passed, and registers no stream but the one it names. */
  lemma {:induction false} Isolation(v: Service, now: nat, id: nat, m: Message, other: nat)
    requires other in v.streams && other != id
    ensures var t := Admit(v, now, id, m).streams;
            && (other in t && t[other] == v.streams[other] <==> !DeadlinePassed(v.streams[other], now))
            && t.Keys <= v.streams.Keys + {id}
  {
    hide Swept, DeadlinePassed, DialExpired, ResetFor, Step, Start;
    SweepSpares(v.streams[other], now);
  }

  /** Nothing of the stream is overdue at `now`. */
  predicate InTime(s: Stream, now: nat) {
    && (forall i :: 0 <= i < |s.readQ| && s.readQ[i].deadline.Some? ==> now <= s.readQ[i].deadline.value)
    && (forall i :: 0 <= i < |s.writeQ| && s.writeQ[i].deadline.Some? ==> now <= s.writeQ[i].deadline.value)
    && (s.gw.initiator && s.gw.pending && s.gw.dialDeadline > 0 ==> now <= s.gw.dialDeadline)
  }

  lemma {:induction false} SweptInTime(s: Stream, now: nat)
    requires !DialExpired(s, now)
    ensures InTime(Swept(s, now), now)
  {
    hide LiveReads, LiveWrites, ExpiredReads, ExpiredWrites, EndReads, EndWrites;
    Submissions.SweptReadsOf(s.readQ, now);
    Submissions.SweptWritesOf(s.writeQ, now);
    var t := Swept(s, now);
    assert forall i :: 0 <= i < |t.readQ| ==> t.readQ[i] in LiveReads(s.readQ, now);
    assert forall i :: 0 <= i < |t.writeQ| ==> t.writeQ[i] in LiveWrites(s.writeQ, now);
  }

  /** A sweep and a queued write leave no registered stream with anything overdue; a received
      frame leaves none but the one it names. */
  lemma {:induction false} NothingOverdue(v: Service, e: Event, other: nat)
    requires e.SweepEvent? || e.WriteEvent? || e.AdmitEvent?
    requires e.WriteEvent? ==> e.id in v.streams && Queues(v.streams[e.id], e.data)
    requires e.AdmitEvent? ==> other != e.id
    ensures other in Handle(v, e).streams ==> InTime(Handle(v, e).streams[other], e.now)
  {
    hide Swept, DialExpired, InTime, ResetFor, Step, Start, Queues;
    var before := if e.WriteEvent? then ToStream(v, e.id, WriteCall(e.data, e.deadline)) else v;
    if other in Handle(v, e).streams {
      SweptInTime(before.streams[other], e.now);
    }
  }

  // ---- Opening, at both ends ---------------------------------------------

  /** The OPEN a local open sends: it announces the windows asked for. */
  predicate Announces(r: OpenRequest, o: LocalOpen) {
    r.window == Some(o.window) && r.windowFrames == Some(o.windowFrames) && (r.gateway == Absent <==> !o.gw.gateway)
  }

  /** Two services that register the two ends of an OPEN have connected them: the serving end
      starts with exactly the credit the opener's windows allow, and both ends in their roles. */
  lemma {:induction false} OpenConnects(v: Service, id: nat, o: LocalOpen, u: Service, other: nat, r: OpenRequest)
    requires WellTyped(OpenEvent(id, o)) && id !in v.streams && other !in u.streams && Announces(r, o)
    requires id in OpenLocal(v, id, o).streams && other in OnOpen(u, other, r).streams
    ensures WindowsAcceptable(r)
    ensures var p, q := LocalSetup(v, o), InboundSetup(u, r);
            && ReliableLink.Matched(p, q) && p.gw == o.gw && q.gw.gateway == o.gw.gateway
            && OpenLocal(v, id, o).streams[id] == ReliableLink.Connect(p, q).a
            && OnOpen(u, other, r).streams[other] == ReliableLink.Connect(p, q).b
  {
    hide Start;
  }

  /** The OPEN asks for something this service serves. */
  predicate Serves(v: Service, r: OpenRequest) {
    || (r.gateway == Absent && v.hooks.inbound)
    || (r.gateway == Target && v.hooks.negotiated && v.hooks.gatewayInbound)
  }

  /** A received OPEN under an unused id registers that id exactly if the windows are acceptable,
      the service serves the request, there is room and the channel can be adopted; it is refused
      with a status or ignored otherwise, and a full service refuses every one it would serve. Under
      a used id it ends that stream. Nothing else changes. */
  lemma {:induction false} OpenExactly(v: Service, id: nat, r: OpenRequest, other: nat)
    requires RegistryInv(v)
    ensures var t := OnOpen(v, id, r);
            && t == v.(streams := t.streams, refusals := t.refusals)
            && (other != id ==> (other in t.streams <==> other in v.streams)
                                && (other in v.streams ==> t.streams[other] == v.streams[other]))
            && (id !in v.streams ==>
                  && (id in t.streams <==>
                        && WindowsAcceptable(r) && Serves(v, r)
                        && |v.streams| < v.limits.maxStreams && r.adopted)
                  && (WindowsAcceptable(r) && Serves(v, r) && |v.streams| >= v.limits.maxStreams ==>
                        t.refusals == v.refusals + [Refusal(id, ResourceExhausted)]))
            && (id in v.streams ==> id !in t.streams && t.refusals == v.refusals)
  {
    hide Start, Finish, Reachable;
    if id in v.streams {
      EndedOpen(v.streams[id]);
    }
  }

  lemma {:induction false} EndedOpen(s: Stream)
    ensures Terminal(ResetFor(s, AlreadyExists).state)
  {
    hide Finish;
  }
}

/** The per-session stream multiplexer as the mutable object the source keeps: a map from
    ids to stream objects. Every method is proved equal to the function of
    `StreamService` that specifies it. */
module ByteStreamMultiplexer {
  import opened Bytes
  import opened StreamModel
  import opened ByteStreamObject
  import opened StreamService
  import StreamRuns

  /** The registry with every stream swept. */
  ghost function SweptRegistry(m: map<nat, Stream>, rest: set<nat>, now: nat): map<nat, Stream> {
    map id | id in m :: if id in rest then m[id] else Swept(m[id], now)
  }

  ghost function LateIds(m: map<nat, Stream>, rest: set<nat>, now: nat): set<nat> {
    set id | id in m && id !in rest && DialExpired(m[id], now)
  }

  lemma {:induction false} SweepOneMore(m: map<nat, Stream>, rest: set<nat>, id: nat, now: nat)
    requires id in rest && id in m
    ensures SweptRegistry(m, rest, now)[id := Swept(m[id], now)] == SweptRegistry(m, rest - {id}, now)
    ensures SweptRegistry(m, rest, now)[id] == m[id]
    ensures LateIds(m, rest - {id}, now) == LateIds(m, rest, now) + if DialExpired(m[id], now) then {id} else {}
  {
    hide Swept, DialExpired;
  }

  lemma {:induction false} SweepStarts(m: map<nat, Stream>, now: nat)
    ensures SweptRegistry(m, m.Keys, now) == m && LateIds(m, m.Keys, now) == {}
  {
    hide Swept, DialExpired;
  }

  lemma {:induction false} RemoveOneMore(m: map<nat, Stream>, gone: set<nat>, rest: set<nat>, id: nat)
    requires id in rest && rest <= gone
    ensures m - (gone - rest) - {id} == m - (gone - (rest - {id}))
  {
  }

  lemma {:induction false} SweepIs(v: Service, now: nat)
    ensures SweepAll(v, now) == v.(streams := SweptRegistry(v.streams, {}, now) - LateIds(v.streams, {}, now))
    ensures LateIds(v.streams, {}, now) <= v.streams.Keys
    ensures SweptRegistry(v.streams, {}, now).Keys == v.streams.Keys
  {
    hide Swept, DialExpired;
  }

  lemma {:induction false} RemoveAll(m: map<nat, Stream>, gone: set<nat>)
    ensures m - (gone - gone) == m && m - (gone - {}) == m - gone
  {
    assert gone - {} == gone;
  }

  lemma {:induction false} AddedAndRemoved(m: map<nat, Stream>, id: nat, s: Stream)
    requires id !in m
    ensures m[id := s] - {id} == m
  {
  }

  /** The registry with every stream but those of `rest` failed. */
  ghost function FailedRegistry(m: map<nat, Stream>, rest: set<nat>): map<nat, Stream> {
    map id | id in m :: if id in rest then m[id] else FailAll(m[id])
  }

  lemma {:induction false} FailOneMore(m: map<nat, Stream>, rest: set<nat>, id: nat)
    requires id in rest && id in m
    ensures FailedRegistry(m, rest)[id] == m[id]
    ensures FailedRegistry(m, rest)[id := FailAll(m[id])] == FailedRegistry(m, rest - {id})
  {
    hide FailAll;
  }

  lemma {:induction false} NoneFailed(m: map<nat, Stream>)
    ensures FailedRegistry(m, m.Keys) == m
  {
    hide FailAll;
  }

  /** What the given stream objects hold, registered or not. */
  ghost function Views(h: map<nat, ByteStreamHandle>): (m: map<nat, Stream>)
    reads h.Values
    ensures m.Keys == h.Keys
  {
    map id | id in h :: h[id].View()
  }

  ghost predicate Distinct(h: map<nat, ByteStreamHandle>) {
    forall i, j :: i in h && j in h && i != j ==> h[i] != h[j]
  }

  /** The streams of `m` with those of `late` reset for their dial deadline. */
  ghost function ResetLate(m: map<nat, Stream>, late: set<nat>): map<nat, Stream> {
    map id | id in m :: if id in late then ResetFor(m[id], DeadlineExceeded) else m[id]
  }

  lemma {:induction false} NoneLate(m: map<nat, Stream>)
    ensures ResetLate(m, {}) == m
  {
    hide ResetFor;
  }

  lemma {:induction false} ResetOneMore(m: map<nat, Stream>, expired: set<nat>, rest: set<nat>, id: nat)
    requires id in m && id in rest && rest <= expired
    ensures ResetLate(m, expired - rest)[id] == m[id]
    ensures ResetLate(m, expired - rest)[id := ResetFor(m[id], DeadlineExceeded)]
         == ResetLate(m, expired - (rest - {id}))
  {
    hide ResetFor;
  }

  /** Every stream after its own deadline check. */
  ghost function Checked(m: map<nat, Stream>, now: nat): map<nat, Stream> {
    map id | id in m :: CheckDeadlines(m[id], now)
  }

  lemma {:induction false} LateIsChecked(m: map<nat, Stream>, now: nat)
    ensures ResetLate(SweptRegistry(m, {}, now), LateIds(m, {}, now)) == Checked(m, now)
  {
    hide ResetFor, Swept, DialExpired;
  }

  /** The stream of a registered id after another OPEN for it. */
  ghost function Reopened(s: Stream): Stream {
    if s.state == Reset then s else ResetFor(s, AlreadyExists)
  }

  /** The addressed stream after a frame. */
  ghost function Addressed(s: Stream, m: Message): Stream {
    match m
    case OpenMessage(_) => Reopened(s)
    case StreamMessage(frame) => Step(s, Receive(frame))
  }

  ghost function Handed(streams: map<nat, Stream>, id: nat, m: Message): map<nat, Stream> {
    if id in streams then streams[id := Addressed(streams[id], m)] else streams
  }

  /** Every stream after a frame was admitted: checked and, if it is still registered and
      the frame is for it, handed the frame. */
  ghost function AfterFrame(streams: map<nat, Stream>, now: nat, id: nat, m: Message): map<nat, Stream> {
    var checked := Checked(streams, now);
    if id in streams && !DialExpired(streams[id], now) then checked[id := Addressed(checked[id], m)] else checked
  }

  lemma {:induction false} ViewsAgree(all: map<nat, ByteStreamHandle>, some: map<nat, ByteStreamHandle>)
    requires forall j :: j in some ==> j in all && all[j] == some[j]
    ensures forall j :: j in some ==> Views(all)[j] == Views(some)[j]
  {
    hide ByteStreamHandle.View;
  }

  /** The stream objects that are not registered any more. */
  lemma {:induction false} SplitOff(all: map<nat, ByteStreamHandle>, left: map<nat, ByteStreamHandle>)
    returns (gone: map<nat, ByteStreamHandle>)
    requires Distinct(all) && forall j :: j in left ==> j in all && all[j] == left[j]
    ensures gone.Keys == all.Keys - left.Keys && gone.Values !! left.Values
    ensures forall j :: j in gone ==> all[j] == gone[j]
  {
    gone := all - left.Keys;
  }

  /** A frame for the registered streams `listed`, seen in all streams there were. */
  lemma {:induction false} MergeViews(before: map<nat, Stream>, after: map<nat, Stream>, listed: map<nat, Stream>,
                                      id: nat, m: Message)
    requires after.Keys == before.Keys && listed.Keys <= before.Keys
    requires forall j :: j in listed ==> before[j] == listed[j] && after[j] == Handed(listed, id, m)[j]
    requires forall j :: j in before && j !in listed ==> after[j] == before[j]
    ensures after == if id in listed then before[id := Addressed(before[id], m)] else before
  {
    hide Addressed;
  }

  lemma {:induction false} MergeObjects(all: map<nat, ByteStreamHandle>, left: map<nat, ByteStreamHandle>,
                                        gone: map<nat, ByteStreamHandle>, before: map<nat, Stream>,
                                        listed: map<nat, Stream>, apart: map<nat, Stream>, id: nat, m: Message)
    requires forall j :: j in left ==> j in all && all[j] == left[j]
    requires forall j :: j in gone ==> j in all && all[j] == gone[j]
    requires gone.Keys == all.Keys - left.Keys && left.Keys <= all.Keys
    requires before.Keys == all.Keys && listed.Keys == left.Keys && apart.Keys == gone.Keys
    requires forall j :: j in left ==> before[j] == listed[j]
    requires forall j :: j in gone ==> before[j] == apart[j]
    requires Views(left) == Handed(listed, id, m) && Views(gone) == apart
    ensures Views(all) == if id in left then before[id := Addressed(before[id], m)] else before
  {
    hide Views, Addressed, Handed;
    ViewsAgree(all, left);
    ViewsAgree(all, gone);
    MergeViews(before, Views(all), listed, id, m);
  }

  lemma {:induction false} StillListed(m: map<nat, Stream>, now: nat, id: nat)
    ensures Checked(m, now).Keys == m.Keys
    ensures id in m.Keys - LateIds(m, {}, now) <==> id in m && !DialExpired(m[id], now)
  {
    hide CheckDeadlines, DialExpired;
  }

  class ByteStreamService {
    const limits: ValidLimits
    var hooks: Hooks
    var streams: map<nat, ByteStreamHandle>
    var refusals: seq<Refusal>

    /** No two ids share a stream object. */
    ghost predicate Valid()
      reads this`streams
    {
      Distinct(streams)
    }

    ghost function Registry(): (m: map<nat, Stream>)
      reads this`streams, streams.Values
      ensures m.Keys == streams.Keys
    {
      Views(streams)
    }

    ghost function View(): Service
      reads this, streams.Values
    {
      Service(limits, hooks, Registry(), refusals)
    }

    constructor (l: ValidLimits, h: Hooks)
      ensures Valid() && View() == Service(l, h, map[], [])
    {
      limits, hooks, streams, refusals := l, h, map[], [];
    }

    // ---- One stream ------------------------------------------------------

    /** Only the stream registered under `id` has changed. */
    twostate lemma OneChanged(id: nat)
      requires old(Valid()) && streams == old(streams) && id in streams
      requires forall j :: j in streams && j != id ==> unchanged(streams[j])
      ensures Registry() == old(Registry())[id := streams[id].View()]
    {
      hide ByteStreamHandle.View;
      forall j | j in streams
        ensures Registry()[j] == old(Registry())[id := streams[id].View()][j]
      {
        if j != id {
          assert streams[j].View() == old(streams[j].View());
        }
      }
    }

    /** Only the map has changed, by the loss of `id`. */
    twostate lemma OneRemoved(id: nat)
      requires streams == old(streams) - {id} && forall j :: j in streams ==> unchanged(streams[j])
      ensures Registry() == old(Registry()) - {id}
      ensures streams.Values <= old(streams.Values)
    {
      hide ByteStreamHandle.View;
    }

    method Remove(id: nat)
      requires Valid()
      modifies this`streams
      ensures Valid() && streams == old(streams) - {id} && Registry() == old(Registry()) - {id}
      ensures streams.Values <= old(streams.Values)
    {
      hide Registry;
      streams := streams - {id};
      OneRemoved(id);
    }

    /** A finished stream leaves the map. */
    method Reap(id: nat)
      requires Valid() && id in streams
      modifies this`streams
      ensures Valid() && streams.Values <= old(streams.Values)
      ensures Registry() == Put(old(Registry()), id, old(Registry())[id])
    {
      assert streams[id].state == Registry()[id].state;
      if Terminal(streams[id].state) {
        Remove(id);
      }
    }

    /** Tell the peer, end the stream and take it out of the map. */
    method ResetAndRemove(id: nat, reason: Status)
      requires Valid() && id in streams
      modifies this`streams, streams[id]
      ensures Valid() && Registry() == old(Registry()) - {id} && streams.Values <= old(streams.Values)
      ensures streams == old(streams) - {id}
      ensures old(streams)[id].View() == ResetFor(old(Registry())[id], reason)
    {
      hide ResetFor, ByteStreamHandle.View;
      streams[id].ResetWith(reason);
      OneChanged(id);
      Remove(id);
    }

    /** Take a stream out of the map that nobody was told about. */
    method Withdraw(id: nat)
      requires Valid() && id in streams
      modifies this`streams, streams[id]
      ensures Valid() && streams == old(streams) - {id} && Registry() == old(Registry()) - {id}
    {
      hide ByteStreamHandle.View;
      streams[id].state := Reset;
      OneChanged(id);
      Remove(id);
    }

    method StateOf(id: nat) returns (state: StreamState)
      requires id in streams
      ensures state == Registry()[id].state
    {
      state := streams[id].state;
    }

    // ---- Deadlines -------------------------------------------------------

    method SweepStream(id: nat, now: nat) returns (late: bool)
      requires Valid() && id in streams
      modifies streams[id]
      ensures Registry() == old(Registry())[id := Swept(old(Registry())[id], now)]
      ensures late == DialExpired(old(Registry())[id], now)
    {
      hide Swept, DialExpired, ByteStreamHandle.View;
      late := streams[id].Sweep(now);
      OneChanged(id);
    }

    /** Sweep every stream; collect the ids whose dial deadline has passed. */
    method SweepStreams(now: nat) returns (expired: set<nat>)
      requires Valid()
      modifies streams.Values
      ensures Registry() == SweptRegistry(old(Registry()), {}, now) && streams == old(streams)
      ensures expired == LateIds(old(Registry()), {}, now)
    {
      hide Registry, SweptRegistry, LateIds;
      ghost var before := Registry();
      expired := {};
      var rest := streams.Keys;
      SweepStarts(before, now);
      while rest != {}
        invariant rest <= streams.Keys && streams == old(streams)
        invariant Registry() == SweptRegistry(before, rest, now)
        invariant expired == LateIds(before, rest, now)
        decreases |rest|
      {
        var id :| id in rest;
        SweepOneMore(before, rest, id, now);
        var late := SweepStream(id, now);
        rest := rest - {id};
        if late {
          expired := expired + {id};
        }
      }
    }

    /** Sweep every stream, then reset the ones whose dial deadline has passed and forget
        them; what becomes of each stream object is its own deadline check. */
    method CheckDeadlines(now: nat)
      requires Valid()
      modifies this`streams, streams.Values
      ensures Valid() && View() == SweepAll(old(View()), now) && streams.Values <= old(streams.Values)
      ensures streams == old(streams) - LateIds(old(Registry()), {}, now)
      ensures Views(old(streams)) == Checked(old(Registry()), now)
    {
      hide SweepAll, SweptRegistry, LateIds, ResetLate, Checked, Registry, Views;
      SweepIs(View(), now);
      LateIsChecked(Registry(), now);
      var expired := SweepStreams(now);
      ResetExpired(expired);
    }

    /** Reset the given streams and forget them. */
    method ResetExpired(expired: set<nat>)
      requires Valid() && expired <= streams.Keys
      modifies this`streams, streams.Values
      ensures Valid() && streams == old(streams) - expired && streams.Values <= old(streams.Values)
      ensures Registry() == old(Registry()) - expired
      ensures Views(old(streams)) == ResetLate(old(Registry()), expired)
    {
      hide Registry, ResetLate, Views, ByteStreamHandle.View, ResetFor, Distinct;
      ghost var all, swept := streams, Registry();
      assert swept == Views(all) by { RegistryIs(); }
      RemoveAll(swept, expired);
      NoneLate(swept);
      assert expired - expired == {} && expired - {} == expired;
      var rest := expired;
      while rest != {}
        invariant Valid() && streams.Values <= all.Values && streams == all - (expired - rest)
        invariant rest <= expired <= swept.Keys && Registry() == swept - (expired - rest)
        invariant Views(all) == ResetLate(swept, expired - rest)
        decreases |rest|
      {
        var id :| id in rest;
        RemoveOneMore(swept, expired, rest, id);
        ResetOneMore(swept, expired, rest, id);
        ResetListed(id, all);
        rest := rest - {id};
      }
    }

    /** Reset one stream; the other objects of `all` stay as they are. */
    method ResetListed(id: nat, ghost all: map<nat, ByteStreamHandle>)
      requires Valid() && id in streams && Distinct(all) && id in all && all[id] == streams[id]
      requires streams.Values <= all.Values
      modifies this`streams, streams[id]
      ensures Valid() && Registry() == old(Registry()) - {id} && streams == old(streams) - {id}
      ensures streams.Values <= old(streams.Values)
      ensures Views(all) == old(Views(all))[id := ResetFor(old(Registry())[id], DeadlineExceeded)]
    {
      hide ResetFor, ByteStreamHandle.View;
      ghost var before := Views(all);
      ResetAndRemove(id, DeadlineExceeded);
      assert Views(all) == before[id := all[id].View()];
    }

    lemma RegistryIs()
      ensures Registry() == Views(streams)
    {
    }

    // ---- Frames and calls for one stream ---------------------------------

    /** Hand an action to a stream. */
    method Act(stream: ByteStreamHandle, a: Action)
      requires !a.Tick? && !a.SessionLoss?
      modifies stream
      ensures stream.View() == Step(old(stream.View()), a)
    {
      hide ByteStreamHandle.View, AsyncRead, AsyncWrite, ShutdownWrite, ResetCall, StreamModel.Deliver;
      match a {
        case ReadCall(capacity, deadline) => stream.AsyncReadSome(capacity, deadline);
        case WriteCall(data, deadline) => stream.AsyncWriteAll(data, deadline);
        case ShutdownCall => var _ := stream.Shutdown();
        case ResetOp(reason) => stream.ResetStream(reason);
        case Receive(frame) => Dispatch(stream, frame);
      }
    }

    method Dispatch(stream: ByteStreamHandle, frame: Frame)
      modifies stream
      ensures stream.View() == Deliver(old(stream.View()), frame)
    {
      hide OnData, OnWindowUpdate, OnFin, OnReset;
      if Terminal(stream.state) {
        return;
      }
      match frame {
        case Data(offset, length, data) => stream.HandleData(offset, length, data);
        case WindowUpdate(consumed, bytes, frames) => stream.HandleWindowUpdate(consumed, bytes, frames);
        case Fin(finalOffset) => stream.HandleFin(finalOffset);
        case ResetFrame(reason) => stream.HandleReset(reason);
      }
    }

    /** Hand an action to the stream registered under `id`, and drop it if it ended. */
    method Apply(id: nat, a: Action)
      requires Valid() && !a.Tick? && !a.SessionLoss?
      modifies this`streams, streams.Values
      ensures Valid() && View() == ToStream(old(View()), id, a) && streams.Values <= old(streams.Values)
      ensures Views(old(streams))
           == if id in old(streams) then old(Registry())[id := Step(old(Registry())[id], a)] else old(Registry())
    {
      hide ByteStreamHandle.View, Step;
      if id !in streams {
        return;
      }
      Act(streams[id], a);
      OneChanged(id);
      assert Registry() == Views(streams);
      hide Registry, Views;
      Reap(id);
    }

    method Write(id: nat, data: seq<byte>, deadline: Option<nat>, now: nat)
      requires Valid()
      modifies this`streams, streams.Values
      ensures Valid() && View() == WriteTo(old(View()), id, data, deadline, now)
    {
      hide ToStream, SweepAll, Queues;
      var queued := false;
      if id in streams {
        queued := Accepts(streams[id], data);
      }
      Apply(id, WriteCall(data, deadline));
      if queued {
        CheckDeadlines(now);
      }
    }

    /** The write is going to be queued. */
    method Accepts(stream: ByteStreamHandle, data: seq<byte>) returns (queued: bool)
      ensures queued == Queues(stream.View(), data)
    {
      var pending := stream.PendingBytes();
      queued := !Terminal(stream.state) && !stream.tx.finSent && stream.state != HalfClosedLocal && data != []
                && pending + |data| <= stream.cfg.maxWriteBytes && |stream.writeQ| < stream.cfg.maxWrites;
    }

    // ---- Opening ---------------------------------------------------------

    /** A new stream object under a free id. */
    method Add(id: nat, p: Setup) returns (stream: ByteStreamHandle)
      requires Valid() && ValidSetup(p) && id !in streams
      modifies this`streams
      ensures Valid() && fresh(stream) && streams == old(streams)[id := stream]
      ensures Registry() == old(Registry())[id := Start(p)]
    {
      hide ByteStreamHandle.View, Start, ValidSetup;
      stream := new ByteStreamHandle(p);
      streams := streams[id := stream];
    }

    method Open(id: nat, o: LocalOpen) returns (stream: Option<ByteStreamHandle>)
      requires Valid() && o.window < U64 && o.windowFrames < U32 && id !in streams
      requires o.gw == PLAIN || o.gw == Dialing(o.gw.dialDeadline, o.gw.handler)
      modifies this`streams
      ensures Valid() && View() == OpenLocal(old(View()), id, o)
      ensures stream.Some? <==> OpensLocally(old(View()), o)
      ensures stream.Some? ==> id in streams && streams[id] == stream.value && fresh(stream.value)
    {
      hide Registry, Start;
      assert |Registry()| == |Registry().Keys| == |streams.Keys|;
      if !hooks.attached || o.window == 0 || o.windowFrames == 0 {
        return None;
      }
      if o.gw.gateway && (!o.prepared || !hooks.negotiated) {
        return None;
      }
      if |streams| >= limits.maxStreams || !o.admitted {
        return None;
      }
      var handle := Add(id, Setup(false, limits.cfg, o.window, o.windowFrames, o.gw, 0, 0, o.script));
      return Some(handle);
    }

    method RefuseOpen(id: nat, status: Status)
      modifies this`refusals
      ensures refusals == old(refusals) + [Refusal(id, status)]
    {
      refusals := refusals + [Refusal(id, status)];
    }

    /** An OPEN for a registered id fails the stream that has it. */
    method DuplicateOpen(id: nat)
      requires Valid() && id in streams
      modifies this`streams, streams.Values
      ensures Valid()
      ensures Registry() == if old(Registry())[id].state == Reset then old(Registry())
                            else Put(old(Registry()), id, ResetFor(old(Registry())[id], AlreadyExists))
      ensures Views(old(streams)) == old(Registry())[id := Reopened(old(Registry())[id])]
    {
      hide ResetFor, ByteStreamHandle.View;
      var state := StateOf(id);
      if state != Reset {
        StreamRuns.ResetState(Registry()[id], AlreadyExists);
        ghost var all := streams;
        ResetAndRemove(id, AlreadyExists);
        assert Views(all) == old(Registry())[id := all[id].View()];
      }
    }

    method HandleOpen(id: nat, r: OpenRequest)
      requires Valid()
      modifies this`streams, this`refusals, streams.Values
      ensures Valid() && View() == OnOpen(old(View()), id, r)
      ensures Views(old(streams)) == Handed(old(Registry()), id, OpenMessage(r))
    {
      hide ResetFor, Start, Registry, Views, InboundSetup, Put, WindowsAcceptable, Reopened;
      RegistryIs();
      if id in streams {
        DuplicateOpen(id);
      } else {
        OpenInbound(id, r);
      }
    }

    /** An OPEN for a new id: the refusals in order, then the new stream. */
    method OpenInbound(id: nat, r: OpenRequest)
      requires Valid() && id !in streams
      modifies this`streams, this`refusals
      ensures Valid() && View() == OnOpen(old(View()), id, r)
    {
      hide ResetFor, Start, Registry, InboundSetup, Put, WindowsAcceptable;
      assert |Registry()| == |Registry().Keys| == |streams.Keys|;
      if !WindowsAcceptable(r) {
        return;
      }
      if r.gateway != Absent {
        if !hooks.negotiated || r.gateway == Malformed {
          return;
        }
        if r.gateway == InvalidTarget {
          RefuseOpen(id, PermissionDenied);
          return;
        }
      }
      if |streams| >= limits.maxStreams {
        RefuseOpen(id, ResourceExhausted);
        return;
      }
      if r.adopted {
        AddInbound(id, r);
      }
    }

    /** Register the stream and grant its peer credit; without a handler take it out again. */
    method AddInbound(id: nat, r: OpenRequest)
      requires Valid() && WindowsAcceptable(r) && id !in streams
      modifies this`streams, this`refusals
      ensures Valid()
      ensures View() == if (if r.gateway == Absent then hooks.inbound else hooks.gatewayInbound) then
                          old(View()).(streams := old(Registry())[id := Start(InboundSetup(old(View()), r))])
                        else Refuse(old(View()), id, if r.gateway == Absent then PermissionDenied else Unimplemented)
    {
      hide Registry, Start;
      var _ := Add(id, Setup(true, limits.cfg, limits.window, limits.windowFrames,
                                  if r.gateway == Absent then PLAIN else SERVING,
                                  r.window.value, r.windowFrames.value, r.script));
      if (if r.gateway == Absent then hooks.inbound else hooks.gatewayInbound) {
        return;
      }
      AddedAndRemoved(old(Registry()), id, Registry()[id]);
      Withdraw(id);
      RefuseOpen(id, if r.gateway == Absent then PermissionDenied else Unimplemented);
    }

    method AdmitFrame(now: nat, id: nat, m: Message)
      requires Valid()
      modifies this`streams, this`refusals, streams.Values
      ensures Valid() && View() == Admit(old(View()), now, id, m)
      ensures Views(old(streams)) == AfterFrame(old(Registry()), now, id, m)
    {
      hide SweepAll, Registry, Checked, LateIds, Views, HandOver, Addressed, DialExpired, Handed;
      ghost var all := streams;
      CheckDeadlines(now);
      HandListed(id, m, all);
      StillListed(old(Registry()), now, id);
    }

    /** Hand a frame over; the stream objects of `all` that are not registered any more stay
        as they are. */
    method HandListed(id: nat, m: Message, ghost all: map<nat, ByteStreamHandle>)
      requires Valid() && Distinct(all) && streams.Keys <= all.Keys && forall j :: j in streams ==> all[j] == streams[j]
      modifies this`streams, this`refusals, streams.Values
      ensures Valid() && View() == HandOver(old(View()), id, m)
      ensures Views(all)
           == if id in old(streams) then old(Views(all))[id := Addressed(old(Views(all))[id], m)] else old(Views(all))
    {
      hide HandOver, Addressed, Views, Registry, Handed, Distinct;
      ghost var left, before := streams, Views(all);
      ghost var gone := SplitOff(all, left);
      ghost var apart := Views(gone);
      RegistryIs();
      ViewsAgree(all, left);
      ViewsAgree(all, gone);
      HandBeside(id, m, gone);
      MergeObjects(all, left, gone, before, old(Registry()), apart, id, m);
    }

    method HandBeside(id: nat, m: Message, ghost gone: map<nat, ByteStreamHandle>)
      requires Valid() && gone.Values !! streams.Values
      modifies this`streams, this`refusals, streams.Values
      ensures Valid() && View() == HandOver(old(View()), id, m)
      ensures Views(old(streams)) == Handed(old(Registry()), id, m) && Views(gone) == old(Views(gone))
    {
      hide HandOver, Views, Registry, Handed, Distinct;
      HandMessage(id, m);
    }

    method HandMessage(id: nat, m: Message)
      requires Valid()
      modifies this`streams, this`refusals, streams.Values
      ensures Valid() && View() == HandOver(old(View()), id, m)
      ensures Views(old(streams)) == Handed(old(Registry()), id, m)
    {
      hide ToStream, OnOpen, Registry, Views, Reopened, Step;
      match m {
        case OpenMessage(request) => HandleOpen(id, request);
        case StreamMessage(frame) => Apply(id, Receive(frame));
      }
    }

    // ---- Session loss ----------------------------------------------------

    method FailStream(id: nat)
      requires Valid() && id in streams
      modifies streams[id]
      ensures Registry() == old(Registry())[id := FailAll(old(Registry())[id])]
    {
      hide FailAll, ByteStreamHandle.View;
      streams[id].Fail();
      OneChanged(id);
    }

    method FailEach()
      requires Valid()
      modifies streams.Values
      ensures Registry() == FailedRegistry(old(Registry()), {}) && streams == old(streams)
    {
      hide Registry, FailedRegistry, FailAll;
      var rest := streams.Keys;
      ghost var before := Registry();
      NoneFailed(before);
      while rest != {}
        invariant rest <= streams.Keys && streams == old(streams)
        invariant Registry() == FailedRegistry(before, rest)
        decreases |rest|
      {
        var id :| id in rest;
        FailOneMore(before, rest, id);
        FailStream(id);
        rest := rest - {id};
      }
    }

    /** Fail every stream and forget it. */
    method FailStreams()
      requires Valid()
      modifies this`streams, streams.Values
      ensures Valid() && View() == Handle(old(View()), LossEvent)
      ensures Views(old(streams)) == FailedRegistry(old(Registry()), {})
    {
      hide Registry, Views, FailedRegistry;
      FailEach();
      RegistryIs();
      streams := map[];
      assert Registry().Keys == {};
    }
  }
}

/** The source role over whole runs: queue bounds, isolation of subscriptions, and what
    publishing and draining do to one of them. */
module EventSource {
  import opened Bytes
  import opened EventModel

  predicate Ordered(remotes: seq<Remote>) {
    forall i, j :: 0 <= i < j < |remotes| ==> remotes[i].id < remotes[j].id
  }

  /** Keep-latest queues hold at most one item, reliable ones at most the limit, and
      every item is addressed to its own subscription. */
  predicate QueueInv(r: Remote, cfg: ValidConfig) {
    && |r.staged| <= (if r.qos == BestEffortLatest then 1 else cfg.queueItems)
    && forall i :: 0 <= i < |r.staged| ==> r.staged[i].sub == r.id
  }

  predicate SourceInv(s: Source) {
    && Ordered(s.remotes)
    && |s.remotes| <= s.cfg.maxSubscriptions
    && forall i :: 0 <= i < |s.remotes| ==> QueueInv(s.remotes[i], s.cfg)
  }

  /** The items of one subscription. */
  function Only(sub: nat, items: seq<Item>): seq<Item> {
    if items == [] then []
    else Only(sub, items[..|items| - 1]) + (if items[|items| - 1].sub == sub then [items[|items| - 1]] else [])
  }

  lemma {:induction false} OnlySnoc(sub: nat, items: seq<Item>, item: Item)
    ensures Only(sub, items + [item]) == Only(sub, items) + if item.sub == sub then [item] else []
  {
    assert (items + [item])[..|items|] == items;
  }

  // ---- Finding a subscription --------------------------------------------

  lemma {:induction false} IndexOf(remotes: seq<Remote>, id: nat) returns (i: nat)
    requires Find(remotes, id).Some?
    ensures i < |remotes| && remotes[i] == Find(remotes, id).value && remotes[i].id == id
  {
    if remotes[0].id == id {
      i := 0;
    } else {
      i := IndexOf(remotes[1..], id);
      i := i + 1;
    }
  }

  lemma {:induction false} FindAt(remotes: seq<Remote>, i: nat)
    requires Ordered(remotes) && i < |remotes|
    ensures Find(remotes, remotes[i].id) == Some(remotes[i])
  {
    if i > 0 {
      assert Ordered(remotes[1..]) && remotes[1..][i - 1] == remotes[i];
      FindAt(remotes[1..], i - 1);
    }
  }

  lemma {:induction false} NotFound(remotes: seq<Remote>, id: nat)
    requires Find(remotes, id).None?
    ensures forall i :: 0 <= i < |remotes| ==> remotes[i].id != id
  {
    if remotes != [] {
      NotFound(remotes[1..], id);
      assert forall i :: 0 < i < |remotes| ==> remotes[i] == remotes[1..][i - 1];
    }
  }

  lemma {:induction false} Absent(remotes: seq<Remote>, id: nat)
    requires forall i :: 0 <= i < |remotes| ==> remotes[i].id != id
    ensures Find(remotes, id).None?
  {
    if remotes != [] {
      Absent(remotes[1..], id);
    }
  }

  /** An update in place that keeps the id changes that subscription only. */
  lemma {:induction false} FindUpdated(remotes: seq<Remote>, i: nat, r: Remote, id: nat)
    requires Ordered(remotes) && i < |remotes| && r.id == remotes[i].id
    ensures Ordered(remotes[i := r])
    ensures Find(remotes[i := r], id) == if id == r.id then Some(r) else Find(remotes, id)
  {
    var t := remotes[i := r];
    if id == r.id {
      FindAt(t, i);
    } else if Find(remotes, id).Some? {
      var k := IndexOf(remotes, id);
      FindAt(t, k);
    } else {
      NotFound(remotes, id);
      Absent(t, id);
    }
  }

  lemma {:induction false} WithoutFind(remotes: seq<Remote>, id: nat, other: nat)
    ensures Find(Without(remotes, id), other) == if other == id then None else Find(remotes, other)
  {
    if remotes != [] {
      WithoutFind(remotes[1..], id, other);
      if remotes[0].id != id {
        assert Without(remotes, id)[1..] == Without(remotes[1..], id);
      } else {
        assert Without(remotes, id) == Without(remotes[1..], id);
      }
    }
  }

  lemma {:induction false} WithoutMembers(remotes: seq<Remote>, id: nat)
    ensures |Without(remotes, id)| <= |remotes|
    ensures forall i :: 0 <= i < |Without(remotes, id)| ==> Without(remotes, id)[i] in remotes
  {
    if remotes != [] {
      WithoutMembers(remotes[1..], id);
    }
  }

  lemma {:induction false} WithoutOrdered(remotes: seq<Remote>, id: nat)
    requires Ordered(remotes)
    ensures Ordered(Without(remotes, id))
  {
    if remotes != [] {
      assert Ordered(remotes[1..]);
      WithoutOrdered(remotes[1..], id);
      WithoutMembers(remotes[1..], id);
      assert forall x :: x in remotes[1..] ==> remotes[0].id < x.id;
    }
  }

  lemma {:induction false} WithoutShape(remotes: seq<Remote>, id: nat)
    ensures |Without(remotes, id)| <= |remotes|
    ensures forall i :: 0 <= i < |Without(remotes, id)| ==> Without(remotes, id)[i] in remotes
    ensures Ordered(remotes) ==> Ordered(Without(remotes, id))
  {
    hide Without, Ordered;
    WithoutMembers(remotes, id);
    if Ordered(remotes) {
      WithoutOrdered(remotes, id);
    }
  }

  lemma {:induction false} InsertMembers(remotes: seq<Remote>, r: Remote)
    ensures |Insert(remotes, r)| == |remotes| + 1
    ensures forall x :: x in Insert(remotes, r) ==> x == r || x in remotes
  {
    if remotes != [] && remotes[0].id <= r.id {
      InsertMembers(remotes[1..], r);
    }
  }

  lemma {:induction false} InsertOrdered(remotes: seq<Remote>, r: Remote)
    requires Ordered(remotes) && forall x :: x in remotes ==> x.id != r.id
    ensures Ordered(Insert(remotes, r))
  {
    hide Ordered;
    if remotes == [] {
      OrderedCons(r, remotes);
    } else {
      OrderedTail(remotes);
      if r.id < remotes[0].id {
        OrderedCons(r, remotes);
      } else {
        InsertOrdered(remotes[1..], r);
        InsertMembers(remotes[1..], r);
        OrderedCons(remotes[0], Insert(remotes[1..], r));
      }
    }
  }

  lemma {:induction false} OrderedTail(remotes: seq<Remote>)
    requires Ordered(remotes) && remotes != []
    ensures Ordered(remotes[1..]) && forall x :: x in remotes[1..] ==> x in remotes && remotes[0].id < x.id
    ensures forall x :: x in remotes ==> x == remotes[0] || x in remotes[1..]
  {
    assert forall i :: 0 < i < |remotes| ==> remotes[i] == remotes[1..][i - 1];
  }

  lemma {:induction false} OrderedCons(r: Remote, rest: seq<Remote>)
    requires (Ordered(rest) || rest == []) && forall x :: x in rest ==> r.id < x.id
    ensures Ordered([r] + rest)
  {
    var t := [r] + rest;
    assert forall i :: 0 < i < |t| ==> t[i] == rest[i - 1] && t[i] in rest;
  }

  lemma {:induction false} InsertFind(remotes: seq<Remote>, r: Remote, id: nat)
    requires forall x :: x in remotes ==> x.id != r.id
    ensures Find(Insert(remotes, r), id) == if id == r.id then Some(r) else Find(remotes, id)
  {
    var t := Insert(remotes, r);
    if remotes == [] || r.id < remotes[0].id {
      assert t[1..] == remotes;
    } else {
      InsertFind(remotes[1..], r, id);
      assert t[1..] == Insert(remotes[1..], r);
    }
  }

  lemma {:induction false} InsertShape(remotes: seq<Remote>, r: Remote)
    requires Ordered(remotes) && Find(remotes, r.id).None?
    ensures Ordered(Insert(remotes, r)) && |Insert(remotes, r)| == |remotes| + 1
    ensures forall x :: x in Insert(remotes, r) ==> x == r || x in remotes
    ensures forall id :: Find(Insert(remotes, r), id) == if id == r.id then Some(r) else Find(remotes, id)
  {
    hide Insert, Find, Ordered;
    NotFound(remotes, r.id);
    InsertMembers(remotes, r);
    InsertOrdered(remotes, r);
    forall id
      ensures Find(Insert(remotes, r), id) == if id == r.id then Some(r) else Find(remotes, id)
    {
      InsertFind(remotes, r, id);
    }
  }

  // ---- Staging -----------------------------------------------------------

  lemma {:induction false} StageUpToAt(s: Source, n: nat, p: Publication, u: set<nat>, j: nat)
    requires n <= |s.remotes| && j < |s.remotes|
    ensures StageUpTo(s, n, p, u).0.remotes[j] == if j < n then StageInto(s.remotes[j], p, u, s.cfg) else s.remotes[j]
    ensures var t := StageUpTo(s, n, p, u).0;
            t == s.(remotes := t.remotes, stats := t.stats, overwritten := t.overwritten)
  {
    hide StagingOf, StageInto, StagingStats, CountStaging;
    if n > 0 {
      StageUpToAt(s, n - 1, p, u, j);
      StageUpToAt(s, n - 1, p, u, n - 1);
    }
  }

  lemma {:induction false} StageFrame(s: Source, n: nat, p: Publication, u: set<nat>)
    requires n <= |s.remotes|
    ensures var t := StageUpTo(s, n, p, u).0;
            t == s.(remotes := t.remotes, stats := t.stats, overwritten := t.overwritten)
  {
    if |s.remotes| > 0 {
      StageUpToAt(s, n, p, u, 0);
    }
  }

  predicate OverflowsAt(s: Source, i: nat, p: Publication, u: set<nat>)
    requires i < |s.remotes|
  {
    StagingOf(s.remotes[i], p, u, s.cfg) == Overflow
  }

  /** Exactly the overflowing subscriptions are listed. */
  lemma {:induction false} StageOverflowed(s: Source, n: nat, p: Publication, u: set<nat>, id: nat)
    requires n <= |s.remotes|
    ensures id in StageUpTo(s, n, p, u).1.overflowed
            <==> exists i :: 0 <= i < n && s.remotes[i].id == id && OverflowsAt(s, i, p, u)
  {
    hide StagingOf, StageInto, StagingStats;
    if n > 0 {
      StageOverflowed(s, n - 1, p, u, id);
      StageUpToAt(s, n - 1, p, u, n - 1);
      var o := StageUpTo(s, n - 1, p, u).1.overflowed;
      var now := StageUpTo(s, n, p, u).1.overflowed;
      assert now == o || now == o + [s.remotes[n - 1].id];
      assert OverflowsAt(s, n - 1, p, u) <==> now != o;
    }
  }

  lemma {:induction false} TerminatedAll(s: Source, ids: seq<nat>, id: nat)
    requires Ordered(s.remotes)
    ensures var t := TerminateAll(s, ids);
            && Ordered(t.remotes) && |t.remotes| <= |s.remotes|
            && t == s.(remotes := t.remotes, notices := t.notices, stats := t.stats)
            && (forall i :: 0 <= i < |t.remotes| ==> t.remotes[i] in s.remotes)
            && Find(t.remotes, id) == if id in ids then None else Find(s.remotes, id)
  {
    hide Ordered;
    if ids != [] {
      var n := |ids| - 1;
      TerminatedAll(s, ids[..n], id);
      WithoutShape(TerminateAll(s, ids[..n]).remotes, ids[n]);
      WithoutFind(TerminateAll(s, ids[..n]).remotes, ids[n], id);
      assert ids == ids[..n] + [ids[n]];
    }
  }

  /** The ids do not move while items are staged. */
  lemma {:induction false} StageAllFind(s: Source, p: Publication, u: set<nat>, id: nat)
    requires Ordered(s.remotes)
    ensures var t := StageUpTo(s, |s.remotes|, p, u).0.remotes;
            && Ordered(t)
            && Find(t, id) == if Find(s.remotes, id).None? then None
                              else Some(StageInto(Find(s.remotes, id).value, p, u, s.cfg))
  {
    hide StageInto, StageUpTo;
    var t := StageUpTo(s, |s.remotes|, p, u).0.remotes;
    forall i | 0 <= i < |t|
      ensures t[i] == StageInto(s.remotes[i], p, u, s.cfg) && t[i].id == s.remotes[i].id
    {
      StageUpToAt(s, |s.remotes|, p, u, i);
    }
    if Find(s.remotes, id).Some? {
      var i := IndexOf(s.remotes, id);
      FindAt(t, i);
    } else {
      NotFound(s.remotes, id);
      Absent(t, id);
    }
  }

  /** The overflowed list names a registered subscription exactly when it overflows. */
  lemma {:induction false} OverflowedIs(s: Source, p: Publication, u: set<nat>, id: nat)
    requires Ordered(s.remotes)
    ensures id in StageUpTo(s, |s.remotes|, p, u).1.overflowed
            <==> Find(s.remotes, id).Some? && StagingOf(Find(s.remotes, id).value, p, u, s.cfg) == Overflow
  {
    hide StageUpTo, StagingOf;
    StageOverflowed(s, |s.remotes|, p, u, id);
    if Find(s.remotes, id).Some? {
      var i := IndexOf(s.remotes, id);
      assert OverflowsAt(s, i, p, u) <==> StagingOf(s.remotes[i], p, u, s.cfg) == Overflow;
      assert forall k :: 0 <= k < |s.remotes| && s.remotes[k].id == id ==> k == i;
    } else {
      NotFound(s.remotes, id);
    }
  }

  /** Before anything is sent, a publication changes each subscription by a function of
      that subscription and the event alone, and removes exactly the overflowing ones. */
  lemma {:induction false} FanOut(s: Source, e: Event, id: nat)
    requires SourceInv(s)
    ensures var p := NextPublication(s, e);
            var before := Find(s.remotes, id);
            Find(Fanned(s, e).remotes, id)
              == if before.None? || StagingOf(before.value, p, e.unencodable, s.cfg) == Overflow then None
                 else Some(StageInto(before.value, p, e.unencodable, s.cfg))
  {
    hide StageInto, StagingOf, StageUpTo, TerminateAll;
    var p := NextPublication(s, e);
    var s0 := Numbered(s, e);
    StageAllFind(s0, p, e.unencodable, id);
    OverflowedIs(s0, p, e.unencodable, id);
    TerminatedAll(StageAll(s, e).0, StageAll(s, e).1.overflowed, id);
  }

  // ---- Draining ----------------------------------------------------------

  /** What a drain leaves alone in one subscription. */
  predicate SameBinding(r: Remote, t: Remote) {
    t == r.(staged := t.staged)
  }

  /** The items of one subscription that are on the wire or waiting, in order. */
  function Line(s: Source, id: nat): seq<Item> {
    Only(id, s.sent) + Waiting(s, id)
  }

  function Waiting(s: Source, id: nat): seq<Item> {
    if Find(s.remotes, id).Some? then Find(s.remotes, id).value.staged else []
  }

  /** Sending moves items along the line and touches nothing else of any subscription. */
  predicate Drains(s: Source, t: Source, id: nat) {
    && t == s.(remotes := t.remotes, script := t.script, sent := t.sent, stats := t.stats)
    && s.sent <= t.sent
    && Line(t, id) == Line(s, id)
    && (Find(s.remotes, id).None? <==> Find(t.remotes, id).None?)
    && (Find(s.remotes, id).Some? ==> SameBinding(Find(s.remotes, id).value, Find(t.remotes, id).value))
    && SourceInv(t)
  }

  lemma {:induction false} SelfDrains(s: Source, id: nat)
    requires SourceInv(s)
    ensures Drains(s, s, id)
  {
    hide Line, SourceInv;
  }

  lemma {:induction false} DrainsTransitive(s: Source, t: Source, v: Source, id: nat)
    requires Drains(s, t, id) && Drains(t, v, id)
    ensures Drains(s, v, id)
  {
    hide Line, SourceInv, Find;
  }

  lemma {:induction false} SendFrontDrains(s: Source, i: nat, id: nat)
    requires SourceInv(s) && i < |s.remotes| && s.remotes[i].staged != []
    ensures Drains(s, SendFront(s, i), id)
  {
    hide Find, Only, Ordered;
    var r := s.remotes[i];
    if Admits(s) {
      var t := r.(staged := r.staged[1..]);
      FindUpdated(s.remotes, i, t, id);
      FindAt(s.remotes, i);
      OnlySnoc(id, s.sent, r.staged[0]);
      assert QueueInv(r, s.cfg) && QueueInv(t, s.cfg);
      assert r.staged == [r.staged[0]] + r.staged[1..];
      if id == r.id {
        assert Only(id, s.sent) + r.staged == (Only(id, s.sent) + [r.staged[0]]) + r.staged[1..];
      } else {
        assert Only(id, s.sent) + [] == Only(id, s.sent);
      }
    }
  }

  lemma {:induction false} DrainAtDrains(s: Source, i: nat, id: nat)
    requires SourceInv(s) && i < |s.remotes|
    ensures Drains(s, DrainAt(s, i), id)
    decreases |s.remotes[i].staged|
  {
    hide SourceInv, Drains, Find;
    SelfDrains(s, id);
    if s.remotes[i].staged != [] {
      SendFrontDrains(s, i, id);
      if Admits(s) {
        DrainsInv(s, SendFront(s, i), id);
        DrainAtDrains(SendFront(s, i), i, id);
        DrainsTransitive(s, SendFront(s, i), DrainAt(s, i), id);
      }
    }
  }

  lemma {:induction false} DrainsInv(s: Source, t: Source, id: nat)
    requires Drains(s, t, id)
    ensures SourceInv(t)
  {
    hide Line, Find, SourceInv;
  }

  lemma {:induction false} DrainUpToDrains(s: Source, n: nat, id: nat)
    requires SourceInv(s) && n <= |s.remotes|
    ensures Drains(s, DrainUpTo(s, n), id)
  {
    hide SourceInv, Drains;
    SelfDrains(s, id);
    if n > 0 {
      var t := DrainUpTo(s, n - 1);
      DrainUpToDrains(s, n - 1, id);
      DrainsInv(s, t, id);
      DrainAtDrains(t, n - 1, id);
      DrainsTransitive(s, t, DrainUpTo(s, n), id);
    }
  }

  lemma {:induction false} PruneDrains(s: Source, id: nat)
    requires SourceInv(s)
    ensures Drains(s, Prune(s), id)
  {
    hide Drains, SourceInv;
    DrainUpToDrains(s, |s.remotes|, id);
  }

  // ---- The source invariant ----------------------------------------------

  lemma {:induction false} StageIntoInv(r: Remote, p: Publication, u: set<nat>, cfg: ValidConfig)
    requires QueueInv(r, cfg)
    ensures QueueInv(StageInto(r, p, u, cfg), cfg)
  {
  }

  lemma {:induction false} FannedInv(s: Source, e: Event)
    requires SourceInv(s)
    ensures SourceInv(Fanned(s, e))
    ensures var t := Fanned(s, e); t == s.(remotes := t.remotes, sequences := t.sequences, notices := t.notices,
                                          stats := t.stats, log := t.log, overwritten := t.overwritten)
    ensures Fanned(s, e).sequences == Numbered(s, e).sequences && Fanned(s, e).log == Numbered(s, e).log
  {
    hide StageInto, StageUpTo, TerminateAll, QueueInv;
    var p := NextPublication(s, e);
    var s0 := Numbered(s, e);
    var (s1, o) := StageAll(s, e);
    StageFrame(s0, |s.remotes|, p, e.unencodable);
    StageAllFind(s0, p, e.unencodable, 0);
    forall i | 0 <= i < |s1.remotes|
      ensures QueueInv(s1.remotes[i], s.cfg)
    {
      StageUpToAt(s0, |s.remotes|, p, e.unencodable, i);
      StageIntoInv(s.remotes[i], p, e.unencodable, s.cfg);
    }
    TerminatedAll(s1, o.overflowed, 0);
    assert forall r :: r in s1.remotes ==> QueueInv(r, s.cfg);
  }

  lemma {:induction false} PublishInv(s: Source, e: Event)
    requires SourceInv(s)
    ensures SourceInv(Publish(s, e))
  {
    hide SourceInv, Fanned, Drains;
    FannedInv(s, e);
    PruneDrains(Fanned(s, e), 0);
    DrainsInv(Fanned(s, e), Publish(s, e), 0);
  }

  lemma {:induction false} SubscribeInv(s: Source, r: Remote, granted: bool)
    requires SourceInv(s)
    ensures SourceInv(AcceptSubscribe(s, r, granted))
  {
    hide Ordered, Find, Insert;
    if Find(s.remotes, r.id).None? {
      InsertShape(s.remotes, r.(staged := []));
      assert forall x :: x in s.remotes ==> QueueInv(x, s.cfg);
    }
  }

  lemma {:induction false} UnsubscribeInv(s: Source, id: nat)
    requires SourceInv(s)
    ensures SourceInv(AcceptUnsubscribe(s, id))
  {
    hide Ordered, Find, Without;
    WithoutShape(s.remotes, id);
    assert forall x :: x in s.remotes ==> QueueInv(x, s.cfg);
  }

  /** What can happen to the source. */
  datatype SourceStep =
    | PublishStep(event: Event)
    | PruneStep
    | SubscribeStep(remote: Remote, granted: bool)
    | UnsubscribeStep(id: nat)

  function SourceNext(s: Source, step: SourceStep): Source {
    match step
    case PublishStep(event) => Publish(s, event)
    case PruneStep => Prune(s)
    case SubscribeStep(remote, granted) => AcceptSubscribe(s, remote, granted)
    case UnsubscribeStep(id) => AcceptUnsubscribe(s, id)
  }

  function SourceRun(s: Source, steps: seq<SourceStep>): Source
    decreases |steps|
  {
    if steps == [] then s else SourceRun(SourceNext(s, steps[0]), steps[1..])
  }

  lemma {:induction false} SourceNextInv(s: Source, step: SourceStep)
    requires SourceInv(s)
    ensures SourceInv(SourceNext(s, step))
  {
    hide SourceInv, Publish, Prune, AcceptSubscribe, AcceptUnsubscribe, Drains;
    match step
    case PublishStep(event) => PublishInv(s, event);
    case PruneStep =>
      PruneDrains(s, 0);
      DrainsInv(s, Prune(s), 0);
    case SubscribeStep(remote, granted) => SubscribeInv(s, remote, granted);
    case UnsubscribeStep(id) => UnsubscribeInv(s, id);
  }

  lemma {:induction false} SourceRunInv(s: Source, steps: seq<SourceStep>)
    requires SourceInv(s)
    ensures SourceInv(SourceRun(s, steps))
    decreases |steps|
  {
    hide SourceInv, SourceNext;
    if steps != [] {
      SourceNextInv(s, steps[0]);
      SourceRunInv(SourceNext(s, steps[0]), steps[1..]);
    }
  }

  const NO_STATS := SourceStats(0, 0, 0, 0, 0, 0, 0, 0, 0, 0, 0, 0, 0)

  /** A source just attached. */
  function NewSource(cfg: ValidConfig, script: seq<bool>): Source {
    Source(cfg, [], map[], script, [], [], 0, NO_STATS, [], [])
  }

  lemma {:induction false} NewSourceInv(cfg: ValidConfig, script: seq<bool>)
    ensures SourceInv(NewSource(cfg, script)) && NewSource(cfg, script).cfg == cfg
  {
  }

  lemma {:induction false} ConfigKept(s: Source, steps: seq<SourceStep>)
    requires SourceInv(s)
    ensures SourceRun(s, steps).cfg == s.cfg
    decreases |steps|
  {
    hide SourceInv, SourceNext;
    if steps != [] {
      SourceNextInv(s, steps[0]);
      NextConfig(s, steps[0]);
      ConfigKept(SourceNext(s, steps[0]), steps[1..]);
    }
  }

  lemma {:induction false} NextConfig(s: Source, step: SourceStep)
    requires SourceInv(s)
    ensures SourceNext(s, step).cfg == s.cfg
  {
    hide SourceInv, Fanned, Prune, Find, Without, Insert, Line;
    match step
    case PublishStep(event) =>
      FannedInv(s, event);
      PruneDrains(Fanned(s, event), 0);
    case PruneStep => PruneDrains(s, 0);
    case _ =>
  }

  /** Over all runs: no queue exceeds its bound and no peer its subscription limit. */
  lemma {:induction false} StagingBounds(cfg: ValidConfig, script: seq<bool>, steps: seq<SourceStep>)
    ensures var s := SourceRun(NewSource(cfg, script), steps);
            && |s.remotes| <= cfg.maxSubscriptions
            && forall i :: 0 <= i < |s.remotes| ==>
                 |s.remotes[i].staged| <= if s.remotes[i].qos == BestEffortLatest then 1 else cfg.queueItems
  {
    hide SourceRun, Ordered, NewSource;
    NewSourceInv(cfg, script);
    SourceRunInv(NewSource(cfg, script), steps);
    ConfigKept(NewSource(cfg, script), steps);
    var s := SourceRun(NewSource(cfg, script), steps);
    assert forall i :: 0 <= i < |s.remotes| ==> QueueInv(s.remotes[i], s.cfg);
  }
}

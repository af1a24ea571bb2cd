/** Every event, subscription request and item is counted once, and subscriptions come and go
    only for the reasons given. */
module EventCounters {
  import opened Bytes
  import opened EventModel
  import opened EventSource
  import opened EventOutcome
  import opened EventDelivery
  import opened EventAccounting

  // ---- Subscription requests ---------------------------------------------

  predicate SameTerms(r: Remote, t: Remote) {
    r.pattern == t.pattern && r.prefix == t.prefix && r.qos == t.qos
  }

  /** What becomes of a request, for every source: an unused id is registered exactly if the
      scope check grants it and there is room, and the peer is told exactly if not; a used id
      keeps its subscription, and the channel fails exactly if the request binds it to something
      else. */
  lemma {:induction false} SubscribeExactly(s: Source, r: Remote, granted: bool, id: nat)
    requires SourceInv(s)
    ensures var t := AcceptSubscribe(s, r, granted);
            var known := Find(s.remotes, r.id);
            var room := |s.remotes| < s.cfg.maxSubscriptions;
            && t == s.(remotes := t.remotes, notices := t.notices, failedChannels := t.failedChannels, stats := t.stats)
            && Find(t.remotes, id) == (if id == r.id && known.None? && granted && room then Some(r.(staged := []))
                                       else Find(s.remotes, id))
            && t.notices == (if known.None? && !(granted && room) then s.notices + [r.id] else s.notices)
            && t.failedChannels == s.failedChannels + (if known.Some? && !SameTerms(known.value, r) then 1 else 0)
  {
    hide Find, Insert;
    if Find(s.remotes, r.id).None? {
      NotFound(s.remotes, r.id);
      InsertShape(s.remotes, r.(staged := []));
    }
  }

  // ---- The publisher's counters ------------------------------------------

  /** How many requests, withdrawals and events a run saw. */
  datatype Load = Load(subscribes: nat, unsubscribes: nat, publishes: nat)

  function More(l: Load, step: SourceStep): Load {
    match step
    case PublishStep(_) => l.(publishes := l.publishes + 1)
    case PruneStep => l
    case SubscribeStep(_, _) => l.(subscribes := l.subscribes + 1)
    case UnsubscribeStep(_) => l.(unsubscribes := l.unsubscribes + 1)
  }

  function LoadOf(steps: seq<SourceStep>): Load {
    if steps == [] then Load(0, 0, 0) else More(LoadOf(steps[..|steps| - 1]), steps[|steps| - 1])
  }

  /** Each request was accepted, a repetition, refused or fatal; each refusal was for scope or
      limit; the peer was told of refusals and overflows; each event was counted; and the
      subscriptions are those accepted less those withdrawn or overflowed, where a withdrawal
      that came too late counts as a termination like an overflow. */
  predicate Balanced(s: Source, l: Load) {
    var t := s.stats;
    && l.subscribes == t.accepted + t.duplicates + t.rejected + s.failedChannels
    && t.rejected == t.scopeRejected + t.limitHits
    && |s.notices| == t.rejected + t.overflows
    && l.publishes == t.published == t.publishedItems == |s.log|
    && t.accepted + t.terminated == |s.remotes| + l.unsubscribes + 2 * t.overflows
  }

  /** Counters that staging and sending leave alone. */
  predicate SameRequests(t: SourceStats, u: SourceStats) {
    && u.accepted == t.accepted && u.duplicates == t.duplicates && u.rejected == t.rejected
    && u.scopeRejected == t.scopeRejected && u.limitHits == t.limitHits
    && u.published == t.published && u.publishedItems == t.publishedItems
  }

  lemma {:induction false} StageRequests(s: Source, n: nat, p: Publication, u: set<nat>)
    requires n <= |s.remotes|
    ensures var (t, o) := StageUpTo(s, n, p, u);
            && SameRequests(s.stats, t.stats) && t.stats.terminated == s.stats.terminated
            && t.stats.overflows == s.stats.overflows + |o.overflowed|
  {
    hide StageInto;
    if n > 0 {
      StageRequests(s, n - 1, p, u);
    }
  }

  lemma {:induction false} TerminateRequests(s: Source, ids: seq<nat>)
    ensures var t := TerminateAll(s, ids);
            && SameRequests(s.stats, t.stats) && t.stats.overflows == s.stats.overflows
            && t.stats.terminated == s.stats.terminated + |ids|
  {
    hide Without;
    if ids != [] {
      TerminateRequests(s, ids[..|ids| - 1]);
    }
  }

  lemma {:induction false} DrainRequests(s: Source, i: nat)
    requires i < |s.remotes|
    ensures var t := DrainAt(s, i);
            && t.stats == s.stats.(itemsSent := t.stats.itemsSent) && |t.remotes| == |s.remotes|
            && t.notices == s.notices && t.log == s.log && t.failedChannels == s.failedChannels
    decreases |s.remotes[i].staged|
  {
    if s.remotes[i].staged != [] && Admits(s) {
      DrainRequests(SendFront(s, i), i);
    }
  }

  lemma {:induction false} PruneRequests(s: Source, n: nat)
    requires n <= |s.remotes|
    ensures var t := DrainUpTo(s, n);
            && t.stats == s.stats.(itemsSent := t.stats.itemsSent) && |t.remotes| == |s.remotes|
            && t.notices == s.notices && t.log == s.log && t.failedChannels == s.failedChannels
  {
    hide DrainAt;
    if n > 0 {
      PruneRequests(s, n - 1);
      DrainRequests(DrainUpTo(s, n - 1), n - 1);
    }
  }

  lemma {:induction false} FannedRequests(s: Source, e: Event)
    requires SourceInv(s)
    ensures var t := Fanned(s, e);
            var gone := |StageAll(s, e).1.overflowed|;
            && SameRequests(s.stats.(published := s.stats.published + 1,
                                     publishedItems := s.stats.publishedItems + 1), t.stats)
            && t.stats.terminated == s.stats.terminated + gone && t.stats.overflows == s.stats.overflows + gone
            && |t.remotes| == |s.remotes| - gone && |t.notices| == |s.notices| + gone
            && |t.log| == |s.log| + 1 && t.failedChannels == s.failedChannels
  {
    hide SourceInv, StageUpTo, TerminateAll;
    StageRequests(Numbered(s, e), |s.remotes|, NextPublication(s, e), e.unencodable);
    TerminateRequests(StageAll(s, e).0, StageAll(s, e).1.overflowed);
    FannedInv(s, e);
    FannedRemoves(s, e);
  }

  lemma {:induction false} UnsubscribeOne(s: Source, id: nat)
    requires SourceInv(s)
    ensures var t := AcceptUnsubscribe(s, id);
            && t == s.(remotes := t.remotes, stats := s.stats.(terminated := t.stats.terminated))
            && t.stats.terminated - |t.remotes| == s.stats.terminated - |s.remotes| + 1
  {
    hide Find, Without;
    WithoutOne(s.remotes, id);
  }

  lemma {:induction false} StepBalances(s: Source, l: Load, step: SourceStep)
    requires SourceInv(s) && Balanced(s, l)
    ensures Balanced(SourceNext(s, step), More(l, step))
  {
    hide SourceInv, Fanned, StageAll, DrainUpTo, Find, Insert, AcceptUnsubscribe;
    match step
    case PublishStep(e) =>
      FannedRequests(s, e);
      PruneRequests(Fanned(s, e), |Fanned(s, e).remotes|);
    case PruneStep => PruneRequests(s, |s.remotes|);
    case SubscribeStep(r, granted) => InsertMembers(s.remotes, r.(staged := []));
    case UnsubscribeStep(id) => UnsubscribeOne(s, id);
  }

  lemma {:induction false} RunSnoc(s: Source, steps: seq<SourceStep>, step: SourceStep)
    ensures SourceRun(s, steps + [step]) == SourceNext(SourceRun(s, steps), step)
    decreases |steps|
  {
    hide SourceNext;
    if steps == [] {
      assert steps + [step] == [step] && [step][1..] == [];
    } else {
      assert (steps + [step])[1..] == steps[1..] + [step];
      RunSnoc(SourceNext(s, steps[0]), steps[1..], step);
    }
  }

  /** In every run of a publisher the counters balance. */
  lemma {:induction false} SourceBalance(cfg: ValidConfig, script: seq<bool>, steps: seq<SourceStep>)
    ensures Balanced(SourceRun(NewSource(cfg, script), steps), LoadOf(steps))
    decreases |steps|
  {
    hide SourceRun, SourceNext, SourceInv, Balanced, More;
    if steps == [] {
      NewBalanced(cfg, script);
    } else {
      var n := |steps| - 1;
      var before := SourceRun(NewSource(cfg, script), steps[..n]);
      SourceBalance(cfg, script, steps[..n]);
      NewSourceInv(cfg, script);
      SourceRunInv(NewSource(cfg, script), steps[..n]);
      StepBalances(before, LoadOf(steps[..n]), steps[n]);
      RunSnoc(NewSource(cfg, script), steps[..n], steps[n]);
      assert steps == steps[..n] + [steps[n]];
    }
  }

  lemma {:induction false} NewBalanced(cfg: ValidConfig, script: seq<bool>)
    ensures Balanced(SourceRun(NewSource(cfg, script), []), Load(0, 0, 0))
  {
  }

  // ---- The subscriber's counters -----------------------------------------

  function ItemCount(steps: seq<SinkStep>): nat {
    if steps == [] then 0 else (if steps[0].ItemStep? then 1 else 0) + ItemCount(steps[1..])
  }

  /** Deliveries that skipped a sequence of their subscription. */
  function Jumps(items: seq<Item>): nat {
    if items == [] then 0
    else
      var n := |items| - 1;
      var before := Only(items[n].sub, items[..n]);
      Jumps(items[..n])
      + if before != [] && items[n].sequence > before[|before| - 1].sequence + 1 then 1 else 0
  }

  /** Only subscriptions of this kind are made. */
  predicate OnlyKind(steps: seq<SinkStep>, qos: Qos) {
    forall i :: 0 <= i < |steps| && steps[i].NewStep? ==> steps[i].qos == qos
  }

  predicate SinkBalanced(k: Sink, items: nat) {
    && items == k.stats.received + k.stats.duplicates + k.stats.conflicts + k.stats.unknown
    && k.stats.lagEvents == Jumps(k.delivered)
  }

  predicate SinkKind(k: Sink, qos: Qos) {
    && k.stats.stale == (if qos == BestEffortLatest then k.stats.lagEvents else 0)
    && forall id :: id in k.locals ==> k.locals[id].qos == qos
  }

  lemma {:induction false} ItemBalances(k: Sink, item: Item, items: nat)
    requires SinkInv(k) && SinkBalanced(k, items)
    ensures SinkBalanced(OnItem(k, item), items + 1)
  {
    hide SinkInv, Only, Jumps, LagPerSubscription, Accept;
    if item.sub in k.locals && (!k.locals[item.sub].hasSequence || item.sequence > k.locals[item.sub].newest) {
      RemembersLast(k, item.sub);
      AcceptBalances(k, k.locals[item.sub], item, items);
    }
  }

  lemma {:induction false} RemembersLast(k: Sink, id: nat)
    requires SinkInv(k) && id in k.locals
    ensures Remembers(k.locals[id], Only(id, k.delivered))
  {
    hide Only, LagPerSubscription, Remembers, Increasing;
  }

  lemma {:induction false} AcceptBalances(k: Sink, l: Local, item: Item, items: nat)
    requires SinkBalanced(k, items) && Remembers(l, Only(item.sub, k.delivered))
    requires !l.hasSequence || item.sequence > l.newest
    ensures SinkBalanced(Accept(k, l, item), items + 1)
  {
    hide Only, Jumps;
    JumpsSnoc(k.delivered, item);
  }

  lemma {:induction false} JumpsSnoc(delivered: seq<Item>, item: Item)
    ensures var before := Only(item.sub, delivered);
            Jumps(delivered + [item])
            == Jumps(delivered)
               + if before != [] && item.sequence > before[|before| - 1].sequence + 1 then 1 else 0
  {
    hide Only;
    assert (delivered + [item])[..|delivered|] == delivered;
  }

  lemma {:induction false} ItemKind(k: Sink, item: Item, qos: Qos)
    requires SinkKind(k, qos)
    ensures SinkKind(OnItem(k, item), qos)
  {
  }

  lemma {:induction false} StepKind(k: Sink, step: SinkStep, qos: Qos)
    requires SinkKind(k, qos) && (step.NewStep? ==> step.qos == qos)
    ensures SinkKind(SinkNext(k, step), qos)
  {
    hide OnItem, Only;
    if step.ItemStep? {
      ItemKind(k, step.item, qos);
    }
  }

  lemma {:induction false} SinkRunBalances(k: Sink, steps: seq<SinkStep>, items: nat)
    requires SinkInv(k) && SinkBalanced(k, items)
    ensures SinkBalanced(SinkRun(k, steps), items + ItemCount(steps))
    decreases |steps|
  {
    hide SinkInv, OnItem, Only, Jumps;
    if steps != [] {
      if steps[0].ItemStep? {
        ItemBalances(k, steps[0].item, items);
      }
      SinkStepCounts(k, steps[0]);
      SinkRunBalances(SinkNext(k, steps[0]), steps[1..], items + if steps[0].ItemStep? then 1 else 0);
    }
  }

  lemma {:induction false} SinkStepCounts(k: Sink, step: SinkStep)
    requires SinkInv(k)
    ensures SinkInv(SinkNext(k, step))
  {
    hide Only, LagPerSubscription, OnItem;
    if step.ItemStep? {
      OnItemCounts(k, step.item);
    }
  }

  lemma {:induction false} SinkRunKind(k: Sink, steps: seq<SinkStep>, qos: Qos)
    requires SinkKind(k, qos) && OnlyKind(steps, qos)
    ensures SinkKind(SinkRun(k, steps), qos)
    decreases |steps|
  {
    hide SinkKind, SinkNext;
    if steps != [] {
      StepKind(k, steps[0], qos);
      SinkRunKind(SinkNext(k, steps[0]), steps[1..], qos);
    }
  }

  /** Against any peer every item is counted once, as received, repeated, conflicting or for no
      subscription; lag events count the deliveries that skipped something; and those are all
      stale if only keep-latest subscriptions are made, and none is if only reliable ones are. */
  lemma {:induction false} SinkBalance(steps: seq<SinkStep>, qos: Qos)
    ensures var k := SinkRun(NEW_SINK, steps);
            && ItemCount(steps) == k.stats.received + k.stats.duplicates + k.stats.conflicts + k.stats.unknown
            && k.stats.lagEvents == Jumps(k.delivered)
            && (OnlyKind(steps, qos) ==> k.stats.stale == if qos == BestEffortLatest then k.stats.lagEvents else 0)
  {
    hide SinkRun, Jumps, OnlyKind, SinkInv, SinkBalanced, SinkKind, ItemCount;
    NewSinkInv();
    IdleBalanced(NEW_SINK, qos);
    RunBalance(NEW_SINK, steps, qos);
  }

  lemma {:induction false} RunBalance(k: Sink, steps: seq<SinkStep>, qos: Qos)
    requires SinkInv(k) && SinkBalanced(k, 0) && SinkKind(k, qos)
    ensures var t := SinkRun(k, steps);
            && ItemCount(steps) == t.stats.received + t.stats.duplicates + t.stats.conflicts + t.stats.unknown
            && t.stats.lagEvents == Jumps(t.delivered)
            && (OnlyKind(steps, qos) ==> t.stats.stale == if qos == BestEffortLatest then t.stats.lagEvents else 0)
  {
    hide SinkRun, Jumps, OnlyKind, SinkInv, ItemCount;
    SinkRunBalances(k, steps, 0);
    if OnlyKind(steps, qos) {
      SinkRunKind(k, steps, qos);
    }
  }

  lemma {:induction false} IdleBalanced(k: Sink, qos: Qos)
    requires k.locals == map[] && k.delivered == [] && k.stats == SinkStats(0, 0, 0, 0, 0, 0, 0)
    ensures SinkBalanced(k, 0) && SinkKind(k, qos)
  {
  }

  /** At every step the peer is told about exactly the subscriptions that end in it, once each. */
  lemma {:induction false} LeavesTold(k: Sink, step: SinkStep)
    ensures var t := SinkNext(k, step);
            t.notices == k.notices + multiset(k.locals.Keys - t.locals.Keys)
  {
    hide Only;
    var t := SinkNext(k, step);
    var gone := k.locals.Keys - t.locals.Keys;
    if step.ItemStep? {
      assert gone == {} || gone == {step.item.sub};
    } else {
      assert gone == {} || gone == {step.id};
    }
  }
}

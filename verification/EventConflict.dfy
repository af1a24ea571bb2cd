/** When the items of an honest publisher end a subscription: sequences count per topic,
    but the subscriber compares them per subscription. */
module EventConflict {
  import opened Bytes
  import opened EventModel
  import opened EventSource
  import opened EventDelivery

  // ---- One local subscription --------------------------------------------

  function LocalOf(k: Sink, id: nat): Option<Local> {
    if id in k.locals then Some(k.locals[id]) else None
  }

  /** What an item of the subscription does to it. */
  function LocalStep(l: Option<Local>, item: Item): Option<Local> {
    if l.None? then None
    else if !l.value.hasSequence || item.sequence > l.value.newest then
      Some(l.value.(hasSequence := true, newest := item.sequence, lastEvent := item.event))
    else if item.sequence == l.value.newest && item.event == l.value.lastEvent then l
    else None
  }

  function LocalFold(l: Option<Local>, items: seq<Item>): Option<Local> {
    if items == [] then l else LocalStep(LocalFold(l, items[..|items| - 1]), items[|items| - 1])
  }

  lemma {:induction false} OnItemLocal(k: Sink, item: Item, id: nat)
    ensures LocalOf(OnItem(k, item), id) == if item.sub == id then LocalStep(LocalOf(k, id), item) else LocalOf(k, id)
  {
    hide LagStats;
  }

  lemma {:induction false} FoldSnoc(l: Option<Local>, items: seq<Item>, item: Item)
    ensures LocalFold(l, items + [item]) == LocalStep(LocalFold(l, items), item)
  {
    hide LocalStep;
    assert (items + [item])[..|items|] == items;
  }

  // ---- Arrivals ----------------------------------------------------------

  function Arrivals(n: nat): seq<EventStep> {
    if n == 0 then [] else Arrivals(n - 1) + [Arrive]
  }

  lemma {:induction false} RunSnoc(w: EventSystem, steps: seq<EventStep>, step: EventStep)
    ensures EventRun(w, steps + [step]) == EventNext(EventRun(w, steps), step)
    decreases |steps|
  {
    hide EventNext;
    if steps == [] {
      assert steps + [step] == [step] && [step][1..] == [];
      assert EventRun(w, [step]) == EventRun(EventNext(w, step), []);
    } else {
      assert (steps + [step])[1..] == steps[1..] + [step];
      RunSnoc(EventNext(w, steps[0]), steps[1..], step);
    }
  }

  lemma {:induction false} RunAppend(w: EventSystem, a: seq<EventStep>, b: seq<EventStep>)
    ensures EventRun(w, a + b) == EventRun(EventRun(w, a), b)
    decreases |a|
  {
    hide EventNext;
    if a == [] {
      assert a + b == b;
    } else {
      assert (a + b)[1..] == a[1..] + b;
      RunAppend(EventNext(w, a[0]), a[1..], b);
    }
  }

  /** The next `n` items arrive: only those of the subscription matter to it. */
  lemma {:induction false} Arriving(w: EventSystem, n: nat, id: nat)
    requires w.arrived + n <= |w.source.sent|
    ensures var t := EventRun(w, Arrivals(n));
            && t.source == w.source && t.arrived == w.arrived + n
            && LocalOf(t.sink, id)
               == LocalFold(LocalOf(w.sink, id), Only(id, w.source.sent[w.arrived..w.arrived + n]))
  {
    hide EventRun, OnItem, LocalOf, LocalFold, Only;
    var sent := w.source.sent;
    if n == 0 {
      EmptyFold(w, id);
      assert sent[w.arrived..w.arrived + 0] == [];
    } else {
      Arriving(w, n - 1, id);
      var t := EventRun(w, Arrivals(n - 1));
      var item := sent[w.arrived + n - 1];
      RunSnoc(w, Arrivals(n - 1), Arrive);
      OnItemLocal(t.sink, item, id);
      var before := sent[w.arrived..w.arrived + n - 1];
      assert sent[w.arrived..w.arrived + n] == before + [item];
      OnlySnoc(id, before, item);
      FoldSnoc(LocalOf(w.sink, id), Only(id, before), item);
      assert Only(id, before) + [] == Only(id, before);
    }
  }

  lemma {:induction false} EmptyFold(w: EventSystem, id: nat)
    ensures EventRun(w, Arrivals(0)) == w && Only(id, []) == []
    ensures LocalFold(LocalOf(w.sink, id), []) == LocalOf(w.sink, id)
  {
  }

  // ---- Draining ----------------------------------------------------------

  function Prunes(n: nat): seq<EventStep> {
    if n == 0 then [] else [AtSource(PruneStep)] + Prunes(n - 1)
  }

  /** A drain empties the queue or uses up an answer of the channel. */
  lemma {:induction false} DrainAtEmpties(s: Source, i: nat)
    requires i < |s.remotes|
    ensures var t := DrainAt(s, i);
            && |t.script| <= |s.script| && (t.remotes[i].staged == [] || |t.script| < |s.script|)
            && forall k :: 0 <= k < |s.remotes| && k != i ==> t.remotes[k] == s.remotes[k]
    decreases |s.remotes[i].staged|
  {
    if s.remotes[i].staged != [] && Admits(s) {
      DrainAtEmpties(SendFront(s, i), i);
    }
  }

  lemma {:induction false} DrainUpToEmpties(s: Source, n: nat)
    requires n <= |s.remotes|
    ensures var t := DrainUpTo(s, n);
            && |t.script| <= |s.script|
            && (|t.script| < |s.script| || forall i :: 0 <= i < n ==> t.remotes[i].staged == [])
  {
    hide DrainAt;
    if n > 0 {
      DrainUpToEmpties(s, n - 1);
      DrainAtEmpties(DrainUpTo(s, n - 1), n - 1);
    }
  }

  lemma {:induction false} PruneEmpties(s: Source, id: nat)
    requires SourceInv(s)
    ensures var t := Prune(s);
            |t.script| <= |s.script| && (Waiting(t, id) == [] || |t.script| < |s.script|)
  {
    hide DrainUpTo, Find, SourceInv;
    DrainUpToEmpties(s, |s.remotes|);
    var t := Prune(s);
    if Find(t.remotes, id).Some? {
      var i := IndexOf(t.remotes, id);
    }
  }

  /** After one drain more than the channel has answers left, nothing waits. */
  lemma {:induction false} Pruning(w: EventSystem, n: nat, id: nat)
    requires SourceInv(w.source) && |w.source.script| < n
    ensures var t := EventRun(w, Prunes(n));
            && Drains(w.source, t.source, id) && Waiting(t.source, id) == []
            && t.sink == w.sink && t.arrived == w.arrived
    decreases n
  {
    hide EventRun, SourceInv, Drains, Waiting, Prune;
    var w1 := w.(source := Prune(w.source));
    PruneDrains(w.source, id);
    PruneEmpties(w.source, id);
    DrainsInv(w.source, w1.source, id);
    RunAppend(w, [AtSource(PruneStep)], Prunes(n - 1));
    RunOne(w, AtSource(PruneStep));
    if |w1.source.script| < n - 1 {
      Pruning(w1, n - 1, id);
      DrainsTransitive(w.source, w1.source, EventRun(w1, Prunes(n - 1)).source, id);
    } else {
      MorePrunes(w1, n - 1, id);
      DrainsTransitive(w.source, w1.source, EventRun(w1, Prunes(n - 1)).source, id);
    }
  }

  lemma {:induction false} RunOne(w: EventSystem, step: EventStep)
    ensures EventRun(w, [step]) == EventNext(w, step)
  {
    hide EventNext;
    assert [step][1..] == [];
    assert EventRun(w, [step]) == EventRun(EventNext(w, step), []);
  }

  /** Draining again keeps an empty queue empty. */
  lemma {:induction false} MorePrunes(w: EventSystem, n: nat, id: nat)
    requires SourceInv(w.source) && Waiting(w.source, id) == []
    ensures var t := EventRun(w, Prunes(n));
            && Drains(w.source, t.source, id) && Waiting(t.source, id) == []
            && t.sink == w.sink && t.arrived == w.arrived
    decreases n
  {
    hide EventRun, SourceInv, Drains, Waiting, Prune;
    SelfDrains(w.source, id);
    if n == 0 {
      EmptyFold(w, id);
      assert Prunes(0) == Arrivals(0);
    } else {
      var w1 := w.(source := Prune(w.source));
      PruneDrains(w.source, id);
      DrainsInv(w.source, w1.source, id);
      StaysEmpty(w.source, w1.source, id);
      RunAppend(w, [AtSource(PruneStep)], Prunes(n - 1));
      RunOne(w, AtSource(PruneStep));
      MorePrunes(w1, n - 1, id);
      DrainsTransitive(w.source, w1.source, EventRun(w1, Prunes(n - 1)).source, id);
    }
  }

  lemma {:induction false} StaysEmpty(s: Source, t: Source, id: nat)
    requires Drains(s, t, id) && Waiting(s, id) == []
    ensures Waiting(t, id) == []
  {
    hide SourceInv, Find;
    OnlyPrefixes(id, s.sent, t.sent);
  }

  lemma {:induction false} OnlyPrefixes(id: nat, x: seq<Item>, y: seq<Item>)
    requires x <= y
    ensures Only(id, x) <= Only(id, y) && Only(id, y) == Only(id, x) + Only(id, y[|x|..])
    decreases |y|
  {
    if |x| == |y| {
      assert x == y && y[|x|..] == [];
    } else {
      var n := |y| - 1;
      assert y[..n][|x|..] + [y[n]] == y[|x|..] && y[..n] + [y[n]] == y;
      OnlyPrefixes(id, x, y[..n]);
      OnlySnoc(id, y[..n], y[n]);
      OnlySnoc(id, y[..n][|x|..], y[n]);
      hide Only;
      var last := if y[n].sub == id then [y[n]] else [];
      assert Only(id, x) + Only(id, y[..n][|x|..]) + last == Only(id, x) + (Only(id, y[..n][|x|..]) + last);
    }
  }

  // ---- One event through -------------------------------------------------

  /** Nothing of the subscription is waiting or in flight. */
  predicate Idle(w: EventSystem, id: nat) {
    && SourceInv(w.source) && Find(w.source.remotes, id).Some? && Waiting(w.source, id) == []
    && w.arrived == |w.source.sent|
  }

  /** Drain, and let everything sent arrive. */
  function Flush(drains: nat, items: nat): seq<EventStep> {
    Prunes(drains) + Arrivals(items)
  }

  lemma {:induction false} Flushing(w: EventSystem, id: nat) returns (steps: seq<EventStep>)
    requires SourceInv(w.source) && Find(w.source.remotes, id).Some? && w.arrived <= |w.source.sent|
    ensures var t := EventRun(w, steps);
            && Idle(t, id) && Drains(w.source, t.source, id)
            && Line(w.source, id) == Only(id, t.source.sent)
            && LocalOf(t.sink, id) == LocalFold(LocalOf(w.sink, id), Only(id, t.source.sent[w.arrived..]))
    ensures exists drains, items :: steps == Flush(drains, items)
  {
    hide EventRun, SourceInv, Find, Only, LocalOf, LocalFold, OnItem;
    var n := |w.source.script| + 1;
    Pruning(w, n, id);
    var w1 := EventRun(w, Prunes(n));
    var items := |w1.source.sent| - w.arrived;
    Arriving(w1, items, id);
    assert w1.source.sent[w.arrived..w.arrived + items] == w1.source.sent[w.arrived..];
    RunAppend(w, Prunes(n), Arrivals(items));
    steps := Flush(n, items);
    assert Only(id, w1.source.sent) + [] == Only(id, w1.source.sent);
  }

  /** A matching event is numbered, sent and judged by the subscriber. */
  lemma {:induction false} OneThrough(w: EventSystem, id: nat, e: Event) returns (steps: seq<EventStep>)
    requires Idle(w, id) && id !in e.unencodable
    requires var r := Find(w.source.remotes, id).value; r.id == id && Matches(r.pattern, r.prefix, e.topic)
    ensures var t := EventRun(w, steps);
            && Idle(t, id) && SameBinding(Find(w.source.remotes, id).value, Find(t.source.remotes, id).value)
            && t.source.sequences == w.source.sequences[e.topic := TopicSequence(w.source, e.topic) + 1]
            && LocalOf(t.sink, id) == LocalStep(LocalOf(w.sink, id), ItemFor(id, NextPublication(w.source, e)))
    ensures exists drains, items :: steps == [AtSource(PublishStep(e))] + Flush(drains, items)
  {
    hide EventRun, SourceInv, Only, LocalOf, LocalFold, OnItem, Matches, Publish, Flush, LocalStep, Find, Idle;
    var w1 := EventNext(w, AtSource(PublishStep(e)));
    PublishedOne(w, id, e);
    var rest := Flushing(w1, id);
    steps := [AtSource(PublishStep(e))] + rest;
    RunAppend(w, [AtSource(PublishStep(e))], rest);
    RunOne(w, AtSource(PublishStep(e)));
    var t := EventRun(w1, rest);
    var item := ItemFor(id, NextPublication(w.source, e));
    IdleArrived(w, id);
    SentSince(w.source, w1.source, t.source, id, item);
    FoldSnoc(LocalOf(w.sink, id), [], item);
    assert [] + [item] == [item];
    EmptyFold(w, id);
  }

  lemma {:induction false} IdleArrived(w: EventSystem, id: nat)
    requires Idle(w, id)
    ensures w.arrived == |w.source.sent| && SourceInv(w.source) && Waiting(w.source, id) == []
    ensures Find(w.source.remotes, id).Some?
  {
    hide SourceInv, Find;
  }

  lemma {:induction false} SentSince(s: Source, p: Source, t: Source, id: nat, item: Item)
    requires s.sent <= p.sent && Drains(p, t, id) && Line(p, id) == Only(id, s.sent) + [item]
    requires Line(p, id) == Only(id, t.sent)
    ensures Only(id, t.sent[|s.sent|..]) == [item]
  {
    hide Only, SourceInv, Find, Line;
    OnlyPrefixes(id, s.sent, t.sent);
    assert (Only(id, s.sent) + [item])[|Only(id, s.sent)|..] == [item];
    assert (Only(id, s.sent) + Only(id, t.sent[|s.sent|..]))[|Only(id, s.sent)|..] == Only(id, t.sent[|s.sent|..]);
  }

  lemma {:induction false} PublishedOne(w: EventSystem, id: nat, e: Event)
    requires Idle(w, id) && id !in e.unencodable
    requires var r := Find(w.source.remotes, id).value; r.id == id && Matches(r.pattern, r.prefix, e.topic)
    ensures var t := EventNext(w, AtSource(PublishStep(e)));
            && SourceInv(t.source) && Find(t.source.remotes, id).Some? && t.arrived == w.arrived <= |t.source.sent|
            && SameBinding(Find(w.source.remotes, id).value, Find(t.source.remotes, id).value)
            && t.sink == w.sink && w.source.sent <= t.source.sent
            && t.source.sequences == w.source.sequences[e.topic := TopicSequence(w.source, e.topic) + 1]
            && Line(t.source, id) == Only(id, w.source.sent) + [ItemFor(id, NextPublication(w.source, e))]
  {
    hide SourceInv, Only, Matches, Fanned, Prune, Find;
    var s := w.source;
    var f := Fanned(s, e);
    FanOut(s, e, id);
    FannedInv(s, e);
    LineAfter(s, e, id);
    PruneDrains(f, id);
    DrainsInv(f, Prune(f), id);
    assert Only(id, s.sent) + [] == Only(id, s.sent);
  }

  // ---- Two topics --------------------------------------------------------

  /** Only publications, drains and arrivals. */
  predicate Ordinary(step: EventStep) {
    step == Arrive || (step.AtSource? && (step.step.PublishStep? || step.step.PruneStep?))
  }

  predicate AllOrdinary(steps: seq<EventStep>) {
    forall i :: 0 <= i < |steps| ==> Ordinary(steps[i])
  }

  lemma {:induction false} FlushOrdinary(drains: nat, items: nat)
    ensures AllOrdinary(Flush(drains, items))
  {
    if drains > 0 {
      FlushOrdinary(drains - 1, 0);
      assert Prunes(drains - 1) + [] == Prunes(drains - 1);
    }
    if items > 0 {
      FlushOrdinary(0, items - 1);
      assert [] + Arrivals(items - 1) == Arrivals(items - 1);
    }
  }

  lemma {:induction false} ThroughOrdinary(e: Event, steps: seq<EventStep>)
    requires exists drains, items :: steps == [AtSource(PublishStep(e))] + Flush(drains, items)
    ensures AllOrdinary(steps)
  {
    hide Flush;
    var drains, items :| steps == [AtSource(PublishStep(e))] + Flush(drains, items);
    FlushOrdinary(drains, items);
  }

  /** If the pattern matches two topics, then whatever else the publisher, the channel and
      the other subscriptions are doing, an event on each of them can end the subscription
      as a conflict. */
  lemma {:induction false} TwoTopicsConflict(w: EventSystem, r: Remote, ahead: Event, behind: Event)
    returns (steps: seq<EventStep>)
    requires JustSubscribed(w, r)
    requires Matches(r.pattern, r.prefix, ahead.topic) && Matches(r.pattern, r.prefix, behind.topic)
    requires ahead.topic != behind.topic && ahead.event != behind.event
    requires r.id !in ahead.unencodable && r.id !in behind.unencodable
    requires TopicSequence(w.source, behind.topic) <= TopicSequence(w.source, ahead.topic)
    ensures AllOrdinary(steps) && r.id !in EventRun(w, steps).sink.locals
  {
    hide Matches, EventRun, SourceInv, Only, LocalFold, Idle, Find, Flush;
    var first := FirstFlush(w, r);
    var w1 := EventRun(w, first);
    var second := OneThrough(w1, r.id, ahead);
    var w2 := EventRun(w1, second);
    IdleArrived(w1, r.id);
    IdleArrived(w2, r.id);
    BoundSame(r, Find(w1.source.remotes, r.id).value, Find(w2.source.remotes, r.id).value);
    var third := OneThrough(w2, r.id, behind);
    ThroughOrdinary(ahead, second);
    ThroughOrdinary(behind, third);
    steps := first + (second + third);
    RunAppend(w, first, second + third);
    RunAppend(w1, second, third);
    assert LocalOf(EventRun(w2, third).sink, r.id) == None;
  }

  lemma {:induction false} BoundSame(r: Remote, a: Remote, b: Remote)
    requires SameBinding(r, a) && SameBinding(a, b)
    ensures b.id == r.id && b.pattern == r.pattern && b.prefix == r.prefix
  {
  }

  /** Let everything sent before arrive; nothing of it is for the new subscription. */
  lemma {:induction false} FirstFlush(w: EventSystem, r: Remote) returns (steps: seq<EventStep>)
    requires JustSubscribed(w, r)
    ensures var t := EventRun(w, steps);
            && AllOrdinary(steps) && Idle(t, r.id) && SameBinding(r, Find(t.source.remotes, r.id).value)
            && t.source.sequences == w.source.sequences && LocalOf(t.sink, r.id) == LocalOf(w.sink, r.id)
  {
    hide EventRun, SourceInv, Only, LocalOf, LocalFold, LogInv, Find, Flush;
    steps := Flushing(w, r.id);
    var t := EventRun(w, steps);
    assert Line(w.source, r.id) == [] + [];
    var drains, items :| steps == Flush(drains, items);
    FlushOrdinary(drains, items);
    OnlyPrefixes(r.id, t.source.sent[..w.arrived], t.source.sent);
    assert Only(r.id, t.source.sent[w.arrived..]) == [];
    EmptyFold(w, r.id);
  }

  /** Steps that neither end the subscription from outside nor reuse its id. */
  predicate Undropped(step: EventStep, id: nat) {
    && !Ends(step, id)
    && (step.LocalSubscribe? ==> step.id != id)
    && (step.AtSource? && step.step.SubscribeStep? ==> step.step.remote.id != id)
  }

  /** The subscriber can take an honest publisher's item for a conflict exactly when it
      subscribed by prefix: an exact subscription never loses its place that way, and a
      prefix one always can. */
  lemma {:induction false} ConflictExact(w: EventSystem, r: Remote)
    requires JustSubscribed(w, r)
    ensures (exists steps :: (forall i :: 0 <= i < |steps| ==> Undropped(steps[i], r.id))
                             && r.id !in EventRun(w, steps).sink.locals)
            <==> r.prefix
  {
    hide JustSubscribed, EventRun;
    if r.prefix {
      var steps := PrefixConflict(w, r);
      assert forall i :: 0 <= i < |steps| ==> Undropped(steps[i], r.id);
    } else {
      forall steps: seq<EventStep> | forall i :: 0 <= i < |steps| ==> Undropped(steps[i], r.id)
        ensures r.id in EventRun(w, steps).sink.locals
      {
        ExactStays(w, r, steps);
      }
    }
  }

  lemma {:induction false} PrefixConflict(w: EventSystem, r: Remote) returns (steps: seq<EventStep>)
    requires JustSubscribed(w, r) && r.prefix
    ensures AllOrdinary(steps) && r.id !in EventRun(w, steps).sink.locals
  {
    hide JustSubscribed, EventRun, TopicSequence;
    var here, below := Event(r.pattern, [], 0, {}), Event(r.pattern + ".x", [], 1, {});
    assert below.topic[..|r.pattern|] == r.pattern && below.topic[|r.pattern|] == '.';
    if TopicSequence(w.source, below.topic) <= TopicSequence(w.source, here.topic) {
      steps := TwoTopicsConflict(w, r, here, below);
    } else {
      steps := TwoTopicsConflict(w, r, below, here);
    }
  }

  lemma {:induction false} ExactStays(w: EventSystem, r: Remote, steps: seq<EventStep>)
    requires JustSubscribed(w, r) && !r.prefix
    requires forall i :: 0 <= i < |steps| ==> Undropped(steps[i], r.id)
    ensures r.id in EventRun(w, steps).sink.locals
  {
    hide JustSubscribed, EventRun, Genuine, LogInv, TopicSequence, Only;
    assert forall i :: 0 <= i < |steps| ==> Around(steps[i], r, r.pattern, false);
    EventOrdering(w, r, r.pattern, false, steps);
  }
}

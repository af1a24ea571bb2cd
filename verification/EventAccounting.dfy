/** What the counters of both roles add up to, and what a keep-latest subscriber missed. */
module EventAccounting {
  import opened Bytes
  import opened EventModel
  import opened EventSource
  import opened EventDelivery

  // ---- The subscriber's counters -----------------------------------------

  /** Sequences skipped between neighbours. */
  function Lag(items: seq<Item>): int {
    if |items| < 2 then 0
    else Lag(items[..|items| - 1]) + items[|items| - 1].sequence - items[|items| - 2].sequence - 1
  }

  /** Sequences skipped, each item compared with the previous one of its subscription. */
  function LagPerSubscription(items: seq<Item>): int {
    if items == [] then 0
    else
      var n := |items| - 1;
      var before := Only(items[n].sub, items[..n]);
      LagPerSubscription(items[..n])
      + if before == [] then 0 else items[n].sequence - before[|before| - 1].sequence - 1
  }

  /** Items received and sequences skipped make up the range from first to newest. */
  lemma {:induction false} LagSpan(items: seq<Item>)
    requires items != []
    ensures |items| + Lag(items) == items[|items| - 1].sequence - items[0].sequence + 1
  {
    if |items| > 1 {
      LagSpan(items[..|items| - 1]);
    }
  }

  /** The sink's memory and counters agree with what it delivered. */
  predicate SinkInv(k: Sink) {
    && k.stats.received == |k.delivered|
    && k.stats.lagTotal == LagPerSubscription(k.delivered)
    && (forall id :: id in k.locals ==> Remembers(k.locals[id], Only(id, k.delivered)))
    && forall id :: id in k.locals ==> Increasing(Only(id, k.delivered))
  }

  lemma {:induction false} AcceptCounts(k: Sink, item: Item)
    requires SinkInv(k) && item.sub in k.locals
    requires !k.locals[item.sub].hasSequence || item.sequence > k.locals[item.sub].newest
    ensures SinkInv(Accept(k, k.locals[item.sub], item))
  {
    hide Only;
    var l := k.locals[item.sub];
    var t := Accept(k, l, item);
    assert t.delivered[..|k.delivered|] == k.delivered;
    forall id | id in t.locals
      ensures Remembers(t.locals[id], Only(id, t.delivered)) && Increasing(Only(id, t.delivered))
    {
      OnlySnoc(id, k.delivered, item);
      var before := Only(id, k.delivered);
      if id == item.sub {
        assert (before + [item])[|before|] == item;
      } else {
        assert before + [] == before;
      }
    }
  }

  lemma {:induction false} OnItemCounts(k: Sink, item: Item)
    requires SinkInv(k)
    ensures SinkInv(OnItem(k, item))
  {
    hide Only, LagPerSubscription, Accept, Remembers, Increasing;
    if item.sub in k.locals && (!k.locals[item.sub].hasSequence || item.sequence > k.locals[item.sub].newest) {
      AcceptCounts(k, item);
    }
  }

  /** What a peer and the application can do to the sink: any item at all, a subscription
      under a fresh id, an unsubscription. */
  datatype SinkStep = ItemStep(item: Item) | NewStep(id: nat, pattern: string, qos: Qos) | DropStep(id: nat)

  function SinkNext(k: Sink, step: SinkStep): Sink {
    match step
    case ItemStep(item) => OnItem(k, item)
    case NewStep(id, pattern, qos) =>
      if Only(id, k.delivered) == [] then Subscribe(k, id, pattern, qos) else k
    case DropStep(id) => Unsubscribe(k, id)
  }

  function SinkRun(k: Sink, steps: seq<SinkStep>): Sink
    decreases |steps|
  {
    if steps == [] then k else SinkRun(SinkNext(k, steps[0]), steps[1..])
  }

  lemma {:induction false} SinkRunCounts(k: Sink, steps: seq<SinkStep>)
    requires SinkInv(k)
    ensures SinkInv(SinkRun(k, steps))
    decreases |steps|
  {
    hide Only, LagPerSubscription, OnItem;
    if steps != [] {
      if steps[0].ItemStep? {
        OnItemCounts(k, steps[0].item);
      }
      SinkRunCounts(SinkNext(k, steps[0]), steps[1..]);
    }
  }

  const NEW_SINK := Sink(map[], SinkStats(0, 0, 0, 0, 0, 0, 0), [], multiset{})

  /** Against any peer: every item counted as received was delivered, the lag counter is
      the sum of the gaps of each subscription, and of a live subscription what was
      received and what was skipped make up the range from its first item to its newest. */
  lemma {:induction false} SinkAccounting(steps: seq<SinkStep>, id: nat)
    ensures var k := SinkRun(NEW_SINK, steps);
            var got := Only(id, k.delivered);
            && k.stats.received == |k.delivered|
            && k.stats.lagTotal == LagPerSubscription(k.delivered)
            && (id in k.locals && got != [] ==>
                  |got| + Lag(got) == k.locals[id].newest - got[0].sequence + 1)
  {
    hide Only, LagPerSubscription, SinkRun, Lag;
    NewSinkInv();
    SinkRunCounts(NEW_SINK, steps);
    var got := Only(id, SinkRun(NEW_SINK, steps).delivered);
    if got != [] {
      LagSpan(got);
    }
  }

  lemma {:induction false} NewSinkInv()
    ensures SinkInv(NEW_SINK)
  {
  }

  // ---- The source's counters ---------------------------------------------

  /** The counters of sent and overwritten items count exactly those items. */
  predicate SourceCounts(s: Source) {
    s.stats.itemsSent == |s.sent| && s.stats.overwrites == s.stats.drops == |s.overwritten|
  }

  lemma {:induction false} StageCounts(s: Source, n: nat, p: Publication, u: set<nat>)
    requires SourceCounts(s) && n <= |s.remotes|
    ensures SourceCounts(StageUpTo(s, n, p, u).0)
  {
    hide StageInto;
    if n > 0 {
      StageCounts(s, n - 1, p, u);
    }
  }

  lemma {:induction false} TerminateCounts(s: Source, ids: seq<nat>)
    requires SourceCounts(s)
    ensures SourceCounts(TerminateAll(s, ids))
  {
    hide Without;
    if ids != [] {
      TerminateCounts(s, ids[..|ids| - 1]);
    }
  }

  lemma {:induction false} DrainCounts(s: Source, i: nat)
    requires SourceCounts(s) && i < |s.remotes|
    ensures SourceCounts(DrainAt(s, i))
    decreases |s.remotes[i].staged|
  {
    if s.remotes[i].staged != [] && Admits(s) {
      DrainCounts(SendFront(s, i), i);
    }
  }

  lemma {:induction false} PruneCounts(s: Source, n: nat)
    requires SourceCounts(s) && n <= |s.remotes|
    ensures SourceCounts(DrainUpTo(s, n))
  {
    hide DrainAt;
    if n > 0 {
      PruneCounts(s, n - 1);
      DrainCounts(DrainUpTo(s, n - 1), n - 1);
    }
  }

  lemma {:induction false} NextCounts(s: Source, step: SourceStep)
    requires SourceCounts(s)
    ensures SourceCounts(SourceNext(s, step))
  {
    hide StageUpTo, TerminateAll, DrainUpTo, Find, Without, Insert;
    match step
    case PublishStep(e) =>
      StageCounts(Numbered(s, e), |s.remotes|, NextPublication(s, e), e.unencodable);
      TerminateCounts(StageAll(s, e).0, StageAll(s, e).1.overflowed);
      PruneCounts(Fanned(s, e), |Fanned(s, e).remotes|);
    case PruneStep => PruneCounts(s, |s.remotes|);
    case _ =>
  }

  lemma {:induction false} RunCounts(s: Source, steps: seq<SourceStep>)
    requires SourceCounts(s)
    ensures SourceCounts(SourceRun(s, steps))
    decreases |steps|
  {
    hide SourceNext, SourceCounts;
    if steps != [] {
      NextCounts(s, steps[0]);
      RunCounts(SourceNext(s, steps[0]), steps[1..]);
    }
  }

  lemma {:induction false} NextLog(s: Source, step: SourceStep)
    requires SourceInv(s) && LogInv(s)
    ensures LogInv(SourceNext(s, step))
  {
    hide SourceInv, Fanned, Prune, Find, Without, Insert, Line;
    match step
    case PublishStep(e) =>
      FannedInv(s, e);
      FannedLog(s, e, "");
      PruneDrains(Fanned(s, e), 0);
    case PruneStep => PruneDrains(s, 0);
    case _ =>
  }

  lemma {:induction false} RunLog(s: Source, steps: seq<SourceStep>)
    requires SourceInv(s) && LogInv(s)
    ensures LogInv(SourceRun(s, steps))
    decreases |steps|
  {
    hide SourceNext, SourceInv, LogInv;
    if steps != [] {
      SourceNextInv(s, steps[0]);
      NextLog(s, steps[0]);
      RunLog(SourceNext(s, steps[0]), steps[1..]);
    }
  }

  /** Every reachable source numbers each topic without reuse and counts what it sent and
      what it overwrote. */
  lemma {:induction false} SourceAccounting(cfg: ValidConfig, script: seq<bool>, steps: seq<SourceStep>)
    ensures var s := SourceRun(NewSource(cfg, script), steps);
            LogInv(s) && s.stats.itemsSent == |s.sent| && s.stats.overwrites == |s.overwritten|
  {
    hide SourceRun;
    NewSourceInv(cfg, script);
    RunCounts(NewSource(cfg, script), steps);
    RunLog(NewSource(cfg, script), steps);
  }

  // ---- Loss accounting ---------------------------------------------------

  function Marks(items: seq<Item>, above: nat): set<nat> {
    set i | 0 <= i < |items| && items[i].sequence > above :: items[i].sequence
  }

  function CountAbove(items: seq<Item>, above: nat): nat {
    if items == [] then 0
    else CountAbove(items[..|items| - 1], above) + if items[|items| - 1].sequence > above then 1 else 0
  }

  lemma {:induction false} MarksCount(items: seq<Item>, above: nat)
    requires Increasing(items)
    ensures |Marks(items, above)| == CountAbove(items, above)
  {
    hide Marks;
    if items == [] {
      NoMarks(above);
    } else {
      var n := |items| - 1;
      MarksCount(items[..n], above);
      MarksSnoc(items, above);
      LastMark(items, above);
    }
  }

  lemma {:induction false} NoMarks(above: nat)
    ensures Marks([], above) == {}
  {
  }

  lemma {:induction false} MarksSnoc(items: seq<Item>, above: nat)
    requires items != []
    ensures var last := items[|items| - 1].sequence;
            Marks(items, above) == Marks(items[..|items| - 1], above) + if last > above then {last} else {}
  {
    var n := |items| - 1;
    assert forall i :: 0 <= i < n ==> items[..n][i] == items[i];
  }

  lemma {:induction false} LastMark(items: seq<Item>, above: nat)
    requires items != [] && Increasing(items)
    ensures items[|items| - 1].sequence !in Marks(items[..|items| - 1], above)
  {
  }

  /** The numbers above `low` up to `high`. */
  function Range(low: nat, high: nat): (r: set<nat>)
    ensures forall q :: q in r <==> low < q <= high
    ensures low <= high ==> |r| == high - low
  {
    if high <= low then {} else Range(low, high - 1) + {high}
  }

  lemma {:induction false} AllAbove(items: seq<Item>, above: nat)
    requires Increasing(items) && items != [] && items[0].sequence == above
    ensures CountAbove(items, above) == |items| - 1
  {
    if |items| > 1 {
      assert Increasing(items[..|items| - 1]);
      AllAbove(items[..|items| - 1], above);
    } else {
      assert items[..0] == [];
    }
  }

  /** In a partitioned range, what is missing from the line above its first item was
      overwritten, one for one. */
  lemma {:induction false} SkippedWereOverwritten(line: seq<Item>, over: seq<Item>, start: nat, top: nat)
    requires Partitioned(line, over, start, top) && Increasing(line) && line != [] && start < line[0].sequence
    requires forall i :: 0 <= i < |line| ==> line[i].sequence <= top
    ensures Lag(line) == CountAbove(over, line[0].sequence)
    ensures line[|line| - 1].sequence == top
  {
    hide Lag, CountAbove, Has;
    var first := line[0].sequence;
    LagSpan(line);
    MarksCount(line, first);
    MarksCount(over, first);
    AllAbove(line, first);
    var x, y := Marks(line, first), Marks(over, first);
    MarksPartition(line, over, start, top, first);
    assert |x + y| == |x| + |y| && x + y == Range(first, top);
  }

  lemma {:induction false} MarksPartition(line: seq<Item>, over: seq<Item>, start: nat, top: nat, first: nat)
    requires Partitioned(line, over, start, top) && start <= first
    requires forall i :: 0 <= i < |line| ==> line[i].sequence <= top
    ensures Marks(line, first) !! Marks(over, first)
    ensures Marks(line, first) + Marks(over, first) == Range(first, top)
  {
    forall q | first < q <= top
      ensures (q in Marks(line, first)) != (q in Marks(over, first))
    {
      assert Has(line, q) <==> q in Marks(line, first);
      assert Has(over, q) <==> q in Marks(over, first);
    }
  }

  /** Nothing of the subscription is waiting or in flight, and it has received something. */
  predicate Settled(t: EventSystem, id: nat) {
    && Find(t.source.remotes, id).Some? && id in t.sink.locals
    && Waiting(t.source, id) == [] && t.arrived == |t.source.sent|
    && Only(id, t.sink.delivered) != []
  }

  /** At rest, a keep-latest subscription whose items all encode has been told the newest
      sequence, and every sequence it skipped since its first item was overwritten at the
      source, one for one. */
  lemma {:induction false} LossAccounting(w: EventSystem, r: Remote, topic: string, steps: seq<EventStep>)
    requires JustSubscribed(w, r) && Matches(r.pattern, r.prefix, topic) && r.qos == BestEffortLatest
    requires forall i :: 0 <= i < |steps| ==> Around(steps[i], r, topic, true)
    ensures var t := EventRun(w, steps);
            var got := Only(r.id, t.sink.delivered);
            Settled(t, r.id) ==>
              && got[|got| - 1].sequence == TopicSequence(t.source, topic)
              && Lag(got) == CountAbove(Only(r.id, t.source.overwritten), got[0].sequence)
              && |got| + Lag(got) == TopicSequence(t.source, topic) - got[0].sequence + 1
  {
    hide EventRun, Around, Matches, Only, Find, LogInv, SourceInv, TopicSequence, Published, Lag, CountAbove,
      Partitioned;
    var start := TopicSequence(w.source, topic);
    JustTracked(w, r, topic);
    EventRunTrack(w, steps, r, topic, start, true);
    var t := EventRun(w, steps);
    var got := Only(r.id, t.sink.delivered);
    if Settled(t, r.id) {
      assert t.source.sent[..t.arrived] == t.source.sent;
      assert Line(t.source, r.id) == got;
      SkippedWereOverwritten(got, Only(r.id, t.source.overwritten), start, TopicSequence(t.source, topic));
      LagSpan(got);
    }
  }

  /** While a keep-latest subscription lasts, every publication since it began is on the
      wire, waiting or overwritten, and is counted once. */
  lemma {:induction false} StagedOnce(w: EventSystem, r: Remote, topic: string, steps: seq<EventStep>)
    requires JustSubscribed(w, r) && Matches(r.pattern, r.prefix, topic) && r.qos == BestEffortLatest
    requires forall i :: 0 <= i < |steps| ==> Around(steps[i], r, topic, true)
    ensures var s := EventRun(w, steps).source;
            var start := TopicSequence(w.source, topic);
            Find(s.remotes, r.id).Some? ==>
              |Only(r.id, s.sent)| + |Only(r.id, s.overwritten)| + |Waiting(s, r.id)|
              == TopicSequence(s, topic) - start
  {
    hide EventRun, Around, Matches, Only, Find, LogInv, SourceInv, TopicSequence, Published, CountAbove, Partitioned,
      Has, Marks;
    var start := TopicSequence(w.source, topic);
    JustTracked(w, r, topic);
    EventRunTrack(w, steps, r, topic, start, true);
    var s := EventRun(w, steps).source;
    if Find(s.remotes, r.id).Some? {
      PartitionCounts(Only(r.id, s.sent), Waiting(s, r.id), Only(r.id, s.overwritten), start, TopicSequence(s, topic));
    }
  }

  lemma {:induction false} CountAll(items: seq<Item>, above: nat)
    requires forall i :: 0 <= i < |items| ==> items[i].sequence > above
    ensures CountAbove(items, above) == |items|
  {
    if items != [] {
      CountAll(items[..|items| - 1], above);
    }
  }

  lemma {:induction false} PartitionCounts(sent: seq<Item>, waiting: seq<Item>, over: seq<Item>, start: nat, top: nat)
    requires Partitioned(sent + waiting, over, start, top) && Increasing(sent + waiting) && start <= top
    requires forall i :: 0 <= i < |sent + waiting| ==> start < (sent + waiting)[i].sequence <= top
    ensures |sent| + |over| + |waiting| == top - start
  {
    hide CountAbove, Has, Marks;
    var line := sent + waiting;
    CountAll(line, start);
    CountAll(over, start);
    MarksCount(line, start);
    assert Increasing(over);
    MarksCount(over, start);
    MarksPartition(line, over, start, top, start);
    assert |Range(start, top)| == |Marks(line, start)| + |Marks(over, start)|;
  }
}

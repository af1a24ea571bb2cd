/** One subscription from the publisher to the subscriber, over a channel that neither
    loses, duplicates nor reorders items. Everything else that can happen to both ends
    goes on around it. */
module EventDelivery {
  import opened Bytes
  import opened EventModel
  import opened EventSource

  /** `arrived` items of the source's channel have reached the sink. */
  datatype EventSystem = EventSystem(source: Source, sink: Sink, arrived: nat)

  datatype EventStep =
    | AtSource(step: SourceStep)
    | Arrive
    | LocalSubscribe(id: nat, pattern: string, qos: Qos)
    | LocalUnsubscribe(id: nat)
    | SessionClosed

  function EventNext(w: EventSystem, step: EventStep): EventSystem {
    match step
    case AtSource(step) => w.(source := SourceNext(w.source, step))
    case Arrive =>
      if w.arrived < |w.source.sent| then
        w.(sink := OnItem(w.sink, w.source.sent[w.arrived]), arrived := w.arrived + 1)
      else w
    case LocalSubscribe(id, pattern, qos) => w.(sink := Subscribe(w.sink, id, pattern, qos))
    case LocalUnsubscribe(id) => w.(sink := Unsubscribe(w.sink, id))
    case SessionClosed => w.(sink := w.sink.(locals := map[]), source := w.source.(remotes := []))
  }

  function EventRun(w: EventSystem, steps: seq<EventStep>): EventSystem
    decreases |steps|
  {
    if steps == [] then w else EventRun(EventNext(w, steps[0]), steps[1..])
  }

  // ---- What is tracked ---------------------------------------------------

  predicate Increasing(items: seq<Item>) {
    forall i, j :: 0 <= i < j < |items| ==> items[i].sequence < items[j].sequence
  }

  /** Sequences grow along the log of each topic, up to the topic's counter. */
  predicate LogInv(s: Source) {
    && (forall i :: 0 <= i < |s.log| ==> s.log[i].sequence <= TopicSequence(s, s.log[i].topic))
    && (forall i, j :: 0 <= i < j < |s.log| && s.log[i].topic == s.log[j].topic ==>
          s.log[i].sequence < s.log[j].sequence)
  }

  /** The item carries what was published on the topic under its sequence. */
  predicate Published(log: seq<Publication>, topic: string, item: Item) {
    exists i :: 0 <= i < |log| && log[i].topic == topic && item == ItemFor(item.sub, log[i])
  }

  /** Items of `id` that were published on the topic after the subscription, in order. */
  predicate Genuine(s: Source, id: nat, topic: string, start: nat, items: seq<Item>) {
    && Increasing(items)
    && forall i :: 0 <= i < |items| ==>
         && items[i].sub == id && start < items[i].sequence <= TopicSequence(s, topic)
         && Published(s.log, topic, items[i])
  }

  predicate Has(items: seq<Item>, sequence: nat) {
    exists i :: 0 <= i < |items| && items[i].sequence == sequence
  }

  /** Up to `top`, every publication since the subscription is either in the line, the
      newest one last, or was overwritten. */
  predicate Partitioned(line: seq<Item>, over: seq<Item>, start: nat, top: nat) {
    && Increasing(over)
    && (forall i :: 0 <= i < |over| ==> start < over[i].sequence <= top)
    && (forall q :: start < q <= top ==> (Has(line, q) <==> !Has(over, q)))
    && (top > start ==> line != [] && line[|line| - 1].sequence == top)
  }

  /** What encoding every item adds: a reliable line has no gaps and is complete while the
      subscription lasts; a keep-latest line misses exactly what was overwritten. */
  predicate Encoded(s: Source, r: Remote, topic: string, start: nat) {
    var line := Line(s, r.id);
    && (r.qos == ReliableLive ==> forall i :: 0 <= i < |line| ==> line[i].sequence == start + 1 + i)
    && (Find(s.remotes, r.id).Some? ==>
          if r.qos == ReliableLive then |line| == TopicSequence(s, topic) - start
          else Partitioned(line, Only(r.id, s.overwritten), start, TopicSequence(s, topic)))
  }

  /** The source side of subscription `r` to `topic`, which had reached `start`. */
  predicate SourceTrack(s: Source, r: Remote, topic: string, start: nat, encoded: bool) {
    && SourceInv(s) && LogInv(s) && start <= TopicSequence(s, topic)
    && (Find(s.remotes, r.id).Some? ==> SameBinding(r, Find(s.remotes, r.id).value))
    && Genuine(s, r.id, topic, start, Line(s, r.id))
    && (encoded ==> Encoded(s, r, topic, start))
  }

  /** The subscriber remembers the last item it was handed. */
  predicate Remembers(l: Local, items: seq<Item>) {
    && (l.hasSequence <==> items != [])
    && (items != [] ==> l.newest == items[|items| - 1].sequence && l.lastEvent == items[|items| - 1].event)
  }

  /** The subscriber side: everything that arrived was handed on, in order. */
  predicate SinkTrack(w: EventSystem, id: nat) {
    && w.arrived <= |w.source.sent|
    && Only(id, w.sink.delivered) <= Only(id, w.source.sent[..w.arrived])
    && (id in w.sink.locals ==>
          && Only(id, w.sink.delivered) == Only(id, w.source.sent[..w.arrived])
          && Remembers(w.sink.locals[id], Only(id, w.sink.delivered)))
  }

  predicate Track(w: EventSystem, r: Remote, topic: string, start: nat, encoded: bool) {
    SourceTrack(w.source, r, topic, start, encoded) && SinkTrack(w, r.id)
  }

  /** The steps around the subscription: its id is not used again, the pattern matches no
      other topic and, if `encoded`, its items all encode. */
  predicate Around(step: EventStep, r: Remote, topic: string, encoded: bool) {
    match step
    case AtSource(PublishStep(e)) =>
      && (Matches(r.pattern, r.prefix, e.topic) ==> e.topic == topic)
      && (encoded ==> r.id !in e.unencodable)
    case AtSource(SubscribeStep(remote, _)) => remote.id != r.id
    case LocalSubscribe(id, _, _) => id != r.id
    case _ => true
  }

  /** The steps that end the local subscription: the application drops it, or the session
      goes. */
  predicate Ends(step: EventStep, id: nat) {
    step == LocalUnsubscribe(id) || step == SessionClosed
  }

  // ---- Facts about items -------------------------------------------------

  lemma {:induction false} OnlyUpTo(id: nat, items: seq<Item>, k: nat)
    requires k <= |items|
    ensures Only(id, items[..k]) <= Only(id, items)
    decreases |items|
  {
    if k < |items| {
      var n := |items| - 1;
      assert items[..n][..k] == items[..k];
      OnlyUpTo(id, items[..n], k);
    } else {
      assert items[..k] == items;
    }
  }

  lemma {:induction false} IncreasingPrefix(x: seq<Item>, y: seq<Item>)
    requires Increasing(y) && x <= y
    ensures Increasing(x)
  {
  }

  /** Items of an earlier log are still published. */
  lemma {:induction false} GenuineGrows(s: Source, t: Source, id: nat, topic: string, start: nat, items: seq<Item>)
    requires Genuine(s, id, topic, start, items) && s.log <= t.log
    requires TopicSequence(s, topic) <= TopicSequence(t, topic)
    ensures Genuine(t, id, topic, start, items)
  {
    forall i | 0 <= i < |items|
      ensures Published(t.log, topic, items[i])
    {
      var k :| 0 <= k < |s.log| && s.log[k].topic == topic && items[i] == ItemFor(items[i].sub, s.log[k]);
      assert t.log[k] == s.log[k];
    }
  }

  // ---- Overwritten items -------------------------------------------------

  function LostBy(r: Remote, p: Publication, u: set<nat>, cfg: ValidConfig): seq<Item> {
    var g := StagingOf(r, p, u, cfg);
    if g.Overwrote? then [g.lost] else []
  }

  function Lost(s: Source, n: nat, p: Publication, u: set<nat>, id: nat): seq<Item>
    requires n <= |s.remotes|
  {
    if n == 0 then []
    else
      Lost(s, n - 1, p, u, id)
      + if s.remotes[n - 1].id == id then LostBy(s.remotes[n - 1], p, u, s.cfg) else []
  }

  lemma {:induction false} StageOverwritten(s: Source, n: nat, p: Publication, u: set<nat>, id: nat)
    requires SourceInv(s) && n <= |s.remotes|
    ensures Only(id, StageUpTo(s, n, p, u).0.overwritten) == Only(id, s.overwritten) + Lost(s, n, p, u, id)
  {
    hide StageInto, StagingStats, CountStaging, Only, Ordered;
    if n > 0 {
      var t := StageUpTo(s, n - 1, p, u).0;
      var r := s.remotes[n - 1];
      StageOverwritten(s, n - 1, p, u, id);
      StageUpToAt(s, n - 1, p, u, n - 1);
      var g := StagingOf(r, p, u, s.cfg);
      var x := StageUpTo(s, n, p, u).0.overwritten;
      assert x == t.overwritten + if g.Overwrote? then [g.lost] else [];
      if g.Overwrote? {
        OnlySnoc(id, t.overwritten, g.lost);
        assert QueueInv(r, s.cfg);
      } else {
        assert x == t.overwritten;
      }
      var more := if r.id == id then LostBy(r, p, u, s.cfg) else [];
      assert Only(id, x) == Only(id, t.overwritten) + more;
      assert Only(id, s.overwritten) + Lost(s, n - 1, p, u, id) + more
          == Only(id, s.overwritten) + (Lost(s, n - 1, p, u, id) + more);
    }
  }

  lemma {:induction false} LostIs(s: Source, n: nat, p: Publication, u: set<nat>, i: nat)
    requires Ordered(s.remotes) && n <= |s.remotes| && i < |s.remotes|
    ensures Lost(s, n, p, u, s.remotes[i].id) == if i < n then LostBy(s.remotes[i], p, u, s.cfg) else []
  {
    hide Lost, LostBy, Ordered;
    LostNext(s, n, p, u, s.remotes[i].id);
    if n > 0 {
      LostIs(s, n - 1, p, u, i);
      OneId(s.remotes, n - 1, i);
      var before := Lost(s, n - 1, p, u, s.remotes[i].id);
      if n - 1 == i {
        assert before + LostBy(s.remotes[i], p, u, s.cfg) == LostBy(s.remotes[i], p, u, s.cfg);
      } else {
        assert before + [] == before;
      }
    }
  }

  lemma {:induction false} LostNext(s: Source, n: nat, p: Publication, u: set<nat>, id: nat)
    requires n <= |s.remotes|
    ensures n == 0 ==> Lost(s, n, p, u, id) == []
    ensures n > 0 ==>
              Lost(s, n, p, u, id)
              == Lost(s, n - 1, p, u, id)
                 + if s.remotes[n - 1].id == id then LostBy(s.remotes[n - 1], p, u, s.cfg) else []
  {
    hide LostBy;
  }

  lemma {:induction false} OneId(remotes: seq<Remote>, i: nat, j: nat)
    requires Ordered(remotes) && i < |remotes| && j < |remotes|
    ensures remotes[i].id == remotes[j].id <==> i == j
  {
  }

  /** What a publication takes from the queue of one subscription. */
  lemma {:induction false} FannedLoses(s: Source, e: Event, id: nat)
    requires SourceInv(s) && Find(s.remotes, id).Some?
    ensures Only(id, Fanned(s, e).overwritten)
         == Only(id, s.overwritten) + LostBy(Find(s.remotes, id).value, NextPublication(s, e), e.unencodable, s.cfg)
  {
    hide StageUpTo, TerminateAll, Lost, LostBy, Only;
    var s0 := Numbered(s, e);
    var p := NextPublication(s, e);
    var i := IndexOf(s.remotes, id);
    StageOverwritten(s0, |s.remotes|, p, e.unencodable, id);
    LostIs(s0, |s.remotes|, p, e.unencodable, i);
    StageAllFind(s0, p, e.unencodable, id);
    TerminatedAll(StageAll(s, e).0, StageAll(s, e).1.overflowed, id);
  }

  // ---- Publishing --------------------------------------------------------

  lemma {:induction false} LogGrows(s: Source, e: Event)
    requires LogInv(s)
    ensures LogInv(Numbered(s, e)) && s.log <= Numbered(s, e).log
    ensures forall topic :: TopicSequence(Numbered(s, e), topic)
                         == TopicSequence(s, topic) + if topic == e.topic then 1 else 0
  {
  }

  /** The line after the event was offered, before anything is sent. */
  lemma {:induction false} LineAfter(s: Source, e: Event, id: nat)
    requires SourceInv(s)
    ensures var p := NextPublication(s, e);
            var x := Find(s.remotes, id);
            var line := Line(Fanned(s, e), id);
            if x.None? then line == Line(s, id)
            else
              match StagingOf(x.value, p, e.unencodable, s.cfg)
              case Unmatched => line == Line(s, id)
              case NotEncoded => line == Line(s, id)
              case Overflow => line == Only(id, s.sent)
              case Staged => line == Line(s, id) + [ItemFor(x.value.id, p)]
              case Overwrote(lost) =>
                line == Only(id, s.sent) + x.value.staged[1..] + [ItemFor(x.value.id, p)]
  {
    hide Fanned, Find, Only, StagingOf;
    FanOut(s, e, id);
    FannedInv(s, e);
  }

  /** The next item of a line is newer than all of it. */
  lemma {:induction false} GenuineSnoc(s: Source, e: Event, id: nat, start: nat, items: seq<Item>)
    requires Genuine(s, id, e.topic, start, items) && LogInv(s) && start <= TopicSequence(s, e.topic)
    ensures Genuine(Numbered(s, e), id, e.topic, start, items + [ItemFor(id, NextPublication(s, e))])
  {
    var t := Numbered(s, e);
    var item := ItemFor(id, NextPublication(s, e));
    LogGrows(s, e);
    GenuineGrows(s, t, id, e.topic, start, items);
    assert t.log[|s.log|] == NextPublication(s, e);
    assert Published(t.log, e.topic, item);
    hide Published;
  }

  lemma {:induction false} GenuinePrefix(s: Source, id: nat, topic: string, start: nat, x: seq<Item>, y: seq<Item>)
    requires Genuine(s, id, topic, start, y) && x <= y
    ensures Genuine(s, id, topic, start, x)
  {
    hide Published;
  }

  /** Same log, same counters: the same items are genuine. */
  lemma {:induction false} GenuineMoves(s: Source, t: Source, id: nat, topic: string, start: nat, items: seq<Item>)
    requires Genuine(s, id, topic, start, items) && t.log == s.log && t.sequences == s.sequences
    ensures Genuine(t, id, topic, start, items)
  {
    hide Published;
  }

  lemma {:induction false} FannedGenuine(s: Source, e: Event, r: Remote, topic: string, start: nat)
    requires SourceTrack(s, r, topic, start, false) && (Matches(r.pattern, r.prefix, e.topic) ==> e.topic == topic)
    ensures Genuine(Fanned(s, e), r.id, topic, start, Line(Fanned(s, e), r.id))
  {
    hide SourceInv, Genuine, Fanned, Find, Only, Published;
    var t := Numbered(s, e);
    var line := Line(s, r.id);
    LogGrows(s, e);
    LineAfter(s, e, r.id);
    FannedInv(s, e);
    GenuineGrows(s, t, r.id, topic, start, line);
    hide LogInv;
    var x := Find(s.remotes, r.id);
    if x.Some? && StagingOf(x.value, NextPublication(s, e), e.unencodable, s.cfg).Staged? {
      GenuineSnoc(s, e, r.id, start, line);
    } else if x.Some? && StagingOf(x.value, NextPublication(s, e), e.unencodable, s.cfg).Overwrote? {
      OneWaiting(s, r.id);
      assert Only(r.id, s.sent) + x.value.staged[1..] == Only(r.id, s.sent);
      GenuinePrefix(s, r.id, topic, start, Only(r.id, s.sent), line);
      GenuineSnoc(s, e, r.id, start, Only(r.id, s.sent));
    } else {
      GenuinePrefix(t, r.id, topic, start, Only(r.id, s.sent), line);
    }
    GenuineMoves(t, Fanned(s, e), r.id, topic, start, Line(Fanned(s, e), r.id));
  }

  /** A keep-latest queue holds one item at most. */
  lemma {:induction false} OneWaiting(s: Source, id: nat)
    requires SourceInv(s) && Find(s.remotes, id).Some?
    ensures Find(s.remotes, id).value.qos == BestEffortLatest ==> |Find(s.remotes, id).value.staged| <= 1
    ensures Find(s.remotes, id).value.id == id
  {
    hide Find, Ordered;
    var i := IndexOf(s.remotes, id);
    assert QueueInv(s.remotes[i], s.cfg);
  }

  lemma {:induction false} HasSnoc(items: seq<Item>, item: Item, q: nat)
    ensures Has(items + [item], q) <==> Has(items, q) || item.sequence == q
  {
    var all := items + [item];
    assert all[|items|] == item;
    if Has(items, q) {
      var i :| 0 <= i < |items| && items[i].sequence == q;
      assert all[i].sequence == q;
    }
  }

  /** A new item at the end of the line. */
  lemma {:induction false} PartitionAppend(line: seq<Item>, over: seq<Item>, start: nat, top: nat, item: Item)
    requires Partitioned(line, over, start, top) && item.sequence == top + 1 && start <= top
    requires forall i :: 0 <= i < |line| ==> line[i].sequence <= top
    ensures Partitioned(line + [item], over, start, top + 1)
  {
    forall q | start < q <= top + 1
      ensures Has(line + [item], q) <==> !Has(over, q)
    {
      HasSnoc(line, item, q);
    }
  }

  lemma {:induction false} LastOnly(line: seq<Item>, last: Item)
    requires Increasing(line + [last])
    ensures !Has(line, last.sequence)
  {
    var all := line + [last];
    assert forall i :: 0 <= i < |line| ==> all[i].sequence < all[|line|].sequence;
    assert forall i :: 0 <= i < |line| ==> all[i] == line[i];
  }

  /** The last item of the line overwritten by a new one. */
  lemma {:induction false} PartitionReplace(line: seq<Item>, over: seq<Item>, start: nat, top: nat, lost: Item,
                                            item: Item)
    requires Partitioned(line + [lost], over, start, top) && item.sequence == top + 1 && start < top
    requires Increasing(line + [lost])
    ensures Partitioned(line + [item], over + [lost], start, top + 1)
  {
    var all := line + [lost];
    assert all[|line|] == lost;
    assert lost.sequence == top && Has(all, top);
    assert !Has(over, top);
    forall i | 0 <= i < |over|
      ensures over[i].sequence < lost.sequence
    {
      assert over[i].sequence != top;
    }
    forall q | start < q <= top + 1
      ensures Has(line + [item], q) <==> !Has(over + [lost], q)
    {
      HasSnoc(line, item, q);
      HasSnoc(line, lost, q);
      HasSnoc(over, lost, q);
      LastOnly(line, lost);
    }
  }

  /** A reliable subscription: the new item continues the line, or the line is cut. */
  lemma {:induction false} FannedReliable(s: Source, e: Event, r: Remote, topic: string, start: nat)
    requires SourceTrack(s, r, topic, start, true) && (Matches(r.pattern, r.prefix, e.topic) <==> e.topic == topic)
    requires r.qos == ReliableLive && r.id !in e.unencodable
    ensures Encoded(Fanned(s, e), r, topic, start)
  {
    hide SourceInv, Fanned, Only, Partitioned, Find, Matches, Numbered, LogInv, Genuine, StagingOf, StageInto;
    LogGrows(s, e);
    FanOut(s, e, r.id);
    FannedInv(s, e);
    assert TopicSequence(Fanned(s, e), topic) == TopicSequence(Numbered(s, e), topic);
    if Find(s.remotes, r.id).Some? {
      ReliableParts(Find(s.remotes, r.id).value, NextPublication(s, e), e.unencodable, s.cfg, Only(r.id, s.sent), start,
                    TopicSequence(s, topic));
    }
  }

  /** The same on the parts of the line: `sent` items, then the queue of `x`. */
  lemma {:induction false} ReliableParts(x: Remote, p: Publication, u: set<nat>, cfg: ValidConfig, sent: seq<Item>,
                                         start: nat, top: nat)
    requires x.qos == ReliableLive && x.id !in u && |sent + x.staged| == top - start
    requires forall i :: 0 <= i < |sent + x.staged| ==> (sent + x.staged)[i].sequence == start + 1 + i
    requires Matches(x.pattern, x.prefix, p.topic) ==> p.sequence == top + 1
    ensures forall i :: 0 <= i < |sent| ==> sent[i].sequence == start + 1 + i
    ensures StagingOf(x, p, u, cfg) != Overflow ==>
              var line := sent + StageInto(x, p, u, cfg).staged;
              && |line| == top - start + (if Matches(x.pattern, x.prefix, p.topic) then 1 else 0)
              && forall i :: 0 <= i < |line| ==> line[i].sequence == start + 1 + i
  {
    hide Matches;
    assert forall i :: 0 <= i < |sent| ==> sent[i] == (sent + x.staged)[i];
    assert forall i :: 0 <= i < |x.staged| ==> x.staged[i] == (sent + x.staged)[|sent| + i];
  }

  /** A keep-latest subscription: the new item joins the line, at the cost of a waiting one. */
  lemma {:induction false} FannedLatest(s: Source, e: Event, r: Remote, topic: string, start: nat)
    requires SourceTrack(s, r, topic, start, true) && (Matches(r.pattern, r.prefix, e.topic) <==> e.topic == topic)
    requires r.qos == BestEffortLatest && r.id !in e.unencodable
    ensures Encoded(Fanned(s, e), r, topic, start)
  {
    hide SourceInv, Fanned, Only, Partitioned, Find, Matches, Numbered, LogInv;
    LogGrows(s, e);
    LineAfter(s, e, r.id);
    FanOut(s, e, r.id);
    FannedInv(s, e);
    assert TopicSequence(Fanned(s, e), topic) == TopicSequence(Numbered(s, e), topic);
    if Find(s.remotes, r.id).Some? {
      FannedLoses(s, e, r.id);
      OneWaiting(s, r.id);
      LatestParts(Find(s.remotes, r.id).value, NextPublication(s, e), e.unencodable, s.cfg,
                  Only(r.id, s.sent), Only(r.id, s.overwritten), start, TopicSequence(s, topic));
    }
  }

  /** The same on the parts of the line: `sent` items, then the queue of `x`. */
  lemma {:induction false} LatestParts(x: Remote, p: Publication, u: set<nat>, cfg: ValidConfig, sent: seq<Item>,
                                       over: seq<Item>, start: nat, top: nat)
    requires x.qos == BestEffortLatest && |x.staged| <= 1 && x.id !in u && start <= top
    requires Partitioned(sent + x.staged, over, start, top) && Increasing(sent + x.staged)
    requires forall i :: 0 <= i < |sent + x.staged| ==> start < (sent + x.staged)[i].sequence <= top
    requires Matches(x.pattern, x.prefix, p.topic) ==> p.sequence == top + 1
    ensures var line := sent + StageInto(x, p, u, cfg).staged;
            var lost := over + LostBy(x, p, u, cfg);
            if Matches(x.pattern, x.prefix, p.topic) then Partitioned(line, lost, start, top + 1)
            else Partitioned(line, lost, start, top)
  {
    hide Partitioned, Matches, Increasing;
    var item := ItemFor(x.id, p);
    if !Matches(x.pattern, x.prefix, p.topic) {
      assert over + [] == over;
    } else if x.staged == [] {
      PartitionAppend(sent + x.staged, over, start, top, item);
      assert sent + x.staged + [item] == sent + (x.staged + [item]) && over + [] == over;
    } else {
      var lost := x.staged[0];
      assert x.staged == [lost] && x.staged[1..] + [item] == [item];
      assert (sent + [lost])[|sent|] == lost;
      PartitionReplace(sent, over, start, top, lost, item);
    }
  }

  lemma {:induction false} FannedTrack(s: Source, e: Event, r: Remote, topic: string, start: nat, encoded: bool)
    requires SourceTrack(s, r, topic, start, encoded) && Matches(r.pattern, r.prefix, topic)
    requires Around(AtSource(PublishStep(e)), r, topic, encoded)
    ensures SourceTrack(Fanned(s, e), r, topic, start, encoded)
  {
    hide SourceInv, Fanned, Find, Matches, Genuine, Encoded, Numbered, Line;
    LogGrows(s, e);
    FannedInv(s, e);
    FanOut(s, e, r.id);
    FannedGenuine(s, e, r, topic, start);
    FannedLog(s, e, topic);
    if encoded {
      if r.qos == ReliableLive {
        FannedReliable(s, e, r, topic, start);
      } else {
        FannedLatest(s, e, r, topic, start);
      }
    }
  }

  lemma {:induction false} FannedLog(s: Source, e: Event, topic: string)
    requires SourceInv(s) && LogInv(s)
    ensures LogInv(Fanned(s, e)) && TopicSequence(s, topic) <= TopicSequence(Fanned(s, e), topic)
  {
    hide SourceInv, Fanned;
    LogGrows(s, e);
    FannedInv(s, e);
  }

  /** Sending changes nothing that is tracked. */
  lemma {:induction false} DrainTrack(s: Source, t: Source, r: Remote, topic: string, start: nat, encoded: bool)
    requires SourceTrack(s, r, topic, start, encoded) && Drains(s, t, r.id)
    ensures SourceTrack(t, r, topic, start, encoded)
  {
    hide SourceInv, Find, Line, Published, Partitioned;
  }

  lemma {:induction false} PublishTrack(s: Source, e: Event, r: Remote, topic: string, start: nat, encoded: bool)
    requires SourceTrack(s, r, topic, start, encoded) && Matches(r.pattern, r.prefix, topic)
    requires Around(AtSource(PublishStep(e)), r, topic, encoded)
    ensures SourceTrack(Publish(s, e), r, topic, start, encoded)
  {
    hide SourceTrack, Fanned, Prune, Drains, Around;
    FannedTrack(s, e, r, topic, start, encoded);
    assert SourceInv(Fanned(s, e)) by { TrackInv(Fanned(s, e), r, topic, start, encoded); }
    PruneDrains(Fanned(s, e), r.id);
    DrainTrack(Fanned(s, e), Publish(s, e), r, topic, start, encoded);
  }

  lemma {:induction false} TrackInv(s: Source, r: Remote, topic: string, start: nat, encoded: bool)
    requires SourceTrack(s, r, topic, start, encoded)
    ensures SourceInv(s)
  {
    hide SourceInv, Genuine, Encoded, LogInv, Find;
  }

  /** Another subscription came or went, or this one left. */
  lemma {:induction false} OthersTrack(s: Source, t: Source, r: Remote, topic: string, start: nat, encoded: bool)
    requires SourceTrack(s, r, topic, start, encoded) && SourceInv(t)
    requires t == s.(remotes := t.remotes, notices := t.notices, stats := t.stats, failedChannels := t.failedChannels)
    requires Find(t.remotes, r.id).None? || Find(t.remotes, r.id) == Find(s.remotes, r.id)
    ensures SourceTrack(t, r, topic, start, encoded)
  {
    hide SourceInv, Find, Only, Genuine, Partitioned, LogInv;
    assert Only(r.id, s.sent) + [] == Only(r.id, s.sent);
    assert Line(t, r.id) <= Line(s, r.id);
    GenuinePrefix(s, r.id, topic, start, Line(t, r.id), Line(s, r.id));
    GenuineMoves(s, t, r.id, topic, start, Line(t, r.id));
    SameLog(s, t);
  }

  lemma {:induction false} SameLog(s: Source, t: Source)
    requires LogInv(s) && t.log == s.log && t.sequences == s.sequences
    ensures LogInv(t)
  {
  }

  lemma {:induction false} SourceStepTrack(s: Source, step: SourceStep, r: Remote, topic: string, start: nat,
                                           encoded: bool)
    requires SourceTrack(s, r, topic, start, encoded) && Matches(r.pattern, r.prefix, topic)
    requires Around(AtSource(step), r, topic, encoded)
    ensures SourceTrack(SourceNext(s, step), r, topic, start, encoded)
  {
    hide SourceTrack, Publish, Prune, Drains, Find, Without, Insert, SourceInv, Matches;
    TrackInv(s, r, topic, start, encoded);
    SourceNextInv(s, step);
    match step
    case PublishStep(e) => PublishTrack(s, e, r, topic, start, encoded);
    case PruneStep =>
      PruneDrains(s, r.id);
      DrainTrack(s, Prune(s), r, topic, start, encoded);
    case SubscribeStep(remote, granted) =>
      SubscribeOthers(s, remote, granted, r.id);
      OthersTrack(s, SourceNext(s, step), r, topic, start, encoded);
    case UnsubscribeStep(id) =>
      WithoutFind(s.remotes, id, r.id);
      OthersTrack(s, SourceNext(s, step), r, topic, start, encoded);
  }

  lemma {:induction false} SubscribeOthers(s: Source, remote: Remote, granted: bool, id: nat)
    requires SourceInv(s) && remote.id != id
    ensures Find(AcceptSubscribe(s, remote, granted).remotes, id) == Find(s.remotes, id)
  {
    hide Find, Insert;
    if Find(s.remotes, remote.id).None? {
      InsertShape(s.remotes, remote.(staged := []));
    }
  }

  // ---- Arriving ----------------------------------------------------------

  lemma {:induction false} GenuineSent(s: Source, r: Remote, topic: string, start: nat, encoded: bool)
    requires SourceTrack(s, r, topic, start, encoded)
    ensures Increasing(Only(r.id, s.sent))
  {
    hide SourceInv, Find, Only, Published, Encoded, LogInv;
    IncreasingPrefix(Only(r.id, s.sent), Line(s, r.id));
  }

  /** An item of the subscription is newer than everything handed on before. */
  lemma {:induction false} ArriveTrack(w: EventSystem, id: nat)
    requires SinkTrack(w, id) && Increasing(Only(id, w.source.sent)) && w.arrived < |w.source.sent|
    ensures SinkTrack(EventNext(w, Arrive), id)
  {
    hide Only, LagStats;
    var sent := w.source.sent;
    var item := sent[w.arrived];
    var k := OnItem(w.sink, item);
    assert sent[..w.arrived + 1] == sent[..w.arrived] + [item];
    OnlySnoc(id, sent[..w.arrived], item);
    OnlySnoc(id, w.sink.delivered, item);
    OnlyUpTo(id, sent, w.arrived + 1);
    IncreasingPrefix(Only(id, sent[..w.arrived + 1]), Only(id, sent));
    if item.sub == id && id in w.sink.locals {
      var seen := Only(id, w.sink.delivered);
      assert (seen + [item])[|seen|] == item;
      if seen != [] {
        assert (seen + [item])[|seen| - 1] == seen[|seen| - 1];
      }
    } else {
      assert Only(id, k.delivered) == Only(id, w.sink.delivered);
    }
  }

  lemma {:induction false} SourceMoves(w: EventSystem, t: Source, id: nat)
    requires SinkTrack(w, id) && w.source.sent <= t.sent
    ensures SinkTrack(w.(source := t), id)
  {
    hide Only;
    assert t.sent[..w.arrived] == w.source.sent[..w.arrived];
  }

  lemma {:induction false} SentGrows(s: Source, step: SourceStep)
    requires SourceInv(s)
    ensures s.sent <= SourceNext(s, step).sent
  {
    hide SourceInv, Fanned, Prune, Find, Without, Insert, Line;
    match step
    case PublishStep(e) =>
      FannedInv(s, e);
      PruneDrains(Fanned(s, e), 0);
    case PruneStep => PruneDrains(s, 0);
    case _ =>
  }

  lemma {:induction false} EventStepTrack(w: EventSystem, step: EventStep, r: Remote, topic: string, start: nat,
                                          encoded: bool)
    requires Track(w, r, topic, start, encoded) && Matches(r.pattern, r.prefix, topic)
    requires Around(step, r, topic, encoded)
    ensures Track(EventNext(w, step), r, topic, start, encoded)
  {
    hide SourceTrack, SourceNext, Only, Matches, OnItem;
    TrackInv(w.source, r, topic, start, encoded);
    match step
    case AtSource(s) =>
      SourceStepTrack(w.source, s, r, topic, start, encoded);
      SentGrows(w.source, s);
      SourceMoves(w, SourceNext(w.source, s), r.id);
    case Arrive =>
      GenuineSent(w.source, r, topic, start, encoded);
      if w.arrived < |w.source.sent| {
        ArriveTrack(w, r.id);
      }
    case LocalSubscribe(_, _, _) =>
    case LocalUnsubscribe(_) =>
    case SessionClosed =>
      ClosedTrack(w.source, r, topic, start, encoded);
      SourceMoves(w, w.source.(remotes := []), r.id);
  }

  lemma {:induction false} ClosedTrack(s: Source, r: Remote, topic: string, start: nat, encoded: bool)
    requires SourceTrack(s, r, topic, start, encoded)
    ensures SourceTrack(s.(remotes := []), r, topic, start, encoded)
  {
    hide SourceTrack;
    assert SourceInv(s.(remotes := []));
    OthersTrack(s, s.(remotes := []), r, topic, start, encoded);
  }

  /** A step keeps the local subscription unless it is one of those: no arriving item of
      it takes the duplicate or the conflict branch. */
  lemma {:induction false} StepStays(w: EventSystem, step: EventStep, r: Remote, topic: string, start: nat,
                                     encoded: bool)
    requires Track(w, r, topic, start, encoded) && Around(step, r, topic, encoded)
    ensures r.id in EventNext(w, step).sink.locals <==> r.id in w.sink.locals && !Ends(step, r.id)
  {
    hide SourceTrack, SourceNext, Only, Matches, LagStats;
    if step.Arrive? && w.arrived < |w.source.sent| && r.id in w.sink.locals && w.source.sent[w.arrived].sub == r.id {
      GenuineSent(w.source, r, topic, start, encoded);
      NewerItem(w, r.id);
    }
  }

  /** An arriving item of the subscription is newer than the last one handed on. */
  lemma {:induction false} NewerItem(w: EventSystem, id: nat)
    requires SinkTrack(w, id) && Increasing(Only(id, w.source.sent)) && w.arrived < |w.source.sent|
    requires id in w.sink.locals && w.source.sent[w.arrived].sub == id
    ensures !w.sink.locals[id].hasSequence || w.source.sent[w.arrived].sequence > w.sink.locals[id].newest
  {
    hide Only;
    var sent := w.source.sent;
    var item := sent[w.arrived];
    var seen := Only(id, sent[..w.arrived]);
    assert sent[..w.arrived + 1] == sent[..w.arrived] + [item];
    OnlySnoc(id, sent[..w.arrived], item);
    OnlyUpTo(id, sent, w.arrived + 1);
    IncreasingPrefix(seen + [item], Only(id, sent));
    assert (seen + [item])[|seen|] == item;
    if seen != [] {
      assert (seen + [item])[|seen| - 1] == seen[|seen| - 1];
    }
  }

  lemma {:induction false} RunStays(w: EventSystem, steps: seq<EventStep>, r: Remote, topic: string, start: nat,
                                    encoded: bool)
    requires Track(w, r, topic, start, encoded) && Matches(r.pattern, r.prefix, topic)
    requires forall i :: 0 <= i < |steps| ==> Around(steps[i], r, topic, encoded)
    ensures r.id in EventRun(w, steps).sink.locals
            <==> r.id in w.sink.locals && forall i :: 0 <= i < |steps| ==> !Ends(steps[i], r.id)
    decreases |steps|
  {
    hide Track, EventNext, Around, Matches, Ends;
    if steps != [] {
      EventStepTrack(w, steps[0], r, topic, start, encoded);
      StepStays(w, steps[0], r, topic, start, encoded);
      RunStays(EventNext(w, steps[0]), steps[1..], r, topic, start, encoded);
      assert forall i :: 0 < i < |steps| ==> steps[i] == steps[1..][i - 1];
    }
  }

  lemma {:induction false} EventRunTrack(w: EventSystem, steps: seq<EventStep>, r: Remote, topic: string, start: nat,
                                         encoded: bool)
    requires Track(w, r, topic, start, encoded) && Matches(r.pattern, r.prefix, topic)
    requires forall i :: 0 <= i < |steps| ==> Around(steps[i], r, topic, encoded)
    ensures Track(EventRun(w, steps), r, topic, start, encoded)
    decreases |steps|
  {
    hide Track, EventNext, Around, Matches;
    if steps != [] {
      EventStepTrack(w, steps[0], r, topic, start, encoded);
      EventRunTrack(EventNext(w, steps[0]), steps[1..], r, topic, start, encoded);
    }
  }

  // ---- Results -----------------------------------------------------------

  /** A subscription that was just accepted: nothing of it has been staged, sent,
      overwritten or delivered. */
  predicate JustSubscribed(w: EventSystem, r: Remote) {
    && SourceInv(w.source) && LogInv(w.source) && w.arrived <= |w.source.sent|
    && Find(w.source.remotes, r.id) == Some(r) && r.staged == []
    && Only(r.id, w.source.sent) == [] && Only(r.id, w.source.overwritten) == []
    && Only(r.id, w.sink.delivered) == []
    && r.id in w.sink.locals && !w.sink.locals[r.id].hasSequence
  }

  lemma {:induction false} JustTracked(w: EventSystem, r: Remote, topic: string)
    requires JustSubscribed(w, r)
    ensures Track(w, r, topic, TopicSequence(w.source, topic), true)
  {
    hide SourceInv, LogInv, Find, Only;
    OnlyUpTo(r.id, w.source.sent, w.arrived);
  }

  /** In every state of every run around an exact subscription (or one whose pattern
      matches a single topic): what is delivered was published on that topic under that
      sequence, sequences strictly increase, the subscription ends only when the
      application drops it or the session goes, so no item is ever taken for a conflict,
      everything that arrived before was delivered, and a reliable one misses nothing. */
  lemma {:induction false} EventOrdering(w: EventSystem, r: Remote, topic: string, encoded: bool, steps: seq<EventStep>)
    requires JustSubscribed(w, r) && Matches(r.pattern, r.prefix, topic)
    requires forall i :: 0 <= i < |steps| ==> Around(steps[i], r, topic, encoded)
    ensures var t := EventRun(w, steps);
            var got := Only(r.id, t.sink.delivered);
            var start := TopicSequence(w.source, topic);
            && Genuine(t.source, r.id, topic, start, got)
            && LogInv(t.source) && t.arrived <= |t.source.sent|
            && (r.id in t.sink.locals <==> forall i :: 0 <= i < |steps| ==> !Ends(steps[i], r.id))
            && (r.id in t.sink.locals ==> got == Only(r.id, t.source.sent[..t.arrived]))
            && (encoded && r.qos == ReliableLive ==> forall i :: 0 <= i < |got| ==> got[i].sequence == start + 1 + i)
  {
    hide EventRun, Around, Matches, Only, Find, LogInv, SourceInv, Genuine, TopicSequence, Ends;
    var start := TopicSequence(w.source, topic);
    JustTracked(w, r, topic);
    if !encoded {
      WeakerTrack(w, r, topic, start);
    }
    EventRunTrack(w, steps, r, topic, start, encoded);
    RunStays(w, steps, r, topic, start, encoded);
    var t := EventRun(w, steps);
    var got := Only(r.id, t.sink.delivered);
    OnlyUpTo(r.id, t.source.sent, t.arrived);
    assert got <= Line(t.source, r.id);
    GenuinePrefix(t.source, r.id, topic, start, got, Line(t.source, r.id));
  }

  lemma {:induction false} WeakerTrack(w: EventSystem, r: Remote, topic: string, start: nat)
    requires Track(w, r, topic, start, true)
    ensures Track(w, r, topic, start, false)
  {
    hide SinkTrack, SourceInv, LogInv, Genuine, Encoded, Find;
  }

  /** Accepting a subscription under an unused id on any source, and registering it at
      the subscriber, is where such a run starts. */
  lemma {:induction false} SubscriptionStarts(s: Source, k: Sink, r: Remote)
    requires SourceInv(s) && LogInv(s) && Find(s.remotes, r.id).None? && |s.remotes| < s.cfg.maxSubscriptions
    requires Only(r.id, s.sent) == [] && Only(r.id, s.overwritten) == [] && Only(r.id, k.delivered) == []
    ensures JustSubscribed(EventSystem(AcceptSubscribe(s, r, true), Subscribe(k, r.id, r.pattern, r.qos), |s.sent|),
                           r.(staged := []))
  {
    hide SourceInv, Find, Only, Insert, Ordered;
    SubscribeInv(s, r, true);
    assert Ordered(s.remotes) by { InvOrdered(s); }
    InsertShape(s.remotes, r.(staged := []));
  }

  lemma {:induction false} InvOrdered(s: Source)
    requires SourceInv(s)
    ensures Ordered(s.remotes)
  {
  }
}

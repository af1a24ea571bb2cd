/** The event service as the mutable object the source keeps. Every method is proved equal
    to the function of `EventModel` that specifies it. */
module EventBus {
  import opened Bytes
  import opened EventModel
  import opened EventSource
  import opened EventOutcome

  lemma {:induction false} FindTail(remotes: seq<Remote>, i: nat, id: nat)
    requires i < |remotes|
    ensures Find(remotes[i..], id) == if remotes[i].id == id then Some(remotes[i]) else Find(remotes[i + 1..], id)
  {
    assert remotes[i..][1..] == remotes[i + 1..];
  }

  lemma {:induction false} InsertTail(remotes: seq<Remote>, i: nat, r: Remote)
    requires i < |remotes| && remotes[i].id <= r.id
    ensures remotes[..i] + Insert(remotes[i..], r) == remotes[..i + 1] + Insert(remotes[i + 1..], r)
  {
    assert remotes[i..][1..] == remotes[i + 1..];
    assert remotes[..i + 1] == remotes[..i] + [remotes[i]];
  }

  lemma {:induction false} WithoutAt(remotes: seq<Remote>, i: nat)
    requires Ordered(remotes) && i < |remotes|
    ensures Without(remotes, remotes[i].id) == remotes[..i] + remotes[i + 1..]
  {
    hide Ordered, Without;
    var rest := remotes[1..];
    OrderedTail(remotes);
    WithoutFirst(remotes, remotes[i].id);
    if i == 0 {
      WithoutNone(rest, remotes[0].id);
      assert remotes[..0] + rest == rest;
    } else {
      assert rest[i - 1] == remotes[i] && rest[i - 1] in rest;
      WithoutAt(rest, i - 1);
      TakeOut(remotes, i);
    }
  }

  lemma {:induction false} WithoutFirst(remotes: seq<Remote>, id: nat)
    requires remotes != []
    ensures Without(remotes, id)
         == if remotes[0].id == id then Without(remotes[1..], id) else [remotes[0]] + Without(remotes[1..], id)
  {
    assert [] + Without(remotes[1..], id) == Without(remotes[1..], id);
  }

  lemma {:induction false} TakeOut(remotes: seq<Remote>, i: nat)
    requires 0 < i < |remotes|
    ensures [remotes[0]] + (remotes[1..][..i - 1] + remotes[1..][i..]) == remotes[..i] + remotes[i + 1..]
  {
  }

  lemma {:induction false} WithoutNone(remotes: seq<Remote>, id: nat)
    requires forall i :: 0 <= i < |remotes| ==> remotes[i].id != id
    ensures Without(remotes, id) == remotes
  {
    if remotes != [] {
      WithoutNone(remotes[1..], id);
    }
  }

  lemma {:induction false} TerminateNext(s: Source, ids: seq<nat>, i: nat)
    requires i < |ids|
    ensures TerminateAll(s, ids[..i + 1]) == Terminate(TerminateAll(s, ids[..i]), ids[i])
  {
    assert ids[..i + 1][..i] == ids[..i];
  }

  /** The subscriptions among `ids` that have the pattern. */
  function WithPattern(locals: map<nat, Local>, ids: set<nat>, pattern: string): set<nat> {
    set id | id in ids && id in locals && locals[id].pattern == pattern
  }

  lemma {:induction false} AllWithPattern(locals: map<nat, Local>, pattern: string)
    ensures WithPattern(locals, locals.Keys - locals.Keys, pattern) == {}
    ensures locals - {} == locals
  {
  }

  lemma {:induction false} OneWithPattern(locals: map<nat, Local>, rest: set<nat>, id: nat, pattern: string)
    requires id in rest && rest <= locals.Keys
    ensures var some := WithPattern(locals, locals.Keys - rest, pattern);
            var more := WithPattern(locals, locals.Keys - (rest - {id}), pattern);
            && id !in some
            && more == (if locals[id].pattern == pattern then some + {id} else some)
            && locals - (some + {id}) == locals - some - {id}
            && (id !in some ==> multiset(some + {id}) == multiset(some) + multiset{id})
  {
  }

  class EventService {
    const cfg: ValidConfig
    const maxPayload: nat
    var attached: bool

    /** Peer-held subscriptions, in the order of their ids. */
    var remotes: seq<Remote>
    var sequences: map<string, nat>
    var script: seq<bool>
    var sent: seq<Item>
    var notices: seq<nat>
    var failedChannels: nat
    var sourceStats: SourceStats
    ghost var log: seq<Publication>
    ghost var overwritten: seq<Item>

    /** Locally held subscriptions, the messages handed to the local topic and the
        UNSUBSCRIBE frames offered to the peer. */
    var locals: map<nat, Local>
    var sinkStats: SinkStats
    var delivered: seq<Item>
    var offered: multiset<nat>

    ghost function SourceView(): Source
      reads this
    {
      Source(cfg, remotes, sequences, script, sent, notices, failedChannels, sourceStats, log, overwritten)
    }

    ghost function SinkView(): Sink
      reads this
    {
      Sink(locals, sinkStats, delivered, offered)
    }

    constructor (config: ValidConfig, payloadLimit: nat, verdicts: seq<bool>)
      ensures SourceView() == NewSource(config, verdicts) && SourceInv(SourceView())
      ensures SinkView() == Sink(map[], SinkStats(0, 0, 0, 0, 0, 0, 0), [], multiset{})
    {
      cfg, maxPayload, attached := config, payloadLimit, true;
      remotes, sequences, script, sent, notices, failedChannels := [], map[], verdicts, [], [], 0;
      sourceStats, log, overwritten := NO_STATS, [], [];
      locals, sinkStats, delivered, offered := map[], SinkStats(0, 0, 0, 0, 0, 0, 0), [], multiset{};
    }

    // ---- Publishing ------------------------------------------------------

    /** Offer the event to the subscription at `i`. */
    method StageOne(i: nat, p: Publication, unencodable: set<nat>, before: Outcome) returns (o: Outcome)
      requires i < |remotes|
      modifies this`remotes, this`sourceStats, this`overwritten
      ensures (SourceView(), o) == StageAt(old(SourceView()), before, i, p, unencodable)
    {
      assert overwritten + [] == overwritten;
      o := before;
      var r := remotes[i];
      if !Matches(r.pattern, r.prefix, p.topic) {
        assert remotes[i := r] == remotes;
        return;
      }
      o := o.(matched := o.matched + 1);
      if r.id in unencodable {
        sourceStats := sourceStats.(sendFailures := sourceStats.sendFailures + 1);
        assert remotes[i := r] == remotes;
        return;
      }
      var item := Item(r.id, p.sequence, p.event, p.payload);
      var staged := r.staged;
      if r.qos == BestEffortLatest {
        if staged != [] {
          sourceStats := sourceStats.(overwrites := sourceStats.overwrites + 1, drops := sourceStats.drops + 1);
          overwritten := overwritten + [staged[0]];
          staged := staged[1..];
        }
      } else if |staged| >= cfg.queueItems {
        sourceStats := sourceStats.(overflows := sourceStats.overflows + 1);
        o := o.(terminated := o.terminated + 1, overflowed := o.overflowed + [r.id]);
        assert remotes[i := r] == remotes;
        return;
      }
      staged := staged + [item];
      o := o.(staged := o.staged + 1);
      remotes := remotes[i := r.(staged := staged)];
    }

    method TerminateRemote(id: nat)
      requires Ordered(remotes)
      modifies this`remotes, this`notices, this`sourceStats
      ensures SourceView() == Terminate(old(SourceView()), id) && Ordered(remotes)
    {
      var i := IndexFor(id);
      WithoutShape(remotes, id);
      if i < |remotes| {
        WithoutAt(remotes, i);
        remotes := remotes[..i] + remotes[i + 1..];
      } else {
        NotFound(remotes, id);
        WithoutNone(remotes, id);
      }
      sourceStats := sourceStats.(terminated := sourceStats.terminated + 1);
      notices := notices + [id];
    }

    /** Where a subscription is, or the number of subscriptions if it is not there. */
    method IndexFor(id: nat) returns (i: nat)
      ensures i <= |remotes|
      ensures i < |remotes| ==> Find(remotes, id) == Some(remotes[i]) && remotes[i].id == id
      ensures i == |remotes| ==> Find(remotes, id).None?
    {
      i := 0;
      assert remotes[0..] == remotes;
      while i < |remotes| && remotes[i].id != id
        invariant i <= |remotes| && Find(remotes[i..], id) == Find(remotes, id)
      {
        FindTail(remotes, i, id);
        i := i + 1;
      }
      if i < |remotes| {
        FindTail(remotes, i, id);
      } else {
        assert remotes[i..] == [];
      }
    }

    /** Publish one event to every matching subscription. */
    method PublishEvent(e: Event, validTopic: bool) returns (outcome: Option<Outcome>)
      requires SourceInv(SourceView())
      modifies this
      ensures SinkView() == old(SinkView()) && attached == old(attached)
      ensures var ok := attached && validTopic && |e.payload| <= maxPayload;
              && SourceView() == (if ok then Publish(old(SourceView()), e) else old(SourceView()))
              && outcome == (if ok then Some(StageAll(old(SourceView()), e).1) else None)
              && (ok ==> Counted(old(SourceView()), e, outcome.value))
      ensures SourceInv(SourceView())
    {
      hide SourceInv, StageAll, Fanned, Prune, Counted;
      if !attached || !validTopic || |e.payload| > maxPayload {
        return None;
      }
      PublishInv(SourceView(), e);
      OutcomeCounts(SourceView(), e);
      var o := FanOutEvent(e);
      DrainEverything();
      return Some(o);
    }

    /** Number the event, stage it everywhere and end the subscriptions that overflow. */
    method FanOutEvent(e: Event) returns (o: Outcome)
      requires SourceInv(SourceView())
      modifies this`sequences, this`sourceStats, this`log, this`remotes, this`overwritten, this`notices
      ensures SourceView() == Fanned(old(SourceView()), e) && o == StageAll(old(SourceView()), e).1
    {
      hide SourceInv, StageUpTo, TerminateAll, Ordered;
      ghost var before := SourceView();
      var p := AssignSequence(e);
      o := StageEverywhere(p, e.unencodable);
      assert (SourceView(), o) == StageAll(before, e);
      OrderedStaged(before, e);
      TerminateOverflowed(o.overflowed);
      sourceStats := sourceStats.(publishedItems := sourceStats.publishedItems + 1);
    }

    method AssignSequence(e: Event) returns (p: Publication)
      modifies this`sequences, this`sourceStats, this`log
      ensures p == NextPublication(old(SourceView()), e) && SourceView() == Numbered(old(SourceView()), e)
    {
      sourceStats := sourceStats.(published := sourceStats.published + 1);
      var sequence := (if e.topic in sequences then sequences[e.topic] else 0) + 1;
      sequences := sequences[e.topic := sequence];
      p := Publication(e.topic, sequence, e.event, e.payload);
      log := log + [p];
    }

    method StageEverywhere(p: Publication, unencodable: set<nat>) returns (o: Outcome)
      modifies this`remotes, this`sourceStats, this`overwritten
      ensures (SourceView(), o) == StageUpTo(old(SourceView()), |old(remotes)|, p, unencodable)
    {
      o := Outcome(0, 0, 0, []);
      for i := 0 to |remotes|
        invariant |remotes| == |old(remotes)|
        invariant (SourceView(), o) == StageUpTo(old(SourceView()), i, p, unencodable)
      {
        o := StageOne(i, p, unencodable, o);
      }
    }

    method TerminateOverflowed(ids: seq<nat>)
      requires Ordered(remotes)
      modifies this`remotes, this`notices, this`sourceStats
      ensures SourceView() == TerminateAll(old(SourceView()), ids)
    {
      hide Terminate, Ordered;
      for i := 0 to |ids|
        invariant Ordered(remotes) && SourceView() == TerminateAll(old(SourceView()), ids[..i])
      {
        TerminateNext(old(SourceView()), ids, i);
        TerminateRemote(ids[i]);
      }
      assert ids[..|ids|] == ids;
    }

    // ---- Draining --------------------------------------------------------

    /** Send from the queue at `i` until it is empty or the channel refuses. */
    method DrainStaged(i: nat)
      requires i < |remotes|
      modifies this`remotes, this`script, this`sent, this`sourceStats
      ensures SourceView() == DrainAt(old(SourceView()), i)
    {
      while remotes[i].staged != []
        invariant |remotes| == |old(remotes)|
        invariant DrainAt(SourceView(), i) == DrainAt(old(SourceView()), i)
        decreases |remotes[i].staged|
      {
        ghost var s := SourceView();
        var r := remotes[i];
        var admitted := script == [] || script[0];
        script := if script == [] then [] else script[1..];
        if !admitted {
          assert SourceView() == SendFront(s, i);
          return;
        }
        sent := sent + [r.staged[0]];
        remotes := remotes[i := r.(staged := r.staged[1..])];
        sourceStats := sourceStats.(itemsSent := sourceStats.itemsSent + 1);
        assert SourceView() == SendFront(s, i);
      }
    }

    method DrainEverything()
      modifies this`remotes, this`script, this`sent, this`sourceStats
      ensures SourceView() == Prune(old(SourceView()))
    {
      hide DrainAt;
      for i := 0 to |remotes|
        invariant |remotes| == |old(remotes)| && SourceView() == DrainUpTo(old(SourceView()), i)
      {
        DrainStaged(i);
      }
    }

    // ---- Peer subscriptions ----------------------------------------------

    method HandleSubscribe(r: Remote, granted: bool)
      modifies this`remotes, this`notices, this`sourceStats, this`failedChannels
      ensures SourceView() == AcceptSubscribe(old(SourceView()), r, granted)
    {
      hide Find, Insert;
      var i := IndexFor(r.id);
      if i < |remotes| {
        if remotes[i].pattern == r.pattern && remotes[i].prefix == r.prefix && remotes[i].qos == r.qos {
          sourceStats := sourceStats.(duplicates := sourceStats.duplicates + 1);
        } else {
          failedChannels := failedChannels + 1;
        }
        return;
      }
      if !granted {
        sourceStats := sourceStats.(rejected := sourceStats.rejected + 1,
                                    scopeRejected := sourceStats.scopeRejected + 1);
        notices := notices + [r.id];
        return;
      }
      if |remotes| >= cfg.maxSubscriptions {
        sourceStats := sourceStats.(rejected := sourceStats.rejected + 1, limitHits := sourceStats.limitHits + 1);
        notices := notices + [r.id];
        return;
      }
      AddRemote(r.(staged := []));
      sourceStats := sourceStats.(accepted := sourceStats.accepted + 1);
    }

    /** Keep the map ordered by id. */
    method AddRemote(r: Remote)
      modifies this`remotes
      ensures remotes == Insert(old(remotes), r)
    {
      var i := 0;
      assert remotes[0..] == remotes && remotes[..0] == [];
      while i < |remotes| && remotes[i].id <= r.id
        invariant i <= |remotes| && remotes == old(remotes)
        invariant remotes[..i] + Insert(remotes[i..], r) == Insert(remotes, r)
      {
        InsertTail(remotes, i, r);
        i := i + 1;
      }
      remotes := remotes[..i] + [r] + remotes[i..];
    }

    method HandleUnsubscribe(id: nat)
      requires Ordered(remotes)
      modifies this`remotes, this`sourceStats
      ensures SourceView() == AcceptUnsubscribe(old(SourceView()), id)
    {
      hide Find, Without;
      var i := IndexFor(id);
      if i == |remotes| {
        sourceStats := sourceStats.(terminated := sourceStats.terminated + 1);
        return;
      }
      WithoutAt(remotes, i);
      remotes := remotes[..i] + remotes[i + 1..];
    }

    // ---- The subscriber --------------------------------------------------

    method HandleItem(item: Item)
      modifies this`locals, this`sinkStats, this`delivered, this`offered
      ensures SinkView() == OnItem(old(SinkView()), item)
    {
      hide Accept;
      if item.sub !in locals {
        sinkStats := sinkStats.(unknown := sinkStats.unknown + 1);
        return;
      }
      var l := locals[item.sub];
      if l.hasSequence {
        if item.sequence == l.newest {
          if item.event == l.lastEvent {
            sinkStats := sinkStats.(duplicates := sinkStats.duplicates + 1);
            return;
          }
          DropConflicting(item.sub);
          return;
        } else if item.sequence < l.newest {
          DropConflicting(item.sub);
          return;
        }
      }
      DeliverLocally(item);
    }

    /** Count the sequences skipped over and hand the item on. */
    method DeliverLocally(item: Item)
      requires item.sub in locals
      requires !locals[item.sub].hasSequence || item.sequence > locals[item.sub].newest
      modifies this`locals, this`sinkStats, this`delivered
      ensures SinkView() == Accept(old(SinkView()), old(locals)[item.sub], item)
    {
      var l := locals[item.sub];
      if l.hasSequence {
        var gap := item.sequence - l.newest - 1;
        if gap > 0 {
          sinkStats := sinkStats.(lagEvents := sinkStats.lagEvents + 1, lagTotal := sinkStats.lagTotal + gap);
          if l.qos == BestEffortLatest {
            sinkStats := sinkStats.(stale := sinkStats.stale + 1);
          }
        }
      }
      locals := locals[item.sub := l.(hasSequence := true, newest := item.sequence, lastEvent := item.event)];
      sinkStats := sinkStats.(received := sinkStats.received + 1);
      delivered := delivered + [item];
    }

    method DropConflicting(id: nat)
      modifies this`locals, this`sinkStats, this`offered
      ensures var k := old(SinkView());
              SinkView() == k.(stats := k.stats.(conflicts := k.stats.conflicts + 1), locals := k.locals - {id},
                               notices := k.notices + multiset{id})
    {
      sinkStats := sinkStats.(conflicts := sinkStats.conflicts + 1);
      locals := locals - {id};
      offered := offered + multiset{id};
    }

    method SubscribeTo(id: nat, pattern: string, qos: Qos)
      modifies this`locals
      ensures SinkView() == Subscribe(old(SinkView()), id, pattern, qos)
    {
      locals := locals[id := Local(pattern, qos, false, 0, 0)];
    }

    /** Drop every local subscription with the given pattern, and no other, telling the
        peer once about each. */
    method UnsubscribeFrom(pattern: string) returns (removed: nat)
      modifies this`locals, this`offered
      ensures locals == old(locals) - WithPattern(old(locals), old(locals).Keys, pattern)
      ensures removed == |WithPattern(old(locals), old(locals).Keys, pattern)|
      ensures offered == old(offered) + multiset(WithPattern(old(locals), old(locals).Keys, pattern))
    {
      hide WithPattern;
      ghost var before := locals;
      removed := 0;
      var rest := locals.Keys;
      AllWithPattern(before, pattern);
      while rest != {}
        invariant rest <= before.Keys
        invariant locals == before - WithPattern(before, before.Keys - rest, pattern)
        invariant removed == |WithPattern(before, before.Keys - rest, pattern)|
        invariant offered == old(offered) + multiset(WithPattern(before, before.Keys - rest, pattern))
        decreases |rest|
      {
        var id :| id in rest;
        OneWithPattern(before, rest, id, pattern);
        if locals[id].pattern == pattern {
          locals := locals - {id};
          offered := offered + multiset{id};
          removed := removed + 1;
        }
        rest := rest - {id};
      }
      assert before.Keys - rest == before.Keys;
    }

    /** Session loss ends the subscriptions of both roles. */
    method HandleSessionClosed()
      modifies this`locals, this`remotes
      ensures SinkView() == old(SinkView()).(locals := map[])
      ensures SourceView() == old(SourceView()).(remotes := [])
    {
      locals := map[];
      remotes := [];
    }
  }

  /** Staging keeps the order of the subscriptions. */
  lemma {:induction false} OrderedStaged(s: Source, e: Event)
    requires SourceInv(s)
    ensures Ordered(StageAll(s, e).0.remotes)
  {
    hide StageUpTo;
    StageAllFind(Numbered(s, e), NextPublication(s, e), e.unencodable, 0);
  }
}

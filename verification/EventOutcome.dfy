/** Which subscriptions an event reaches, said on topic segments, and what the caller of
    publish is told about it. */
module EventOutcome {
  import opened Bytes
  import opened EventModel
  import opened EventSource

  // ---- Topics ------------------------------------------------------------

  /** A topic split at its dots; the empty topic is one empty segment. */
  function Segments(topic: string): (parts: seq<string>)
    ensures parts != []
  {
    if topic == [] then [[]]
    else
      var rest := Segments(topic[1..]);
      if topic[0] == '.' then [[]] + rest else [[topic[0]] + rest[0]] + rest[1..]
  }

  lemma {:induction false} SegmentsCons(topic: string)
    requires topic != []
    ensures var parts, rest := Segments(topic), Segments(topic[1..]);
            if topic[0] == '.' then parts[0] == [] && parts[1..] == rest
            else parts[0] == [topic[0]] + rest[0] && parts[1..] == rest[1..]
  {
  }

  /** Topics differ when their segments do, and segments start alike exactly when one topic
      is the other or lies below it. */
  lemma {:induction false} SegmentPrefix(a: string, b: string)
    ensures Segments(a) == Segments(b) <==> a == b
    ensures Segments(a) <= Segments(b) <==> a == b || (a < b && b[|a|] == '.')
    decreases |a|
  {
    if a == [] || b == [] {
      EmptyPrefix(a, b);
    } else {
      hide Segments;
      Uncons(a, b);
      SegmentPrefix(a[1..], b[1..]);
      SameHeads(a, b);
    }
  }

  lemma {:induction false} EmptyPrefix(a: string, b: string)
    requires a == [] || b == []
    ensures Segments(a) == Segments(b) <==> a == b
    ensures Segments(a) <= Segments(b) <==> a == b || (a < b && b[|a|] == '.')
  {
    if a != [] {
      SegmentsCons(a);
    }
    if b != [] {
      SegmentsCons(b);
    }
    assert Segments([]) == [[]];
  }

  lemma {:induction false} Uncons(a: string, b: string)
    requires a != [] && b != []
    ensures a == b <==> a[0] == b[0] && a[1..] == b[1..]
    ensures a < b <==> a[0] == b[0] && a[1..] < b[1..]
  {
    assert a == [a[0]] + a[1..] && b == [b[0]] + b[1..];
    if a < b {
      assert a[1..] == b[1..][..|a| - 1];
    }
  }

  /** Segment lists of two non-empty topics agree as far as those of their tails do. */
  lemma {:induction false} SameHeads(a: string, b: string)
    requires a != [] && b != []
    ensures Segments(a) == Segments(b) <==> a[0] == b[0] && Segments(a[1..]) == Segments(b[1..])
    ensures Segments(a) <= Segments(b) <==> a[0] == b[0] && Segments(a[1..]) <= Segments(b[1..])
  {
    SegmentsCons(a);
    SegmentsCons(b);
    hide Segments;
    var x, y := Segments(a[1..]), Segments(b[1..]);
    ListPrefix(Segments(a), Segments(b));
    ListPrefix(x, y);
    assert a[0] == b[0] && a[0] != '.' ==> ([a[0]] + x[0])[1..] == x[0] && ([b[0]] + y[0])[1..] == y[0];
    assert a[0] != '.' ==> Segments(a)[0][0] == a[0];
    assert b[0] != '.' ==> Segments(b)[0][0] == b[0];
  }

  lemma {:induction false} ListPrefix(x: seq<string>, y: seq<string>)
    requires x != [] && y != []
    ensures x == y <==> x[0] == y[0] && x[1..] == y[1..]
    ensures x <= y <==> x[0] == y[0] && x[1..] <= y[1..]
  {
    assert x == [x[0]] + x[1..] && y == [y[0]] + y[1..];
    if x <= y {
      assert x[1..] == y[1..][..|x| - 1];
    }
  }

  /** The topic's segments are the pattern's or, for a prefix subscription, start with them. */
  predicate Takes(r: Remote, topic: string) {
    Segments(r.pattern) == Segments(topic) || (r.prefix && Segments(r.pattern) <= Segments(topic))
  }

  /** Matching is by whole segments: "a.b" covers "a.b.c" but not "a.bc". */
  lemma {:induction false} MatchIsBySegment(r: Remote, topic: string)
    ensures Matches(r.pattern, r.prefix, topic) <==> Takes(r, topic)
  {
    hide Segments;
    SegmentPrefix(r.pattern, topic);
    if |r.pattern| < |topic| {
      assert r.pattern < topic <==> topic[..|r.pattern|] == r.pattern;
    }
  }

  // ---- One subscription --------------------------------------------------

  /** The bounded queue of a reliable subscription is full. */
  predicate Full(r: Remote, cfg: ValidConfig) {
    r.qos == ReliableLive && |r.staged| >= cfg.queueItems
  }

  predicate Reached(r: Remote, e: Event) {
    Takes(r, e.topic) && r.id !in e.unencodable
  }

  /** What an event makes of one subscription: nothing if it is on another topic or could not
      be encoded; the end of it if its queue is full; else the item is the last one queued,
      after the earlier ones or, under keep-latest, instead of them. */
  predicate Effect(r: Remote, after: Option<Remote>, e: Event, item: Item, cfg: ValidConfig) {
    if !Reached(r, e) then after == Some(r)
    else if Full(r, cfg) then after.None?
    else after == Some(r.(staged := if r.qos == BestEffortLatest then [item] else r.staged + [item]))
  }

  /** Every subscription, on every topic, with every queue. */
  lemma {:induction false} FanOutBySegment(s: Source, e: Event, id: nat)
    requires SourceInv(s) && Find(s.remotes, id).Some?
    ensures var sequence := if e.topic in s.sequences then s.sequences[e.topic] + 1 else 1;
            Effect(Find(s.remotes, id).value, Find(Fanned(s, e).remotes, id), e,
                   Item(id, sequence, e.event, e.payload), s.cfg)
  {
    hide Fanned, Segments, Takes;
    FanOut(s, e, id);
    var i := IndexOf(s.remotes, id);
    var r := s.remotes[i];
    MatchIsBySegment(r, e.topic);
    assert QueueInv(r, s.cfg);
    if r.qos == BestEffortLatest && r.staged != [] {
      assert r.staged[1..] == [];
    }
    assert forall item: Item :: [] + [item] == [item];
  }

  // ---- What the caller is told -------------------------------------------

  /** What a subscription is counted for. */
  datatype Fate = Matching | Queued | Overrun | Newest

  predicate Meets(r: Remote, fate: Fate, e: Event, cfg: ValidConfig) {
    match fate
    case Matching => Takes(r, e.topic)
    case Queued => Reached(r, e) && !Full(r, cfg)
    case Overrun => Reached(r, e) && Full(r, cfg)
    case Newest => r.staged != [] && r.staged[|r.staged| - 1].event == e.event
  }

  function Count(remotes: seq<Remote>, fate: Fate, e: Event, cfg: ValidConfig): nat {
    if remotes == [] then 0
    else (if Meets(remotes[0], fate, e, cfg) then 1 else 0) + Count(remotes[1..], fate, e, cfg)
  }

  /** No queue holds an item of this event yet. */
  predicate Unseen(remotes: seq<Remote>, e: Event) {
    forall r, item :: r in remotes && item in r.staged ==> item.event != e.event
  }

  /** The counts in an outcome: the subscriptions on the topic, the queues the item was put
      in, which are those that now end with it, and the subscriptions that are gone. */
  predicate Counted(s: Source, e: Event, o: Outcome) {
    var t := Fanned(s, e);
    && o.matched == Count(s.remotes, Matching, e, s.cfg)
    && o.staged == Count(s.remotes, Queued, e, s.cfg)
    && (Unseen(s.remotes, e) ==> o.staged == Count(t.remotes, Newest, e, s.cfg))
    && o.terminated == Count(s.remotes, Overrun, e, s.cfg) == |s.remotes| - |t.remotes| == |o.overflowed|
    && t.notices == s.notices + o.overflowed
  }

  lemma {:induction false} CountSnoc(remotes: seq<Remote>, n: nat, fate: Fate, e: Event, cfg: ValidConfig)
    requires n < |remotes|
    ensures Count(remotes[..n + 1], fate, e, cfg)
         == Count(remotes[..n], fate, e, cfg) + if Meets(remotes[n], fate, e, cfg) then 1 else 0
    decreases n
  {
    hide Meets;
    if n > 0 {
      CountSnoc(remotes[1..], n - 1, fate, e, cfg);
      assert remotes[..n + 1][1..] == remotes[1..][..n] && remotes[..n][1..] == remotes[1..][..n - 1];
    } else {
      assert remotes[..1] == [remotes[0]] && remotes[..1][1..] == [];
    }
  }

  /** One round of the publish loop. */
  lemma {:induction false} RoundCounts(o: Outcome, s: Source, e: Event, r: Remote)
    ensures var t := CountStaging(o, r.id, StagingOf(r, NextPublication(s, e), e.unencodable, s.cfg));
            && t.matched == o.matched + (if Meets(r, Matching, e, s.cfg) then 1 else 0)
            && t.staged == o.staged + (if Meets(r, Queued, e, s.cfg) then 1 else 0)
            && t.terminated == o.terminated + (if Meets(r, Overrun, e, s.cfg) then 1 else 0)
            && |t.overflowed| - |o.overflowed| == t.terminated - o.terminated
  {
    hide Takes, Matches;
    MatchIsBySegment(r, e.topic);
  }

  /** The first `n` rounds of the publish loop. */
  predicate CountedTo(s: Source, e: Event, n: nat, o: Outcome)
    requires n <= |s.remotes|
  {
    && o.matched == Count(s.remotes[..n], Matching, e, s.cfg)
    && o.staged == Count(s.remotes[..n], Queued, e, s.cfg)
    && o.terminated == Count(s.remotes[..n], Overrun, e, s.cfg) == |o.overflowed|
  }

  lemma {:induction false} CountRounds(s: Source, e: Event, n: nat)
    requires n <= |s.remotes|
    ensures CountedTo(s, e, n, StageUpTo(Numbered(s, e), n, NextPublication(s, e), e.unencodable).1)
  {
    hide StagingOf, CountStaging, StageUpTo, Meets, Count;
    var p := NextPublication(s, e);
    if n > 0 {
      CountRounds(s, e, n - 1);
      OneRound(Numbered(s, e), n - 1, p, e.unencodable);
      RoundCounts(StageUpTo(Numbered(s, e), n - 1, p, e.unencodable).1, s, e, s.remotes[n - 1]);
      CountSnoc(s.remotes, n - 1, Matching, e, s.cfg);
      CountSnoc(s.remotes, n - 1, Queued, e, s.cfg);
      CountSnoc(s.remotes, n - 1, Overrun, e, s.cfg);
    } else {
      assert s.remotes[..0] == [];
      NoneCounted(e, s.cfg);
      NoRound(Numbered(s, e), p, e.unencodable);
    }
  }

  lemma {:induction false} OneRound(s: Source, n: nat, p: Publication, u: set<nat>)
    requires n < |s.remotes|
    ensures StageUpTo(s, n + 1, p, u).1
         == CountStaging(StageUpTo(s, n, p, u).1, s.remotes[n].id, StagingOf(s.remotes[n], p, u, s.cfg))
  {
    hide StagingOf, CountStaging, StageInto, StagingStats;
    StageUpToAt(s, n, p, u, n);
  }

  lemma {:induction false} NoRound(s: Source, p: Publication, u: set<nat>)
    ensures StageUpTo(s, 0, p, u).1 == Outcome(0, 0, 0, [])
  {
  }

  lemma {:induction false} NoneCounted(e: Event, cfg: ValidConfig)
    ensures forall fate :: Count([], fate, e, cfg) == 0
  {
  }

  // ---- Removal -----------------------------------------------------------

  /** Removing a registered subscription removes one. */
  lemma {:induction false} WithoutOne(remotes: seq<Remote>, id: nat)
    requires Ordered(remotes)
    ensures |Without(remotes, id)| == |remotes| - if Find(remotes, id).Some? then 1 else 0
  {
    if remotes != [] {
      OrderedTail(remotes);
      WithoutOne(remotes[1..], id);
      if remotes[0].id == id {
        Absent(remotes[1..], id);
      }
    }
  }

  lemma {:induction false} TerminateCounts(s: Source, ids: seq<nat>)
    requires Ordered(s.remotes) && forall i :: 0 <= i < |ids| ==> Find(s.remotes, ids[i]).Some?
    requires forall i, j :: 0 <= i < j < |ids| ==> ids[i] != ids[j]
    ensures |TerminateAll(s, ids).remotes| == |s.remotes| - |ids|
    ensures TerminateAll(s, ids).notices == s.notices + ids
  {
    if ids != [] {
      var n := |ids| - 1;
      TerminateCounts(s, ids[..n]);
      TerminatedAll(s, ids[..n], ids[n]);
      WithoutOne(TerminateAll(s, ids[..n]).remotes, ids[n]);
      assert ids == ids[..n] + [ids[n]];
    }
  }

  /** The overflowing subscriptions are listed once each. */
  lemma {:induction false} OverflowedRise(s: Source, n: nat, p: Publication, u: set<nat>)
    requires n <= |s.remotes| && Ordered(s.remotes)
    ensures var ids := StageUpTo(s, n, p, u).1.overflowed;
            && (forall i, j :: 0 <= i < j < |ids| ==> ids[i] < ids[j])
            && (forall i :: 0 <= i < |ids| ==> exists k :: 0 <= k < n && s.remotes[k].id == ids[i])
  {
    hide StagingOf, StageInto, StagingStats;
    if n > 0 {
      OverflowedRise(s, n - 1, p, u);
      StageUpToAt(s, n - 1, p, u, n - 1);
      var ids := StageUpTo(s, n - 1, p, u).1.overflowed;
      var now := StageUpTo(s, n, p, u).1.overflowed;
      assert now == ids || now == ids + [s.remotes[n - 1].id];
      forall i | 0 <= i < |now|
        ensures exists k :: 0 <= k < n && s.remotes[k].id == now[i]
        ensures i < |ids| ==> now[i] < s.remotes[n - 1].id
      {
        if i < |ids| {
          var k :| 0 <= k < n - 1 && s.remotes[k].id == ids[i];
        } else {
          assert s.remotes[n - 1].id == now[i];
        }
      }
    }
  }

  // ---- The queues that end with the item ---------------------------------

  /** Staged everywhere and then pruned of the overflowing ones: the same subscriptions in
      the same order. */
  function Survivors(remotes: seq<Remote>, p: Publication, u: set<nat>, cfg: ValidConfig): seq<Remote> {
    if remotes == [] then []
    else (if StagingOf(remotes[0], p, u, cfg) == Overflow then [] else [StageInto(remotes[0], p, u, cfg)])
         + Survivors(remotes[1..], p, u, cfg)
  }

  lemma {:induction false} StagedNewest(r: Remote, s: Source, e: Event)
    requires forall item :: item in r.staged ==> item.event != e.event
    ensures var p := NextPublication(s, e);
            StagingOf(r, p, e.unencodable, s.cfg) != Overflow ==>
              (Meets(StageInto(r, p, e.unencodable, s.cfg), Newest, e, s.cfg) <==> Meets(r, Queued, e, s.cfg))
    ensures StagingOf(r, NextPublication(s, e), e.unencodable, s.cfg) == Overflow ==> !Meets(r, Queued, e, s.cfg)
  {
    hide Takes, Matches;
    MatchIsBySegment(r, e.topic);
    if r.staged != [] {
      assert r.staged[|r.staged| - 1] in r.staged;
    }
  }

  lemma {:induction false} SurvivorsNewest(remotes: seq<Remote>, s: Source, e: Event)
    requires Unseen(remotes, e)
    ensures Count(Survivors(remotes, NextPublication(s, e), e.unencodable, s.cfg), Newest, e, s.cfg)
         == Count(remotes, Queued, e, s.cfg)
  {
    hide Meets, StagingOf, StageInto;
    if remotes != [] {
      var p := NextPublication(s, e);
      SurvivorsNewest(remotes[1..], s, e);
      assert remotes[0] in remotes;
      StagedNewest(remotes[0], s, e);
      var all := Survivors(remotes, p, e.unencodable, s.cfg);
      if StagingOf(remotes[0], p, e.unencodable, s.cfg) == Overflow {
        assert all == Survivors(remotes[1..], p, e.unencodable, s.cfg);
      } else {
        assert all[1..] == Survivors(remotes[1..], p, e.unencodable, s.cfg);
      }
    }
  }

  /** The subscriptions not listed. */
  function Unlisted(remotes: seq<Remote>, ids: seq<nat>): seq<Remote> {
    if remotes == [] then []
    else (if remotes[0].id in ids then [] else [remotes[0]]) + Unlisted(remotes[1..], ids)
  }

  lemma {:induction false} UnlistedSnoc(remotes: seq<Remote>, ids: seq<nat>, id: nat)
    ensures Without(Unlisted(remotes, ids), id) == Unlisted(remotes, ids + [id])
  {
    if remotes != [] {
      UnlistedSnoc(remotes[1..], ids, id);
      var kept := Unlisted(remotes, ids);
      if remotes[0].id in ids {
        assert kept == Unlisted(remotes[1..], ids);
      } else {
        assert kept[1..] == Unlisted(remotes[1..], ids);
      }
    }
  }

  lemma {:induction false} AllUnlisted(remotes: seq<Remote>)
    ensures Unlisted(remotes, []) == remotes
  {
    if remotes != [] {
      AllUnlisted(remotes[1..]);
    }
  }

  lemma {:induction false} TerminateLeaves(s: Source, ids: seq<nat>)
    ensures TerminateAll(s, ids).remotes == Unlisted(s.remotes, ids)
  {
    if ids == [] {
      AllUnlisted(s.remotes);
    } else {
      var n := |ids| - 1;
      TerminateLeaves(s, ids[..n]);
      UnlistedSnoc(s.remotes, ids[..n], ids[n]);
      assert ids == ids[..n] + [ids[n]];
    }
  }

  lemma {:induction false} UnlistedSurvive(staged: seq<Remote>, remotes: seq<Remote>, ids: seq<nat>, p: Publication,
                                           u: set<nat>, cfg: ValidConfig)
    requires |staged| == |remotes|
    requires forall i :: 0 <= i < |remotes| ==> staged[i] == StageInto(remotes[i], p, u, cfg)
    requires forall i :: 0 <= i < |remotes| ==> (remotes[i].id in ids <==> StagingOf(remotes[i], p, u, cfg) == Overflow)
    ensures Unlisted(staged, ids) == Survivors(remotes, p, u, cfg)
    decreases |remotes|
  {
    hide StagingOf, StageInto;
    if remotes != [] {
      UnlistedSurvive(staged[1..], remotes[1..], ids, p, u, cfg);
    }
  }

  lemma {:induction false} FannedSurvive(s: Source, e: Event)
    requires SourceInv(s)
    ensures Fanned(s, e).remotes == Survivors(s.remotes, NextPublication(s, e), e.unencodable, s.cfg)
  {
    hide StagingOf, StageInto, StageUpTo, TerminateAll, Unlisted, Survivors;
    var p := NextPublication(s, e);
    var s0 := Numbered(s, e);
    var (s1, o) := StageAll(s, e);
    TerminateLeaves(s1, o.overflowed);
    forall i | 0 <= i < |s.remotes|
      ensures s1.remotes[i] == StageInto(s.remotes[i], p, e.unencodable, s.cfg)
      ensures s.remotes[i].id in o.overflowed <==> StagingOf(s.remotes[i], p, e.unencodable, s.cfg) == Overflow
    {
      StageUpToAt(s0, |s.remotes|, p, e.unencodable, i);
      FindAt(s.remotes, i);
      OverflowedIs(s0, p, e.unencodable, s.remotes[i].id);
    }
    UnlistedSurvive(s1.remotes, s.remotes, o.overflowed, p, e.unencodable, s.cfg);
  }

  /** The overflowing subscriptions go, one for each that was listed, and are the ones the
      peer is told about. */
  lemma {:induction false} FannedRemoves(s: Source, e: Event)
    requires SourceInv(s)
    ensures var o := StageAll(s, e).1;
            && |Fanned(s, e).remotes| == |s.remotes| - |o.overflowed|
            && Fanned(s, e).notices == s.notices + o.overflowed
  {
    hide StagingOf, StageInto, StageUpTo, TerminateAll;
    var p := NextPublication(s, e);
    var s0 := Numbered(s, e);
    var (s1, o) := StageAll(s, e);
    OverflowedRise(s0, |s.remotes|, p, e.unencodable);
    StageFrame(s0, |s.remotes|, p, e.unencodable);
    forall i | 0 <= i < |o.overflowed|
      ensures Find(s1.remotes, o.overflowed[i]).Some?
    {
      OverflowedIs(s0, p, e.unencodable, o.overflowed[i]);
      StageAllFind(s0, p, e.unencodable, o.overflowed[i]);
    }
    StageAllFind(s0, p, e.unencodable, 0);
    TerminateCounts(s1, o.overflowed);
  }

  /** What publish reports is what it did, for every event and every set of subscriptions. */
  lemma {:induction false} OutcomeCounts(s: Source, e: Event)
    requires SourceInv(s)
    ensures Counted(s, e, StageAll(s, e).1)
  {
    hide SourceInv, StageUpTo, Fanned, Count, Unseen, Survivors;
    CountRounds(s, e, |s.remotes|);
    assert s.remotes[..|s.remotes|] == s.remotes;
    FannedRemoves(s, e);
    FannedSurvive(s, e);
    if Unseen(s.remotes, e) {
      SurvivorsNewest(s.remotes, s, e);
    }
  }
}

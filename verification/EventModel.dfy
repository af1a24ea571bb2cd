/** The event service as values: the source role with one staging queue per subscription,
    the subscriber role with its sequence checks, and every operation as a function.

    `EventService.dfy` holds the same operations as methods that update an object in
    place. `log`, `overwritten` and `delivered` record what happened; no branch
    depends on them. Admission of items to the channel is a script of verdicts: an
    exhausted script admits. */
module EventModel {
  import opened Bytes

  datatype Qos = BestEffortLatest | ReliableLive

  /** One published event. */
  datatype Publication = Publication(topic: string, sequence: nat, event: nat, payload: seq<byte>)

  /** An encoded item: the publication without its topic, addressed to one subscription. */
  datatype Item = Item(sub: nat, sequence: nat, event: nat, payload: seq<byte>)

  function ItemFor(sub: nat, p: Publication): Item {
    Item(sub, p.sequence, p.event, p.payload)
  }

  /** A subscription the peer holds. */
  datatype Remote = Remote(id: nat, pattern: string, prefix: bool, qos: Qos, staged: seq<Item>)

  datatype SourceStats = SourceStats(
    published: nat,
    publishedItems: nat,
    overwrites: nat,
    drops: nat,
    overflows: nat,
    itemsSent: nat,
    sendFailures: nat,
    terminated: nat,
    accepted: nat,
    rejected: nat,
    duplicates: nat,
    limitHits: nat,
    scopeRejected: nat)

  datatype Config = Config(queueItems: nat, maxSubscriptions: nat)

  type ValidConfig = c: Config | 1 <= c.queueItems <= 65536 && 1 <= c.maxSubscriptions <= 4096
    witness Config(1, 1)

  /** The source role. `remotes` is ordered by id; `notices` lists the subscriptions the
      peer was told are over, `failedChannels` counts channels closed for a protocol fault. */
  datatype Source = Source(
    cfg: ValidConfig,
    remotes: seq<Remote>,
    sequences: map<string, nat>,
    script: seq<bool>,
    sent: seq<Item>,
    notices: seq<nat>,
    failedChannels: nat,
    stats: SourceStats,
    log: seq<Publication>,
    overwritten: seq<Item>)

  datatype Outcome = Outcome(matched: nat, staged: nat, terminated: nat, overflowed: seq<nat>)

  /** The pattern itself or, for a prefix subscription, a topic below it. */
  predicate Matches(pattern: string, prefix: bool, topic: string) {
    pattern == topic
    || (prefix && |pattern| < |topic| && topic[..|pattern|] == pattern && topic[|pattern|] == '.')
  }

  // ---- Staging -----------------------------------------------------------

  predicate Overflows(r: Remote, cfg: ValidConfig) {
    r.qos == ReliableLive && |r.staged| >= cfg.queueItems
  }

  /** What one publication does to one subscription. */
  datatype Staging = Unmatched | NotEncoded | Overflow | Staged | Overwrote(lost: Item)

  function StagingOf(r: Remote, p: Publication, unencodable: set<nat>, cfg: ValidConfig): Staging {
    if !Matches(r.pattern, r.prefix, p.topic) then Unmatched
    else if r.id in unencodable then NotEncoded
    else if Overflows(r, cfg) then Overflow
    else if r.qos == BestEffortLatest && r.staged != [] then Overwrote(r.staged[0])
    else Staged
  }

  /** The subscription afterwards. */
  function StageInto(r: Remote, p: Publication, unencodable: set<nat>, cfg: ValidConfig): (t: Remote)
    ensures t == r.(staged := t.staged)
  {
    match StagingOf(r, p, unencodable, cfg)
    case Unmatched => r
    case NotEncoded => r
    case Overflow => r
    case Staged => r.(staged := r.staged + [ItemFor(r.id, p)])
    case Overwrote(_) => r.(staged := r.staged[1..] + [ItemFor(r.id, p)])
  }

  function CountStaging(o: Outcome, id: nat, g: Staging): Outcome {
    match g
    case Unmatched => o
    case NotEncoded => o.(matched := o.matched + 1)
    case Overflow => o.(matched := o.matched + 1, terminated := o.terminated + 1, overflowed := o.overflowed + [id])
    case Staged => o.(matched := o.matched + 1, staged := o.staged + 1)
    case Overwrote(_) => o.(matched := o.matched + 1, staged := o.staged + 1)
  }

  function StagingStats(t: SourceStats, g: Staging): SourceStats {
    match g
    case Unmatched => t
    case NotEncoded => t.(sendFailures := t.sendFailures + 1)
    case Overflow => t.(overflows := t.overflows + 1)
    case Staged => t
    case Overwrote(_) => t.(overwrites := t.overwrites + 1, drops := t.drops + 1)
  }

  /** One round of the publish loop. */
  function StageAt(s: Source, o: Outcome, i: nat, p: Publication, unencodable: set<nat>): (Source, Outcome)
    requires i < |s.remotes|
  {
    var r := s.remotes[i];
    var g := StagingOf(r, p, unencodable, s.cfg);
    (s.(remotes := s.remotes[i := StageInto(r, p, unencodable, s.cfg)],
        stats := StagingStats(s.stats, g),
        overwritten := s.overwritten + if g.Overwrote? then [g.lost] else []),
     CountStaging(o, r.id, g))
  }

  /** The first `n` rounds. */
  function StageUpTo(s: Source, n: nat, p: Publication, unencodable: set<nat>): (w: (Source, Outcome))
    requires n <= |s.remotes|
    ensures |w.0.remotes| == |s.remotes|
  {
    if n == 0 then (s, Outcome(0, 0, 0, []))
    else
      var (s1, o1) := StageUpTo(s, n - 1, p, unencodable);
      StageAt(s1, o1, n - 1, p, unencodable)
  }

  // ---- Removing and draining ---------------------------------------------

  function Without(remotes: seq<Remote>, id: nat): seq<Remote> {
    if remotes == [] then []
    else (if remotes[0].id == id then [] else [remotes[0]]) + Without(remotes[1..], id)
  }

  function Terminate(s: Source, id: nat): Source {
    s.(remotes := Without(s.remotes, id), notices := s.notices + [id],
       stats := s.stats.(terminated := s.stats.terminated + 1))
  }

  function TerminateAll(s: Source, ids: seq<nat>): Source {
    if ids == [] then s else Terminate(TerminateAll(s, ids[..|ids| - 1]), ids[|ids| - 1])
  }

  /** The channel's verdict on the next item. */
  predicate Admits(s: Source) {
    s.script == [] || s.script[0]
  }

  function NextScript(script: seq<bool>): seq<bool> {
    if script == [] then [] else script[1..]
  }

  /** Offer the front item of one queue; an admitted item leaves the queue. */
  function SendFront(s: Source, i: nat): Source
    requires i < |s.remotes| && s.remotes[i].staged != []
  {
    var r := s.remotes[i];
    if Admits(s) then
      s.(script := NextScript(s.script), sent := s.sent + [r.staged[0]],
         remotes := s.remotes[i := r.(staged := r.staged[1..])],
         stats := s.stats.(itemsSent := s.stats.itemsSent + 1))
    else s.(script := NextScript(s.script))
  }

  /** Send from one queue until it is empty or the channel refuses. */
  function DrainAt(s: Source, i: nat): (t: Source)
    requires i < |s.remotes|
    ensures |t.remotes| == |s.remotes|
    decreases |s.remotes[i].staged|
  {
    if s.remotes[i].staged == [] then s
    else if !Admits(s) then SendFront(s, i)
    else DrainAt(SendFront(s, i), i)
  }

  function DrainUpTo(s: Source, n: nat): (t: Source)
    requires n <= |s.remotes|
    ensures |t.remotes| == |s.remotes|
  {
    if n == 0 then s else DrainAt(DrainUpTo(s, n - 1), n - 1)
  }

  function Prune(s: Source): Source {
    DrainUpTo(s, |s.remotes|)
  }

  // ---- Publishing --------------------------------------------------------

  function TopicSequence(s: Source, topic: string): nat {
    if topic in s.sequences then s.sequences[topic] else 0
  }

  /** A publish call that passed the checks on attachment, topic and size. */
  datatype Event = Event(topic: string, payload: seq<byte>, event: nat, unencodable: set<nat>)

  function NextPublication(s: Source, e: Event): Publication {
    Publication(e.topic, TopicSequence(s, e.topic) + 1, e.event, e.payload)
  }

  /** The event numbered and recorded, before any subscription saw it. */
  function Numbered(s: Source, e: Event): Source {
    var p := NextPublication(s, e);
    s.(sequences := s.sequences[e.topic := p.sequence], log := s.log + [p],
       stats := s.stats.(published := s.stats.published + 1))
  }

  /** The event offered to every subscription. */
  function StageAll(s: Source, e: Event): (Source, Outcome) {
    StageUpTo(Numbered(s, e), |s.remotes|, NextPublication(s, e), e.unencodable)
  }

  /** The overflowing subscriptions terminated, nothing sent yet. */
  function Fanned(s: Source, e: Event): Source {
    var (s1, o) := StageAll(s, e);
    var s2 := TerminateAll(s1, o.overflowed);
    s2.(stats := s2.stats.(publishedItems := s2.stats.publishedItems + 1))
  }

  function Publish(s: Source, e: Event): Source {
    Prune(Fanned(s, e))
  }

  // ---- Subscriptions -----------------------------------------------------

  function Find(remotes: seq<Remote>, id: nat): Option<Remote> {
    if remotes == [] then None
    else if remotes[0].id == id then Some(remotes[0])
    else Find(remotes[1..], id)
  }

  function Insert(remotes: seq<Remote>, r: Remote): seq<Remote> {
    if remotes == [] || r.id < remotes[0].id then [r] + remotes
    else [remotes[0]] + Insert(remotes[1..], r)
  }

  /** An EVENT_SUBSCRIBE; `granted` is the answer of the scope check. */
  function AcceptSubscribe(s: Source, r: Remote, granted: bool): Source {
    var existing := Find(s.remotes, r.id);
    if existing.Some? then
      if existing.value.pattern == r.pattern && existing.value.prefix == r.prefix && existing.value.qos == r.qos then
        s.(stats := s.stats.(duplicates := s.stats.duplicates + 1))
      else s.(failedChannels := s.failedChannels + 1)
    else if !granted then
      s.(notices := s.notices + [r.id],
         stats := s.stats.(rejected := s.stats.rejected + 1, scopeRejected := s.stats.scopeRejected + 1))
    else if |s.remotes| >= s.cfg.maxSubscriptions then
      s.(notices := s.notices + [r.id],
         stats := s.stats.(rejected := s.stats.rejected + 1, limitHits := s.stats.limitHits + 1))
    else
      s.(remotes := Insert(s.remotes, r.(staged := [])), stats := s.stats.(accepted := s.stats.accepted + 1))
  }

  /** An EVENT_UNSUBSCRIBE; a late one only counts. */
  function AcceptUnsubscribe(s: Source, id: nat): Source {
    if Find(s.remotes, id).None? then s.(stats := s.stats.(terminated := s.stats.terminated + 1))
    else s.(remotes := Without(s.remotes, id))
  }

  // ---- The subscriber ----------------------------------------------------

  datatype Local = Local(pattern: string, qos: Qos, hasSequence: bool, newest: nat, lastEvent: nat)

  datatype SinkStats = SinkStats(
    received: nat,
    lagEvents: nat,
    lagTotal: nat,
    stale: nat,
    duplicates: nat,
    conflicts: nat,
    unknown: nat)

  /** The subscriber role. `notices` counts the UNSUBSCRIBE frames offered for each id. */
  datatype Sink = Sink(locals: map<nat, Local>, stats: SinkStats, delivered: seq<Item>, notices: multiset<nat>)

  function Gap(l: Local, item: Item): nat {
    if l.hasSequence && item.sequence > l.newest then item.sequence - l.newest - 1 else 0
  }

  function LagStats(t: SinkStats, gap: nat, qos: Qos): SinkStats {
    if gap == 0 then t
    else t.(lagEvents := t.lagEvents + 1, lagTotal := t.lagTotal + gap,
            stale := if qos == BestEffortLatest then t.stale + 1 else t.stale)
  }

  /** An in-order item is handed to the local consumers. */
  function Accept(k: Sink, l: Local, item: Item): Sink {
    var stats := LagStats(k.stats, Gap(l, item), l.qos);
    Sink(k.locals[item.sub := l.(hasSequence := true, newest := item.sequence, lastEvent := item.event)],
         stats.(received := stats.received + 1),
         k.delivered + [item],
         k.notices)
  }

  function OnItem(k: Sink, item: Item): Sink {
    if item.sub !in k.locals then k.(stats := k.stats.(unknown := k.stats.unknown + 1))
    else
      var l := k.locals[item.sub];
      if !l.hasSequence || item.sequence > l.newest then Accept(k, l, item)
      else if item.sequence == l.newest && item.event == l.lastEvent then
        k.(stats := k.stats.(duplicates := k.stats.duplicates + 1))
      else
        k.(stats := k.stats.(conflicts := k.stats.conflicts + 1), locals := k.locals - {item.sub},
           notices := k.notices + multiset{item.sub})
  }

  /** A new local subscription. */
  function Subscribe(k: Sink, id: nat, pattern: string, qos: Qos): Sink {
    k.(locals := k.locals[id := Local(pattern, qos, false, 0, 0)])
  }

  function Unsubscribe(k: Sink, id: nat): Sink {
    if id in k.locals then k.(locals := k.locals - {id}, notices := k.notices + multiset{id}) else k
  }
}

/**
 * Replaying traced agent sessions into the rollup (scripts/backfill-trace-usage.ts):
 * the fast path for single-model sessions, the per-event path, the paged scan and
 * the bucket table it fills.
 */
module TraceUsage {
  import opened Options
  import opened Rollup
  import opened Buckets

  /** A traced event; `day` is None when it carries no timestamp, missing token counts are 0. */
  datatype Event = Event(model: string, modelNames: seq<string>, gateway: bool, day: Option<nat>,
                         input: nat, output: nat, cachedInput: nat, cachedWrite: nat)

  datatype Session = Session(projectId: string, agentName: string, modelsUsed: seq<string>, startedOn: Option<nat>,
                             aiCalls: Option<nat>, totalInput: nat, totalOutput: nat, totalCachedInput: nat,
                                 events: seq<Event>)

  /** What a run reads besides the sessions: today's day, and how model names are folded to one case. */
  datatype World = World(today: nat, fold: string -> string)

  function DayOf(day: Option<nat>, today: nat): nat {
    if day.Some? then day.value else today
  }

  function FirstNonEmpty(names: seq<string>): string {
    if names == [] then "" else if names[0] != "" then names[0] else FirstNonEmpty(names[1..])
  }

  function ModelName(e: Event): string {
    if e.model != "" then e.model else FirstNonEmpty(e.modelNames)
  }

  function NonEmpty(names: seq<string>): seq<string> {
    if names == [] then []
    else
      var rest, last := NonEmpty(names[..|names| - 1]), names[|names| - 1];
      if last != "" then rest + [last] else rest
  }

  function Usage(calls: nat, input: nat, output: nat, cachedInput: nat, cachedWrite: nat): Counters {
    Counters(calls, 0, input, output, cachedInput, cachedWrite, 0, 0, 0, 0)
  }

  function Contribute(w: World, s: Session, model: string, day: nat, counters: Counters): Contribution {
    Contribution(BucketId(s.projectId, s.agentName, w.fold(model), day), model, counters)
  }

  // ── the two paths ──

  /** Only events that name a model and were not already accounted by the gateway are replayed. */
  predicate Replayed(e: Event) {
    ModelName(e) != "" && !e.gateway
  }

  /** The bucket filter lets through only usage with input, output or cached-input tokens. */
  predicate HasTokens(e: Event) {
    e.input + e.output + e.cachedInput > 0
  }

  function EventContribution(w: World, s: Session, e: Event): Contribution {
    Contribute(w, s, ModelName(e), DayOf(e.day, w.today), Usage(1, e.input, e.output, e.cachedInput, e.cachedWrite))
  }

  function FromEvents(w: World, s: Session, events: seq<Event>): seq<Contribution> {
    if events == [] then []
    else
      var rest := FromEvents(w, s, events[..|events| - 1]);
      var e := events[|events| - 1];
      if Replayed(e) then rest + [EventContribution(w, s, e)] else rest
  }

  predicate IsFast(s: Session) {
    |NonEmpty(s.modelsUsed)| == 1 && s.totalInput + s.totalOutput > 0
  }

  predicate NeedsEvents(s: Session) {
    |NonEmpty(s.modelsUsed)| > 1 && s.totalInput + s.totalOutput > 0
  }

  function FastContribution(w: World, s: Session): Contribution
    requires IsFast(s)
  {
    Contribute(w, s, NonEmpty(s.modelsUsed)[0], DayOf(s.startedOn, w.today),
               Usage(if s.aiCalls.Some? then s.aiCalls.value else 1,
                     s.totalInput, s.totalOutput, s.totalCachedInput, 0))
  }

  // ── the scan ──

  function FastPass(w: World, page: seq<Session>): seq<Contribution> {
    if page == [] then []
    else
      var rest := FastPass(w, page[..|page| - 1]);
      var s := page[|page| - 1];
      if IsFast(s) then rest + [FastContribution(w, s)] else rest
  }

  function Deferred(page: seq<Session>): seq<Session> {
    if page == [] then []
    else
      var rest := Deferred(page[..|page| - 1]);
      var s := page[|page| - 1];
      if NeedsEvents(s) then rest + [s] else rest
  }

  function EventPass(w: World, sessions: seq<Session>): seq<Contribution> {
    if sessions == [] then []
    else
      var s := sessions[|sessions| - 1];
      EventPass(w, sessions[..|sessions| - 1]) + FromEvents(w, s, s.events)
  }

  /** How many events are read. */
  function EventCount(sessions: seq<Session>): nat {
    if sessions == [] then 0 else EventCount(sessions[..|sessions| - 1]) + |sessions[|sessions| - 1].events|
  }

  /** One page: its single-model sessions first, then the sessions whose events were fetched. */
  function PageContributions(w: World, page: seq<Session>): seq<Contribution> {
    FastPass(w, page) + EventPass(w, Deferred(page))
  }

  const SESSION_PAGE_SIZE: nat := 100

  function Page(sessions: seq<Session>, skip: nat): seq<Session>
    requires skip <= |sessions|
  {
    sessions[skip..Min(skip + SESSION_PAGE_SIZE, |sessions|)]
  }

  function ScanFrom(w: World, sessions: seq<Session>, skip: nat): seq<Contribution>
    requires skip <= |sessions|
    decreases |sessions| - skip
  {
    var page := Page(sessions, skip);
    if page == [] then [] else PageContributions(w, page) + ScanFrom(w, sessions, skip + |page|)
  }

  /** Everything one run finds, in the order it adds it to the buckets. */
  function Scan(w: World, sessions: seq<Session>): seq<Contribution> {
    ScanFrom(w, sessions, 0)
  }

  lemma ScanUnfolds(w: World, sessions: seq<Session>, skip: nat, page: seq<Session>)
    requires skip <= |sessions| && page == Page(sessions, skip) && page != []
    ensures ScanFrom(w, sessions, skip) == PageContributions(w, page) + ScanFrom(w, sessions, skip + |page|)
  {
  }

  /** What is left to scan after a page, seen from the table before and after it. */
  lemma ScanStep(days: Days, t: Table, t': Table, w: World, sessions: seq<Session>, skip: nat, page: seq<Session>)
    requires skip <= |sessions| && page == Page(sessions, skip) && page != []
    requires t' == Feed(days, t, PageContributions(w, page))
    ensures Feed(days, t, ScanFrom(w, sessions, skip)) == Feed(days, t', ScanFrom(w, sessions, skip + |page|))
  {
    ScanUnfolds(w, sessions, skip, page);
    FeedSplit(days, t, ScanFrom(w, sessions, skip), PageContributions(w, page), ScanFrom(w, sessions, skip + |page|));
  }

  lemma ScanEnds(days: Days, t: Table, w: World, sessions: seq<Session>, skip: nat)
    requires skip <= |sessions| && Page(sessions, skip) == []
    ensures skip == |sessions| && Feed(days, t, ScanFrom(w, sessions, skip)) == t
  {
    assert ScanFrom(w, sessions, skip) == [];
  }

  /** The bucket table of one run, with the day filter its `addToBucket` closes over. */
  class Aggregator {
    var order: seq<BucketId>
    var at: map<BucketId, Bucket>
    var sessionsScanned: nat
    var eventsScanned: nat
    var fastPathSessions: nat
    const days: Days

    ghost function Abs(): Table
      reads this
    {
      Table(order, at)
    }

    constructor (days: Days)
      ensures Abs() == EMPTY && this.days == days && sessionsScanned == eventsScanned == fastPathSessions == 0
    {
      order, at := [], map[];
      sessionsScanned, eventsScanned, fastPathSessions := 0, 0, 0;
      this.days := days;
    }

    method AddToBucket(c: Contribution)
      modifies this`order, this`at
      ensures Abs() == Feed(days, old(Abs()), [c])
    {
      assert [c][..0] == [];
      assert Feed(days, Abs(), [c])
          == if days.Wants(c.id.day) && Counts(c, days.tokensOnly) then AddTo(Abs(), c) else Abs();
      if !days.Wants(c.id.day) || !Counts(c, days.tokensOnly) { return; }
      if c.id !in at {
        order := order + [c.id];
        at := at[c.id := Bucket(c.name, c.counters)];
      } else {
        at := at[c.id := at[c.id].(counters := at[c.id].counters.Plus(c.counters))];
      }
    }

    method AccountFromEvents(w: World, s: Session)
      modifies this`order, this`at, this`eventsScanned
      ensures Abs() == Feed(days, old(Abs()), FromEvents(w, s, s.events))
      ensures eventsScanned == old(eventsScanned) + |s.events|
    {
      for i := 0 to |s.events|
        invariant Abs() == Feed(days, old(Abs()), FromEvents(w, s, s.events[..i]))
        invariant eventsScanned == old(eventsScanned) + i
      {
        assert s.events[..i + 1][..i] == s.events[..i];
        eventsScanned := eventsScanned + 1;
        ghost var found, next := FromEvents(w, s, s.events[..i]), FromEvents(w, s, s.events[..i + 1]);
        if Replayed(s.events[i]) {
          FeedSplit(days, old(Abs()), next, found, [EventContribution(w, s, s.events[i])]);
          AddToBucket(EventContribution(w, s, s.events[i]));
        }
      }
      assert s.events[..|s.events|] == s.events;
    }

    method ScanFast(w: World, page: seq<Session>) returns (needEvents: seq<Session>)
      modifies this`order, this`at, this`sessionsScanned, this`fastPathSessions
      ensures Abs() == Feed(days, old(Abs()), FastPass(w, page))
      ensures needEvents == Deferred(page)
      ensures sessionsScanned == old(sessionsScanned) + |page|
      ensures fastPathSessions == old(fastPathSessions) + |FastPass(w, page)|
    {
      needEvents := [];
      for i := 0 to |page|
        invariant Abs() == Feed(days, old(Abs()), FastPass(w, page[..i]))
        invariant needEvents == Deferred(page[..i])
        invariant sessionsScanned == old(sessionsScanned) + i
        invariant fastPathSessions == old(fastPathSessions) + |FastPass(w, page[..i])|
      {
        assert page[..i + 1][..i] == page[..i];
        sessionsScanned := sessionsScanned + 1;
        if IsFast(page[i]) {
          fastPathSessions := fastPathSessions + 1;
          FeedConcat(days, old(Abs()), FastPass(w, page[..i]), [FastContribution(w, page[i])]);
          AddToBucket(FastContribution(w, page[i]));
        } else if NeedsEvents(page[i]) {
          needEvents := needEvents + [page[i]];
        }
      }
      assert page[..|page|] == page;
    }

    method ScanEvents(w: World, sessions: seq<Session>)
      modifies this`order, this`at, this`eventsScanned
      ensures Abs() == Feed(days, old(Abs()), EventPass(w, sessions))
      ensures eventsScanned == old(eventsScanned) + EventCount(sessions)
    {
      for i := 0 to |sessions|
        invariant Abs() == Feed(days, old(Abs()), EventPass(w, sessions[..i]))
        invariant eventsScanned == old(eventsScanned) + EventCount(sessions[..i])
      {
        assert sessions[..i + 1][..i] == sessions[..i];
        FeedConcat(days, old(Abs()), EventPass(w, sessions[..i]), FromEvents(w, sessions[i], sessions[i].events));
        AccountFromEvents(w, sessions[i]);
      }
      assert sessions[..|sessions|] == sessions;
    }

    method ScanPage(w: World, page: seq<Session>)
      modifies this
      ensures Abs() == Feed(days, old(Abs()), PageContributions(w, page))
      ensures sessionsScanned == old(sessionsScanned) + |page|
      ensures fastPathSessions == old(fastPathSessions) + |FastPass(w, page)|
      ensures eventsScanned == old(eventsScanned) + EventCount(Deferred(page))
    {
      var needEvents := ScanFast(w, page);
      FeedConcat(days, old(Abs()), FastPass(w, page), EventPass(w, needEvents));
      ScanEvents(w, needEvents);
    }

    /** The paged scan of the whole session list: it ends, and sees every session exactly once. */
    method ScanAll(w: World, sessions: seq<Session>)
      modifies this
      ensures Abs() == Feed(days, old(Abs()), Scan(w, sessions))
      ensures sessionsScanned == old(sessionsScanned) + |sessions|
    {
      var skip := 0;
      ghost var goal := Feed(days, Abs(), Scan(w, sessions));
      while true
        invariant skip <= |sessions| && Feed(days, Abs(), ScanFrom(w, sessions, skip)) == goal
        invariant sessionsScanned == old(sessionsScanned) + skip
        decreases |sessions| - skip
      {
        var page := Page(sessions, skip);
        if page == [] {
          ScanEnds(days, Abs(), w, sessions, skip);
          break;
        }
        ghost var before := Abs();
        ScanPage(w, page);
        ScanStep(days, before, Abs(), w, sessions, skip, page);
        skip := skip + |page|;
      }
    }
  }

  // ── the rows ──

  /** Model Hub pricing: the row a model name is booked under, and what its usage costs. */
  datatype Pricing = Pricing(refKey: string -> string, cost: (string, Counters) -> nat)

  function RowOfBucket(pricing: Pricing, id: BucketId, bucket: Bucket): Increment {
    Increment(RowKey(id.projectId, pricing.refKey(bucket.name), id.agentKey, id.day),
              bucket.counters.(total := bucket.counters.input + bucket.counters.output,
                               cost := pricing.cost(bucket.name, bucket.counters)))
  }

  function Rows(pricing: Pricing): RowOf {
    (id: BucketId, bucket: Bucket) => RowOfBucket(pricing, id, bucket)
  }

  /** The rows a list of contributions adds up to, over every day. */
  function PlanOf(pricing: Pricing, cs: seq<Contribution>): seq<Increment> {
    FeedValid(EveryDay(true), cs);
    Increments(Rows(pricing), Feed(EveryDay(true), EMPTY, cs))
  }

  /** The whole plan of the data: what a run from nothing over every day would write. */
  function Full(w: World, pricing: Pricing, sessions: seq<Session>): seq<Increment> {
    PlanOf(pricing, Scan(w, sessions))
  }

  /** One whole non-force run over the table: list, scan, plan, write up to the cut-off. */
  method Backfill(w: World, pricing: Pricing, sessions: seq<Session>, table: UsageTable, cfg: Config,
                  listed: set<RowKey>)
    requires IsListing(table.rows, cfg, listed)
    modifies table
    ensures table.rows == Execute(old(table.rows), Full(w, pricing, sessions), Run(cfg, listed))
  {
    var skipDays := set key | key in listed :: key.day;
    var days := Days(cfg.from, cfg.to, skipDays, true);
    var a := new Aggregator(days);
    a.ScanAll(w, sessions);
    RunPlanIsKeep(Rows(pricing), days, Scan(w, sessions));
    var t := Table(a.order, a.at);
    var increments := Increments(Rows(pricing), t);
    table.WriteChunks(increments, cfg.chunks);
  }

  /** What the buckets booked under a row cost. */
  function BookedCost(pricing: Pricing, order: seq<BucketId>, at: map<BucketId, Bucket>, key: RowKey): nat {
    if order == [] then 0
    else
      var id := order[|order| - 1];
      BookedCost(pricing, order[..|order| - 1], at, key)
        + if BookedUnder(Rows(pricing), at, key, id) then pricing.cost(at[id].name, at[id].counters) else 0
  }

  lemma {:induction false} DerivedSums(pricing: Pricing, order: seq<BucketId>, at: map<BucketId, Bucket>, key: RowKey)
    requires forall id :: id in order ==> id in at
    ensures var rows := IncrementsOf(Rows(pricing), order, at);
            && Sum(rows, key, Total) == Sum(rows, key, Input) + Sum(rows, key, Output)
            && Sum(rows, key, Cost) == BookedCost(pricing, order, at, key)
  {
    if order != [] {
      var init, id := order[..|order| - 1], order[|order| - 1];
      DerivedSums(pricing, init, at, key);
      var rows, row := IncrementsOf(Rows(pricing), init, at), Rows(pricing)(id, at[id]);
      SumOne(rows, row, key, Total);
      SumOne(rows, row, key, Input);
      SumOne(rows, row, key, Output);
      SumOne(rows, row, key, Cost);
    }
  }

  lemma SumOne(rows: seq<Increment>, row: Increment, key: RowKey, f: Field)
    ensures Sum(rows + [row], key, f) == Sum(rows, key, f) + if row.key == key then row.counters.Get(f) else 0
  {
    assert (rows + [row])[..|rows|] == rows;
  }

  /** What the scan contributed to a row. */
  function Booked(w: World, pricing: Pricing, sessions: seq<Session>, key: RowKey, f: Field): nat {
    var t := Feed(EveryDay(true), EMPTY, Scan(w, sessions));
    TotalContributed(Scan(w, sessions), true, id => BookedUnder(Rows(pricing), t.at, key, id), f)
  }

  /** The true sum of a row, told from the scan itself; total tokens and cost derive from the other counters. */
  lemma FullIsTrueSum(w: World, pricing: Pricing, sessions: seq<Session>, key: RowKey, f: Field)
    ensures var t := Feed(EveryDay(true), EMPTY, Scan(w, sessions));
            Sum(Full(w, pricing, sessions), key, f) ==
              match f
              case Total => Booked(w, pricing, sessions, key, Input) + Booked(w, pricing, sessions, key, Output)
              case Cost => BookedCost(pricing, t.order, t.at, key)
              case _ => Booked(w, pricing, sessions, key, f)
  {
    var cs := Scan(w, sessions);
    var t := Feed(EveryDay(true), EMPTY, cs);
    FeedValid(EveryDay(true), cs);
    DerivedSums(pricing, t.order, t.at, key);
    PlanIsTrueSum(Rows(pricing), cs, true, key, Input);
    PlanIsTrueSum(Rows(pricing), cs, true, key, Output);
    if f != Total && f != Cost { PlanIsTrueSum(Rows(pricing), cs, true, key, f); }
  }

  // ── the fast path against the events ──

  function EventSum(events: seq<Event>, f: Field): nat {
    if events == [] then 0
    else
      var e := events[|events| - 1];
      EventSum(events[..|events| - 1], f)
        + if Replayed(e) then Usage(1, e.input, e.output, e.cachedInput, e.cachedWrite).Get(f) else 0
  }

  /** The replayed events share one model up to case and the session's start day. */
  predicate OneModelOneDay(w: World, s: Session)
    requires IsFast(s)
  {
    forall e :: e in s.events && Replayed(e) ==>
      w.fold(ModelName(e)) == w.fold(NonEmpty(s.modelsUsed)[0]) && DayOf(e.day, w.today) == DayOf(s.startedOn, w.today)
  }

  /** What one more event adds to a bucket. */
  lemma EventContributes(cs: seq<Contribution>, cs': seq<Contribution>, w: World, s: Session, e: Event, f: Field,
                         id: BucketId)
    requires cs' == if Replayed(e) then cs + [EventContribution(w, s, e)] else cs
    ensures var c := EventContribution(w, s, e);
            Contributed(cs', true, id, f)
            == Contributed(cs, true, id, f) + if Replayed(e) && HasTokens(e) && c.id == id then c.counters.Get(f) else 0
  {
    if Replayed(e) { ContributedOne(cs, EventContribution(w, s, e), true, id, f); }
  }

  /**
   * The per-event path puts every token of such a session in the fast path's bucket; a call counts
   * only with tokens.
   */
  lemma {:induction false} EventsFillOneBucket(w: World, s: Session, events: seq<Event>, f: Field, id: BucketId)
    requires IsFast(s) && OneModelOneDay(w, s) && forall e :: e in events ==> e in s.events
    requires f in {Input, Output, CachedInput}
    ensures Contributed(FromEvents(w, s, events), true, id, f)
            == if id == FastContribution(w, s).id then EventSum(events, f) else 0
  {
    if events != [] {
      var init, e := events[..|events| - 1], events[|events| - 1];
      assert e in events;
      EventsFillOneBucket(w, s, init, f, id);
      EventContributes(FromEvents(w, s, init), FromEvents(w, s, events), w, s, e, f, id);
    }
  }

  /** Two lists of contributions fill every bucket alike. */
  ghost predicate SameBuckets(a: seq<Contribution>, b: seq<Contribution>, f: Field) {
    forall id :: Contributed(a, true, id, f) == Contributed(b, true, id, f)
  }

  /** The session's own total of a field the fast path books. */
  function SessionTotal(s: Session, f: Field): nat {
    if f == Input then s.totalInput else if f == Output then s.totalOutput else s.totalCachedInput
  }

  /**
   * The fast path is sound exactly on honest totals: for a single-model session it
   * gives every bucket the same input, output and cached input as replaying the
   * events if and only if the session's total is the sum of its replayed events.
   */
  lemma FastPathAgrees(w: World, s: Session, f: Field)
    requires IsFast(s) && OneModelOneDay(w, s) && f in {Input, Output, CachedInput}
    ensures SameBuckets([FastContribution(w, s)], FromEvents(w, s, s.events), f)
            <==> SessionTotal(s, f) == EventSum(s.events, f)
  {
    var c, slow := FastContribution(w, s), FromEvents(w, s, s.events);
    var fast := [c];
    assert fast[..0] == [];
    forall id ensures Contributed(fast, true, id, f) == if id == c.id then SessionTotal(s, f) else 0 {
      assert Contributed(fast, true, id, f) == if id == c.id then c.counters.Get(f) else 0;
    }
    forall id ensures Contributed(slow, true, id, f) == if id == c.id then EventSum(s.events, f) else 0 {
      EventsFillOneBucket(w, s, s.events, f, id);
    }
    assert SameBuckets(fast, slow, f) ==> Contributed(fast, true, c.id, f) == Contributed(slow, true, c.id, f);
  }

  /** Cached-write tokens of the replayed events that carry any other token; the others never reach a bucket. */
  function CachedWrites(events: seq<Event>): nat {
    if events == [] then 0
    else
      var e := events[|events| - 1];
      CachedWrites(events[..|events| - 1]) + if Replayed(e) && HasTokens(e) then e.cachedWrite else 0
  }

  /** What the fast path drops: it never books a cached-write token, so it agrees on those only when there are none. */
  lemma FastPathDropsCachedWrites(w: World, s: Session)
    requires IsFast(s) && OneModelOneDay(w, s)
    ensures var id := FastContribution(w, s).id;
            Contributed([FastContribution(w, s)], true, id, CachedWrite)
            == Contributed(FromEvents(w, s, s.events), true, id, CachedWrite)
            <==> CachedWrites(s.events) == 0
  {
    var c := FastContribution(w, s);
    assert [c][..0] == [];
    CachedWritesOfEvents(w, s, s.events);
  }

  /** It happens: one replayed event with tokens and a cached write is enough. */
  lemma FastPathLosesWrites(w: World, s: Session)
    requires IsFast(s) && OneModelOneDay(w, s) && |s.events| == 1
    requires Replayed(s.events[0]) && HasTokens(s.events[0]) && s.events[0].cachedWrite > 0
    ensures var id := FastContribution(w, s).id;
            Contributed([FastContribution(w, s)], true, id, CachedWrite)
            < Contributed(FromEvents(w, s, s.events), true, id, CachedWrite)
  {
    var c := FastContribution(w, s);
    assert [c][..0] == [] && s.events[..0] == [];
    CachedWritesOfEvents(w, s, s.events);
  }

  lemma {:induction false} CachedWritesOfEvents(w: World, s: Session, events: seq<Event>)
    requires IsFast(s) && OneModelOneDay(w, s) && forall e :: e in events ==> e in s.events
    ensures Contributed(FromEvents(w, s, events), true, FastContribution(w, s).id, CachedWrite) == CachedWrites(events)
  {
    if events != [] {
      var init, e := events[..|events| - 1], events[|events| - 1];
      assert e in events;
      CachedWritesOfEvents(w, s, init);
      EventContributes(FromEvents(w, s, init), FromEvents(w, s, events), w, s, e, CachedWrite,
                       FastContribution(w, s).id);
    }
  }
}

/**
 * What a replay must add up to, told from the sessions alone
 * (scripts/backfill-trace-usage.ts): which sessions and events are booked, under
 * which project, agent, model and day, and with which figures.
 */
module TraceSums {
  import opened Options
  import opened Rollup
  import opened Buckets
  import opened TraceUsage

  // ── model names ──

  function NamedCount(names: seq<string>): nat {
    if names == [] then 0 else NamedCount(names[..|names| - 1]) + One(names[|names| - 1] != "")
  }

  /** The first name that is not empty. */
  lemma {:induction false} FirstNonEmptyIs(names: seq<string>, i: nat)
    requires i < |names| && names[i] != "" && forall j :: 0 <= j < i ==> names[j] == ""
    ensures FirstNonEmpty(names) == names[i]
  {
    if i > 0 { FirstNonEmptyIs(names[1..], i - 1); }
  }

  lemma {:induction false} FirstOrLast(names: seq<string>, last: string)
    ensures FirstNonEmpty(names + [last]) == if FirstNonEmpty(names) != "" then FirstNonEmpty(names) else last
  {
    var all := names + [last];
    if names != [] {
      FirstOrLast(names[1..], last);
      assert all[1..] == names[1..] + [last];
    } else {
      assert all[1..] == [];
    }
  }

  lemma {:induction false} NamesAgree(names: seq<string>)
    ensures |NonEmpty(names)| == NamedCount(names)
    ensures FirstNonEmpty(names) == if NonEmpty(names) == [] then "" else NonEmpty(names)[0]
    ensures FirstNonEmpty(names) != "" <==> NamedCount(names) > 0
  {
    if names != [] {
      var init, last := names[..|names| - 1], names[|names| - 1];
      NamesAgree(init);
      FirstOrLast(init, last);
      NonEmptyNames(init);
      assert names == init + [last];
    }
  }

  lemma {:induction false} NonEmptyNames(names: seq<string>)
    ensures forall i :: 0 <= i < |NonEmpty(names)| ==> NonEmpty(names)[i] != ""
  {
    if names != [] { NonEmptyNames(names[..|names| - 1]); }
  }

  // ── the reference ──

  /** The event names a model, was not accounted by the gateway, and used a token. */
  predicate Taken(e: Event) {
    && (e.model != "" || NamedCount(e.modelNames) > 0)
    && !e.gateway
    && (e.input > 0 || e.output > 0 || e.cachedInput > 0)
  }

  function EventField(e: Event, f: Field): nat {
    match f
    case Requests => 1
    case Input => e.input
    case Output => e.output
    case CachedInput => e.cachedInput
    case CachedWrite => e.cachedWrite
    case _ => 0
  }

  function EventBucket(w: World, s: Session, e: Event): BucketId {
    BucketId(s.projectId, s.agentName, w.fold(if e.model != "" then e.model else FirstNonEmpty(e.modelNames)),
             if e.day == None then w.today else e.day.value)
  }

  function EventsValue(w: World, s: Session, events: seq<Event>, select: BucketId -> bool, f: Field): nat {
    if events == [] then 0
    else
      var e := events[|events| - 1];
      EventsValue(w, s, events[..|events| - 1], select, f)
      + if Taken(e) && select(EventBucket(w, s, e)) then EventField(e, f) else 0
  }

  function SessionField(s: Session, f: Field): nat {
    match f
    case Requests => if s.aiCalls == None then 1 else s.aiCalls.value
    case Input => s.totalInput
    case Output => s.totalOutput
    case CachedInput => s.totalCachedInput
    case _ => 0
  }

  function SessionBucket(w: World, s: Session): BucketId {
    BucketId(s.projectId, s.agentName, w.fold(FirstNonEmpty(s.modelsUsed)),
             if s.startedOn == None then w.today else s.startedOn.value)
  }

  /** One session: nothing without tokens or a model, its own totals with one model, its events with more. */
  function SessionValue(w: World, s: Session, select: BucketId -> bool, f: Field): nat {
    if s.totalInput == 0 && s.totalOutput == 0 then 0
    else if NamedCount(s.modelsUsed) == 0 then 0
    else if NamedCount(s.modelsUsed) == 1 then if select(SessionBucket(w, s)) then SessionField(s, f) else 0
    else EventsValue(w, s, s.events, select, f)
  }

  function SessionsValue(w: World, sessions: seq<Session>, select: BucketId -> bool, f: Field): nat {
    if sessions == [] then 0
    else SessionsValue(w, sessions[..|sessions| - 1], select, f) + SessionValue(w, sessions[|sessions| - 1], select, f)
  }

  // ── the scan meets it ──

  lemma {:induction false} TotalConcat(a: seq<Contribution>, b: seq<Contribution>, select: BucketId -> bool, f: Field)
    ensures TotalContributed(a + b, true, select, f)
            == TotalContributed(a, true, select, f) + TotalContributed(b, true, select, f)
  {
    if b == [] {
      assert a + b == a;
    } else {
      assert (a + b)[..|a + b| - 1] == a + b[..|b| - 1];
      TotalConcat(a, b[..|b| - 1], select, f);
    }
  }

  /** What one more contribution adds. */
  lemma TotalOne(cs: seq<Contribution>, c: Contribution, select: BucketId -> bool, f: Field)
    ensures TotalContributed(cs + [c], true, select, f)
            == TotalContributed(cs, true, select, f) + if select(c.id) && Counts(c, true) then c.counters.Get(f) else 0
  {
    assert (cs + [c])[..|cs|] == cs;
  }

  lemma EventStep(cs: seq<Contribution>, cs': seq<Contribution>, w: World, s: Session, e: Event,
                  select: BucketId -> bool, f: Field)
    requires cs' == if Replayed(e) then cs + [EventContribution(w, s, e)] else cs
    ensures TotalContributed(cs', true, select, f)
            == TotalContributed(cs, true, select, f)
                + if Taken(e) && select(EventBucket(w, s, e)) then EventField(e, f) else 0
  {
    NamesAgree(e.modelNames);
    if Replayed(e) { TotalOne(cs, EventContribution(w, s, e), select, f); }
  }

  lemma {:induction false} EventsAreBooked(w: World, s: Session, events: seq<Event>, select: BucketId -> bool, f: Field)
    ensures TotalContributed(FromEvents(w, s, events), true, select, f) == EventsValue(w, s, events, select, f)
  {
    if events != [] {
      var init, e := events[..|events| - 1], events[|events| - 1];
      EventsAreBooked(w, s, init, select, f);
      EventStep(FromEvents(w, s, init), FromEvents(w, s, events), w, s, e, select, f);
    }
  }

  function FastValue(w: World, s: Session, select: BucketId -> bool, f: Field): nat {
    if NamedCount(s.modelsUsed) == 1 then SessionValue(w, s, select, f) else 0
  }

  function SlowValue(w: World, s: Session, select: BucketId -> bool, f: Field): nat {
    if NamedCount(s.modelsUsed) == 1 then 0 else SessionValue(w, s, select, f)
  }

  lemma FastStep(cs: seq<Contribution>, cs': seq<Contribution>, w: World, s: Session, select: BucketId -> bool,
                 f: Field)
    requires cs' == if IsFast(s) then cs + [FastContribution(w, s)] else cs
    ensures TotalContributed(cs', true, select, f) == TotalContributed(cs, true, select, f) + FastValue(w, s, select, f)
  {
    NamesAgree(s.modelsUsed);
    if IsFast(s) { TotalOne(cs, FastContribution(w, s), select, f); }
  }

  lemma SlowStep(cs: seq<Contribution>, deferred: seq<Session>, deferred': seq<Session>, w: World, s: Session,
                 select: BucketId -> bool, f: Field)
    requires deferred' == if NeedsEvents(s) then deferred + [s] else deferred
    requires cs == EventPass(w, deferred)
    ensures TotalContributed(EventPass(w, deferred'), true, select, f)
            == TotalContributed(cs, true, select, f) + SlowValue(w, s, select, f)
  {
    NamesAgree(s.modelsUsed);
    if NeedsEvents(s) {
      assert (deferred + [s])[..|deferred|] == deferred;
      TotalConcat(cs, FromEvents(w, s, s.events), select, f);
      EventsAreBooked(w, s, s.events, select, f);
    }
  }

  function FastSum(w: World, page: seq<Session>, select: BucketId -> bool, f: Field): nat {
    if page == [] then 0
    else FastSum(w, page[..|page| - 1], select, f) + FastValue(w, page[|page| - 1], select, f)
  }

  function SlowSum(w: World, page: seq<Session>, select: BucketId -> bool, f: Field): nat {
    if page == [] then 0
    else SlowSum(w, page[..|page| - 1], select, f) + SlowValue(w, page[|page| - 1], select, f)
  }

  lemma LastFast(w: World, page: seq<Session>, select: BucketId -> bool, f: Field)
    returns (cs: seq<Contribution>, cs': seq<Contribution>)
    requires page != []
    ensures cs == FastPass(w, page[..|page| - 1]) && cs' == FastPass(w, page)
    ensures TotalContributed(cs', true, select, f)
            == TotalContributed(cs, true, select, f) + FastValue(w, page[|page| - 1], select, f)
  {
    cs, cs' := FastPass(w, page[..|page| - 1]), FastPass(w, page);
    FastStep(cs, cs', w, page[|page| - 1], select, f);
  }

  lemma {:induction false} FastPassIsBooked(w: World, page: seq<Session>, select: BucketId -> bool, f: Field,
                                            cs: seq<Contribution>)
    requires cs == FastPass(w, page)
    ensures TotalContributed(cs, true, select, f) == FastSum(w, page, select, f)
  {
    if page != [] {
      var init, all := LastFast(w, page, select, f);
      FastPassIsBooked(w, page[..|page| - 1], select, f, init);
    }
  }

  lemma {:induction false} EventPassIsBooked(w: World, page: seq<Session>, select: BucketId -> bool, f: Field)
    ensures TotalContributed(EventPass(w, Deferred(page)), true, select, f) == SlowSum(w, page, select, f)
  {
    if page != [] {
      var init := page[..|page| - 1];
      EventPassIsBooked(w, init, select, f);
      SlowStep(EventPass(w, Deferred(init)), Deferred(init), Deferred(page), w, page[|page| - 1], select, f);
    }
  }

  lemma {:induction false} PassesMakeUp(w: World, page: seq<Session>, select: BucketId -> bool, f: Field)
    ensures FastSum(w, page, select, f) + SlowSum(w, page, select, f) == SessionsValue(w, page, select, f)
  {
    if page != [] { PassesMakeUp(w, page[..|page| - 1], select, f); }
  }

  lemma PageIsBooked(w: World, page: seq<Session>, select: BucketId -> bool, f: Field)
    ensures TotalContributed(PageContributions(w, page), true, select, f) == SessionsValue(w, page, select, f)
  {
    FastPassIsBooked(w, page, select, f, FastPass(w, page));
    EventPassIsBooked(w, page, select, f);
    PassesMakeUp(w, page, select, f);
    TotalConcat(FastPass(w, page), EventPass(w, Deferred(page)), select, f);
  }

  lemma {:induction false} SessionsConcat(w: World, a: seq<Session>, b: seq<Session>, select: BucketId -> bool,
                                          f: Field)
    ensures SessionsValue(w, a + b, select, f) == SessionsValue(w, a, select, f) + SessionsValue(w, b, select, f)
  {
    if b == [] {
      assert a + b == a;
    } else {
      assert (a + b)[..|a + b| - 1] == a + b[..|b| - 1];
      SessionsConcat(w, a, b[..|b| - 1], select, f);
    }
  }

  lemma PageSplits(sessions: seq<Session>, skip: nat, page: seq<Session>)
    requires skip <= |sessions| && page == Page(sessions, skip)
    ensures skip + |page| <= |sessions| && sessions[skip..] == page + sessions[skip + |page|..]
  {
  }

  lemma PagePart(w: World, sessions: seq<Session>, skip: nat, page: seq<Session>, select: BucketId -> bool, f: Field)
    returns (p: seq<Contribution>)
    requires skip <= |sessions| && page == Page(sessions, skip) && page != []
    ensures ScanFrom(w, sessions, skip) == p + ScanFrom(w, sessions, skip + |page|)
    ensures TotalContributed(p, true, select, f) == SessionsValue(w, page, select, f)
  {
    p := PageContributions(w, page);
    PageIsBooked(w, page, select, f);
  }

  lemma {:induction false} ScanFromIsBooked(w: World, sessions: seq<Session>, skip: nat, select: BucketId -> bool,
                                            f: Field)
    requires skip <= |sessions|
    ensures TotalContributed(ScanFrom(w, sessions, skip), true, select, f)
            == SessionsValue(w, sessions[skip..], select, f)
    decreases |sessions| - skip
  {
    var page := Page(sessions, skip);
    if page == [] {
      assert skip == |sessions|;
    } else {
      var next := skip + |page|;
      PageSplits(sessions, skip, page);
      ScanFromIsBooked(w, sessions, next, select, f);
      var p := PagePart(w, sessions, skip, page, select, f);
      TotalConcat(p, ScanFrom(w, sessions, next), select, f);
      SessionsConcat(w, page, sessions[next..], select, f);
    }
  }

  /** Whatever buckets one looks at, the scan finds exactly what the sessions say, in every counter. */
  lemma ScanIsSessions(w: World, sessions: seq<Session>, select: BucketId -> bool, f: Field)
    ensures TotalContributed(Scan(w, sessions), true, select, f) == SessionsValue(w, sessions, select, f)
  {
    ScanFromIsBooked(w, sessions, 0, select, f);
    assert sessions[0..] == sessions;
  }

  // ── and so does the plan ──

  function RowsOfAgent(projectId: string, agentName: string, day: nat): RowKey -> bool {
    (key: RowKey) => key.projectId == projectId && key.agentKey == agentName && key.day == day
  }

  function BucketsOfAgent(projectId: string, agentName: string, day: nat): BucketId -> bool {
    (id: BucketId) => id.projectId == projectId && id.agentKey == agentName && id.day == day
  }

  /**
   * The rows planned for an agent of a project on a day carry exactly the requests
   * and tokens of the sessions and events that fall there.
   */
  lemma PlanIsSessions(w: World, pricing: Pricing, sessions: seq<Session>, projectId: string, agentName: string,
                       day: nat, f: Field)
    requires f in {Requests, Input, Output, CachedInput, CachedWrite}
    ensures RowsTotal(Full(w, pricing, sessions), RowsOfAgent(projectId, agentName, day), f)
            == SessionsValue(w, sessions, BucketsOfAgent(projectId, agentName, day), f)
  {
    var keep, select := RowsOfAgent(projectId, agentName, day), BucketsOfAgent(projectId, agentName, day);
    RowsTotalIsContributed(Rows(pricing), Scan(w, sessions), true, keep, select, f);
    ScanIsSessions(w, sessions, select, f);
  }

  /** And its total tokens are the input and output of those rows. */
  lemma {:induction false} TotalTokens(pricing: Pricing, order: seq<BucketId>, at: map<BucketId, Bucket>,
                                       keep: RowKey -> bool)
    requires forall id :: id in order ==> id in at
    ensures var rows := IncrementsOf(Rows(pricing), order, at);
            RowsTotal(rows, keep, Total) == RowsTotal(rows, keep, Input) + RowsTotal(rows, keep, Output)
  {
    if order != [] {
      var init, id := order[..|order| - 1], order[|order| - 1];
      TotalTokens(pricing, init, at, keep);
      var rows, row := IncrementsOf(Rows(pricing), init, at), Rows(pricing)(id, at[id]);
      RowsTotalOne(rows, row, keep, Total);
      RowsTotalOne(rows, row, keep, Input);
      RowsTotalOne(rows, row, keep, Output);
    }
  }

  lemma PlanTotalTokens(w: World, pricing: Pricing, sessions: seq<Session>, projectId: string, agentName: string,
                        day: nat)
    ensures RowsTotal(Full(w, pricing, sessions), RowsOfAgent(projectId, agentName, day), Total)
            == SessionsValue(w, sessions, BucketsOfAgent(projectId, agentName, day), Input)
               + SessionsValue(w, sessions, BucketsOfAgent(projectId, agentName, day), Output)
  {
    var cs := Scan(w, sessions);
    FeedValid(EveryDay(true), cs);
    var t := Feed(EveryDay(true), EMPTY, cs);
    TotalTokens(pricing, t.order, t.at, RowsOfAgent(projectId, agentName, day));
    PlanIsSessions(w, pricing, sessions, projectId, agentName, day, Input);
    PlanIsSessions(w, pricing, sessions, projectId, agentName, day, Output);
  }
}

/**
 * Replaying sessions on different days (scripts/backfill-trace-usage.ts). Whatever
 * carries no date of its own is booked on the day the script runs, so two runs see
 * the same plan only as long as nothing of that kind reaches a bucket.
 */
module TraceDays {
  import opened Rollup
  import opened Buckets
  import opened TraceUsage

  predicate SettledEvents(events: seq<Event>) {
    forall e :: e in events && Replayed(e) && HasTokens(e) ==> e.day.Some?
  }

  predicate SettledStart(s: Session) {
    IsFast(s) ==> s.startedOn.Some?
  }

  /** Whatever of the session reaches a bucket carries its own day. */
  predicate Settled(s: Session) {
    SettledStart(s) && (NeedsEvents(s) ==> SettledEvents(s.events))
  }

  predicate AllSettled(sessions: seq<Session>) {
    forall s :: s in sessions ==> Settled(s)
  }

  // ── the same scan on two days ──

  ghost predicate TwoDays(w: World, w': World) {
    w.fold == w'.fold && w.today != w'.today
  }

  /** The same usage seen on two days: equal, or booked on either today. */
  predicate Twin(c: Contribution, c': Contribution, today: nat, today': nat) {
    && c.name == c'.name && c.counters == c'.counters
    && (c.id == c'.id || (c.id.day == today && c'.id == c.id.(day := today')))
  }

  /** One place of the two lists has not moved. */
  predicate StillAt(a: seq<Contribution>, b: seq<Contribution>, i: nat)
    requires i < |a| == |b|
  {
    Counts(a[i], true) ==> a[i] == b[i]
  }

  /** Nothing that reaches a bucket moved. */
  predicate Still(a: seq<Contribution>, b: seq<Contribution>)
    requires |a| == |b|
  {
    forall i :: 0 <= i < |a| ==> StillAt(a, b, i)
  }

  ghost predicate Twins(a: seq<Contribution>, b: seq<Contribution>, w: World, w': World) {
    |a| == |b| && forall i :: 0 <= i < |a| ==> Twin(a[i], b[i], w.today, w'.today)
  }

  /** Two scans of the same data, with what decides whether anything moved. */
  ghost predicate Compared(a: seq<Contribution>, b: seq<Contribution>, w: World, w': World, settled: bool) {
    Twins(a, b, w, w') && (Still(a, b) <==> settled)
  }

  lemma TwinsJoin(a: seq<Contribution>, b: seq<Contribution>, x: seq<Contribution>, y: seq<Contribution>, w: World,
                  w': World)
    requires Twins(a, b, w, w') && Twins(x, y, w, w')
    ensures Twins(a + x, b + y, w, w')
  {
    var u, v := a + x, b + y;
    forall i | 0 <= i < |u| ensures Twin(u[i], v[i], w.today, w'.today) {
      if i < |a| { assert Twin(a[i], b[i], w.today, w'.today); }
          else { assert Twin(x[i - |a|], y[i - |a|], w.today, w'.today); }
    }
  }

  lemma StillJoin(a: seq<Contribution>, b: seq<Contribution>, x: seq<Contribution>, y: seq<Contribution>)
    requires |a| == |b| && |x| == |y|
    ensures Still(a + x, b + y) <==> Still(a, b) && Still(x, y)
  {
    var u, v := a + x, b + y;
    if Still(u, v) {
      forall i | 0 <= i < |a| ensures StillAt(a, b, i) { assert StillAt(u, v, i); }
      forall i | 0 <= i < |x| ensures StillAt(x, y, i) { assert StillAt(u, v, |a| + i); }
    }
    if Still(a, b) && Still(x, y) {
      forall i | 0 <= i < |u| ensures StillAt(u, v, i) {
        if i < |a| { assert StillAt(a, b, i); } else { assert StillAt(x, y, i - |a|); }
      }
    }
  }

  lemma CompareJoin(a: seq<Contribution>, b: seq<Contribution>, x: seq<Contribution>, y: seq<Contribution>,
                    w: World, w': World, p: bool, q: bool)
    requires Compared(a, b, w, w', p) && Compared(x, y, w, w', q)
    ensures Compared(a + x, b + y, w, w', p && q)
  {
    TwinsJoin(a, b, x, y, w, w');
    StillJoin(a, b, x, y);
  }

  lemma CompareOne(c: Contribution, c': Contribution, w: World, w': World)
    requires Twin(c, c', w.today, w'.today)
    ensures Compared([c], [c'], w, w', Counts(c, true) ==> c == c')
  {
    assert Still([c], [c']) <==> StillAt([c], [c'], 0);
  }

  lemma {:induction false} EventsCompared(w: World, w': World, s: Session, events: seq<Event>)
    requires TwoDays(w, w')
    ensures Compared(FromEvents(w, s, events), FromEvents(w', s, events), w, w', SettledEvents(events))
  {
    if events != [] {
      var init, e := events[..|events| - 1], events[|events| - 1];
      EventsCompared(w, w', s, init);
      assert events == init + [e];
      if Replayed(e) {
        var c, c' := EventContribution(w, s, e), EventContribution(w', s, e);
        CompareOne(c, c', w, w');
        CompareJoin(FromEvents(w, s, init), FromEvents(w', s, init), [c], [c'], w, w', SettledEvents(init),
                    Counts(c, true) ==> c == c');
        assert SettledEvents(events) <==> SettledEvents(init) && (HasTokens(e) ==> e.day.Some?);
        assert c == c' <==> e.day.Some?;
      }
    }
  }

  predicate AllStarted(page: seq<Session>) {
    forall s :: s in page ==> SettledStart(s)
  }

  lemma {:induction false} FastCompared(w: World, w': World, page: seq<Session>)
    requires TwoDays(w, w')
    ensures Compared(FastPass(w, page), FastPass(w', page), w, w', AllStarted(page))
  {
    if page != [] {
      var init, s := page[..|page| - 1], page[|page| - 1];
      FastCompared(w, w', init);
      assert page == init + [s];
      assert AllStarted(page) <==> AllStarted(init) && SettledStart(s);
      if IsFast(s) {
        var c, c' := FastContribution(w, s), FastContribution(w', s);
        CompareOne(c, c', w, w');
        CompareJoin(FastPass(w, init), FastPass(w', init), [c], [c'], w, w', AllStarted(init), Counts(c, true)
            ==> c == c');
        assert c == c' <==> s.startedOn.Some?;
      }
    }
  }

  predicate AllEventsSettled(sessions: seq<Session>) {
    forall s :: s in sessions ==> SettledEvents(s.events)
  }

  lemma {:induction false} EventPassCompared(w: World, w': World, sessions: seq<Session>)
    requires TwoDays(w, w')
    ensures Compared(EventPass(w, sessions), EventPass(w', sessions), w, w', AllEventsSettled(sessions))
  {
    if sessions != [] {
      var init, s := sessions[..|sessions| - 1], sessions[|sessions| - 1];
      EventPassCompared(w, w', init);
      EventsCompared(w, w', s, s.events);
      assert sessions == init + [s];
      assert AllEventsSettled(sessions) <==> AllEventsSettled(init) && SettledEvents(s.events);
      CompareJoin(EventPass(w, init), EventPass(w', init), FromEvents(w, s, s.events), FromEvents(w', s, s.events),
                  w, w', AllEventsSettled(init), SettledEvents(s.events));
    }
  }

  lemma {:induction false} DeferredMembers(page: seq<Session>, s: Session)
    ensures s in Deferred(page) <==> s in page && NeedsEvents(s)
  {
    if page != [] {
      DeferredMembers(page[..|page| - 1], s);
      assert page == page[..|page| - 1] + [page[|page| - 1]];
    }
  }

  lemma PageSettled(page: seq<Session>)
    ensures AllSettled(page) <==> AllStarted(page) && AllEventsSettled(Deferred(page))
  {
    forall s ensures s in Deferred(page) <==> s in page && NeedsEvents(s) { DeferredMembers(page, s); }
  }

  lemma PageCompared(w: World, w': World, page: seq<Session>)
    requires TwoDays(w, w')
    ensures Compared(PageContributions(w, page), PageContributions(w', page), w, w', AllSettled(page))
  {
    FastCompared(w, w', page);
    EventPassCompared(w, w', Deferred(page));
    PageSettled(page);
    CompareJoin(FastPass(w, page), FastPass(w', page), EventPass(w, Deferred(page)), EventPass(w', Deferred(page)),
                w, w', AllStarted(page), AllEventsSettled(Deferred(page)));
  }

  lemma RestSettled(sessions: seq<Session>, skip: nat, page: seq<Session>)
    requires skip <= |sessions| && page == Page(sessions, skip)
    ensures skip + |page| <= |sessions|
    ensures AllSettled(sessions[skip..]) <==> AllSettled(page) && AllSettled(sessions[skip + |page|..])
  {
    var rest, next := sessions[skip..], sessions[skip + |page|..];
    assert rest == page + next;
    assert forall s :: s in rest <==> s in page || s in next;
  }

  /** What one page contributes on the two days. */
  lemma PageParts(w: World, w': World, sessions: seq<Session>, skip: nat, page: seq<Session>)
    returns (p: seq<Contribution>, q: seq<Contribution>)
    requires TwoDays(w, w') && skip <= |sessions| && page == Page(sessions, skip) && page != []
    ensures ScanFrom(w, sessions, skip) == p + ScanFrom(w, sessions, skip + |page|)
    ensures ScanFrom(w', sessions, skip) == q + ScanFrom(w', sessions, skip + |page|)
    ensures Compared(p, q, w, w', AllSettled(page))
  {
    p, q := PageContributions(w, page), PageContributions(w', page);
    PageCompared(w, w', page);
  }

  lemma {:induction false} ScanCompared(w: World, w': World, sessions: seq<Session>, skip: nat)
    requires TwoDays(w, w') && skip <= |sessions|
    ensures Compared(ScanFrom(w, sessions, skip), ScanFrom(w', sessions, skip), w, w', AllSettled(sessions[skip..]))
    decreases |sessions| - skip
  {
    var page := Page(sessions, skip);
    if page == [] {
      assert skip == |sessions|;
    } else {
      var next := skip + |page|;
      ScanCompared(w, w', sessions, next);
      RestSettled(sessions, skip, page);
      var p, q := PageParts(w, w', sessions, skip, page);
      CompareJoin(p, q, ScanFrom(w, sessions, next), ScanFrom(w', sessions, next),
                  w, w', AllSettled(page), AllSettled(sessions[next..]));
    }
  }

  // ── the same plan on two days ──

  lemma StillStep(t: Table, a: seq<Contribution>, b: seq<Contribution>, n: nat)
    requires |a| == |b| == n + 1 && Feed(EveryDay(true), t, a[..n]) == Feed(EveryDay(true), t, b[..n])
    requires a[n].counters == b[n].counters && StillAt(a, b, n)
    ensures Feed(EveryDay(true), t, a) == Feed(EveryDay(true), t, b)
  {
  }

  lemma StillInit(a: seq<Contribution>, b: seq<Contribution>, n: nat)
    requires |a| == |b| && n <= |a| && Still(a, b)
    ensures Still(a[..n], b[..n])
  {
    forall i | 0 <= i < n ensures StillAt(a[..n], b[..n], i) { assert StillAt(a, b, i); }
  }

  /** Usage that stays where it is fills the same table. */
  lemma {:induction false} StillFeeds(a: seq<Contribution>, b: seq<Contribution>, w: World, w': World, t: Table)
    requires Twins(a, b, w, w') && Still(a, b)
    ensures Feed(EveryDay(true), t, a) == Feed(EveryDay(true), t, b)
  {
    if a != [] {
      var n := |a| - 1;
      assert Twin(a[n], b[n], w.today, w'.today) && StillAt(a, b, n);
      StillInit(a, b, n);
      StillFeeds(a[..n], b[..n], w, w', t);
      StillStep(t, a, b, n);
    }
  }

  /** On the first run's day, the second run never finds more. */
  lemma {:induction false} DayNeverGains(a: seq<Contribution>, b: seq<Contribution>, w: World, w': World, f: Field)
    requires Twins(a, b, w, w') && w.today != w'.today
    ensures TotalContributed(a, true, OnDayOnly(w.today), f) >= TotalContributed(b, true, OnDayOnly(w.today), f)
  {
    if a != [] {
      var n := |a| - 1;
      assert Twin(a[n], b[n], w.today, w'.today);
      DayNeverGains(a[..n], b[..n], w, w', f);
    }
  }

  /** And it finds less of every counter that moved. */
  lemma {:induction false} DayLoses(a: seq<Contribution>, b: seq<Contribution>, w: World, w': World, f: Field, i: nat)
    requires Twins(a, b, w, w') && w.today != w'.today
    requires i < |a| && Counts(a[i], true) && a[i] != b[i] && a[i].counters.Get(f) > 0
    ensures TotalContributed(a, true, OnDayOnly(w.today), f) > TotalContributed(b, true, OnDayOnly(w.today), f)
  {
    var n := |a| - 1;
    assert Twin(a[n], b[n], w.today, w'.today);
    if i == n {
      DayNeverGains(a[..n], b[..n], w, w', f);
    } else {
      DayLoses(a[..n], b[..n], w, w', f, i);
    }
  }

  lemma PlanMoves(a: seq<Contribution>, b: seq<Contribution>, w: World, w': World, pricing: Pricing, i: nat, f: Field)
    requires Twins(a, b, w, w') && w.today != w'.today && f in {Input, Output, CachedInput}
    requires i < |a| && Counts(a[i], true) && a[i] != b[i] && a[i].counters.Get(f) > 0
    ensures PlanOf(pricing, a) != PlanOf(pricing, b)
  {
    DayLoses(a, b, w, w', f, i);
    DayTotalIsContributed(Rows(pricing), a, true, w.today, f);
    DayTotalIsContributed(Rows(pricing), b, true, w.today, f);
  }

  /** A moved contribution has a token of some kind, and that token moves the plan. */
  lemma SomeTokenMoves(a: seq<Contribution>, b: seq<Contribution>, w: World, w': World, pricing: Pricing)
    requires Twins(a, b, w, w') && w.today != w'.today && !Still(a, b)
    ensures PlanOf(pricing, a) != PlanOf(pricing, b)
  {
    var i :| 0 <= i < |a| && !StillAt(a, b, i);
    var f := if a[i].counters.input > 0 then Input else if a[i].counters.output > 0 then Output else CachedInput;
    PlanMoves(a, b, w, w', pricing, i, f);
  }

  /**
   * Runs on two different days work on one plan exactly when everything that
   * reaches a bucket carries its own day.
   */
  lemma FixedExactly(w: World, w': World, pricing: Pricing, sessions: seq<Session>)
    requires TwoDays(w, w')
    ensures Full(w, pricing, sessions) == Full(w', pricing, sessions) <==> AllSettled(sessions)
  {
    ScanCompared(w, w', sessions, 0);
    assert sessions[0..] == sessions;
    if AllSettled(sessions) {
      StillFeeds(Scan(w, sessions), Scan(w', sessions), w, w', EMPTY);
    } else {
      SomeTokenMoves(Scan(w, sessions), Scan(w', sessions), w, w', pricing);
    }
  }

  /** So every run over settled sessions, on whatever day, works on one plan. */
  lemma DatedPlanIsFixed(w: World, w': World, pricing: Pricing, sessions: seq<Session>)
    requires w.fold == w'.fold && AllSettled(sessions)
    ensures Full(w, pricing, sessions) == Full(w', pricing, sessions)
  {
    if w.today != w'.today { FixedExactly(w, w', pricing, sessions); }
  }

  // ── any runs on any days ──

  /** The table after several runs, each on its own day of the calendar. */
  function Backfilled(worlds: seq<World>, pricing: Pricing, sessions: seq<Session>, runs: seq<Run>): Store
    requires |worlds| == |runs|
  {
    if runs == [] then map[]
    else
      var n := |runs| - 1;
      Execute(Backfilled(worlds[..n], pricing, sessions, runs[..n]), Full(worlds[n], pricing, sessions), runs[n])
  }

  lemma {:induction false} BackfilledOnOnePlan(w: World, worlds: seq<World>, pricing: Pricing, sessions: seq<Session>,
                                               runs: seq<Run>)
    requires |worlds| == |runs| && AllSettled(sessions)
    requires forall v :: v in worlds ==> v.fold == w.fold
    ensures Backfilled(worlds, pricing, sessions, runs) == ExecuteAll(Full(w, pricing, sessions), runs)
  {
    if runs != [] {
      var n := |runs| - 1;
      assert worlds[n] in worlds;
      BackfilledOnOnePlan(w, worlds[..n], pricing, sessions, runs[..n]);
      DatedPlanIsFixed(worlds[n], w, pricing, sessions);
    }
  }

  /**
   * Whatever days the script runs on, and wherever each run is cut off, replaying
   * settled sessions never stores more than their true sums.
   */
  lemma BackfillNeverOvercounts(w: World, worlds: seq<World>, pricing: Pricing, sessions: seq<Session>, runs: seq<Run>,
                                key: RowKey, f: Field)
    requires |worlds| == |runs| && AllSettled(sessions)
    requires forall v :: v in worlds ==> v.fold == w.fold
    requires Honest(Full(w, pricing, sessions), runs)
    ensures Stored(Backfilled(worlds, pricing, sessions, runs), key, f) <= Sum(Full(w, pricing, sessions), key, f)
  {
    BackfilledOnOnePlan(w, worlds, pricing, sessions, runs);
    NeverOvercounts(Full(w, pricing, sessions), runs, key, f);
  }

  // ── an undated session is counted twice ──

  /** Where a run books a single-model session without a start day. */
  function TodaysRow(w: World, pricing: Pricing, s: Session): RowKey
    requires IsFast(s)
  {
    RowKey(s.projectId, pricing.refKey(NonEmpty(s.modelsUsed)[0]), s.agentName, w.today)
  }

  lemma OneFastSession(w: World, page: seq<Session>)
    requires |page| == 1 && IsFast(page[0])
    ensures Scan(w, page) == [FastContribution(w, page[0])]
  {
    assert page[..0] == [];
    assert Page(page, 0) == page && Page(page, 1) == [];
    assert FastPass(w, page) == [] + [FastContribution(w, page[0])];
    assert Deferred(page) == [];
    assert ScanFrom(w, page, 1) == [];
    assert PageContributions(w, page) == [FastContribution(w, page[0])];
  }

  /** The plan of such a session is one row, on the day of the run. */
  lemma OneRow(w: World, pricing: Pricing, sessions: seq<Session>) returns (row: Increment)
    requires |sessions| == 1 && IsFast(sessions[0]) && sessions[0].startedOn.None?
    ensures Full(w, pricing, sessions) == [row] && row.key == TodaysRow(w, pricing, sessions[0])
    ensures row.counters.input == sessions[0].totalInput && row.counters.output == sessions[0].totalOutput
    ensures row.counters.cachedInput == sessions[0].totalCachedInput
  {
    var c := FastContribution(w, sessions[0]);
    row := RowOfBucket(pricing, c.id, Bucket(c.name, c.counters));
    OneFastSession(w, sessions);
    SinglePlan(Rows(pricing), Scan(w, sessions), true);
  }

  lemma OneSum(incs: seq<Increment>, key: RowKey, f: Field)
    requires |incs| == 1
    ensures Sum(incs, key, f) == if incs[0].key == key then incs[0].counters.Get(f) else 0
    ensures Touches(incs, key) <==> incs[0].key == key
  {
    assert incs[..0] == [];
  }

  /** So it adds the session's totals to that row and nothing to any other. */
  lemma TodaysSum(w: World, pricing: Pricing, sessions: seq<Session>, key: RowKey, f: Field)
    requires |sessions| == 1 && IsFast(sessions[0]) && sessions[0].startedOn.None? && f in {Input, Output, CachedInput}
    ensures Touches(Full(w, pricing, sessions), key) ==> key == TodaysRow(w, pricing, sessions[0])
    ensures Sum(Full(w, pricing, sessions), key, f)
            == if key == TodaysRow(w, pricing, sessions[0]) then SessionTotal(sessions[0], f) else 0
  {
    var row := OneRow(w, pricing, sessions);
    OneSum(Full(w, pricing, sessions), key, f);
  }

  /**
   * Two uncut runs from the empty table, on two days, over an undated session: each
   * books it in full on its own day, so the rollup holds its usage twice.
   */
  lemma UndatedIsCountedTwice(w: World, w': World, pricing: Pricing, sessions: seq<Session>, run: Run, again: Run,
                              f: Field)
    requires TwoDays(w, w') && f in {Input, Output, CachedInput}
    requires |sessions| == 1 && IsFast(sessions[0]) && sessions[0].startedOn.None?
    requires Listed(map[], run) && Uncut(Full(w, pricing, sessions), run)
    requires InRange(w.today, run.cfg.from, run.cfg.to) && InRange(w'.today, again.cfg.from, again.cfg.to)
    requires Listed(Execute(map[], Full(w, pricing, sessions), run), again) && Uncut(Full(w', pricing, sessions), again)
    ensures var once := Execute(map[], Full(w, pricing, sessions), run);
            var twice := Execute(once, Full(w', pricing, sessions), again);
            && Stored(twice, TodaysRow(w, pricing, sessions[0]), f) == SessionTotal(sessions[0], f)
            && Stored(twice, TodaysRow(w', pricing, sessions[0]), f) == SessionTotal(sessions[0], f)
  {
    var first, second := TodaysRow(w, pricing, sessions[0]), TodaysRow(w', pricing, sessions[0]);
    var full, full' := Full(w, pricing, sessions), Full(w', pricing, sessions);
    var once := Execute(map[], full, run);
    forall key ensures key in once ==> key == first {
      FirstRun(full, run, key, f);
      TodaysSum(w, pricing, sessions, key, f);
    }
    assert w'.today !in DaysOf(again.listed);
    FirstRun(full, run, first, f);
    FirstRun(full, run, second, f);
    TodaysSum(w, pricing, sessions, first, f);
    TodaysSum(w, pricing, sessions, second, f);
    TodaysSum(w', pricing, sessions, first, f);
    TodaysSum(w', pricing, sessions, second, f);
    UncutRunAdds(once, full', again, first, f);
    UncutRunAdds(once, full', again, second, f);
  }
}

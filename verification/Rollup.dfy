/**
 * The `usage_daily` rollup and the protocol both usage backfills follow
 * (scripts/backfill-trace-usage.ts, scripts/backfill-usage-daily.ts): list the
 * days that already have rows, plan increments for the other days, write them in
 * chunks, possibly be cut off, and be run again.
 *
 * A UTC day is a day number; costs are exact, counted in their smallest unit.
 */
module Rollup {
  import opened Options

  datatype Field =
    | Requests | Errors | Input | Output | CachedInput | CachedWrite | Total | Cost | LatencySum | LatencyCount

  datatype Counters = Counters(
    requests: nat, errors: nat, input: nat, output: nat, cachedInput: nat,
    cachedWrite: nat, total: nat, cost: nat, latencySum: nat, latencyCount: nat)
  {
    function Get(f: Field): nat {
      match f
      case Requests => requests
      case Errors => errors
      case Input => input
      case Output => output
      case CachedInput => cachedInput
      case CachedWrite => cachedWrite
      case Total => total
      case Cost => cost
      case LatencySum => latencySum
      case LatencyCount => latencyCount
    }

    function Plus(c: Counters): (r: Counters)
      ensures forall f :: r.Get(f) == Get(f) + c.Get(f)
    {
      Counters(requests + c.requests, errors + c.errors, input + c.input, output + c.output,
               cachedInput + c.cachedInput, cachedWrite + c.cachedWrite, total + c.total, cost + c.cost,
               latencySum + c.latencySum, latencyCount + c.latencyCount)
    }
  }

  datatype RowKey = RowKey(projectId: string, refKey: string, agentKey: string, day: nat)

  datatype Increment = Increment(key: RowKey, counters: Counters)

  type Store = map<RowKey, Counters>

  // ── additive writes ──

  function Apply(store: Store, inc: Increment): Store {
    store[inc.key := if inc.key in store then store[inc.key].Plus(inc.counters) else inc.counters]
  }

  function ApplyAll(store: Store, incs: seq<Increment>): Store {
    if incs == [] then store else Apply(ApplyAll(store, incs[..|incs| - 1]), incs[|incs| - 1])
  }

  function Stored(store: Store, key: RowKey, f: Field): nat {
    if key in store then store[key].Get(f) else 0
  }

  /** What the increments add to one counter of one row. */
  function Sum(incs: seq<Increment>, key: RowKey, f: Field): nat {
    if incs == [] then 0
    else
      var last := incs[|incs| - 1];
      Sum(incs[..|incs| - 1], key, f) + if last.key == key then last.counters.Get(f) else 0
  }

  predicate Touches(incs: seq<Increment>, key: RowKey) {
    exists i :: 0 <= i < |incs| && incs[i].key == key
  }

  lemma {:induction false} ApplyAllAdds(store: Store, incs: seq<Increment>, key: RowKey, f: Field)
    ensures Stored(ApplyAll(store, incs), key, f) == Stored(store, key, f) + Sum(incs, key, f)
    ensures key in ApplyAll(store, incs) <==> key in store || Touches(incs, key)
  {
    if incs != [] {
      var init := incs[..|incs| - 1];
      ApplyAllAdds(store, init, key, f);
      assert forall i :: 0 <= i < |init| ==> init[i] == incs[i];
    }
  }

  lemma {:induction false} ApplyAllConcat(store: Store, a: seq<Increment>, b: seq<Increment>)
    ensures ApplyAll(store, a + b) == ApplyAll(ApplyAll(store, a), b)
  {
    if b == [] {
      assert a + b == a;
    } else {
      assert (a + b)[..|a + b| - 1] == a + b[..|b| - 1];
      ApplyAllConcat(store, a, b[..|b| - 1]);
    }
  }

  const WRITE_CHUNK_SIZE: nat := 200

  function Min(a: int, b: int): int {
    if a <= b then a else b
  }

  /** The table behind `incrementUsageDaily`. */
  class UsageTable {
    var rows: Store

    constructor (rows: Store)
      ensures this.rows == rows
    {
      this.rows := rows;
    }

    method IncrementUsageDaily(incs: seq<Increment>)
      modifies this
      ensures rows == ApplyAll(old(rows), incs)
    {
      for i := 0 to |incs|
        invariant rows == ApplyAll(old(rows), incs[..i])
      {
        assert incs[..i + 1][..i] == incs[..i];
        rows := Apply(rows, incs[i]);
      }
      assert incs[..|incs|] == incs;
    }

    /**
     * The chunked write of both scripts, cut off after at most `chunks` chunks:
     * every increment before the cut is written exactly once, in order.
     */
    method WriteChunks(incs: seq<Increment>, chunks: nat)
      modifies this
      ensures rows == ApplyAll(old(rows), incs[..Min(chunks * WRITE_CHUNK_SIZE, |incs|)])
    {
      var offset, written := 0, 0;
      while offset < |incs| && written < chunks
        invariant offset == written * WRITE_CHUNK_SIZE && written <= chunks
        invariant rows == ApplyAll(old(rows), incs[..Min(offset, |incs|)])
        invariant offset < |incs| + WRITE_CHUNK_SIZE
        decreases |incs| - offset
      {
        var end := Min(offset + WRITE_CHUNK_SIZE, |incs|);
        assert incs[..end] == incs[..offset] + incs[offset..end];
        ApplyAllConcat(old(rows), incs[..offset], incs[offset..end]);
        IncrementUsageDaily(incs[offset..end]);
        offset, written := offset + WRITE_CHUNK_SIZE, written + 1;
      }
    }
  }

  // ── one run ──

  /** The range and the cut-off of one non-force run. */
  datatype Config = Config(from: Option<nat>, to: Option<nat>, limit: nat, chunks: nat)

  predicate InRange(day: nat, from: Option<nat>, to: Option<nat>) {
    (from.Some? ==> from.value <= day) && (to.Some? ==> day <= to.value)
  }

  function RowsInRange(store: Store, cfg: Config): set<RowKey> {
    set key | key in store && InRange(key.day, cfg.from, cfg.to)
  }

  /** A possible answer of `listUsageDaily`: at most `limit` matching rows, newest days first. */
  predicate IsListing(store: Store, cfg: Config, listed: set<RowKey>) {
    && listed <= RowsInRange(store, cfg)
    && |listed| == Min(cfg.limit, |RowsInRange(store, cfg)|)
    && forall a, b :: a in listed && b in RowsInRange(store, cfg) && b !in listed ==> a.day >= b.day
  }

  function DaysOf(listed: set<RowKey>): set<nat> {
    set key | key in listed :: key.day
  }

  /** The increments of the days a run keeps. */
  function Keep(full: seq<Increment>, from: Option<nat>, to: Option<nat>, skip: set<nat>): seq<Increment> {
    if full == [] then []
    else
      var last := full[|full| - 1];
      var rest := Keep(full[..|full| - 1], from, to, skip);
      if InRange(last.key.day, from, to) && last.key.day !in skip then rest + [last] else rest
  }

  function Plan(full: seq<Increment>, cfg: Config, listed: set<RowKey>): seq<Increment> {
    Keep(full, cfg.from, cfg.to, DaysOf(listed))
  }

  /** The increments left out because their day is skipped. */
  function Skipped(full: seq<Increment>, skip: set<nat>): seq<Increment> {
    if full == [] then []
    else
      var rest := Skipped(full[..|full| - 1], skip);
      var last := full[|full| - 1];
      if last.key.day in skip then rest + [last] else rest
  }

  /** Skipping days loses nothing from the account: kept and skipped rows make up every sum. */
  lemma {:induction false} KeptPlusSkipped(full: seq<Increment>, skip: set<nat>, key: RowKey, f: Field)
    ensures Sum(Keep(full, None, None, skip), key, f) + Sum(Skipped(full, skip), key, f) == Sum(full, key, f)
    ensures |Keep(full, None, None, skip)| + |Skipped(full, skip)| == |full|
  {
    if full != [] {
      var init, last := full[..|full| - 1], full[|full| - 1];
      KeptPlusSkipped(init, skip, key, f);
      var kept, left := Keep(init, None, None, skip), Skipped(init, skip);
      assert (kept + [last])[..|kept|] == kept && (left + [last])[..|left|] == left;
    }
  }

  /** What the run gets to write before it ends or is cut off. */
  function Written(plan: seq<Increment>, chunks: nat): seq<Increment> {
    plan[..Min(chunks * WRITE_CHUNK_SIZE, |plan|)]
  }

  datatype Run = Run(cfg: Config, listed: set<RowKey>)

  function Execute(store: Store, full: seq<Increment>, run: Run): Store {
    ApplyAll(store, Written(Plan(full, run.cfg, run.listed), run.cfg.chunks))
  }

  // ── days ──

  function OnDay(incs: seq<Increment>, day: nat): seq<Increment> {
    if incs == [] then []
    else
      var last := incs[|incs| - 1];
      var rest := OnDay(incs[..|incs| - 1], day);
      if last.key.day == day then rest + [last] else rest
  }

  lemma {:induction false} OnDayConcat(a: seq<Increment>, b: seq<Increment>, day: nat)
    ensures OnDay(a + b, day) == OnDay(a, day) + OnDay(b, day)
  {
    if b == [] {
      assert a + b == a;
    } else {
      assert (a + b)[..|a + b| - 1] == a + b[..|b| - 1];
      OnDayConcat(a, b[..|b| - 1], day);
    }
  }

  lemma {:induction false} OnDayPrefix(incs: seq<Increment>, n: nat, day: nat)
    requires n <= |incs|
    ensures OnDay(incs[..n], day) <= OnDay(incs, day)
  {
    assert incs == incs[..n] + incs[n..];
    OnDayConcat(incs[..n], incs[n..], day);
  }

  /** A plan holds all of a kept day, in order, and nothing of any other. */
  lemma {:induction false} OnDayOfKeep(full: seq<Increment>, from: Option<nat>, to: Option<nat>, skip: set<nat>,
                                       day: nat)
    ensures OnDay(Keep(full, from, to, skip), day)
            == if InRange(day, from, to) && day !in skip then OnDay(full, day) else []
  {
    if full != [] {
      var init, last := full[..|full| - 1], full[|full| - 1];
      OnDayOfKeep(init, from, to, skip, day);
      var kept := Keep(init, from, to, skip);
      if InRange(last.key.day, from, to) && last.key.day !in skip {
        assert (kept + [last])[..|kept|] == kept;
      }
    }
  }

  /** One row only sees the increments of its day. */
  lemma {:induction false} SumOfDay(incs: seq<Increment>, key: RowKey, f: Field)
    ensures Sum(incs, key, f) == Sum(OnDay(incs, key.day), key, f)
    ensures Touches(incs, key) ==> OnDay(incs, key.day) != []
  {
    if incs != [] {
      var init, last := incs[..|incs| - 1], incs[|incs| - 1];
      SumOfDay(init, key, f);
      var kept := OnDay(init, key.day);
      if last.key.day == key.day { assert (kept + [last])[..|kept|] == kept; }
      assert forall i :: 0 <= i < |init| ==> init[i] == incs[i];
    }
  }

  lemma {:induction false} SumOfPrefix(a: seq<Increment>, b: seq<Increment>, key: RowKey, f: Field)
    requires a <= b
    ensures Sum(a, key, f) <= Sum(b, key, f)
    decreases |b|
  {
    if |a| < |b| {
      SumOfPrefix(a, b[..|b| - 1], key, f);
    } else {
      assert a == b;
    }
  }

  lemma {:induction false} OnDayTouches(incs: seq<Increment>, day: nat)
    requires OnDay(incs, day) != []
    ensures exists i :: 0 <= i < |incs| && incs[i].key.day == day
  {
    var init := incs[..|incs| - 1];
    if incs[|incs| - 1].key.day != day {
      OnDayTouches(init, day);
      var i :| 0 <= i < |init| && init[i].key.day == day;
      assert incs[i].key.day == day;
    }
  }

  // ── any sequence of runs ──

  /**
   * What every run keeps, with the increments written so far as history: the
   * table is their sum, and each day's part of them is a prefix of that day's plan.
   */
  ghost predicate Prefixed(full: seq<Increment>, history: seq<Increment>) {
    forall day :: OnDay(history, day) <= OnDay(full, day)
  }

  predicate Listed(store: Store, run: Run) {
    IsListing(store, run.cfg, run.listed)
  }

  /** The listing sees every row of its range when the range holds no more rows than the limit. */
  lemma ListingIsComplete(store: Store, run: Run)
    requires Listed(store, run) && |RowsInRange(store, run.cfg)| <= run.cfg.limit
    ensures run.listed == RowsInRange(store, run.cfg)
  {
    var rows := RowsInRange(store, run.cfg);
    assert |rows - run.listed| == |rows| - |run.listed| == 0;
    assert rows == run.listed + (rows - run.listed);
  }

  lemma {:induction false} StoreDays(history: seq<Increment>, day: nat)
    ensures (exists key :: key in ApplyAll(map[], history) && key.day == day) <==> OnDay(history, day) != []
  {
    if OnDay(history, day) != [] {
      OnDayTouches(history, day);
      var i :| 0 <= i < |history| && history[i].key.day == day;
      ApplyAllAdds(map[], history, history[i].key, Requests);
    }
    forall key | key in ApplyAll(map[], history) && key.day == day
      ensures OnDay(history, day) != []
    {
      ApplyAllAdds(map[], history, key, Requests);
      SumOfDay(history, key, Requests);
    }
  }

  /** One run: a day that already has rows is left alone, and a new day gets a prefix of its plan. */
  lemma RunKeepsPrefixes(full: seq<Increment>, history: seq<Increment>, run: Run, day: nat)
    requires Prefixed(full, history)
    requires run.listed == RowsInRange(ApplyAll(map[], history), run.cfg)
    ensures var written := Written(Plan(full, run.cfg, run.listed), run.cfg.chunks);
            && OnDay(history + written, day) <= OnDay(full, day)
            && (OnDay(history, day) != [] ==> OnDay(written, day) == [])
  {
    var plan := Plan(full, run.cfg, run.listed);
    var written := Written(plan, run.cfg.chunks);
    OnDayConcat(history, written, day);
    OnDayPrefix(plan, |written|, day);
    OnDayOfKeep(full, run.cfg.from, run.cfg.to, DaysOf(run.listed), day);
    if OnDay(history, day) != [] && InRange(day, run.cfg.from, run.cfg.to) {
      StoreDays(history, day);
      var key :| key in ApplyAll(map[], history) && key.day == day;
      assert key in run.listed;
      assert day in DaysOf(run.listed);
    }
  }

  /** The table after a sequence of runs over the same data, starting from an empty rollup. */
  function ExecuteAll(full: seq<Increment>, runs: seq<Run>): Store {
    if runs == [] then map[] else Execute(ExecuteAll(full, runs[..|runs| - 1]), full, runs[|runs| - 1])
  }

  function History(full: seq<Increment>, runs: seq<Run>): seq<Increment> {
    if runs == [] then []
    else
      var run := runs[|runs| - 1];
      History(full, runs[..|runs| - 1]) + Written(Plan(full, run.cfg, run.listed), run.cfg.chunks)
  }

  /** Every run listed the table as it stood, and its range never held more rows than the listing limit. */
  ghost predicate Honest(full: seq<Increment>, runs: seq<Run>) {
    runs != [] ==>
      var init, run := runs[..|runs| - 1], runs[|runs| - 1];
      var store := ExecuteAll(full, init);
      Honest(full, init) && Listed(store, run) && |RowsInRange(store, run.cfg)| <= run.cfg.limit
  }

  lemma {:induction false} RunsKeepPrefixes(full: seq<Increment>, runs: seq<Run>)
    requires Honest(full, runs)
    ensures ExecuteAll(full, runs) == ApplyAll(map[], History(full, runs))
    ensures Prefixed(full, History(full, runs))
  {
    if runs != [] {
      var init, run := runs[..|runs| - 1], runs[|runs| - 1];
      RunsKeepPrefixes(full, init);
      var history := History(full, init);
      ListingIsComplete(ExecuteAll(full, init), run);
      var written := Written(Plan(full, run.cfg, run.listed), run.cfg.chunks);
      ApplyAllConcat(map[], history, written);
      forall day ensures OnDay(history + written, day) <= OnDay(full, day) {
        RunKeepsPrefixes(full, history, run, day);
      }
    }
  }

  /** No counter is ever counted twice: whatever the ranges and cut-offs, nothing stored exceeds the true sum. */
  lemma NeverOvercounts(full: seq<Increment>, runs: seq<Run>, key: RowKey, f: Field)
    requires Honest(full, runs)
    ensures Stored(ExecuteAll(full, runs), key, f) <= Sum(full, key, f)
  {
    RunsKeepPrefixes(full, runs);
    var history := History(full, runs);
    ApplyAllAdds(map[], history, key, f);
    SumOfDay(history, key, f);
    SumOfDay(full, key, f);
    SumOfPrefix(OnDay(history, key.day), OnDay(full, key.day), key, f);
  }

  /** All rows of a day come from one run: a run changes no row, and adds none, on a day that already has one. */
  lemma OneRunPerDay(full: seq<Increment>, runs: seq<Run>, present: RowKey, key: RowKey, f: Field)
    requires Honest(full, runs) && runs != []
    requires present in ExecuteAll(full, runs[..|runs| - 1]) && present.day == key.day
    ensures var earlier := ExecuteAll(full, runs[..|runs| - 1]);
            && (key in ExecuteAll(full, runs) <==> key in earlier)
            && Stored(ExecuteAll(full, runs), key, f) == Stored(earlier, key, f)
  {
    var init, run := runs[..|runs| - 1], runs[|runs| - 1];
    RunsKeepPrefixes(full, init);
    var history := History(full, init);
    ListingIsComplete(ExecuteAll(full, init), run);
    StoreDays(history, key.day);
    RunKeepsPrefixes(full, history, run, key.day);
    var written := Written(Plan(full, run.cfg, run.listed), run.cfg.chunks);
    ApplyAllAdds(ExecuteAll(full, init), written, key, f);
    SumOfDay(written, key, f);
  }

  /** The run gets through its whole plan. */
  predicate Uncut(full: seq<Increment>, run: Run) {
    |Plan(full, run.cfg, run.listed)| <= run.cfg.chunks * WRITE_CHUNK_SIZE
  }

  /** After an uncut run every day of its range that has data has rows. */
  lemma UncutFillsDays(full: seq<Increment>, runs: seq<Run>, day: nat)
    requires Honest(full, runs) && runs != [] && Uncut(full, runs[|runs| - 1])
    requires InRange(day, runs[|runs| - 1].cfg.from, runs[|runs| - 1].cfg.to) && OnDay(full, day) != []
    ensures exists key :: key in ExecuteAll(full, runs) && key.day == day
    ensures OnDay(History(full, runs[..|runs| - 1]), day) == [] ==> OnDay(History(full, runs), day) == OnDay(full, day)
  {
    var init, run := runs[..|runs| - 1], runs[|runs| - 1];
    RunsKeepPrefixes(full, runs);
    RunsKeepPrefixes(full, init);
    var history := History(full, init);
    ListingIsComplete(ExecuteAll(full, init), run);
    var plan := Plan(full, run.cfg, run.listed);
    assert Written(plan, run.cfg.chunks) == plan;
    OnDayConcat(history, plan, day);
    OnDayOfKeep(full, run.cfg.from, run.cfg.to, DaysOf(run.listed), day);
    StoreDays(history, day);
    StoreDays(History(full, runs), day);
    if OnDay(history, day) == [] {
      assert day !in DaysOf(run.listed);
    }
  }

  lemma {:induction false} KeepNothing(full: seq<Increment>, from: Option<nat>, to: Option<nat>, skip: set<nat>)
    requires forall i :: 0 <= i < |full| && InRange(full[i].key.day, from, to) ==> full[i].key.day in skip
    ensures Keep(full, from, to, skip) == []
  {
    if full != [] { KeepNothing(full[..|full| - 1], from, to, skip); }
  }

  lemma {:induction false} OnDayHas(incs: seq<Increment>, i: nat)
    requires i < |incs|
    ensures OnDay(incs, incs[i].key.day) != []
  {
    if i < |incs| - 1 { OnDayHas(incs[..|incs| - 1], i); }
  }

  lemma {:induction false} HonestPrefix(full: seq<Increment>, runs: seq<Run>, n: nat)
    requires Honest(full, runs) && n <= |runs|
    ensures Honest(full, runs[..n])
  {
    if n == |runs| {
      assert runs[..n] == runs;
    } else {
      var init := runs[..|runs| - 1];
      HonestPrefix(full, init, n);
      assert init[..n] == runs[..n];
    }
  }

  /** A stored row stays, whatever runs follow. */
  lemma {:induction false} RowsPersist(full: seq<Increment>, runs: seq<Run>, n: nat, key: RowKey)
    requires n <= |runs| && key in ExecuteAll(full, runs[..n])
    ensures key in ExecuteAll(full, runs)
  {
    if n == |runs| {
      assert runs[..n] == runs;
    } else {
      var init, run := runs[..|runs| - 1], runs[|runs| - 1];
      assert init[..n] == runs[..n];
      RowsPersist(full, init, n, key);
      ApplyAllAdds(ExecuteAll(full, init), Written(Plan(full, run.cfg, run.listed), run.cfg.chunks), key, Requests);
    }
  }

  lemma FilledDay(full: seq<Increment>, runs: seq<Run>, last: Run, day: nat) returns (key: RowKey)
    requires Honest(full, runs) && runs != [] && runs[|runs| - 1] == last && Uncut(full, last)
    requires InRange(day, last.cfg.from, last.cfg.to) && OnDay(full, day) != []
    ensures key in ExecuteAll(full, runs) && key.day == day
  {
    UncutFillsDays(full, runs, day);
    key :| key in ExecuteAll(full, runs) && key.day == day;
  }

  /** Every day of the uncut run's range that has data still has a row after any further runs. */
  lemma FilledStaysFilled(full: seq<Increment>, runs: seq<Run>, i: nat, day: nat) returns (key: RowKey)
    requires Honest(full, runs) && i < |runs| && Uncut(full, runs[i])
    requires InRange(day, runs[i].cfg.from, runs[i].cfg.to) && OnDay(full, day) != []
    ensures key in ExecuteAll(full, runs) && key.day == day
  {
    HonestPrefix(full, runs, i + 1);
    key := FilledDay(full, runs[..i + 1], runs[i], day);
    RowsPersist(full, runs, i + 1, key);
  }

  /**
   * Once some run over a range got through, every later run over that range or a
   * part of it writes nothing, whatever runs over other ranges, cut off or not, lie
   * between.
   */
  lemma LaterRunsWriteNothing(full: seq<Increment>, runs: seq<Run>, i: nat)
    requires Honest(full, runs) && i < |runs| - 1 && Uncut(full, runs[i])
    requires forall day :: InRange(day, runs[|runs| - 1].cfg.from, runs[|runs| - 1].cfg.to) ==>
               InRange(day, runs[i].cfg.from, runs[i].cfg.to)
    ensures Plan(full, runs[|runs| - 1].cfg, runs[|runs| - 1].listed) == []
    ensures ExecuteAll(full, runs) == ExecuteAll(full, runs[..|runs| - 1])
  {
    var init, last := runs[..|runs| - 1], runs[|runs| - 1];
    assert init[i] == runs[i];
    ListingIsComplete(ExecuteAll(full, init), last);
    forall j | 0 <= j < |full| && InRange(full[j].key.day, last.cfg.from, last.cfg.to)
      ensures full[j].key.day in DaysOf(last.listed)
    {
      OnDayHas(full, j);
      var key := FilledStaysFilled(full, init, i, full[j].key.day);
      assert key in last.listed;
    }
    KeepNothing(full, last.cfg.from, last.cfg.to, DaysOf(last.listed));
  }

  /** From an empty rollup, one uncut run stores exactly the true sums of its range. */
  lemma UncutRunIsExact(full: seq<Increment>, run: Run, key: RowKey, f: Field)
    requires Honest(full, [run]) && Uncut(full, run) && InRange(key.day, run.cfg.from, run.cfg.to)
    ensures Stored(ExecuteAll(full, [run]), key, f) == Sum(full, key, f)
  {
    var runs := [run];
    assert runs[..0] == [];
    RunsKeepPrefixes(full, runs);
    ApplyAllAdds(map[], History(full, runs), key, f);
    SumOfDay(History(full, runs), key, f);
    SumOfDay(full, key, f);
    assert OnDay([], key.day) == [];
    if OnDay(full, key.day) != [] { UncutFillsDays(full, runs, key.day); }
  }

  /** What an uncut run adds to any table: the whole true sum of exactly the days its listing did not show. */
  lemma UncutRunAdds(store: Store, full: seq<Increment>, run: Run, key: RowKey, f: Field)
    requires Uncut(full, run)
    ensures Stored(Execute(store, full, run), key, f) == Stored(store, key, f) +
              if InRange(key.day, run.cfg.from, run.cfg.to) && key.day !in DaysOf(run.listed) then Sum(full, key, f)
                  else 0
  {
    var plan := Plan(full, run.cfg, run.listed);
    assert Written(plan, run.cfg.chunks) == plan;
    ApplyAllAdds(store, plan, key, f);
    SumOfDay(plan, key, f);
    SumOfDay(full, key, f);
    OnDayOfKeep(full, run.cfg.from, run.cfg.to, DaysOf(run.listed), key.day);
  }

  function Newer(rows: set<RowKey>, day: nat): set<RowKey> {
    set key | key in rows && key.day > day
  }

  /**
   * A day with rows is missing from the listing, and so booked again, exactly when the newer rows
   * alone fill the limit.
   */
  lemma HiddenExactly(store: Store, run: Run, key: RowKey)
    requires Listed(store, run) && key in RowsInRange(store, run.cfg)
    ensures key.day !in DaysOf(run.listed) <==> |Newer(RowsInRange(store, run.cfg), key.day)| >= run.cfg.limit
  {
    var rows, listed := RowsInRange(store, run.cfg), run.listed;
    var newer := Newer(rows, key.day);
    if key.day in DaysOf(listed) {
      var shown :| shown in listed && shown.day == key.day;
      assert newer + {shown} <= listed;
      SubsetSize(newer + {shown}, listed);
    } else {
      assert key !in listed;
      assert listed <= newer;
      SubsetSize(listed, newer);
      if |rows| <= run.cfg.limit { ListingIsComplete(store, run); }
    }
  }

  lemma {:induction false} SubsetSize(a: set<RowKey>, b: set<RowKey>)
    requires a <= b
    ensures |a| <= |b|
  {
    assert b == a + (b - a);
  }

  // ── a hidden day is counted twice ──

  lemma {:induction false} KeepTouches(full: seq<Increment>, from: Option<nat>, to: Option<nat>, skip: set<nat>,
                                       key: RowKey)
    ensures Touches(Keep(full, from, to, skip), key)
            <==> Touches(full, key) && InRange(key.day, from, to) && key.day !in skip
  {
    if full != [] {
      var init, last := full[..|full| - 1], full[|full| - 1];
      KeepTouches(init, from, to, skip, key);
      TouchesOne(init, last, key);
      TouchesOne(Keep(init, from, to, skip), last, key);
      assert full == init + [last];
    }
  }

  lemma TouchesOne(incs: seq<Increment>, last: Increment, key: RowKey)
    ensures Touches(incs + [last], key) <==> Touches(incs, key) || last.key == key
  {
    var all := incs + [last];
    assert all[|incs|] == last;
    assert forall i :: 0 <= i < |incs| ==> all[i] == incs[i];
  }

  /** An uncut run from the empty table holds the plan of its range and nothing else. */
  lemma FirstRun(full: seq<Increment>, run: Run, key: RowKey, f: Field)
    requires Listed(map[], run) && Uncut(full, run)
    ensures Stored(Execute(map[], full, run), key, f)
            == if InRange(key.day, run.cfg.from, run.cfg.to) then Sum(full, key, f) else 0
    ensures key in Execute(map[], full, run) <==> Touches(full, key) && InRange(key.day, run.cfg.from, run.cfg.to)
  {
    assert run.listed == {};
    var plan := Plan(full, run.cfg, run.listed);
    assert Written(plan, run.cfg.chunks) == plan;
    UncutRunAdds(map[], full, run, key, f);
    ApplyAllAdds(map[], plan, key, f);
    KeepTouches(full, run.cfg.from, run.cfg.to, DaysOf(run.listed), key);
  }

  /**
   * Both ends of a range belong to it: an uncut run from nothing books its first and its last day
   * in full, and no day outside.
   */
  lemma RangeIsInclusive(full: seq<Increment>, run: Run, key: RowKey, f: Field)
    requires Listed(map[], run) && Uncut(full, run)
    ensures (run.cfg.from == None || run.cfg.from.value <= key.day)
            && (run.cfg.to == None || key.day <= run.cfg.to.value) ==>
              Stored(Execute(map[], full, run), key, f) == Sum(full, key, f)
    ensures run.cfg.from != None && key.day < run.cfg.from.value ==> key !in Execute(map[], full, run)
    ensures run.cfg.to != None && key.day > run.cfg.to.value ==> key !in Execute(map[], full, run)
  {
    FirstRun(full, run, key, f);
  }

  /**
   * Two uncut runs over a range, from the empty table: a row of that range ends with
   * twice its true sum exactly when the rows newer than its day fill the listing limit.
   */
  lemma SecondRunDoubles(full: seq<Increment>, run: Run, again: Run, key: RowKey, f: Field)
    requires Listed(map[], run) && Uncut(full, run) && Touches(full, key)
    requires InRange(key.day, run.cfg.from, run.cfg.to) && InRange(key.day, again.cfg.from, again.cfg.to)
    requires Listed(Execute(map[], full, run), again) && Uncut(full, again)
    ensures var once := Execute(map[], full, run);
            Stored(Execute(once, full, again), key, f)
            == if |Newer(RowsInRange(once, again.cfg), key.day)| >= again.cfg.limit then 2 * Sum(full, key, f)
                else Sum(full, key, f)
  {
    var once := Execute(map[], full, run);
    FirstRun(full, run, key, f);
    HiddenExactly(once, again, key);
    UncutRunAdds(once, full, again, key, f);
  }

  lemma {:induction false} KeepShorter(full: seq<Increment>, from: Option<nat>, to: Option<nat>, skip: set<nat>)
    ensures |Keep(full, from, to, skip)| <= |full|
  {
    if full != [] { KeepShorter(full[..|full| - 1], from, to, skip); }
  }

  /** It happens: two days of data, a limit of one row, two uncut runs, and the older day holds twice its sum. */
  lemma LimitDoubles(full: seq<Increment>, cfg: Config, f: Field)
    requires |full| == 2 && full[0].key.day < full[1].key.day
    requires cfg.from.None? && cfg.to.None? && cfg.limit == 1 && cfg.chunks == 1
    ensures var run, again := Run(cfg, {}), Run(cfg, {full[1].key});
            var once := Execute(map[], full, run);
            && Listed(map[], run) && Listed(once, again)
            && Stored(Execute(once, full, again), full[0].key, f) == 2 * Sum(full, full[0].key, f)
  {
    var run, again := Run(cfg, {}), Run(cfg, {full[1].key});
    var older, newer := full[0].key, full[1].key;
    var once := Execute(map[], full, run);
    assert RowsInRange(map[], cfg) == {};
    KeepShorter(full, cfg.from, cfg.to, DaysOf(run.listed));
    KeepShorter(full, cfg.from, cfg.to, DaysOf(again.listed));
    forall key ensures key in once <==> key == older || key == newer {
      FirstRun(full, run, key, f);
      assert Touches(full, key) <==> full[0].key == key || full[1].key == key;
    }
    assert RowsInRange(once, cfg) == {older, newer};
    assert Newer({older, newer}, older.day) == {newer};
    SecondRunDoubles(full, run, again, older, f);
  }
}

/**
 * Backfilling the rollup from raw model usage logs (scripts/backfill-usage-daily.ts):
 * per model, page through the logs of the window, aggregate by (project, model,
 * day), drop the days that already have rows, write the rest in chunks.
 */
module UsageDaily {
  import opened Options
  import opened Rollup
  import opened Buckets

  /** A usage log; missing counts are 0, a log without a date has `createdOn` None. */
  datatype Log = Log(createdOn: Option<nat>, projectId: string, isError: bool, input: nat, output: nat,
                     cachedInput: nat,
                     cachedWrite: nat, total: nat, cost: nat, latency: Option<nat>)

  /** The logs of one model, in the order the store lists them. */
  datatype ModelLogs = ModelLogs(key: string, logs: seq<Log>)

  predicate InWindow(log: Log, from: Option<nat>, to: Option<nat>) {
    log.createdOn.Some? && InRange(log.createdOn.value, from, to)
  }

  /** What the store returns for the window of a run. */
  function Window(logs: seq<Log>, from: Option<nat>, to: Option<nat>): seq<Log> {
    if logs == [] then []
    else
      var rest := Window(logs[..|logs| - 1], from, to);
      var log := logs[|logs| - 1];
      if InWindow(log, from, to) then rest + [log] else rest
  }

  function CountersOf(log: Log): Counters {
    Counters(1,
             if log.isError then 1 else 0, log.input, log.output, log.cachedInput, log.cachedWrite, log.total, log.cost,
             if log.latency.Some? then log.latency.value else 0, if log.latency.Some? then 1 else 0)
  }

  function LogContribution(model: string, log: Log): Contribution
    requires log.createdOn.Some?
  {
    Contribution(BucketId(log.projectId, "", model, log.createdOn.value), model, CountersOf(log))
  }

  /** The dated logs of a model as contributions; an undated one is passed over. */
  function FromLogs(model: string, logs: seq<Log>): seq<Contribution> {
    if logs == [] then []
    else
      var rest := FromLogs(model, logs[..|logs| - 1]);
      var log := logs[|logs| - 1];
      if log.createdOn.Some? then rest + [LogContribution(model, log)] else rest
  }

  function FromModels(models: seq<ModelLogs>): seq<Contribution> {
    if models == [] then []
    else
      var m := models[|models| - 1];
      FromModels(models[..|models| - 1]) + FromLogs(m.key, m.logs)
  }

  function Windowed(models: seq<ModelLogs>, from: Option<nat>, to: Option<nat>): seq<ModelLogs> {
    seq(|models|, i requires 0 <= i < |models| => ModelLogs(models[i].key, Window(models[i].logs, from, to)))
  }

  const LOG_PAGE_SIZE: nat := 200

  class DailyAggregator {
    var order: seq<BucketId>
    var at: map<BucketId, Bucket>

    ghost function Abs(): Table
      reads this
    {
      Table(order, at)
    }

    constructor ()
      ensures Abs() == EMPTY
    {
      order, at := [], map[];
    }

    method AddLog(model: string, log: Log)
      modifies this
      ensures Abs() == Feed(EveryDay(false), old(Abs()), FromLogs(model, [log]))
    {
      assert [log][..0] == [];
      if log.createdOn.None? { return; }
      var c := LogContribution(model, log);
      assert FromLogs(model, [log]) == [] + [c] == [c];
      assert [c][..0] == [];
      assert Feed(EveryDay(false), Abs(), [c]) == AddTo(Abs(), c);
      var bucket := if c.id in at then at[c.id].(counters := at[c.id].counters.Plus(c.counters))
          else Bucket(model, c.counters);
      if c.id !in at { order := order + [c.id]; }
      at := at[c.id := bucket];
    }

    method AddPage(model: string, page: seq<Log>)
      modifies this
      ensures Abs() == Feed(EveryDay(false), old(Abs()), FromLogs(model, page))
    {
      for i := 0 to |page|
        invariant Abs() == Feed(EveryDay(false), old(Abs()), FromLogs(model, page[..i]))
      {
        assert page[..i + 1] == page[..i] + [page[i]];
        FromLogsConcat(model, page[..i], [page[i]]);
        FeedConcat(EveryDay(false), old(Abs()), FromLogs(model, page[..i]), FromLogs(model, [page[i]]));
        AddLog(model, page[i]);
      }
      assert page[..|page|] == page;
    }

    /** The paging loop of one model: it ends, and every log goes in exactly once. */
    method ScanModel(model: string, logs: seq<Log>)
      modifies this
      ensures Abs() == Feed(EveryDay(false), old(Abs()), FromLogs(model, logs))
    {
      var skip := 0;
      while true
        invariant skip <= |logs|
        invariant Abs() == Feed(EveryDay(false), old(Abs()), FromLogs(model, logs[..skip]))
        decreases |logs| - skip
      {
        var end := Min(skip + LOG_PAGE_SIZE, |logs|);
        var page := logs[skip..end];
        assert logs[..end] == logs[..skip] + page;
        FromLogsConcat(model, logs[..skip], page);
        FeedConcat(EveryDay(false), old(Abs()), FromLogs(model, logs[..skip]), FromLogs(model, page));
        AddPage(model, page);
        if |page| < LOG_PAGE_SIZE { assert logs[..end] == logs; break; }
        skip := skip + LOG_PAGE_SIZE;
      }
    }

    method ScanModels(models: seq<ModelLogs>)
      modifies this
      ensures Abs() == Feed(EveryDay(false), old(Abs()), FromModels(models))
    {
      for i := 0 to |models|
        invariant Abs() == Feed(EveryDay(false), old(Abs()), FromModels(models[..i]))
      {
        assert models[..i + 1][..i] == models[..i];
        FeedConcat(EveryDay(false), old(Abs()), FromModels(models[..i]), FromLogs(models[i].key, models[i].logs));
        ScanModel(models[i].key, models[i].logs);
      }
      assert models[..|models|] == models;
    }
  }

  lemma FromLogsOne(model: string, logs: seq<Log>, log: Log)
    ensures FromLogs(model, logs + [log])
            == if log.createdOn.Some? then FromLogs(model, logs) + [LogContribution(model, log)]
                else FromLogs(model, logs)
  {
    assert (logs + [log])[..|logs|] == logs;
  }

  lemma {:induction false} FromLogsConcat(model: string, a: seq<Log>, b: seq<Log>)
    ensures FromLogs(model, a + b) == FromLogs(model, a) + FromLogs(model, b)
  {
    if b == [] {
      assert a + b == a;
    } else {
      assert (a + b)[..|a + b| - 1] == a + b[..|b| - 1];
      FromLogsConcat(model, a, b[..|b| - 1]);
    }
  }

  // ── the rows ──

  function DailyRow(id: BucketId, bucket: Bucket): Increment {
    Increment(RowKey(id.projectId, id.model, "", id.day), bucket.counters)
  }

  const DAILY_ROWS: RowOf := (id: BucketId, bucket: Bucket) => DailyRow(id, bucket)

  /** The whole plan of the logs. */
  function DailyFull(models: seq<ModelLogs>): seq<Increment> {
    FeedValid(EveryDay(false), FromModels(models));
    Increments(DAILY_ROWS, Feed(EveryDay(false), EMPTY, FromModels(models)))
  }

  /** Splits the rows: those to write, and those on days that already have rows. */
  method SplitRows(order: seq<BucketId>, at: map<BucketId, Bucket>, skipDays: set<nat>)
    returns (rows: seq<Increment>, skipped: seq<Increment>)
    requires forall id :: id in order ==> id in at
    ensures rows == Keep(IncrementsOf(DAILY_ROWS, order, at), None, None, skipDays)
    ensures skipped == Skipped(IncrementsOf(DAILY_ROWS, order, at), skipDays)
  {
    rows, skipped := [], [];
    for i := 0 to |order|
      invariant rows == Keep(IncrementsOf(DAILY_ROWS, order[..i], at), None, None, skipDays)
      invariant skipped == Skipped(IncrementsOf(DAILY_ROWS, order[..i], at), skipDays)
    {
      assert order[..i + 1][..i] == order[..i];
      var row := DailyRow(order[i], at[order[i]]);
      ghost var all := IncrementsOf(DAILY_ROWS, order[..i], at);
      assert IncrementsOf(DAILY_ROWS, order[..i + 1], at) == all + [row];
      assert (all + [row])[..|all|] == all;
      if row.key.day in skipDays { skipped := skipped + [row]; } else { rows := rows + [row]; }
    }
    assert order[..|order|] == order;
  }

  // ── the window is a day filter ──

  lemma FilterStep(model: string, log: Log, days: Days, t: Table, all: seq<Contribution>, all': seq<Contribution>,
                   kept: seq<Contribution>, kept': seq<Contribution>)
    requires !days.tokensOnly && days.skip == {}
    requires all' == if log.createdOn.Some? then all + [LogContribution(model, log)] else all
    requires kept' == if InWindow(log, days.from, days.to) then kept + [LogContribution(model, log)] else kept
    requires Feed(EveryDay(false), t, kept) == Feed(days, t, all)
    ensures Feed(EveryDay(false), t, kept') == Feed(days, t, all')
  {
    if log.createdOn.Some? {
      var c := LogContribution(model, log);
      FeedOne(days, t, all, c);
      FeedOne(EveryDay(false), t, kept, c);
    }
  }

  lemma {:induction false} WindowIsFilter(model: string, logs: seq<Log>, from: Option<nat>, to: Option<nat>, t: Table)
    ensures Feed(EveryDay(false), t, FromLogs(model, Window(logs, from, to)))
            == Feed(Days(from, to, {}, false), t, FromLogs(model, logs))
  {
    if logs != [] {
      var init, log := logs[..|logs| - 1], logs[|logs| - 1];
      WindowIsFilter(model, init, from, to, t);
      FromLogsOne(model, Window(init, from, to), log);
      FilterStep(model, log, Days(from, to, {}, false), t, FromLogs(model, init), FromLogs(model, logs),
                 FromLogs(model, Window(init, from, to)), FromLogs(model, Window(logs, from, to)));
    }
  }

  lemma {:induction false} WindowsAreFilter(models: seq<ModelLogs>, from: Option<nat>, to: Option<nat>)
    ensures Feed(EveryDay(false), EMPTY, FromModels(Windowed(models, from, to)))
            == Feed(Days(from, to, {}, false), EMPTY, FromModels(models))
  {
    if models != [] {
      var init, m := models[..|models| - 1], models[|models| - 1];
      WindowsAreFilter(init, from, to);
      var ws := Windowed(models, from, to);
      assert ws[..|ws| - 1] == Windowed(init, from, to);
      FeedConcat(EveryDay(false), EMPTY, FromModels(Windowed(init, from, to)),
                 FromLogs(m.key, Window(m.logs, from, to)));
      FeedConcat(Days(from, to, {}, false), EMPTY, FromModels(init), FromLogs(m.key, m.logs));
      WindowIsFilter(m.key, m.logs, from, to, Feed(Days(from, to, {}, false), EMPTY, FromModels(init)));
    }
  }

  lemma {:induction false} KeepTwice(full: seq<Increment>, from: Option<nat>, to: Option<nat>, skip: set<nat>)
    ensures Keep(Keep(full, from, to, {}), None, None, skip) == Keep(full, from, to, skip)
  {
    if full != [] {
      var init, last := full[..|full| - 1], full[|full| - 1];
      KeepTwice(init, from, to, skip);
      var kept := Keep(init, from, to, {});
      assert (kept + [last])[..|kept|] == kept;
    }
  }

  /** Aggregating the window and then dropping the skipped days is the plan of the rollup protocol. */
  lemma DailyPlan(models: seq<ModelLogs>, from: Option<nat>, to: Option<nat>, skip: set<nat>)
    ensures var t := Feed(EveryDay(false), EMPTY, FromModels(Windowed(models, from, to)));
            && t.Valid()
            && Keep(Increments(DAILY_ROWS, t), None, None, skip) == Keep(DailyFull(models), from, to, skip)
  {
    FeedValid(EveryDay(false), FromModels(Windowed(models, from, to)));
    WindowsAreFilter(models, from, to);
    RunPlanIsKeep(DAILY_ROWS, Days(from, to, {}, false), FromModels(models));
    KeepTwice(DailyFull(models), from, to, skip);
  }

  /** One whole non-force run; with `DailyPlan` every result about the rollup protocol holds for it. */
  method BackfillDaily(models: seq<ModelLogs>, table: UsageTable, cfg: Config, listed: set<RowKey>)
    requires IsListing(table.rows, cfg, listed)
    modifies table
    ensures table.rows == Execute(old(table.rows), DailyFull(models), Run(cfg, listed))
  {
    var skipDays := set key | key in listed :: key.day;
    var a := new DailyAggregator();
    a.ScanModels(Windowed(models, cfg.from, cfg.to));
    DailyPlan(models, cfg.from, cfg.to, skipDays);
    var rows, skipped := SplitRows(a.order, a.at, skipDays);
    table.WriteChunks(rows, cfg.chunks);
  }

  /** The log belongs to the row: its day, its project, and the model it was listed under. */
  predicate BookedIn(model: string, log: Log, key: RowKey) {
    log.createdOn == Some(key.day) && log.projectId == key.projectId && model == key.refKey && key.agentKey == ""
  }

  /** What a log adds to a counter, field by field. */
  function LogField(log: Log, f: Field): nat {
    match f
    case Requests => 1
    case Errors => if log.isError then 1 else 0
    case Input => log.input
    case Output => log.output
    case CachedInput => log.cachedInput
    case CachedWrite => log.cachedWrite
    case Total => log.total
    case Cost => log.cost
    case LatencySum => if log.latency == None then 0 else log.latency.value
    case LatencyCount => if log.latency == None then 0 else 1
  }

  /** The true sum of a row, told from the logs: every dated log of the project, model and day. */
  function LogSum(model: string, logs: seq<Log>, key: RowKey, f: Field): nat {
    if logs == [] then 0
    else
      var log := logs[|logs| - 1];
      LogSum(model, logs[..|logs| - 1], key, f)
        + if BookedIn(model, log, key) then LogField(log, f) else 0
  }

  function ModelsSum(models: seq<ModelLogs>, key: RowKey, f: Field): nat {
    if models == [] then 0
    else ModelsSum(models[..|models| - 1], key, f) + LogSum(models[|models| - 1].key, models[|models| - 1].logs, key, f)
  }

  lemma {:induction false} ContributedConcat(a: seq<Contribution>, b: seq<Contribution>, id: BucketId, f: Field)
    ensures Contributed(a + b, false, id, f) == Contributed(a, false, id, f) + Contributed(b, false, id, f)
  {
    if b == [] {
      assert a + b == a;
    } else {
      assert (a + b)[..|a + b| - 1] == a + b[..|b| - 1];
      ContributedConcat(a, b[..|b| - 1], id, f);
    }
  }

  lemma LogContributes(cs: seq<Contribution>, cs': seq<Contribution>, model: string, log: Log, key: RowKey, f: Field,
                       id: BucketId)
    requires key.agentKey == "" && id == BucketId(key.projectId, "", key.refKey, key.day)
    requires cs' == if log.createdOn.Some? then cs + [LogContribution(model, log)] else cs
    ensures Contributed(cs', false, id, f)
            == Contributed(cs, false, id, f) + if BookedIn(model, log, key) then LogField(log, f) else 0
  {
    if log.createdOn.Some? {
      var c := LogContribution(model, log);
      ContributedOne(cs, c, false, id, f);
      assert c.id == id <==> BookedIn(model, log, key);
    }
  }

  lemma {:induction false} LogsContribute(model: string, logs: seq<Log>, key: RowKey, f: Field, id: BucketId)
    requires key.agentKey == "" && id == BucketId(key.projectId, "", key.refKey, key.day)
    ensures Contributed(FromLogs(model, logs), false, id, f) == LogSum(model, logs, key, f)
  {
    if logs != [] {
      var init, log := logs[..|logs| - 1], logs[|logs| - 1];
      LogsContribute(model, init, key, f, id);
      LogContributes(FromLogs(model, init), FromLogs(model, logs), model, log, key, f, id);
    }
  }

  lemma {:induction false} ModelsContribute(models: seq<ModelLogs>, key: RowKey, f: Field)
    requires key.agentKey == ""
    ensures Contributed(FromModels(models), false, BucketId(key.projectId, "", key.refKey, key.day), f)
            == ModelsSum(models, key, f)
  {
    if models != [] {
      var init, m := models[..|models| - 1], models[|models| - 1];
      ModelsContribute(init, key, f);
      LogsContribute(m.key, m.logs, key, f, BucketId(key.projectId, "", key.refKey, key.day));
      ContributedConcat(FromModels(init), FromLogs(m.key, m.logs), BucketId(key.projectId, "", key.refKey, key.day), f);
    }
  }

  /** The bucket's row is the only one booked under its key. */
  lemma {:induction false} DailySum(order: seq<BucketId>, at: map<BucketId, Bucket>, key: RowKey, f: Field)
    requires forall id :: id in order ==> id in at && id.agentKey == ""
    requires forall i, j :: 0 <= i < j < |order| ==> order[i] != order[j]
    requires key.agentKey == ""
    ensures var id := BucketId(key.projectId, "", key.refKey, key.day);
            Sum(IncrementsOf(DAILY_ROWS, order, at), key, f) == if id in order then at[id].counters.Get(f) else 0
  {
    if order != [] {
      var init, last := order[..|order| - 1], order[|order| - 1];
      DailySum(init, at, key, f);
      var all, row := IncrementsOf(DAILY_ROWS, init, at), DailyRow(last, at[last]);
      assert (all + [row])[..|all|] == all;
      assert order == init + [last] && last !in init;
    }
  }

  lemma {:induction false} DailyIdsHaveNoAgent(cs: seq<Contribution>)
    requires forall c :: c in cs ==> c.id.agentKey == ""
    ensures forall id :: id in Feed(EveryDay(false), EMPTY, cs).order ==> id.agentKey == ""
  {
    if cs != [] {
      assert cs[|cs| - 1] in cs;
      DailyIdsHaveNoAgent(cs[..|cs| - 1]);
    }
  }

  lemma {:induction false} LogsHaveNoAgent(model: string, logs: seq<Log>)
    ensures forall c :: c in FromLogs(model, logs) ==> c.id.agentKey == ""
  {
    if logs != [] { LogsHaveNoAgent(model, logs[..|logs| - 1]); }
  }

  lemma {:induction false} ModelsHaveNoAgent(models: seq<ModelLogs>)
    ensures forall c :: c in FromModels(models) ==> c.id.agentKey == ""
  {
    if models != [] {
      ModelsHaveNoAgent(models[..|models| - 1]);
      LogsHaveNoAgent(models[|models| - 1].key, models[|models| - 1].logs);
    }
  }

  /** A planned row is exactly the sum of the dated logs of its project, model and day, in every counter. */
  lemma DailyFullIsTrueSum(models: seq<ModelLogs>, key: RowKey, f: Field)
    requires key.agentKey == ""
    ensures Sum(DailyFull(models), key, f) == ModelsSum(models, key, f)
  {
    var cs := FromModels(models);
    var t := Feed(EveryDay(false), EMPTY, cs);
    FeedValid(EveryDay(false), cs);
    ModelsHaveNoAgent(models);
    DailyIdsHaveNoAgent(cs);
    DailySum(t.order, t.at, key, f);
    BucketsAreSums(EveryDay(false), cs, BucketId(key.projectId, "", key.refKey, key.day), f);
    ModelsContribute(models, key, f);
  }

  /** So one uncut run from an empty rollup stores, in every counter, exactly what the logs of its range add up to. */
  lemma DailyBackfillIsExact(models: seq<ModelLogs>, run: Run, key: RowKey, f: Field)
    requires key.agentKey == "" && Listed(map[], run) && Uncut(DailyFull(models), run)
    requires run.cfg.from == None || run.cfg.from.value <= key.day
    requires run.cfg.to == None || key.day <= run.cfg.to.value
    ensures Stored(Execute(map[], DailyFull(models), run), key, f) == ModelsSum(models, key, f)
  {
    RangeIsInclusive(DailyFull(models), run, key, f);
    DailyFullIsTrueSum(models, key, f);
  }
}

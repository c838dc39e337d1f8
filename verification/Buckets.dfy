/**
 * Keyed aggregation of usage into buckets, in the order the keys first appear (a
 * JavaScript Map), and the increments made of them. Shared by both usage backfills.
 */
module Buckets {
  import opened Options
  import opened Rollup

  datatype BucketId = BucketId(projectId: string, agentKey: string, model: string, day: nat)

  /** The name as first seen, and the running counters. */
  datatype Bucket = Bucket(name: string, counters: Counters)

  datatype Contribution = Contribution(id: BucketId, name: string, counters: Counters)

  datatype Table = Table(order: seq<BucketId>, at: map<BucketId, Bucket>) {
    ghost predicate Valid() {
      && (forall id :: id in order <==> id in at)
      && forall i, j :: 0 <= i < j < |order| ==> order[i] != order[j]
    }
  }

  const EMPTY := Table([], map[])

  function AddTo(t: Table, c: Contribution): Table {
    if c.id in t.at then t.(at := t.at[c.id := t.at[c.id].(counters := t.at[c.id].counters.Plus(c.counters))])
    else Table(t.order + [c.id], t.at[c.id := Bucket(c.name, c.counters)])
  }

  /** Which days an aggregation looks at, and whether it drops usage without a single token. */
  datatype Days = Days(from: Option<nat>, to: Option<nat>, skip: set<nat>, tokensOnly: bool) {
    predicate Wants(day: nat) {
      InRange(day, from, to) && day !in skip
    }
  }

  function EveryDay(tokensOnly: bool): Days {
    Days(None, None, {}, tokensOnly)
  }

  predicate Counts(c: Contribution, tokensOnly: bool) {
    tokensOnly ==> !(c.counters.input == 0 && c.counters.output == 0 && c.counters.cachedInput == 0)
  }

  function Feed(days: Days, t: Table, cs: seq<Contribution>): Table {
    if cs == [] then t
    else
      var rest := Feed(days, t, cs[..|cs| - 1]);
      var c := cs[|cs| - 1];
      if days.Wants(c.id.day) && Counts(c, days.tokensOnly) then AddTo(rest, c) else rest
  }

  lemma FeedOne(days: Days, t: Table, cs: seq<Contribution>, c: Contribution)
    ensures Feed(days, t, cs + [c])
            == if days.Wants(c.id.day) && Counts(c, days.tokensOnly) then AddTo(Feed(days, t, cs), c)
                else Feed(days, t, cs)
  {
    assert (cs + [c])[..|cs|] == cs;
  }

  lemma {:induction false} FeedConcat(days: Days, t: Table, a: seq<Contribution>, b: seq<Contribution>)
    ensures Feed(days, t, a + b) == Feed(days, Feed(days, t, a), b)
  {
    if b == [] {
      assert a + b == a;
    } else {
      assert (a + b)[..|a + b| - 1] == a + b[..|b| - 1];
      FeedConcat(days, t, a, b[..|b| - 1]);
    }
  }

  lemma FeedSplit(days: Days, t: Table, all: seq<Contribution>, a: seq<Contribution>, b: seq<Contribution>)
    requires all == a + b
    ensures Feed(days, t, all) == Feed(days, Feed(days, t, a), b)
  {
    FeedConcat(days, t, a, b);
  }

  lemma FeedSingle(days: Days, t: Table, cs: seq<Contribution>)
    requires |cs| == 1
    ensures Feed(days, t, cs)
            == if days.Wants(cs[0].id.day) && Counts(cs[0], days.tokensOnly) then AddTo(t, cs[0]) else t
  {
    assert cs[..0] == [];
  }

  lemma {:induction false} FeedValid(days: Days, cs: seq<Contribution>)
    ensures Feed(days, EMPTY, cs).Valid()
  {
    if cs != [] { FeedValid(days, cs[..|cs| - 1]); }
  }

  // ── what a bucket holds ──

  function Contributed(cs: seq<Contribution>, tokensOnly: bool, id: BucketId, f: Field): nat {
    if cs == [] then 0
    else
      var c := cs[|cs| - 1];
      Contributed(cs[..|cs| - 1], tokensOnly, id, f)
          + if c.id == id && Counts(c, tokensOnly) then c.counters.Get(f) else 0
  }

  lemma ContributedOne(cs: seq<Contribution>, c: Contribution, tokensOnly: bool, id: BucketId, f: Field)
    ensures Contributed(cs + [c], tokensOnly, id, f)
            == Contributed(cs, tokensOnly, id, f) + if c.id == id && Counts(c, tokensOnly) then c.counters.Get(f) else 0
  {
    assert (cs + [c])[..|cs|] == cs;
  }

  function BucketField(t: Table, id: BucketId, f: Field): nat {
    if id in t.at then t.at[id].counters.Get(f) else 0
  }

  /** Each bucket is the sum of the contributions with its key, on the days that are wanted. */
  lemma {:induction false} BucketsAreSums(days: Days, cs: seq<Contribution>, id: BucketId, f: Field)
    ensures BucketField(Feed(days, EMPTY, cs), id, f)
            == if days.Wants(id.day) then Contributed(cs, days.tokensOnly, id, f) else 0
  {
    if cs != [] {
      BucketsAreSums(days, cs[..|cs| - 1], id, f);
    }
  }

  /** A bucket goes by the name it was first seen with. */
  lemma {:induction false} NameIsFirst(days: Days, cs: seq<Contribution>, i: nat)
    requires i < |cs| && days.Wants(cs[i].id.day) && Counts(cs[i], days.tokensOnly)
    requires forall j :: 0 <= j < i && cs[j].id == cs[i].id ==> !Counts(cs[j], days.tokensOnly)
    ensures var t := Feed(days, EMPTY, cs);
            cs[i].id in t.at && t.at[cs[i].id].name == cs[i].name
  {
    var n := |cs| - 1;
    if i < n {
      NameIsFirst(days, cs[..n], i);
    } else {
      NotYetSeen(days, cs[..n], cs[i].id);
    }
  }

  lemma {:induction false} NotYetSeen(days: Days, cs: seq<Contribution>, id: BucketId)
    requires forall j :: 0 <= j < |cs| && cs[j].id == id ==> !Counts(cs[j], days.tokensOnly)
    ensures id !in Feed(days, EMPTY, cs).at
  {
    if cs != [] { NotYetSeen(days, cs[..|cs| - 1], id); }
  }

  // ── leaving days out before or after aggregating ──

  function KeepIds(days: Days, order: seq<BucketId>): seq<BucketId> {
    if order == [] then []
    else
      var rest := KeepIds(days, order[..|order| - 1]);
      var id := order[|order| - 1];
      if days.Wants(id.day) then rest + [id] else rest
  }

  function Restrict(days: Days, t: Table): Table {
    Table(KeepIds(days, t.order), map id | id in t.at && days.Wants(id.day) :: t.at[id])
  }

  lemma RestrictAdd(days: Days, t: Table, c: Contribution)
    ensures Restrict(days, AddTo(t, c))
            == if days.Wants(c.id.day) then AddTo(Restrict(days, t), c) else Restrict(days, t)
  {
    if c.id !in t.at {
      assert (t.order + [c.id])[..|t.order|] == t.order;
    }
    if days.Wants(c.id.day) {
      assert Restrict(days, AddTo(t, c)).at == AddTo(Restrict(days, t), c).at;
    } else {
      assert Restrict(days, AddTo(t, c)).at == Restrict(days, t).at;
    }
  }

  /** Skipping days while aggregating gives the same table, order and names included, as dropping them afterwards. */
  lemma {:induction false} SkipThenAggregate(days: Days, cs: seq<Contribution>)
    ensures Feed(days, EMPTY, cs) == Restrict(days, Feed(EveryDay(days.tokensOnly), EMPTY, cs))
  {
    if cs != [] {
      var init, c := cs[..|cs| - 1], cs[|cs| - 1];
      SkipThenAggregate(days, init);
      if Counts(c, days.tokensOnly) { RestrictAdd(days, Feed(EveryDay(days.tokensOnly), EMPTY, init), c); }
    }
  }

  // ── increments ──

  type RowOf = (BucketId, Bucket) -> Increment

  ghost predicate KeepsDay(rowOf: RowOf) {
    forall id, bucket :: rowOf(id, bucket).key.day == id.day
  }

  function IncrementsOf(rowOf: RowOf, order: seq<BucketId>, at: map<BucketId, Bucket>): seq<Increment>
    requires forall id :: id in order ==> id in at
  {
    if order == [] then []
    else IncrementsOf(rowOf, order[..|order| - 1], at) + [rowOf(order[|order| - 1], at[order[|order| - 1]])]
  }

  lemma IncrementsSingle(rowOf: RowOf, order: seq<BucketId>, at: map<BucketId, Bucket>)
    requires |order| == 1 && order[0] in at
    ensures IncrementsOf(rowOf, order, at) == [rowOf(order[0], at[order[0]])]
  {
    assert order[..0] == [];
    assert IncrementsOf(rowOf, order[..0], at) == [];
  }

  /** The rows in bucket order, made of the buckets of the table. */
  function Increments(rowOf: RowOf, t: Table): seq<Increment>
    requires t.Valid()
  {
    IncrementsOf(rowOf, t.order, t.at)
  }

  /** A single contribution makes a single row. */
  lemma SinglePlan(rowOf: RowOf, cs: seq<Contribution>, tokensOnly: bool)
    requires |cs| == 1 && Counts(cs[0], tokensOnly)
    ensures var t := Feed(EveryDay(tokensOnly), EMPTY, cs);
            t.Valid() && Increments(rowOf, t) == [rowOf(cs[0].id, Bucket(cs[0].name, cs[0].counters))]
  {
    var c := cs[0];
    FeedValid(EveryDay(tokensOnly), cs);
    FeedSingle(EveryDay(tokensOnly), EMPTY, cs);
    var t := AddTo(EMPTY, c);
    assert t.order == [c.id];
    IncrementsSingle(rowOf, t.order, t.at);
  }

  lemma {:induction false} KeptIds(days: Days, order: seq<BucketId>)
    ensures forall id :: id in KeepIds(days, order) ==> id in order && days.Wants(id.day)
  {
    if order != [] { KeptIds(days, order[..|order| - 1]); }
  }

  lemma {:induction false} IncrementsOfKept(rowOf: RowOf, days: Days, order: seq<BucketId>, at: map<BucketId, Bucket>,
                                            kept: map<BucketId, Bucket>)
    requires KeepsDay(rowOf)
    requires forall id :: id in order ==> id in at
    requires forall id :: id in order && days.Wants(id.day) ==> id in kept && kept[id] == at[id]
    requires forall id :: id in KeepIds(days, order) ==> id in kept
    ensures IncrementsOf(rowOf, KeepIds(days, order), kept)
            == Keep(IncrementsOf(rowOf, order, at), days.from, days.to, days.skip)
  {
    if order != [] {
      var init, id := order[..|order| - 1], order[|order| - 1];
      KeptIds(days, init);
      IncrementsOfKept(rowOf, days, init, at, kept);
      var all, row := IncrementsOf(rowOf, init, at), rowOf(id, at[id]);
      assert (all + [row])[..|all|] == all;
      assert row.key.day == id.day;
      if days.Wants(id.day) {
        var ids := KeepIds(days, init);
        assert (ids + [id])[..|ids|] == ids;
        assert IncrementsOf(rowOf, ids + [id], kept) == IncrementsOf(rowOf, ids, kept) + [row];
      }
    }
  }

  /** The increments of a run are the full plan cut down to the run's days: what the rollup protocol starts from. */
  lemma RunPlanIsKeep(rowOf: RowOf, days: Days, cs: seq<Contribution>)
    requires KeepsDay(rowOf)
    ensures Feed(days, EMPTY, cs).Valid() && Feed(EveryDay(days.tokensOnly), EMPTY, cs).Valid()
    ensures Increments(rowOf, Feed(days, EMPTY, cs))
            == Keep(Increments(rowOf, Feed(EveryDay(days.tokensOnly), EMPTY, cs)), days.from, days.to, days.skip)
  {
    FeedValid(days, cs);
    FeedValid(EveryDay(days.tokensOnly), cs);
    SkipThenAggregate(days, cs);
    var t := Feed(EveryDay(days.tokensOnly), EMPTY, cs);
    KeptIds(days, t.order);
    IncrementsOfKept(rowOf, days, t.order, t.at, Restrict(days, t).at);
  }

  // ── conservation ──

  /** What was contributed under the selected keys. */
  function TotalContributed(cs: seq<Contribution>, tokensOnly: bool, select: BucketId -> bool, f: Field): nat {
    if cs == [] then 0
    else
      var c := cs[|cs| - 1];
      TotalContributed(cs[..|cs| - 1], tokensOnly, select, f)
        + if select(c.id) && Counts(c, tokensOnly) then c.counters.Get(f) else 0
  }

  /** What the selected buckets hold. */
  function TotalBuckets(order: seq<BucketId>, at: map<BucketId, Bucket>, select: BucketId -> bool, f: Field): nat {
    if order == [] then 0
    else
      var id := order[|order| - 1];
      TotalBuckets(order[..|order| - 1], at, select, f) + if id in at && select(id) then at[id].counters.Get(f) else 0
  }

  lemma {:induction false} TotalElsewhere(order: seq<BucketId>, at: map<BucketId, Bucket>, select: BucketId -> bool,
                                          f: Field, id: BucketId, bucket: Bucket)
    requires id !in order
    ensures TotalBuckets(order, at[id := bucket], select, f) == TotalBuckets(order, at, select, f)
  {
    if order != [] { TotalElsewhere(order[..|order| - 1], at, select, f, id, bucket); }
  }

  lemma {:induction false} TotalAfterRaise(order: seq<BucketId>, at: map<BucketId, Bucket>, select: BucketId -> bool,
                                           f: Field, id: BucketId, bucket: Bucket, more: nat)
    requires forall i, j :: 0 <= i < j < |order| ==> order[i] != order[j]
    requires id in order && id in at && bucket.counters.Get(f) == at[id].counters.Get(f) + more
    ensures TotalBuckets(order, at[id := bucket], select, f)
            == TotalBuckets(order, at, select, f) + if select(id) then more else 0
  {
    var init, last := order[..|order| - 1], order[|order| - 1];
    if last == id {
      assert id !in init;
      TotalElsewhere(init, at, select, f, id, bucket);
    } else {
      TotalAfterRaise(init, at, select, f, id, bucket, more);
    }
  }

  lemma AddConserves(t: Table, c: Contribution, select: BucketId -> bool, f: Field)
    requires t.Valid()
    ensures var t' := AddTo(t, c);
            TotalBuckets(t'.order, t'.at, select, f)
            == TotalBuckets(t.order, t.at, select, f) + if select(c.id) then c.counters.Get(f) else 0
  {
    if c.id in t.at {
      var bucket := t.at[c.id].(counters := t.at[c.id].counters.Plus(c.counters));
      TotalAfterRaise(t.order, t.at, select, f, c.id, bucket, c.counters.Get(f));
    } else {
      TotalElsewhere(t.order, t.at, select, f, c.id, Bucket(c.name, c.counters));
      assert (t.order + [c.id])[..|t.order|] == t.order;
    }
  }

  /** Nothing is lost or invented by aggregation: under any choice of keys, the buckets hold what was contributed. */
  lemma {:induction false} AggregationConserves(cs: seq<Contribution>, tokensOnly: bool, select: BucketId -> bool,
                                                f: Field)
    ensures var t := Feed(EveryDay(tokensOnly), EMPTY, cs);
            TotalBuckets(t.order, t.at, select, f) == TotalContributed(cs, tokensOnly, select, f)
  {
    if cs != [] {
      var init := cs[..|cs| - 1];
      AggregationConserves(init, tokensOnly, select, f);
      FeedValid(EveryDay(tokensOnly), init);
      AddConserves(Feed(EveryDay(tokensOnly), EMPTY, init), cs[|cs| - 1], select, f);
    }
  }

  /** One counter of a plan, added up over some of its rows. */
  function RowsTotal(incs: seq<Increment>, keep: RowKey -> bool, f: Field): nat {
    if incs == [] then 0
    else
      var last := incs[|incs| - 1];
      RowsTotal(incs[..|incs| - 1], keep, f) + if keep(last.key) then last.counters.Get(f) else 0
  }

  lemma RowsTotalOne(incs: seq<Increment>, last: Increment, keep: RowKey -> bool, f: Field)
    ensures RowsTotal(incs + [last], keep, f)
            == RowsTotal(incs, keep, f) + if keep(last.key) then last.counters.Get(f) else 0
  {
    assert (incs + [last])[..|incs|] == incs;
  }

  /** The rows kept are those of the buckets selected. */
  ghost predicate KeepsSelected(rowOf: RowOf, keep: RowKey -> bool, select: BucketId -> bool) {
    forall id, bucket :: keep(rowOf(id, bucket).key) == select(id)
  }

  lemma {:induction false} RowsTotalOfBuckets(rowOf: RowOf, order: seq<BucketId>, at: map<BucketId, Bucket>,
                                              keep: RowKey -> bool, select: BucketId -> bool, f: Field)
    requires KeepsSelected(rowOf, keep, select) && KeepsField(rowOf, f)
    requires forall id :: id in order ==> id in at
    ensures RowsTotal(IncrementsOf(rowOf, order, at), keep, f) == TotalBuckets(order, at, select, f)
  {
    if order != [] {
      var init, id := order[..|order| - 1], order[|order| - 1];
      RowsTotalOfBuckets(rowOf, init, at, keep, select, f);
      RowsTotalOne(IncrementsOf(rowOf, init, at), rowOf(id, at[id]), keep, f);
    }
  }

  /** Planned rows carry exactly what was contributed to their buckets. */
  lemma RowsTotalIsContributed(rowOf: RowOf, cs: seq<Contribution>, tokensOnly: bool, keep: RowKey -> bool,
                               select: BucketId -> bool, f: Field)
    requires KeepsSelected(rowOf, keep, select) && KeepsField(rowOf, f)
    ensures var t := Feed(EveryDay(tokensOnly), EMPTY, cs);
            && t.Valid()
            && RowsTotal(Increments(rowOf, t), keep, f) == TotalContributed(cs, tokensOnly, select, f)
  {
    FeedValid(EveryDay(tokensOnly), cs);
    var t := Feed(EveryDay(tokensOnly), EMPTY, cs);
    RowsTotalOfBuckets(rowOf, t.order, t.at, keep, select, f);
    AggregationConserves(cs, tokensOnly, select, f);
  }

  function OnDayOnly(day: nat): BucketId -> bool {
    (id: BucketId) => id.day == day
  }

  /** One counter of a plan, added up over the rows of a day. */
  function DayTotal(incs: seq<Increment>, day: nat, f: Field): nat {
    if incs == [] then 0
    else
      var last := incs[|incs| - 1];
      DayTotal(incs[..|incs| - 1], day, f) + if last.key.day == day then last.counters.Get(f) else 0
  }

  lemma {:induction false} DayTotalOfRows(rowOf: RowOf, order: seq<BucketId>, at: map<BucketId, Bucket>, day: nat,
                                          f: Field)
    requires KeepsDay(rowOf) && KeepsField(rowOf, f)
    requires forall id :: id in order ==> id in at
    ensures DayTotal(IncrementsOf(rowOf, order, at), day, f) == TotalBuckets(order, at, OnDayOnly(day), f)
  {
    if order != [] {
      var init, id := order[..|order| - 1], order[|order| - 1];
      DayTotalOfRows(rowOf, init, at, day, f);
      var all, row := IncrementsOf(rowOf, init, at), rowOf(id, at[id]);
      assert (all + [row])[..|all|] == all;
      assert row.key.day == id.day;
    }
  }

  /** A day's rows carry exactly what was contributed on that day. */
  lemma DayTotalIsContributed(rowOf: RowOf, cs: seq<Contribution>, tokensOnly: bool, day: nat, f: Field)
    requires KeepsDay(rowOf) && KeepsField(rowOf, f)
    ensures var t := Feed(EveryDay(tokensOnly), EMPTY, cs);
            && t.Valid()
            && DayTotal(Increments(rowOf, t), day, f) == TotalContributed(cs, tokensOnly, OnDayOnly(day), f)
  {
    FeedValid(EveryDay(tokensOnly), cs);
    var t := Feed(EveryDay(tokensOnly), EMPTY, cs);
    DayTotalOfRows(rowOf, t.order, t.at, day, f);
    AggregationConserves(cs, tokensOnly, OnDayOnly(day), f);
  }

  /** A row keeps the field of its bucket as it is. */
  ghost predicate KeepsField(rowOf: RowOf, f: Field) {
    forall id, bucket :: rowOf(id, bucket).counters.Get(f) == bucket.counters.Get(f)
  }

  /** The bucket is booked under this row of the rollup. */
  predicate BookedUnder(rowOf: RowOf, at: map<BucketId, Bucket>, key: RowKey, id: BucketId) {
    id in at && rowOf(id, at[id]).key == key
  }

  lemma {:induction false} SumOfIncrements(rowOf: RowOf, order: seq<BucketId>, at: map<BucketId, Bucket>, key: RowKey,
                                           f: Field)
    requires KeepsField(rowOf, f)
    requires forall id :: id in order ==> id in at
    ensures Sum(IncrementsOf(rowOf, order, at), key, f)
            == TotalBuckets(order, at, id => BookedUnder(rowOf, at, key, id), f)
  {
    if order != [] {
      var init, id := order[..|order| - 1], order[|order| - 1];
      SumOfIncrements(rowOf, init, at, key, f);
      var all, row := IncrementsOf(rowOf, init, at), rowOf(id, at[id]);
      assert (all + [row])[..|all|] == all;
    }
  }

  /** The true sum of a rollup row, told without buckets: every contribution whose bucket is booked under it. */
  lemma PlanIsTrueSum(rowOf: RowOf, cs: seq<Contribution>, tokensOnly: bool, key: RowKey, f: Field)
    requires KeepsField(rowOf, f)
    ensures var t := Feed(EveryDay(tokensOnly), EMPTY, cs);
            && t.Valid()
            && Sum(Increments(rowOf, t), key, f)
               == TotalContributed(cs, tokensOnly, id => BookedUnder(rowOf, t.at, key, id), f)
  {
    FeedValid(EveryDay(tokensOnly), cs);
    var t := Feed(EveryDay(tokensOnly), EMPTY, cs);
    SumOfIncrements(rowOf, t.order, t.at, key, f);
    AggregationConserves(cs, tokensOnly, id => BookedUnder(rowOf, t.at, key, id), f);
  }
}

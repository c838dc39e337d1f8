/**
 * The census of stored project assignments (scripts/iam/preflight/census.ts): how
 * many carry levels, how many of those narrow someone, and how many would once
 * they are saved again.
 */
module Census {
  import opened Options
  import opened Levels
  import opened Rbac
  import opened Projects
  import opened Oracle
  import opened Memberships

  /** People, group memberships, groups, and the assignment rows stored per user id. */
  datatype Directory = Directory(
    users: map<string, Grant>,
    memberOf: map<string, seq<string>>,
    groups: map<string, Grant>,
    rows: seq<UserRows>)

  datatype UserRows = UserRows(userId: string, rows: seq<Row>)

  function GrantsFor(d: Directory, userId: string): seq<Grant> {
    GrantsOf(if userId in d.memberOf then d.memberOf[userId] else [], d.groups)
  }

  function LevelIn(cat: Catalog, d: Directory, userId: string, service: string): Level {
    if userId in d.users then WorkspaceLevel(cat, d.users[userId], GrantsFor(d, userId), service) else NoAccess
  }

  /** Some named level is below the person's workspace level. */
  predicate NarrowsAnyone(cat: Catalog, d: Directory, userId: string, levels: LevelMap) {
    exists s :: s in levels && Rank(levels[s]) < Rank(LevelIn(cat, d, userId, s))
  }

  predicate OnPrivileged(d: Directory, userId: string) {
    (userId in d.users && IsPrivileged(d.users[userId].role))
    || exists g :: g in GrantsFor(d, userId) && IsPrivileged(g.role)
  }

  /** The groups behind a person's level are those the directory lists them in. */
  lemma GrantsForAre(d: Directory, userId: string, g: Grant)
    ensures g in GrantsFor(d, userId) <==>
              && userId in d.memberOf
              && (g.role != "" || (g.levels.Object? && g.levels.entries != map[]))
              && exists i :: 0 <= i < |d.memberOf[userId]| && d.memberOf[userId][i] in d.groups
                             && d.groups[d.memberOf[userId][i]] == g
  {
    GrantsAre(if userId in d.memberOf then d.memberOf[userId] else [], d.groups, g);
  }

  // ── the counters ──

  /** What the loop body reads off one row. */
  datatype Facts = Facts(hasLevels: bool, ignored: nat, privileged: bool, narrows: bool, narrowsStored: bool) {
    predicate CountsAsNarrowing() {
      hasLevels && !privileged && narrows
    }

    predicate CountsAsResaved() {
      hasLevels && !privileged && ignored > 0 && narrowsStored
    }
  }

  function FactsOf(cat: Catalog, d: Directory, userId: string, row: Row, since: int): Facts {
    var stored := Normalize(cat, row.stored);
    Facts(stored.Keys != {}, |IgnoredNone(cat, row, since)|, OnPrivileged(d, userId),
          NarrowsAnyone(cat, d, userId, RowLevels(cat, row, since)), NarrowsAnyone(cat, d, userId, stored))
  }

  datatype Counts = Counts(rows: nat, withLevels: nat, narrowing: nat, noOp: nat, onPrivileged: nat,
                           ignoredRows: nat, ignoredEntries: nat, ifResaved: nat)

  /** The counters after one row. */
  function Tally(c: Counts, f: Facts): Counts {
    Counts(c.rows + 1,
           c.withLevels + One(f.hasLevels),
           c.narrowing + One(f.CountsAsNarrowing()),
           c.noOp + One(f.hasLevels && !f.privileged && !f.narrows),
           c.onPrivileged + One(f.hasLevels && f.privileged),
           c.ignoredRows + One(f.hasLevels && f.ignored > 0),
           c.ignoredEntries + (if f.hasLevels then f.ignored else 0),
           c.ifResaved + One(f.CountsAsResaved()))
  }

  function TallyRows(c: Counts, cat: Catalog, d: Directory, userId: string, rows: seq<Row>, since: int): Counts {
    if rows == [] then c
    else Tally(TallyRows(c, cat, d, userId, rows[..|rows| - 1], since),
               FactsOf(cat, d, userId, rows[|rows| - 1], since))
  }

  function TallyUsers(c: Counts, cat: Catalog, d: Directory, users: seq<UserRows>, since: int): Counts {
    if users == [] then c
    else
      var last := users[|users| - 1];
      TallyRows(TallyUsers(c, cat, d, users[..|users| - 1], since), cat, d, last.userId, last.rows, since)
  }

  /** One pass of the loop body, branch by branch. */
  method CountRow(c: Counts, f: Facts) returns (c': Counts)
    ensures c' == Tally(c, f)
  {
    c' := c.(rows := c.rows + 1);
    if !f.hasLevels { return; }
    c' := c'.(withLevels := c'.withLevels + 1);
    if f.ignored > 0 {
      c' := c'.(ignoredRows := c'.ignoredRows + 1, ignoredEntries := c'.ignoredEntries + f.ignored);
    }
    if f.privileged {
      c' := c'.(onPrivileged := c'.onPrivileged + 1);
      return;
    }
    if f.narrows { c' := c'.(narrowing := c'.narrowing + 1); } else { c' := c'.(noOp := c'.noOp + 1); }
    if f.ignored > 0 && f.narrowsStored { c' := c'.(ifResaved := c'.ifResaved + 1); }
  }

  method CountRows(start: Counts, cat: Catalog, d: Directory, userId: string, rows: seq<Row>, since: int)
    returns (c: Counts)
    ensures c == TallyRows(start, cat, d, userId, rows, since)
  {
    c := start;
    for i := 0 to |rows|
      invariant c == TallyRows(start, cat, d, userId, rows[..i], since)
    {
      assert rows[..i + 1][..i] == rows[..i];
      var f := FactsOf(cat, d, userId, rows[i], since);
      c := CountRow(c, f);
    }
    assert rows[..|rows|] == rows;
  }

  method BuildCensus(cat: Catalog, d: Directory, since: int) returns (c: Counts)
    ensures c == TallyUsers(Counts(0, 0, 0, 0, 0, 0, 0, 0), cat, d, d.rows, since)
    ensures Balanced(c)
  {
    c := Counts(0, 0, 0, 0, 0, 0, 0, 0);
    ghost var start := c;
    for i := 0 to |d.rows|
      invariant c == TallyUsers(start, cat, d, d.rows[..i], since)
    {
      assert d.rows[..i + 1][..i] == d.rows[..i];
      c := CountRows(c, cat, d, d.rows[i].userId, d.rows[i].rows, since);
    }
    assert d.rows[..|d.rows|] == d.rows;
    CensusBalances(start, cat, d, d.rows, since);
  }

  // ── the counts balance ──

  predicate Balanced(c: Counts) {
    && c.withLevels == c.onPrivileged + c.narrowing + c.noOp
    && c.ifResaved <= c.ignoredRows <= c.withLevels <= c.rows
    && c.ignoredRows <= c.ignoredEntries
    && (c.ignoredRows == 0 ==> c.ignoredEntries == 0)
  }

  lemma {:induction false} RowsKeepBalance(c: Counts, cat: Catalog, d: Directory, userId: string, rows: seq<Row>,
                                           since: int)
    requires Balanced(c)
    ensures Balanced(TallyRows(c, cat, d, userId, rows, since))
  {
    if rows != [] {
      RowsKeepBalance(c, cat, d, userId, rows[..|rows| - 1], since);
      TallyKeepsBalance(TallyRows(c, cat, d, userId, rows[..|rows| - 1], since),
                        FactsOf(cat, d, userId, rows[|rows| - 1], since));
    }
  }

  lemma TallyKeepsBalance(c: Counts, f: Facts)
    requires Balanced(c)
    ensures Balanced(Tally(c, f))
  {
  }

  /** For every directory: each row with levels is on an owner or admin, narrowing, or without effect. */
  lemma {:induction false} CensusBalances(c: Counts, cat: Catalog, d: Directory, users: seq<UserRows>, since: int)
    requires Balanced(c)
    ensures Balanced(TallyUsers(c, cat, d, users, since))
  {
    if users != [] {
      var last := users[|users| - 1];
      CensusBalances(c, cat, d, users[..|users| - 1], since);
      RowsKeepBalance(TallyUsers(c, cat, d, users[..|users| - 1], since), cat, d, last.userId, last.rows, since);
    }
  }

  // ── narrowing rows are those that lower an oracle level ──

  /** A session of the person whose only assignment is this row. */
  function Alone(d: Directory, userId: string, row: Row, since: int): Request
    requires userId in d.users
  {
    Request(d.users[userId], [], Session, GrantsFor(d, userId), None, "", "", [row], [], since)
  }

  /** Taken alone, the row puts some service below the person's workspace level. */
  ghost predicate LowersAlone(cat: Catalog, d: Directory, userId: string, row: Row, since: int) {
    userId in d.users
        && exists s :: Rank(OracleLevel(cat, Alone(d, userId, row, since), s)) < Rank(LevelIn(cat, d, userId, s))
  }

  lemma AloneLevel(cat: Catalog, d: Directory, userId: string, row: Row, since: int, s: string)
    requires userId in d.users
    ensures OracleLevel(cat, Alone(d, userId, row, since), s) ==
              if OnPrivileged(d, userId) || row.projectId == "" then LevelIn(cat, d, userId, s)
              else Narrowed(LevelIn(cat, d, userId, s), Some(Membership(row.projectId, RowLevels(cat, row, since))), s)
  {
    var req := Alone(d, userId, row, since);
    assert NeverNarrowed(req) <==> OnPrivileged(d, userId);
    if !OnPrivileged(d, userId) {
      if row.projectId == "" { NowhereToGo(req, row); } else { SingleRow(cat, req, row); }
    }
  }

  /** A row without a project id puts its owner in no project. */
  lemma NowhereToGo(req: Request, row: Row)
    requires req.legacy == [] && req.direct == [row] && req.group == [] && row.projectId == ""
    ensures ActiveProject(req).None?
  {
    var ids := req.legacy + ProjectIds(req.direct) + ProjectIds(req.group);
    DistinctMembers(ids);
    assert forall id :: id in ids ==> id == "";
    assert Distinct(ids) != [] ==> Distinct(ids)[0] in Distinct(ids);
  }

  lemma RowLevelsFromStored(cat: Catalog, row: Row, since: int)
    ensures RowLevels(cat, row, since).Keys <= Normalize(cat, row.stored).Keys
  {
  }

  /**
   * The rows the census calls narrowing, those without a project id apart, are
   * exactly the rows that, alone, lower an oracle level.
   */
  lemma NarrowingIsExact(cat: Catalog, d: Directory, userId: string, row: Row, since: int)
    ensures LowersAlone(cat, d, userId, row, since)
            <==> FactsOf(cat, d, userId, row, since).CountsAsNarrowing() && row.projectId != ""
  {
    if userId in d.users {
      var levels := RowLevels(cat, row, since);
      RowLevelsFromStored(cat, row, since);
      forall s ensures Rank(OracleLevel(cat, Alone(d, userId, row, since), s)) < Rank(LevelIn(cat, d, userId, s))
                       <==> && !OnPrivileged(d, userId) && row.projectId != ""
                            && s in levels && Rank(levels[s]) < Rank(LevelIn(cat, d, userId, s)) {
        AloneLevel(cat, d, userId, row, since, s);
      }
    }
  }

  /** It happens: a low level stored without a project id is counted, and lowers nothing. */
  lemma StrayRowIsCounted(cat: Catalog, d: Directory, userId: string, row: Row, since: int, service: string)
    requires userId in d.users && !OnPrivileged(d, userId) && row.projectId == ""
    requires service in RowLevels(cat, row, since)
    requires Rank(RowLevels(cat, row, since)[service]) < Rank(LevelIn(cat, d, userId, service))
    ensures FactsOf(cat, d, userId, row, since).CountsAsNarrowing() && !LowersAlone(cat, d, userId, row, since)
  {
    RowLevelsFromStored(cat, row, since);
    NarrowingIsExact(cat, d, userId, row, since);
  }

  /** A row saved again at any instant from the activation on reads as stored. */
  function Resaved(row: Row, at: int): Row {
    row.(updatedAt := Some(at))
  }

  /**
   * A row is counted as narrowing-if-resaved exactly when something in it is ignored now and saving
   * it again makes it lower a level.
   */
  lemma ResavedIsExact(cat: Catalog, d: Directory, userId: string, row: Row, since: int, at: int)
    requires at >= since
    ensures IgnoredNone(cat, row, since) != {} && LowersAlone(cat, d, userId, Resaved(row, at), since)
            <==> FactsOf(cat, d, userId, row, since).CountsAsResaved() && row.projectId != ""
  {
    var again := Resaved(row, at);
    assert RowLevels(cat, again, since) == Normalize(cat, row.stored);
    NarrowingIsExact(cat, d, userId, again, since);
    assert FactsOf(cat, d, userId, again, since).narrows == FactsOf(cat, d, userId, row, since).narrowsStored;
    assert |IgnoredNone(cat, row, since)| > 0 <==> IgnoredNone(cat, row, since) != {};
  }

  // ── the two counters, over the whole directory ──

  ghost function LoweringRows(cat: Catalog, d: Directory, userId: string, rows: seq<Row>, since: int): nat {
    if rows == [] then 0
    else LoweringRows(cat, d, userId, rows[..|rows| - 1], since)
         + One(LowersAlone(cat, d, userId, rows[|rows| - 1], since))
  }

  ghost function Lowering(cat: Catalog, d: Directory, users: seq<UserRows>, since: int): nat {
    if users == [] then 0
    else
      var last := users[|users| - 1];
      Lowering(cat, d, users[..|users| - 1], since) + LoweringRows(cat, d, last.userId, last.rows, since)
  }

  /** Rows the census calls narrowing although they belong to no project. */
  function StrayRows(cat: Catalog, d: Directory, userId: string, rows: seq<Row>, since: int): nat {
    if rows == [] then 0
    else
      var last := rows[|rows| - 1];
      StrayRows(cat, d, userId, rows[..|rows| - 1], since)
        + One(last.projectId == "" && FactsOf(cat, d, userId, last, since).CountsAsNarrowing())
  }

  function Stray(cat: Catalog, d: Directory, users: seq<UserRows>, since: int): nat {
    if users == [] then 0
    else
      var last := users[|users| - 1];
      Stray(cat, d, users[..|users| - 1], since) + StrayRows(cat, d, last.userId, last.rows, since)
  }

  lemma RowCountsLowering(c: Counts, cat: Catalog, d: Directory, userId: string, row: Row, since: int)
    ensures Tally(c, FactsOf(cat, d, userId, row, since)).narrowing
            == c.narrowing + One(LowersAlone(cat, d, userId, row, since))
              + One(row.projectId == "" && FactsOf(cat, d, userId, row, since).CountsAsNarrowing())
  {
    NarrowingIsExact(cat, d, userId, row, since);
  }

  lemma {:induction false} RowsCountLowering(c: Counts, cat: Catalog, d: Directory, userId: string, rows: seq<Row>,
                                             since: int)
    ensures TallyRows(c, cat, d, userId, rows, since).narrowing
            == c.narrowing + LoweringRows(cat, d, userId, rows, since) + StrayRows(cat, d, userId, rows, since)
  {
    if rows != [] {
      RowsCountLowering(c, cat, d, userId, rows[..|rows| - 1], since);
      RowCountsLowering(TallyRows(c, cat, d, userId, rows[..|rows| - 1], since), cat, d, userId, rows[|rows| - 1],
                        since);
    }
  }

  /**
   * "Narrowing from day one" is the number of stored rows that, each taken alone,
   * lower an oracle level, plus those that would if they named a project.
   */
  lemma {:induction false} NarrowingCountsLowering(c: Counts, cat: Catalog, d: Directory, users: seq<UserRows>,
                                                   since: int)
    ensures TallyUsers(c, cat, d, users, since).narrowing
            == c.narrowing + Lowering(cat, d, users, since) + Stray(cat, d, users, since)
  {
    if users != [] {
      var last := users[|users| - 1];
      NarrowingCountsLowering(c, cat, d, users[..|users| - 1], since);
      RowsCountLowering(TallyUsers(c, cat, d, users[..|users| - 1], since), cat, d, last.userId, last.rows, since);
    }
  }

  // ── every counter, over the whole directory ──

  datatype Counter = Rows | WithLevels | Narrowing | NoOp | Privileged | IgnoredRows | IgnoredEntries | IfResaved

  function Get(c: Counts, counter: Counter): nat {
    match counter
    case Rows => c.rows
    case WithLevels => c.withLevels
    case Narrowing => c.narrowing
    case NoOp => c.noOp
    case Privileged => c.onPrivileged
    case IgnoredRows => c.ignoredRows
    case IgnoredEntries => c.ignoredEntries
    case IfResaved => c.ifResaved
  }

  /** What one stored row adds to a counter. */
  function Weight(cat: Catalog, d: Directory, userId: string, row: Row, since: int, counter: Counter): nat {
    var stored, ignored := Normalize(cat, row.stored), IgnoredNone(cat, row, since);
    var lowers := NarrowsAnyone(cat, d, userId, RowLevels(cat, row, since));
    match counter
    case Rows => 1
    case WithLevels => if stored == map[] then 0 else 1
    case Narrowing => if !OnPrivileged(d, userId) && lowers then 1 else 0
    case NoOp => if stored != map[] && !OnPrivileged(d, userId) && !lowers then 1 else 0
    case Privileged => if stored != map[] && OnPrivileged(d, userId) then 1 else 0
    case IgnoredRows => if ignored == {} then 0 else 1
    case IgnoredEntries => |ignored|
    case IfResaved => if ignored != {} && !OnPrivileged(d, userId) && NarrowsAnyone(cat, d, userId, stored) then 1
        else 0
  }

  function WeightOfRows(cat: Catalog, d: Directory, userId: string, rows: seq<Row>, since: int, counter: Counter): nat {
    if rows == [] then 0
    else WeightOfRows(cat, d, userId, rows[..|rows| - 1], since, counter)
         + Weight(cat, d, userId, rows[|rows| - 1], since, counter)
  }

  function WeightOfUsers(cat: Catalog, d: Directory, users: seq<UserRows>, since: int, counter: Counter): nat {
    if users == [] then 0
    else
      var last := users[|users| - 1];
      WeightOfUsers(cat, d, users[..|users| - 1], since, counter)
          + WeightOfRows(cat, d, last.userId, last.rows, since, counter)
  }

  lemma RowWeighs(c: Counts, cat: Catalog, d: Directory, userId: string, row: Row, since: int, counter: Counter)
    ensures Get(Tally(c, FactsOf(cat, d, userId, row, since)), counter)
            == Get(c, counter) + Weight(cat, d, userId, row, since, counter)
  {
    RowLevelsFromStored(cat, row, since);
    IgnoredFromStored(cat, row, since);
    var stored, ignored := Normalize(cat, row.stored), IgnoredNone(cat, row, since);
    assert stored == map[] <==> stored.Keys == {};
    assert |ignored| == 0 <==> ignored == {};
  }

  lemma IgnoredFromStored(cat: Catalog, row: Row, since: int)
    ensures IgnoredNone(cat, row, since) <= Normalize(cat, row.stored).Keys
  {
  }

  lemma {:induction false} RowsWeigh(c: Counts, cat: Catalog, d: Directory, userId: string, rows: seq<Row>, since: int,
                                     counter: Counter)
    ensures Get(TallyRows(c, cat, d, userId, rows, since), counter)
            == Get(c, counter) + WeightOfRows(cat, d, userId, rows, since, counter)
  {
    if rows != [] {
      RowsWeigh(c, cat, d, userId, rows[..|rows| - 1], since, counter);
      RowWeighs(TallyRows(c, cat, d, userId, rows[..|rows| - 1], since), cat, d, userId, rows[|rows| - 1], since,
                counter);
    }
  }

  /** Each counter of the census is the sum of what the directory's rows add to it. */
  lemma {:induction false} CountersAreRows(c: Counts, cat: Catalog, d: Directory, users: seq<UserRows>, since: int,
                                           counter: Counter)
    ensures Get(TallyUsers(c, cat, d, users, since), counter)
            == Get(c, counter) + WeightOfUsers(cat, d, users, since, counter)
  {
    if users != [] {
      var last := users[|users| - 1];
      CountersAreRows(c, cat, d, users[..|users| - 1], since, counter);
      RowsWeigh(TallyUsers(c, cat, d, users[..|users| - 1], since), cat, d, last.userId, last.rows, since, counter);
    }
  }
}

/**
 * The independent arithmetic of the report (scripts/iam/preflight/oracle.ts):
 *
 *   effective = min(workspace level, token scope, project level)
 *
 * where an explicit "No access" of an assignment row saved before the activation
 * instant is not read.
 */
module Oracle {
  import opened Options
  import opened Levels
  import opened Rbac
  import opened Projects

  /** One project assignment; `updatedAt` is None for a row without a usable date. */
  datatype Row = Row(projectId: string, stored: Stored, updatedAt: Option<int>)

  datatype Kind = Session | Token

  /**
   * What one request is decided from. An absent project id (null) is the empty
   * string: the source treats both as "not given".
   */
  datatype Request = Request(
    user: Grant,
    legacy: seq<string>,
    kind: Kind,
    grants: seq<Grant>,
    scope: Option<Stored>,
    requested: string,
    defaultProject: string,
    direct: seq<Row>,
    group: seq<Row>,
    since: int)

  predicate SavedBefore(row: Row, since: int) {
    row.updatedAt.None? || row.updatedAt.value < since
  }

  function RowLevels(cat: Catalog, row: Row, since: int): LevelMap {
    var levels := Normalize(cat, row.stored);
    if SavedBefore(row, since) then map s | s in levels && levels[s] != NoAccess :: levels[s]
    else levels
  }

  function IgnoredNone(cat: Catalog, row: Row, since: int): set<string> {
    var levels := Normalize(cat, row.stored);
    if SavedBefore(row, since) then set s | s in levels && levels[s] == NoAccess else {}
  }

  /** What is ignored of a row is exactly what is stored and not read, and all of it is "No access". */
  lemma IgnoredIsUnread(cat: Catalog, row: Row, since: int, service: string)
    ensures service in IgnoredNone(cat, row, since)
            <==> service in Normalize(cat, row.stored) && service !in RowLevels(cat, row, since)
    ensures service in RowLevels(cat, row, since) ==>
              service in Normalize(cat, row.stored)
                  && RowLevels(cat, row, since)[service] == Normalize(cat, row.stored)[service]
    ensures service in IgnoredNone(cat, row, since) ==>
              row.stored.Object? && service in row.stored.entries && row.stored.entries[service] == "none"
    ensures row.updatedAt.Some? && row.updatedAt.value >= since ==> IgnoredNone(cat, row, since) == {}
  {
  }

  method ComputeRowLevels(cat: Catalog, row: Row, since: int) returns (kept: LevelMap)
    ensures kept == RowLevels(cat, row, since)
  {
    var levels := Normalize(cat, row.stored);
    if !SavedBefore(row, since) { return levels; }
    kept := map[];
    var left := levels.Keys;
    while left != {}
      invariant left <= levels.Keys
      invariant kept == map s | s in levels && s !in left && levels[s] != NoAccess :: levels[s]
      decreases left
    {
      var s :| s in left;
      if levels[s] != NoAccess { kept := kept[s := levels[s]]; }
      left := left - {s};
    }
  }

  // ── the highest level per service ──

  function Raise(out: LevelMap, levels: LevelMap): LevelMap {
    map s | s in out.Keys + levels.Keys ::
      if s !in levels then out[s] else if s !in out then levels[s] else MaxLevel(out[s], levels[s])
  }

  function HighestPerService(maps: seq<LevelMap>): LevelMap {
    if maps == [] then map[]
    else Raise(HighestPerService(maps[..|maps| - 1]), maps[|maps| - 1])
  }

  /** A service is named exactly when some map names it, with the highest of those levels. */
  lemma {:induction false} HighestIsMaximum(maps: seq<LevelMap>, service: string)
    ensures service in HighestPerService(maps) <==> exists m :: m in maps && service in m
    ensures forall m :: m in maps && service in m ==> Rank(m[service]) <= Rank(HighestPerService(maps)[service])
    ensures service in HighestPerService(maps) ==>
              exists m :: m in maps && service in m && m[service] == HighestPerService(maps)[service]
  {
    if maps != [] {
      var rest, last := maps[..|maps| - 1], maps[|maps| - 1];
      assert maps == rest + [last];
      HighestIsMaximum(rest, service);
      assert service in last ==> last in maps;
    }
  }

  /** One map folded in, entry by entry, as the source's inner loop does. */
  method RaiseByEntries(out: LevelMap, levels: LevelMap) returns (raised: LevelMap)
    ensures raised == Raise(out, levels)
  {
    raised := out;
    var left := levels.Keys;
    while left != {}
      invariant left <= levels.Keys
      invariant raised.Keys == out.Keys + (levels.Keys - left)
      invariant forall s :: s in raised ==> raised[s] == if s in left then out[s] else Raise(out, levels)[s]
      decreases left
    {
      var s :| s in left;
      if s !in raised || Rank(levels[s]) > Rank(raised[s]) { raised := raised[s := levels[s]]; }
      left := left - {s};
    }
  }

  method ComputeHighestPerService(maps: seq<LevelMap>) returns (out: LevelMap)
    ensures out == HighestPerService(maps)
  {
    out := map[];
    for i := 0 to |maps|
      invariant out == HighestPerService(maps[..i])
    {
      assert maps[..i + 1][..i] == maps[..i];
      out := RaiseByEntries(out, maps[i]);
    }
    assert maps[..|maps|] == maps;
  }

  // ── the membership that narrows ──

  predicate NeverNarrowed(req: Request) {
    IsPrivileged(req.user.role) || exists g :: g in req.grants && IsPrivileged(g.role)
  }

  function ProjectIds(rows: seq<Row>): seq<string> {
    seq(|rows|, i requires 0 <= i < |rows| => rows[i].projectId)
  }

  function Members(req: Request): seq<string> {
    Distinct(req.legacy + ProjectIds(req.direct) + ProjectIds(req.group))
  }

  /** The project whose settings apply: a token's exact project, a session's wanted or first one. */
  function ActiveProject(req: Request): Option<string> {
    var members := Members(req);
    if members == [] then None
    else if req.kind.Token? then
      if req.requested != "" && req.requested in members then Some(req.requested) else None
    else
      var wanted := if req.requested != "" then req.requested else req.defaultProject;
      if wanted != "" && wanted in members then Some(wanted) else Some(members[0])
  }

  /** The levels of the first own assignment to the project, if there is one. */
  function DirectSources(cat: Catalog, rows: seq<Row>, project: string, since: int): seq<LevelMap> {
    if rows == [] then []
    else if rows[0].projectId == project then [RowLevels(cat, rows[0], since)]
    else DirectSources(cat, rows[1..], project, since)
  }

  /** The levels of every group assignment to the project. */
  function GroupSources(cat: Catalog, rows: seq<Row>, project: string, since: int): seq<LevelMap> {
    if rows == [] then []
    else
      var last := rows[|rows| - 1];
      GroupSources(cat, rows[..|rows| - 1], project, since)
        + if last.projectId == project then [RowLevels(cat, last, since)] else []
  }

  function Sources(cat: Catalog, req: Request, project: string): seq<LevelMap> {
    DirectSources(cat, req.direct, project, req.since) + GroupSources(cat, req.group, project, req.since)
  }

  datatype Membership = Membership(projectId: string, levels: LevelMap)

  function MembershipOf(cat: Catalog, req: Request): Option<Membership> {
    if NeverNarrowed(req) then None
    else match ActiveProject(req)
         case None => None
         case Some(p) => Some(Membership(p, HighestPerService(Sources(cat, req, p))))
  }

  method FindDirect(rows: seq<Row>, project: string) returns (i: nat)
    ensures i <= |rows|
    ensures i < |rows| ==> rows[i].projectId == project
    ensures forall j :: 0 <= j < i ==> rows[j].projectId != project
  {
    i := 0;
    while i < |rows| && rows[i].projectId != project
      invariant i <= |rows|
      invariant forall j :: 0 <= j < i ==> rows[j].projectId != project
    {
      i := i + 1;
    }
  }

  lemma {:induction false} DirectSourcesAt(cat: Catalog, rows: seq<Row>, project: string, since: int, i: nat)
    requires i <= |rows|
    requires forall j :: 0 <= j < i ==> rows[j].projectId != project
    requires i < |rows| ==> rows[i].projectId == project
    ensures DirectSources(cat, rows, project, since) == if i < |rows| then [RowLevels(cat, rows[i], since)] else []
  {
    if i > 0 { DirectSourcesAt(cat, rows[1..], project, since, i - 1); }
  }

  /** The project selection of oracle.ts `oracleMembership`, on the list its first loop builds. */
  method SelectProject(req: Request) returns (projectId: Option<string>)
    ensures projectId == ActiveProject(req)
  {
    var members := DistinctByList(req.legacy + ProjectIds(req.direct) + ProjectIds(req.group));
    if members == [] { return None; }
    if req.kind.Token? {
      projectId := if req.requested != "" && req.requested in members then Some(req.requested) else None;
    } else {
      var wanted := if req.requested != "" then req.requested else req.defaultProject;
      projectId := if wanted != "" && wanted in members then Some(wanted) else Some(members[0]);
    }
  }

  predicate Assigned(req: Request, project: string) {
    project in req.legacy || project in ProjectIds(req.direct) || project in ProjectIds(req.group)
  }

  /** A selected project is one the member is assigned to. */
  lemma ActiveIsAssigned(req: Request)
    ensures ActiveProject(req).Some? ==> ActiveProject(req).value != "" && Assigned(req, ActiveProject(req).value)
  {
    var all := req.legacy + ProjectIds(req.direct) + ProjectIds(req.group);
    DistinctMembers(all);
    if ActiveProject(req).Some? {
      assert ActiveProject(req).value in Distinct(all);
    }
  }

  /** The group rows of the project: their levels, and whether there was one. */
  method CollectGroup(cat: Catalog, rows: seq<Row>, project: string, since: int)
    returns (sources: seq<LevelMap>, found: bool)
    ensures sources == GroupSources(cat, rows, project, since)
    ensures found == (project in ProjectIds(rows))
  {
    found, sources := false, [];
    ghost var ids := ProjectIds(rows);
    for i := 0 to |rows|
      invariant sources == GroupSources(cat, rows[..i], project, since)
      invariant found == (project in ids[..i])
    {
      assert rows[..i + 1][..i] == rows[..i] && ids[..i + 1] == ids[..i] + [rows[i].projectId];
      if rows[i].projectId == project {
        var levels := ComputeRowLevels(cat, rows[i], since);
        found, sources := true, sources + [levels];
      }
    }
    assert rows[..|rows|] == rows && ids[..|rows|] == ids;
  }

  /** The row scan of `oracleMembership`: the level sources, and whether any assignment was found. */
  method CollectSources(cat: Catalog, req: Request, project: string) returns (sources: seq<LevelMap>, any: bool)
    ensures sources == Sources(cat, req, project)
    ensures any == Assigned(req, project)
  {
    any, sources := false, [];
    var at := FindDirect(req.direct, project);
    DirectSourcesAt(cat, req.direct, project, req.since, at);
    assert at < |req.direct| ==> ProjectIds(req.direct)[at] == project;
    assert at == |req.direct| ==> project !in ProjectIds(req.direct);
    if at < |req.direct| {
      var levels := ComputeRowLevels(cat, req.direct[at], req.since);
      any, sources := true, [levels];
    } else if project in req.legacy {
      any := true;
    }
    var inherited, found := CollectGroup(cat, req.group, project, req.since);
    sources, any := sources + inherited, any || found;
  }

  /**
   * oracle.ts `oracleMembership`. The source only answers when its `any` flag is
   * set; that it always is for a selected project is why `MembershipOf` needs none.
   */
  method ComputeMembership(cat: Catalog, req: Request) returns (result: Option<Membership>)
    ensures result == MembershipOf(cat, req)
  {
    if NeverNarrowed(req) { return None; }
    var projectId := SelectProject(req);
    if projectId.None? { return None; }
    ActiveIsAssigned(req);
    var sources, any := CollectSources(cat, req, projectId.value);
    if !any { return None; }
    var levels := ComputeHighestPerService(sources);
    result := Some(Membership(projectId.value, levels));
  }

  // ── the effective level ──

  function Narrowed(level: Level, membership: Option<Membership>, service: string): Level {
    if membership.None? then level
    else match LookUp(membership.value.levels, service)
         case None => level
         case Some(explicit) => if Rank(explicit) < Rank(level) then explicit else level
  }

  function OracleLevel(cat: Catalog, req: Request, service: string): Level {
    Narrowed(Capped(cat, WorkspaceLevel(cat, req.user, req.grants, service), req.scope, service),
             MembershipOf(cat, req), service)
  }

  predicate OracleAllows(cat: Catalog, req: Request, check: Check, service: string) {
    Rank(OracleLevel(cat, req, service)) >= Rank(Required(cat, check, service))
  }

  function OracleAnswers(cat: Catalog, req: Request, service: string): Checks {
    AnswersOfLevel(cat, OracleLevel(cat, req, service), service)
  }

  method OracleChecks(cat: Catalog, req: Request, service: string, membership: Option<Membership>) returns (out: Checks)
    requires membership == MembershipOf(cat, req)
    ensures out == OracleAnswers(cat, req, service)
  {
    var workspace := ComputeWorkspaceLevel(cat, req.user, req.grants, service);
    var level := Narrowed(Capped(cat, workspace, req.scope, service), membership, service);
    out := ChecksOfLevel(cat, level, service);
  }

  lemma OneId(ids: seq<string>)
    requires |ids| == 1 && ids[0] != ""
    ensures Distinct(ids) == ids
  {
    assert ids[..0] == [];
    assert Distinct(ids) == [] + [ids[0]];
  }

  lemma OneSource(cat: Catalog, rows: seq<Row>, since: int)
    requires |rows| == 1
    ensures DirectSources(cat, rows, rows[0].projectId, since) == [RowLevels(cat, rows[0], since)]
    ensures GroupSources(cat, rows, rows[0].projectId, since) == [RowLevels(cat, rows[0], since)]
  {
    assert rows[..0] == [];
    assert GroupSources(cat, rows, rows[0].projectId, since) == [] + [RowLevels(cat, rows[0], since)];
  }

  lemma OneMap(maps: seq<LevelMap>)
    requires |maps| == 1
    ensures HighestPerService(maps) == maps[0]
  {
    assert maps[..0] == [];
    assert HighestPerService(maps) == Raise(map[], maps[0]);
  }

  lemma OneProject(req: Request, project: string)
    requires req.kind.Session? && project != ""
    requires req.legacy + ProjectIds(req.direct) + ProjectIds(req.group) == [project]
    ensures ActiveProject(req) == Some(project)
  {
    OneId(req.legacy + ProjectIds(req.direct) + ProjectIds(req.group));
  }

  /** A row taken alone, own or inherited: its levels are the membership. */
  lemma SingleRow(cat: Catalog, req: Request, row: Row)
    requires !NeverNarrowed(req) && req.kind.Session? && row.projectId != "" && req.legacy == []
    requires (req.direct == [row] && req.group == []) || (req.direct == [] && req.group == [row])
    ensures MembershipOf(cat, req) == Some(Membership(row.projectId, RowLevels(cat, row, req.since)))
  {
    OneProject(req, row.projectId);
    if req.direct == [row] {
      OneSource(cat, req.direct, req.since);
    } else {
      OneSource(cat, req.group, req.since);
    }
    OneMap(Sources(cat, req, row.projectId));
  }

  // ── moving the activation instant ──

  /** Between two readings of the same rows, a service keeps its entry or gains an explicit "No access". */
  predicate KeptOrNone(later: LevelMap, earlier: LevelMap, service: string) {
    LookUp(earlier, service) == LookUp(later, service)
    || (service !in later && LookUp(earlier, service) == Some(NoAccess))
  }

  predicate AllKeptOrNone(later: seq<LevelMap>, earlier: seq<LevelMap>, service: string) {
    |later| == |earlier| && forall i :: 0 <= i < |later| ==> KeptOrNone(later[i], earlier[i], service)
  }

  lemma {:induction false} DirectKeptOrNone(cat: Catalog, rows: seq<Row>, p: string, since: int, earlier: int,
                                            s: string)
    requires earlier <= since
    ensures AllKeptOrNone(DirectSources(cat, rows, p, since), DirectSources(cat, rows, p, earlier), s)
  {
    if rows != [] { DirectKeptOrNone(cat, rows[1..], p, since, earlier, s); }
  }

  lemma {:induction false} GroupKeptOrNone(cat: Catalog, rows: seq<Row>, p: string, since: int, earlier: int, s: string)
    requires earlier <= since
    ensures AllKeptOrNone(GroupSources(cat, rows, p, since), GroupSources(cat, rows, p, earlier), s)
  {
    if rows != [] { GroupKeptOrNone(cat, rows[..|rows| - 1], p, since, earlier, s); }
  }

  lemma {:induction false} HighestKeptOrNone(later: seq<LevelMap>, earlier: seq<LevelMap>, s: string)
    requires AllKeptOrNone(later, earlier, s)
    ensures KeptOrNone(HighestPerService(later), HighestPerService(earlier), s)
  {
    if later != [] { HighestKeptOrNone(later[..|later| - 1], earlier[..|earlier| - 1], s); }
  }

  /**
   * Lowering the activation instant (counting more stored "No access" entries)
   * never moves the request to another project, and a service whose effective
   * level changes at all drops to exactly "No access".
   */
  lemma EarlierActivationOnlyRevokes(cat: Catalog, req: Request, earlier: int, service: string)
    requires earlier <= req.since
    ensures ActiveProject(req.(since := earlier)) == ActiveProject(req)
    ensures MembershipOf(cat, req.(since := earlier)).None? <==> MembershipOf(cat, req).None?
    ensures var level := OracleLevel(cat, req.(since := earlier), service);
            level == OracleLevel(cat, req, service) || level == NoAccess
    ensures Rank(OracleLevel(cat, req.(since := earlier), service)) <= Rank(OracleLevel(cat, req, service))
  {
    var req' := req.(since := earlier);
    assert Members(req') == Members(req);
    var active := ActiveProject(req);
    if !NeverNarrowed(req) && active.Some? {
      var p := active.value;
      DirectKeptOrNone(cat, req.direct, p, req.since, earlier, service);
      GroupKeptOrNone(cat, req.group, p, req.since, earlier, service);
      HighestKeptOrNone(Sources(cat, req, p), Sources(cat, req', p), service);
    }
  }
}

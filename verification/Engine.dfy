/**
 * The policy engine as a request gate uses it: the principal the gate builds
 * (src/lib/iam/enforce.ts, projectNarrowing.ts, projectMembership.ts, entities.ts)
 * and the managed policies that decide about it (src/lib/iam/managedPolicies.ts).
 *
 * The engine never sees a level, only sets of services; the oracle never sees a
 * set. The main result of this module is that they answer alike.
 */
module Engine {
  import opened Options
  import opened Levels
  import opened Rbac
  import opened Oracle

  // ── level sets ──

  datatype LevelSets = LevelSets(read: seq<string>, write: seq<string>, admin: seq<string>)

  datatype TokenCaps = TokenCaps(scoped: bool, sets: LevelSets)

  const NO_SERVICES := LevelSets([], [], [])

  /** The services of the catalog, in its order, whose level reaches the rank. */
  function AtLeast(cat: seq<ServiceDef>, levelOf: string -> Level, rank: nat): seq<string> {
    if cat == [] then []
    else
      AtLeast(cat[..|cat| - 1], levelOf, rank)
        + if Rank(levelOf(cat[|cat| - 1].id)) >= rank then [cat[|cat| - 1].id] else []
  }

  function SetsOf(cat: Catalog, levelOf: string -> Level): LevelSets {
    LevelSets(AtLeast(cat, levelOf, 1), AtLeast(cat, levelOf, 2), AtLeast(cat, levelOf, 3))
  }

  lemma {:induction false} AtLeastMembers(cat: seq<ServiceDef>, levelOf: string -> Level, rank: nat, service: string)
    ensures service in AtLeast(cat, levelOf, rank) <==>
              Rank(levelOf(service)) >= rank && exists i :: 0 <= i < |cat| && cat[i].id == service
  {
    if cat != [] {
      var init := cat[..|cat| - 1];
      AtLeastMembers(init, levelOf, rank, service);
      assert forall i :: 0 <= i < |init| ==> init[i] == cat[i];
    }
  }

  /** entities.ts `levelSets`: one pass over the catalog filling the three sets. */
  method ComputeSets(cat: Catalog, levelOf: string -> Level) returns (sets: LevelSets)
    ensures sets == SetsOf(cat, levelOf)
  {
    sets := NO_SERVICES;
    for i := 0 to |cat|
      invariant sets
                == LevelSets(AtLeast(cat[..i], levelOf, 1), AtLeast(cat[..i], levelOf, 2),
                             AtLeast(cat[..i], levelOf, 3))
    {
      assert cat[..i + 1][..i] == cat[..i];
      var id := cat[i].id;
      var rank := Rank(levelOf(id));
      if rank >= 1 { sets := sets.(read := sets.read + [id]); }
      if rank >= 2 { sets := sets.(write := sets.write + [id]); }
      if rank >= 3 { sets := sets.(admin := sets.admin + [id]); }
    }
    assert cat[..|cat|] == cat;
  }

  function Caps(cat: Catalog, scope: Option<Stored>): TokenCaps {
    match scope
    case None => TokenCaps(false, NO_SERVICES)
    case Some(stored) => TokenCaps(true, SetsOf(cat, s => ScopeLevel(cat, stored, s)))
  }

  // ── project narrowing ──

  /** projectMembership.ts: like the oracle's sources, with an empty map standing for a legacy membership. */
  function MembershipLevels(cat: Catalog, req: Request, project: string): Option<LevelMap> {
    var own := DirectSources(cat, req.direct, project, req.since);
    var legacy := if own == [] && project in req.legacy then [map[]] else own;
    var sources := legacy + GroupSources(cat, req.group, project, req.since);
    if sources == [] then None else Some(HighestPerService(sources))
  }

  /** `pickActiveProjectId` behind the exact-project rule of tokens (projectNarrowing.ts). */
  function PickProject(req: Request): Option<string> {
    var members := Members(req);
    if members == [] then None
    else if req.kind.Token? && (req.requested == "" || req.requested !in members) then None
    else
      // the default project is only looked up when nothing was requested
      var fallback := if req.requested != "" then "" else req.defaultProject;
      var wanted := if req.requested != "" then req.requested else fallback;
      if wanted == "" || wanted !in members then Some(members[0]) else Some(wanted)
  }

  function ResolveNarrowing(cat: Catalog, req: Request): Option<LevelMap> {
    if IsPrivileged(req.user.role) then None
    else if exists g :: g in req.grants && IsPrivileged(g.role) then None
    else match PickProject(req)
         case None => None
         case Some(p) => MembershipLevels(cat, req, p)
  }

  function NarrowLevel(level: Level, narrowing: Option<LevelMap>, service: string): Level {
    if narrowing.None? then level
    else match LookUp(narrowing.value, service)
         case None => level
         case Some(explicit) => MinLevel(level, explicit)
  }

  /** The services a project denies at a level: those it names explicitly with a lower one. */
  function Denied(cat: seq<ServiceDef>, levels: LevelMap, rank: nat): seq<string> {
    if cat == [] then []
    else
      var id := cat[|cat| - 1].id;
      Denied(cat[..|cat| - 1], levels, rank) + if id in levels && Rank(levels[id]) < rank then [id] else []
  }

  function DenySets(cat: Catalog, levels: LevelMap): LevelSets {
    LevelSets(Denied(cat, levels, 1), Denied(cat, levels, 2), Denied(cat, levels, 3))
  }

  lemma {:induction false} DeniedMembers(cat: seq<ServiceDef>, levels: LevelMap, rank: nat, service: string)
    ensures service in Denied(cat, levels, rank) <==>
              service in levels && Rank(levels[service]) < rank && exists i :: 0 <= i < |cat| && cat[i].id == service
  {
    if cat != [] {
      var init := cat[..|cat| - 1];
      DeniedMembers(init, levels, rank, service);
      assert forall i :: 0 <= i < |init| ==> init[i] == cat[i];
    }
  }

  // ── the principal ──

  /** What the managed policies can read about a caller. */
  datatype Principal = Principal(kind: Kind, sets: LevelSets, projDeny: Option<LevelSets>, token: Option<TokenCaps>) {
    /** Sent to the engine as an ApiToken entity with a scope; every other caller has no cap. */
    predicate Scoped() {
      kind.Token? && token.Some? && token.value.scoped
    }
  }

  function PrincipalOf(cat: Catalog, req: Request, narrowing: Option<LevelMap>): Principal {
    Principal(
      req.kind,
      SetsOf(cat, s => NarrowLevel(WorkspaceLevel(cat, req.user, req.grants, s), narrowing, s)),
      if narrowing.None? then None else Some(DenySets(cat, narrowing.value)),
      if req.kind.Token? then Some(Caps(cat, req.scope)) else None)
  }

  /** enforce.ts `buildEnforcePrincipalWithNarrowing`. */
  function BuildPrincipal(cat: Catalog, req: Request): Principal {
    PrincipalOf(cat, req, ResolveNarrowing(cat, req))
  }

  // ── the managed policies ──

  /** The action group a gate question falls in: the write permits escalate on administration services. */
  datatype Group = ReadGroup | WriteGroup | AdminGroup

  function GroupOf(check: Check): Group {
    match ExplicitLevel(check)
    case Some(_) => AdminGroup
    case None => if MethodOf(check).Get? then ReadGroup else WriteGroup
  }

  datatype Resource = Resource(service: string, adminService: bool)

  function ResourceOf(cat: Catalog, service: string): Resource {
    Resource(service, IsService(cat, service) && Definition(cat, service).adminService)
  }

  predicate Holds(sets: LevelSets, group: Group, resource: Resource) {
    match group
    case ReadGroup => resource.service in sets.read
    case WriteGroup => resource.service in sets.write && (!resource.adminService || resource.service in sets.admin)
    case AdminGroup => resource.service in sets.admin
  }

  /** managed:rbac:user-* and managed:rbac:token-*. */
  predicate ManagedPermit(p: Principal, group: Group, resource: Resource) {
    Holds(p.sets, group, resource)
    && (p.Scoped() ==> Holds(p.token.value.sets, group, resource))
  }

  /** managed:boundary:token-cap-*. */
  predicate CapForbid(p: Principal, group: Group, resource: Resource) {
    p.Scoped() && !Holds(p.token.value.sets, group, resource)
  }

  /** managed:boundary:project-*. */
  predicate ProjectForbid(p: Principal, group: Group, resource: Resource) {
    p.projDeny.Some?
    && var deny := p.projDeny.value;
       match group
       case ReadGroup => resource.service in deny.read
       case WriteGroup => resource.service in deny.write || (resource.adminService && resource.service in deny.admin)
       case AdminGroup => resource.service in deny.admin
  }

  datatype Effect = Permit | Forbid

  /** A custom policy of the workspace: any condition on the request at all. */
  datatype Custom = Custom(effect: Effect, matches: (Principal, Group, Resource) -> bool)

  predicate Matched(custom: seq<Custom>, effect: Effect, p: Principal, group: Group, resource: Resource) {
    exists i :: 0 <= i < |custom| && custom[i].effect == effect && custom[i].matches(p, group, resource)
  }

  /** Cedar's verdict: some permit applies and no forbid does. */
  predicate Allowed(cat: Catalog, p: Principal, custom: seq<Custom>, check: Check, service: string) {
    var group, resource := GroupOf(check), ResourceOf(cat, service);
    && (ManagedPermit(p, group, resource) || Matched(custom, Permit, p, group, resource))
    && !CapForbid(p, group, resource)
    && !ProjectForbid(p, group, resource)
    && !Matched(custom, Forbid, p, group, resource)
  }

  function Verdicts(cat: Catalog, p: Principal, custom: seq<Custom>, service: string): Checks {
    Checks(Allowed(cat, p, custom, ReadCheck, service),
           Allowed(cat, p, custom, WriteCheck, service),
           Allowed(cat, p, custom, AdminCheck, service))
  }

  // ── the engine against the arithmetic ──

  /** The selections of the two implementations name the same project. */
  lemma SameProject(req: Request)
    ensures PickProject(req) == ActiveProject(req)
  {
  }

  lemma {:induction false} MergeEmpty(maps: seq<LevelMap>)
    ensures HighestPerService([map[]] + maps) == HighestPerService(maps)
  {
    if maps == [] {
      assert [map[]] + maps == [map[]];
      assert HighestPerService([map[]]) == Raise(map[], map[]);
    } else {
      var init := maps[..|maps| - 1];
      MergeEmpty(init);
      assert ([map[]] + maps)[..|maps|] == [map[]] + init;
    }
  }

  lemma {:induction false} NoGroupSource(cat: Catalog, rows: seq<Row>, project: string, since: int)
    requires GroupSources(cat, rows, project, since) == []
    ensures project !in ProjectIds(rows)
  {
    if rows != [] {
      var init := rows[..|rows| - 1];
      NoGroupSource(cat, init, project, since);
      assert ProjectIds(rows) == ProjectIds(init) + [rows[|rows| - 1].projectId];
    }
  }

  lemma {:induction false} NoDirectSource(cat: Catalog, rows: seq<Row>, project: string, since: int)
    requires DirectSources(cat, rows, project, since) == []
    ensures project !in ProjectIds(rows)
  {
    if rows != [] {
      NoDirectSource(cat, rows[1..], project, since);
      assert ProjectIds(rows) == [rows[0].projectId] + ProjectIds(rows[1..]);
    }
  }

  /** The engine narrows by the same levels as the oracle, or neither narrows. */
  lemma SameNarrowing(cat: Catalog, req: Request)
    ensures ResolveNarrowing(cat, req).Some? <==> MembershipOf(cat, req).Some?
    ensures ResolveNarrowing(cat, req).Some? ==> ResolveNarrowing(cat, req).value == MembershipOf(cat, req).value.levels
  {
    SameProject(req);
    ActiveIsAssigned(req);
    if !NeverNarrowed(req) && ActiveProject(req).Some? {
      var p := ActiveProject(req).value;
      var own := DirectSources(cat, req.direct, p, req.since);
      var inherited := GroupSources(cat, req.group, p, req.since);
      if own == [] { NoDirectSource(cat, req.direct, p, req.since); }
      if inherited == [] { NoGroupSource(cat, req.group, p, req.since); }
      MergeEmpty(inherited);
      assert own == [] ==> own + inherited == inherited;
    }
  }

  /** Membership of the three sets, read as one threshold on the level behind them. */
  lemma HoldsIsThreshold(cat: Catalog, levelOf: string -> Level, check: Check, service: string)
    requires IsService(cat, service)
    ensures Holds(SetsOf(cat, levelOf), GroupOf(check), ResourceOf(cat, service)) <==>
              Rank(levelOf(service)) >= Rank(Required(cat, check, service))
  {
    AtLeastMembers(cat, levelOf, 1, service);
    AtLeastMembers(cat, levelOf, 2, service);
    AtLeastMembers(cat, levelOf, 3, service);
  }

  lemma DeniedIsThreshold(cat: Catalog, p: Principal, levels: LevelMap, check: Check, service: string)
    requires IsService(cat, service)
    requires p.projDeny == Some(DenySets(cat, levels))
    ensures ProjectForbid(p, GroupOf(check), ResourceOf(cat, service)) <==>
              service in levels && Rank(levels[service]) < Rank(Required(cat, check, service))
  {
    DeniedMembers(cat, levels, 1, service);
    DeniedMembers(cat, levels, 2, service);
    DeniedMembers(cat, levels, 3, service);
  }

  lemma CapsAreThreshold(cat: Catalog, scope: Stored, check: Check, service: string)
    requires IsService(cat, service)
    ensures Holds(Caps(cat, Some(scope)).sets, GroupOf(check), ResourceOf(cat, service)) <==>
              Rank(ScopeLevel(cat, scope, service)) >= Rank(Required(cat, check, service))
  {
    HoldsIsThreshold(cat, s => ScopeLevel(cat, scope, s), check, service);
  }

  /** Only tokens carry a scope (what run.ts passes for people and tokens). */
  predicate WellFormed(req: Request) {
    req.kind.Session? ==> req.scope.None?
  }

  /**
   * The boundary forbids restate the permits: without a custom policy they decide nothing.
   */
  lemma PermitImpliesNoForbid(cat: Catalog, req: Request, narrowing: Option<LevelMap>, check: Check, service: string)
    requires IsService(cat, service)
    ensures var p, g, r := PrincipalOf(cat, req, narrowing), GroupOf(check), ResourceOf(cat, service);
            ManagedPermit(p, g, r) ==> !CapForbid(p, g, r) && !ProjectForbid(p, g, r)
  {
    var p := PrincipalOf(cat, req, narrowing);
    if narrowing.Some? {
      DeniedIsThreshold(cat, p, narrowing.value, check, service);
      HoldsIsThreshold(cat, s => NarrowLevel(WorkspaceLevel(cat, req.user, req.grants, s), narrowing, s), check,
                       service);
    }
  }

  /** With the managed policies alone, the verdict is the threshold on min(workspace, project, scope). */
  lemma VerdictIsThreshold(cat: Catalog, req: Request, narrowing: Option<LevelMap>, check: Check, service: string)
    requires IsService(cat, service) && WellFormed(req)
    ensures Allowed(cat, PrincipalOf(cat, req, narrowing), [], check, service) <==>
              Rank(Capped(cat, NarrowLevel(WorkspaceLevel(cat, req.user, req.grants, service), narrowing, service),
                          req.scope, service))
                >= Rank(Required(cat, check, service))
  {
    PermitImpliesNoForbid(cat, req, narrowing, check, service);
    HoldsIsThreshold(cat, s => NarrowLevel(WorkspaceLevel(cat, req.user, req.grants, s), narrowing, s), check, service);
    if req.scope.Some? { CapsAreThreshold(cat, req.scope.value, check, service); }
  }

  /**
   * The engine, asked about the principal the gate builds, gives exactly the
   * oracle's answer: for every catalog, request, service and check.
   */
  lemma EngineMatchesOracle(cat: Catalog, req: Request, check: Check, service: string)
    requires IsService(cat, service) && WellFormed(req)
    ensures Allowed(cat, BuildPrincipal(cat, req), [], check, service) <==> OracleAllows(cat, req, check, service)
  {
    SameNarrowing(cat, req);
    VerdictIsThreshold(cat, req, ResolveNarrowing(cat, req), check, service);
  }

  /** Whatever the custom policies are, an allowed request stays inside the token scope and the project levels. */
  lemma CustomPoliciesStayInside(cat: Catalog, req: Request, custom: seq<Custom>, check: Check, service: string)
    requires IsService(cat, service) && WellFormed(req)
    requires Allowed(cat, BuildPrincipal(cat, req), custom, check, service)
    ensures req.scope.Some? ==> Rank(ScopeLevel(cat, req.scope.value, service)) >= Rank(Required(cat, check, service))
    ensures MembershipOf(cat, req).Some? && service in MembershipOf(cat, req).value.levels ==>
              Rank(MembershipOf(cat, req).value.levels[service]) >= Rank(Required(cat, check, service))
  {
    SameNarrowing(cat, req);
    var narrowing := ResolveNarrowing(cat, req);
    var p := BuildPrincipal(cat, req);
    if req.scope.Some? { CapsAreThreshold(cat, req.scope.value, check, service); }
    if narrowing.Some? { DeniedIsThreshold(cat, p, narrowing.value, check, service); }
  }
}

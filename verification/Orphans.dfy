/**
 * Where the engine and the report's arithmetic part: rows of deleted groups
 * (scripts/iam/preflight/run.ts). The oracle reads them, the gate does not.
 */
module Orphans {
  import opened Options
  import opened Levels
  import opened Rbac
  import opened Projects
  import opened Oracle
  import opened Engine
  import opened Attribution
  import opened Memberships

  /** Oracle and engine answer alike about everyone whose groups left no rows behind. */
  lemma NoMismatch(cat: Catalog, base: Request, g: Groups, check: Check, service: string)
    requires IsService(cat, service) && WellFormed(base) && NoOrphanRows(g)
    ensures After(cat, EngineRequest(base, g), [], check, service)
            == OracleAllows(cat, OracleRequest(base, g), check, service)
  {
    RowsOfExisting(g.memberOf, g);
    EngineMatchesOracle(cat, EngineRequest(base, g), check, service);
  }

  /** The membership names the service with a level below the required one. */
  predicate RefusedBy(membership: Option<Membership>, service: string, required: Level) {
    membership.Some? && service in membership.value.levels && Rank(membership.value.levels[service]) < Rank(required)
  }

  lemma NarrowedThreshold(level: Level, membership: Option<Membership>, service: string, required: Level)
    ensures Rank(Narrowed(level, membership, service)) >= Rank(required)
            <==> Rank(level) >= Rank(required) && !RefusedBy(membership, service, required)
  {
  }

  /**
   * Orphan rows are where the two part: the report counts a mismatch exactly on the
   * checks that the workspace level allows and that exactly one of the two
   * memberships, with and without the rows of deleted groups, refuses.
   */
  lemma MismatchExactly(cat: Catalog, base: Request, g: Groups, check: Check, service: string)
    requires IsService(cat, service) && WellFormed(base)
    ensures var engine, oracle := EngineRequest(base, g), OracleRequest(base, g);
            var required := Required(cat, check, service);
            After(cat, engine, [], check, service) != OracleAllows(cat, oracle, check, service)
            <==> && Rank(required) <= Rank(OwnerLevel(cat, oracle, service))
                 && RefusedBy(MembershipOf(cat, oracle), service, required)
                    != RefusedBy(MembershipOf(cat, engine), service, required)
  {
    var engine, oracle, required := EngineRequest(base, g), OracleRequest(base, g), Required(cat, check, service);
    EngineMatchesOracle(cat, engine, check, service);
    NarrowedThreshold(OwnerLevel(cat, engine, service), MembershipOf(cat, engine), service, required);
    NarrowedThreshold(OwnerLevel(cat, oracle, service), MembershipOf(cat, oracle), service, required);
  }

  /** For a person whose only projects come from deleted groups, those are the checks the orphan rows refuse. */
  lemma OrphanRowsMismatch(cat: Catalog, base: Request, g: Groups, check: Check, service: string)
    requires IsService(cat, service) && WellFormed(base)
    requires Members(EngineRequest(base, g)) == []
    ensures var oracle, required := OracleRequest(base, g), Required(cat, check, service);
            After(cat, EngineRequest(base, g), [], check, service) != OracleAllows(cat, oracle, check, service)
            <==> && Rank(required) <= Rank(OwnerLevel(cat, oracle, service))
                 && RefusedBy(MembershipOf(cat, oracle), service, required)
  {
    assert MembershipOf(cat, EngineRequest(base, g)).None?;
    MismatchExactly(cat, base, g, check, service);
  }

  lemma OneGroup(ids: seq<string>, g: Groups)
    requires |ids| == 1 && ids[0] !in g.existing
    ensures GrantsOf(ids, g.existing) == [] && RowsOf(ExistingIds(ids, g.existing), g.rows) == []
    ensures ids[0] in g.rows ==> RowsOf(ids, g.rows) == g.rows[ids[0]]
  {
    assert ids[..0] == [];
    assert ids[0] in g.rows ==> RowsOf(ids, g.rows) == [] + g.rows[ids[0]];
  }

  /**
   * The disagreement occurs: for any unprivileged member of one deleted group whose
   * row, as read, says "No access" to a service, on every check the member's own level allows.
   */
  lemma OrphanRowsOccur(cat: Catalog, base: Request, g: Groups, row: Row, check: Check, service: string)
    requires IsService(cat, service) && base.kind.Session? && base.scope.None?
    requires !IsPrivileged(base.user.role) && base.legacy == [] && base.direct == []
    requires Rank(OwnLevel(cat, base.user, service)) >= Rank(Required(cat, check, service))
    requires |g.memberOf| == 1 && g.memberOf[0] !in g.existing && g.memberOf[0] in g.rows
             && g.rows[g.memberOf[0]] == [row]
    requires row.projectId != "" && LookUp(RowLevels(cat, row, base.since), service) == Some(NoAccess)
    ensures After(cat, EngineRequest(base, g), [], check, service)
            != OracleAllows(cat, OracleRequest(base, g), check, service)
  {
    OrphanMembership(cat, base, g, row);
    NoGrants(cat, OracleRequest(base, g), service);
    RefusedByOrphan(cat, base, g, RowLevels(cat, row, base.since), check, service);
  }

  lemma RefusedByOrphan(cat: Catalog, base: Request, g: Groups, levels: LevelMap, check: Check, service: string)
    requires IsService(cat, service) && WellFormed(base) && Members(EngineRequest(base, g)) == []
    requires MembershipOf(cat, OracleRequest(base, g)).Some?
             && MembershipOf(cat, OracleRequest(base, g)).value.levels == levels
    requires LookUp(levels, service) == Some(NoAccess)
    requires Rank(OwnerLevel(cat, OracleRequest(base, g), service)) >= Rank(Required(cat, check, service))
    ensures After(cat, EngineRequest(base, g), [], check, service)
            != OracleAllows(cat, OracleRequest(base, g), check, service)
  {
    OrphanRowsMismatch(cat, base, g, check, service);
  }

  /** The oracle narrows by the orphan row; the engine sees no project at all. */
  lemma OrphanMembership(cat: Catalog, base: Request, g: Groups, row: Row)
    requires base.kind.Session? && !IsPrivileged(base.user.role) && base.legacy == [] && base.direct == []
    requires |g.memberOf| == 1 && g.memberOf[0] !in g.existing && g.memberOf[0] in g.rows
             && g.rows[g.memberOf[0]] == [row]
    requires row.projectId != ""
    ensures Members(EngineRequest(base, g)) == [] && OracleRequest(base, g).grants == []
    ensures MembershipOf(cat, OracleRequest(base, g))
            == Some(Membership(row.projectId, RowLevels(cat, row, base.since)))
  {
    OneGroup(g.memberOf, g);
    SingleRow(cat, OracleRequest(base, g), row);
    NoProjects(EngineRequest(base, g));
  }

  lemma NoGrants(cat: Catalog, req: Request, service: string)
    requires req.grants == [] && req.scope.None?
    ensures OwnerLevel(cat, req, service) == OwnLevel(cat, req.user, service)
  {
  }

  lemma OnlyProject(req: Request, project: string)
    requires req.kind.Session? && project != "" && req.legacy == [] && req.direct + req.group != []
    requires forall row :: row in req.direct + req.group ==> row.projectId == project
    ensures ActiveProject(req) == Some(project)
  {
    var ids := req.legacy + ProjectIds(req.direct) + ProjectIds(req.group);
    var rows := req.direct + req.group;
    assert |ids| == |rows| && forall i :: 0 <= i < |ids| ==> ids[i] == rows[i].projectId;
    assert rows[0] in rows && ids[0] == project;
    forall i | 0 <= i < |ids| ensures ids[i] == project { assert rows[i] in rows; }
    DistinctMembers(ids);
    assert project in Distinct(ids);
    assert Distinct(ids)[0] in Distinct(ids);
  }

  lemma TwoSources(cat: Catalog, req: Request, own: Row, other: Row)
    requires req.direct == [own] && req.group == [other] && own.projectId == other.projectId
    ensures Sources(cat, req, own.projectId) == [RowLevels(cat, own, req.since), RowLevels(cat, other, req.since)]
  {
    OneSource(cat, req.direct, req.since);
    OneSource(cat, req.group, req.since);
  }

  lemma TwoMaps(maps: seq<LevelMap>, service: string)
    requires |maps| == 2 && service in maps[0] && service in maps[1]
    ensures service in HighestPerService(maps)
    ensures Rank(HighestPerService(maps)[service]) >= Rank(maps[1][service])
  {
    HighestIsMaximum(maps, service);
    assert maps[1] in maps;
  }

  /**
   * It also occurs the other way: an orphan row of a project the member also has
   * themselves raises the oracle's level, so the report expects more than the engine gives.
   */
  lemma OrphanRowsRaise(cat: Catalog, base: Request, g: Groups, own: Row, orphan: Row, check: Check, service: string)
    requires IsService(cat, service) && base.kind.Session? && base.scope.None?
    requires !IsPrivileged(base.user.role) && base.legacy == [] && base.direct == [own]
    requires |g.memberOf| == 1 && g.memberOf[0] !in g.existing && g.memberOf[0] in g.rows
             && g.rows[g.memberOf[0]] == [orphan]
    requires own.projectId == orphan.projectId != ""
    requires Rank(OwnLevel(cat, base.user, service)) >= Rank(Required(cat, check, service))
    requires service in RowLevels(cat, own, base.since) && service in RowLevels(cat, orphan, base.since)
    requires Rank(RowLevels(cat, own, base.since)[service]) < Rank(Required(cat, check, service))
             <= Rank(RowLevels(cat, orphan, base.since)[service])
    ensures !After(cat, EngineRequest(base, g), [], check, service)
            && OracleAllows(cat, OracleRequest(base, g), check, service)
  {
    RaisedMembership(cat, base, g, own, orphan, service);
    NoGrants(cat, OracleRequest(base, g), service);
    NoGrants(cat, EngineRequest(base, g), service);
    RaisedAnswers(cat, EngineRequest(base, g), OracleRequest(base, g), check, service);
  }

  lemma RaisedMembership(cat: Catalog, base: Request, g: Groups, own: Row, orphan: Row, service: string)
    requires base.kind.Session? && !IsPrivileged(base.user.role) && base.legacy == [] && base.direct == [own]
    requires |g.memberOf| == 1 && g.memberOf[0] !in g.existing && g.memberOf[0] in g.rows
             && g.rows[g.memberOf[0]] == [orphan]
    requires own.projectId == orphan.projectId != ""
    requires service in RowLevels(cat, own, base.since) && service in RowLevels(cat, orphan, base.since)
    ensures EngineRequest(base, g).grants == [] && OracleRequest(base, g).grants == []
    ensures MembershipOf(cat, EngineRequest(base, g))
            == Some(Membership(own.projectId, RowLevels(cat, own, base.since)))
    ensures var m := MembershipOf(cat, OracleRequest(base, g));
            m.Some? && service in m.value.levels
            && Rank(m.value.levels[service]) >= Rank(RowLevels(cat, orphan, base.since)[service])
  {
    var engine, oracle := EngineRequest(base, g), OracleRequest(base, g);
    OneGroup(g.memberOf, g);
    SingleRow(cat, engine, own);
    OnlyProject(oracle, own.projectId);
    TwoSources(cat, oracle, own, orphan);
    TwoMaps(Sources(cat, oracle, own.projectId), service);
  }

  lemma RaisedAnswers(cat: Catalog, engine: Request, oracle: Request, check: Check, service: string)
    requires IsService(cat, service) && WellFormed(engine)
    requires Rank(OwnerLevel(cat, engine, service)) >= Rank(Required(cat, check, service))
    requires Rank(OwnerLevel(cat, oracle, service)) >= Rank(Required(cat, check, service))
    requires RefusedBy(MembershipOf(cat, engine), service, Required(cat, check, service))
    requires !RefusedBy(MembershipOf(cat, oracle), service, Required(cat, check, service))
    ensures !After(cat, engine, [], check, service) && OracleAllows(cat, oracle, check, service)
  {
    var required := Required(cat, check, service);
    EngineMatchesOracle(cat, engine, check, service);
    NarrowedThreshold(OwnerLevel(cat, engine, service), MembershipOf(cat, engine), service, required);
    NarrowedThreshold(OwnerLevel(cat, oracle, service), MembershipOf(cat, oracle), service, required);
  }

  lemma NoProjects(req: Request)
    requires req.legacy == [] && req.direct == [] && req.group == []
    ensures Members(req) == []
  {
    assert req.legacy + ProjectIds(req.direct) + ProjectIds(req.group) == [];
  }
}

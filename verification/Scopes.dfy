/**
 * The rules read off the stored texts themselves (src/lib/security/rbac.ts,
 * scripts/iam/preflight/oracle.ts, before.ts): what a token scope leaves, what the
 * previous release ignored, and exactly which answers move.
 */
module Scopes {
  import opened Options
  import opened Levels
  import opened Rbac
  import opened Oracle
  import opened Engine
  import opened Attribution
  import opened Orphans

  // ── a token scope ──

  /** The three answers a scope leaves of those the caller would have without one. */
  function LeftByScope(cat: Catalog, scope: Stored, service: string, unscoped: Checks): Checks {
    if scope.NotAnObject? || service !in scope.entries || !IsService(cat, service) then Checks(false, false, false)
    else if scope.entries[service] == "read" then Checks(unscoped.read, false, false)
    else if scope.entries[service] == "write" then
      Checks(unscoped.read, unscoped.write && !Definition(cat, service).adminService, false)
    else if scope.entries[service] == "admin" then unscoped
    else Checks(false, false, false)
  }

  lemma CappedAnswers(cat: Catalog, level: Level, scope: Stored, service: string)
    ensures AnswersOfLevel(cat, Capped(cat, level, Some(scope), service), service)
            == LeftByScope(cat, scope, service, AnswersOfLevel(cat, level, service))
  {
  }

  lemma NarrowedCapped(cat: Catalog, level: Level, scope: Stored, membership: Option<Membership>, service: string)
    ensures Narrowed(Capped(cat, level, Some(scope), service), membership, service)
            == Capped(cat, Narrowed(level, membership, service), Some(scope), service)
  {
  }

  /** The oracle: a service the scope does not name is refused, a named one is limited to its stored level. */
  lemma ScopeLimitsOracle(cat: Catalog, req: Request, scope: Stored, service: string)
    ensures OracleAnswers(cat, req.(scope := Some(scope)), service)
            == LeftByScope(cat, scope, service, OracleAnswers(cat, req.(scope := None), service))
  {
    var scoped, unscoped := req.(scope := Some(scope)), req.(scope := None);
    assert Members(scoped) == Members(unscoped);
    assert MembershipOf(cat, scoped) == MembershipOf(cat, unscoped);
    var level := WorkspaceLevel(cat, req.user, req.grants, service);
    NarrowedCapped(cat, level, scope, MembershipOf(cat, unscoped), service);
    CappedAnswers(cat, Narrowed(level, MembershipOf(cat, unscoped), service), scope, service);
  }

  /** The previous release: the same. */
  lemma ScopeLimitsBefore(cat: Catalog, req: Request, scope: Stored, service: string)
    ensures AnswersBefore(cat, req.(scope := Some(scope)), service)
            == LeftByScope(cat, scope, service, AnswersBefore(cat, req.(scope := None), service))
  {
    CappedAnswers(cat, WorkspaceLevel(cat, req.user, PreviousGrants(req), service), scope, service);
  }

  lemma EngineIsOracle(cat: Catalog, req: Request, service: string)
    requires IsService(cat, service) && WellFormed(req)
    ensures AnswersAfter(cat, req, [], service) == OracleAnswers(cat, req, service)
  {
    EngineMatchesOracle(cat, req, ReadCheck, service);
    EngineMatchesOracle(cat, req, WriteCheck, service);
    EngineMatchesOracle(cat, req, AdminCheck, service);
  }

  /** And the engine: the same. */
  lemma ScopeLimitsEngine(cat: Catalog, req: Request, scope: Stored, service: string)
    requires IsService(cat, service) && req.kind.Token?
    ensures AnswersAfter(cat, req.(scope := Some(scope)), [], service)
            == LeftByScope(cat, scope, service, AnswersAfter(cat, req.(scope := None), [], service))
  {
    EngineIsOracle(cat, req.(scope := Some(scope)), service);
    EngineIsOracle(cat, req.(scope := None), service);
    ScopeLimitsOracle(cat, req, scope, service);
  }

  // ── who is never narrowed, and what tokens had ──

  /** An owner or admin, by their own role or a group's, keeps the workspace level in every project. */
  lemma PrivilegedKeepTheirs(cat: Catalog, req: Request, service: string)
    requires req.user.role in {"owner", "admin"} || exists g :: g in req.grants && g.role in {"owner", "admin"}
    ensures MembershipOf(cat, req).None? && OracleLevel(cat, req, service) == OwnerLevel(cat, req, service)
  {
  }

  /** The previous release gave a token nothing of its owner's groups, and a person all of theirs. */
  lemma TokensHadNoGroups(cat: Catalog, req: Request, service: string)
    ensures AnswersBefore(cat, req, service)
            == AuthorizedChecks(cat, req.user, if req.kind == Token then [] else req.grants, req.scope, service)
  {
  }

  // ── exactly which answers move ──

  lemma AfterThreshold(cat: Catalog, req: Request, check: Check, service: string)
    requires IsService(cat, service) && WellFormed(req)
    ensures After(cat, req, [], check, service) <==>
              && Rank(OwnerLevel(cat, req, service)) >= Rank(Required(cat, check, service))
              && !RefusedBy(MembershipOf(cat, req), service, Required(cat, check, service))
  {
    EngineMatchesOracle(cat, req, check, service);
    NarrowedThreshold(OwnerLevel(cat, req, service), MembershipOf(cat, req), service, Required(cat, check, service));
  }

  /** An answer is lost exactly when the previous release gave it and the active project names a lower level. */
  lemma LosesExactly(cat: Catalog, req: Request, check: Check, service: string)
    requires IsService(cat, service) && WellFormed(req)
    ensures Before(cat, req, check, service) && !After(cat, req, [], check, service) <==>
              && Rank(BeforeLevel(cat, req, service)) >= Rank(Required(cat, check, service))
              && RefusedBy(MembershipOf(cat, req), service, Required(cat, check, service))
  {
    AfterThreshold(cat, req, check, service);
    UpThenDown(cat, req, service);
  }

  /**
   * An answer is gained exactly by a token whose owner's groups reach it, its own level does not,
   * and no project refuses it.
   */
  lemma GainsExactly(cat: Catalog, req: Request, check: Check, service: string)
    requires IsService(cat, service) && WellFormed(req)
    ensures !Before(cat, req, check, service) && After(cat, req, [], check, service) <==>
              && req.kind.Token?
              && Rank(Capped(cat, OwnLevel(cat, req.user, service), req.scope, service)) < Rank(Required(cat, check,
                  service))
              && Rank(OwnerLevel(cat, req, service)) >= Rank(Required(cat, check, service))
              && !RefusedBy(MembershipOf(cat, req), service, Required(cat, check, service))
  {
    AfterThreshold(cat, req, check, service);
    UpThenDown(cat, req, service);
    assert req.kind.Token?
        ==> WorkspaceLevel(cat, req.user, PreviousGrants(req), service) == OwnLevel(cat, req.user, service);
  }

  /** The cause the runner records for one answer under the managed policies. */
  function CauseOf(cat: Catalog, req: Request, check: Check, service: string): Cause {
    ClassifyCheck(Before(cat, req, check, service), After(cat, req, [], check, service),
                  Some(Inputs(Allowed(cat, Previous(cat, req), [], check, service),
                              Allowed(cat, NoNarrowing(cat, req), [], check, service),
                              Authorized(cat, req.user, req.grants, req.scope, check, service))), false)
  }

  /**
   * An unchanged answer is called masked exactly when the owner's groups would give it and the
   * project takes it back.
   */
  lemma MaskedExactly(cat: Catalog, req: Request, check: Check, service: string)
    requires IsService(cat, service) && WellFormed(req)
    ensures CauseOf(cat, req, check, service) == Masked <==>
              && Rank(BeforeLevel(cat, req, service)) < Rank(Required(cat, check, service))
              && Rank(OwnerLevel(cat, req, service)) >= Rank(Required(cat, check, service))
              && RefusedBy(MembershipOf(cat, req), service, Required(cat, check, service))
  {
    EngineReproducesArithmetic(cat, req, check, service);
    AfterThreshold(cat, req, check, service);
    UpThenDown(cat, req, service);
  }

  // ── levels and answers ──

  /** The printed level is the level behind the answers; on an administration service "write" prints as "read". */
  lemma LevelRoundTrip(cat: Catalog, level: Level, service: string)
    ensures LevelOfChecks(AnswersOfLevel(cat, level, service))
            == if Definition(cat, service).adminService && level == CanWrite then CanRead else level
  {
  }
}

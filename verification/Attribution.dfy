/**
 * Why an answer changes with the upgrade: the causes of model.ts, the previous
 * release's answers of before.ts, and the attribution step of run.ts.
 */
module Attribution {
  import opened Options
  import opened Levels
  import opened Rbac
  import opened Oracle
  import opened Engine

  datatype Cause =
    | Same
    | Masked
    | ProjectNarrowing
    | TokenGroups
    | TokenGroupsAndNarrowing
    | CustomPolicies
    | ParityMismatch
    | Unexplained

  predicate IsIntegrityCause(cause: Cause) {
    cause.ParityMismatch? || cause.Unexplained?
  }

  /** The extra answers asked when a service changed (or everything is verified). */
  datatype Inputs = Inputs(previousInputs: bool, withoutProject: bool, ownerGroups: bool)

  function ClassifyCheck(before: bool, after: bool, inputs: Option<Inputs>, customPolicies: bool): Cause {
    match inputs
    case None =>
      if after == before then Same else if customPolicies then CustomPolicies else Unexplained
    case Some(a) =>
      if a.previousInputs != before then if customPolicies then CustomPolicies else ParityMismatch
      else if a.withoutProject != a.ownerGroups then if customPolicies then CustomPolicies else Unexplained
      else
        var groupsChange := a.withoutProject != a.previousInputs;
        var narrowChange := after != a.withoutProject;
        if !groupsChange && !narrowChange then Same
        else if groupsChange && narrowChange then Masked
        else if groupsChange then TokenGroups
        else ProjectNarrowing
  }

  function MergeCauses(causes: seq<Cause>): Cause {
    if forall c :: c in causes ==> c == Same || c == Masked then if Masked in causes then Masked else Same
    else if ParityMismatch in causes then ParityMismatch
    else if Unexplained in causes then Unexplained
    else if CustomPolicies in causes then CustomPolicies
    else
      var groups := TokenGroups in causes || TokenGroupsAndNarrowing in causes;
      var narrowing := ProjectNarrowing in causes || TokenGroupsAndNarrowing in causes;
      if groups && narrowing then TokenGroupsAndNarrowing else if groups then TokenGroups else ProjectNarrowing
  }

  /** What the report keeps about one service of one context (accumulate.ts `ServiceObservation`). */
  datatype ServiceObservation = ServiceObservation(
    service: string,
    before: Checks,
    after: Checks,
    causes: map<Check, Cause>,
    deferred: Option<Checks>)

  // ── the answers compared ──

  /** The previous release gave a token none of its owner's group grants. */
  function PreviousGrants(req: Request): seq<Grant> {
    if req.kind.Token? then [] else req.grants
  }

  predicate Before(cat: Catalog, req: Request, check: Check, service: string) {
    Authorized(cat, req.user, PreviousGrants(req), req.scope, check, service)
  }

  /** before.ts `previousAnswers`. */
  method PreviousAnswers(cat: Catalog, user: Grant, grants: seq<Grant>, scope: Option<Stored>, service: string)
    returns (out: Checks)
    ensures out == AuthorizedChecks(cat, user, grants, scope, service)
  {
    var current := ComputeWorkspaceLevel(cat, user, grants, service);
    out := ChecksOfLevel(cat, Capped(cat, current, scope, service), service);
  }

  predicate After(cat: Catalog, req: Request, custom: seq<Custom>, check: Check, service: string) {
    Allowed(cat, BuildPrincipal(cat, req), custom, check, service)
  }

  /** The principal outside any project (`skipProjectNarrowing`). */
  function NoNarrowing(cat: Catalog, req: Request): Principal {
    PrincipalOf(cat, req, None)
  }

  /** The same principal with the level sets of the previous release's inputs. */
  function Previous(cat: Catalog, req: Request): Principal {
    NoNarrowing(cat, req).(sets := SetsOf(cat, s => WorkspaceLevel(cat, req.user, PreviousGrants(req), s)))
  }

  function AnswersBefore(cat: Catalog, req: Request, service: string): Checks {
    AuthorizedChecks(cat, req.user, PreviousGrants(req), req.scope, service)
  }

  function AnswersAfter(cat: Catalog, req: Request, custom: seq<Custom>, service: string): Checks {
    Verdicts(cat, BuildPrincipal(cat, req), custom, service)
  }

  function OwnerAnswers(cat: Catalog, req: Request, service: string): Checks {
    if req.kind.Token? then AuthorizedChecks(cat, req.user, req.grants, req.scope, service)
    else AnswersBefore(cat, req, service)
  }

  /** `classifyCheck` on each of the three answers. */
  function ClassifyAll(before: Checks, after: Checks, previous: Checks, noProject: Checks, owner: Checks,
                       customPolicies: bool): seq<Cause> {
    [ClassifyCheck(before.read, after.read, Some(Inputs(previous.read, noProject.read, owner.read)), customPolicies),
     ClassifyCheck(before.write, after.write, Some(Inputs(previous.write, noProject.write, owner.write)),
                   customPolicies),
     ClassifyCheck(before.admin, after.admin, Some(Inputs(previous.admin, noProject.admin, owner.admin)),
                   customPolicies)]
  }

  function CausesOf(cat: Catalog, req: Request, custom: seq<Custom>, service: string): seq<Cause> {
    ClassifyAll(AnswersBefore(cat, req, service), AnswersAfter(cat, req, custom, service),
                Verdicts(cat, Previous(cat, req), custom, service),
                Verdicts(cat, NoNarrowing(cat, req), custom, service),
                OwnerAnswers(cat, req, service), custom != [])
  }

  // ── every change has one cause ──

  /**
   * The engine fed the previous inputs is the previous release; without project levels it is the
   * new workspace rules.
   */
  lemma EngineReproducesArithmetic(cat: Catalog, req: Request, check: Check, service: string)
    requires IsService(cat, service) && WellFormed(req)
    ensures Allowed(cat, Previous(cat, req), [], check, service) == Before(cat, req, check, service)
    ensures Allowed(cat, NoNarrowing(cat, req), [], check, service)
            == Authorized(cat, req.user, req.grants, req.scope, check, service)
  {
    VerdictIsThreshold(cat, req, None, check, service);
    HoldsIsThreshold(cat, s => WorkspaceLevel(cat, req.user, PreviousGrants(req), s), check, service);
    if req.scope.Some? { CapsAreThreshold(cat, req.scope.value, check, service); }
  }

  function BeforeLevel(cat: Catalog, req: Request, service: string): Level {
    Capped(cat, WorkspaceLevel(cat, req.user, PreviousGrants(req), service), req.scope, service)
  }

  function OwnerLevel(cat: Catalog, req: Request, service: string): Level {
    Capped(cat, WorkspaceLevel(cat, req.user, req.grants, service), req.scope, service)
  }

  /** Token groups only raise, project levels only lower. */
  lemma UpThenDown(cat: Catalog, req: Request, service: string)
    ensures Rank(BeforeLevel(cat, req, service)) <= Rank(OwnerLevel(cat, req, service))
    ensures Rank(OracleLevel(cat, req, service)) <= Rank(OwnerLevel(cat, req, service))
    ensures req.kind.Session? ==> BeforeLevel(cat, req, service) == OwnerLevel(cat, req, service)
  {
    WorkspaceLevelIsHighest(cat, req.user, req.grants, service);
  }

  /** A cause that says no more and no less than the direction of the answer. */
  predicate Explains(cause: Cause, before: bool, after: bool, kind: Kind) {
    && (cause == ProjectNarrowing <==> before && !after)
    && (cause == TokenGroups <==> !before && after)
    && (cause == Same || cause == Masked <==> before == after)
    && (cause == TokenGroups || cause == Masked ==> kind.Token?)
  }

  predicate ExplainsAll(causes: seq<Cause>, before: Checks, after: Checks, kind: Kind) {
    && |causes| == 3
    && Explains(causes[0], before.read, after.read, kind)
    && Explains(causes[1], before.write, after.write, kind)
    && Explains(causes[2], before.admin, after.admin, kind)
  }

  /**
   * With the managed policies alone, the cause of one answer is settled by its
   * direction: tightened means project levels, loosened means the token owner's
   * groups, and an answer that does not move is "same" or "masked" (tokens only).
   */
  lemma CauseIsDirection(cat: Catalog, req: Request, check: Check, service: string)
    requires IsService(cat, service) && WellFormed(req)
    ensures var before, after := Before(cat, req, check, service), After(cat, req, [], check, service);
            var inputs := Inputs(Allowed(cat, Previous(cat, req), [], check, service),
                                 Allowed(cat, NoNarrowing(cat, req), [], check, service),
                                 if req.kind.Token?
                                     then Authorized(cat, req.user, req.grants, req.scope, check, service)
                                 else before);
            Explains(ClassifyCheck(before, after, Some(inputs), false), before, after, req.kind)
  {
    EngineReproducesArithmetic(cat, req, check, service);
    EngineMatchesOracle(cat, req, check, service);
    UpThenDown(cat, req, service);
  }

  lemma CausesAreDirections(cat: Catalog, req: Request, service: string)
    requires IsService(cat, service) && WellFormed(req)
    ensures ExplainsAll(CausesOf(cat, req, [], service), AnswersBefore(cat, req, service),
                        AnswersAfter(cat, req, [], service), req.kind)
  {
    CauseIsDirection(cat, req, ReadCheck, service);
    CauseIsDirection(cat, req, WriteCheck, service);
    CauseIsDirection(cat, req, AdminCheck, service);
  }

  predicate SomeTightens(before: Checks, after: Checks) {
    (before.read && !after.read) || (before.write && !after.write) || (before.admin && !after.admin)
  }

  predicate SomeLoosens(before: Checks, after: Checks) {
    SomeTightens(after, before)
  }

  /** The three answers are thresholds on one level each: read first, then write, then admin. */
  lemma AnswersAreLadders(cat: Catalog, req: Request, service: string)
    requires IsService(cat, service) && WellFormed(req)
    ensures var before, after := AnswersBefore(cat, req, service), AnswersAfter(cat, req, [], service);
            && (before.admin ==> before.write) && (before.write ==> before.read)
            && (after.admin ==> after.write) && (after.write ==> after.read)
            && !(SomeTightens(before, after) && SomeLoosens(before, after))
  {
    EngineMatchesOracle(cat, req, ReadCheck, service);
    EngineMatchesOracle(cat, req, WriteCheck, service);
    EngineMatchesOracle(cat, req, AdminCheck, service);
  }

  /** Merging three causes that explain one-directional answers. */
  lemma MergeExplained(before: Checks, after: Checks, causes: seq<Cause>, kind: Kind)
    requires ExplainsAll(causes, before, after, kind)
    requires !(SomeTightens(before, after) && SomeLoosens(before, after))
    ensures MergeCauses(causes) == ProjectNarrowing <==> SomeTightens(before, after)
    ensures MergeCauses(causes) == TokenGroups <==> SomeLoosens(before, after)
    ensures MergeCauses(causes) == Same || MergeCauses(causes) == Masked <==> before == after
    ensures MergeCauses(causes) == TokenGroups || MergeCauses(causes) == Masked ==> kind.Token?
  {
    assert causes[0] in causes && causes[1] in causes && causes[2] in causes;
    assert forall c :: c in causes ==> c in {Same, Masked, ProjectNarrowing, TokenGroups};
  }

  /**
   * The cause printed for a service: project levels exactly when some answer
   * tightens, token groups exactly when some answer loosens, and nothing to
   * report exactly when no answer changes. So the combined cause and the
   * integrity causes cannot occur, and a person's answers only ever tighten.
   */
  lemma ServiceCause(cat: Catalog, req: Request, service: string)
    requires IsService(cat, service) && WellFormed(req)
    ensures var before, after := AnswersBefore(cat, req, service), AnswersAfter(cat, req, [], service);
            var cause := MergeCauses(CausesOf(cat, req, [], service));
            && (cause == ProjectNarrowing <==> SomeTightens(before, after))
            && (cause == TokenGroups <==> SomeLoosens(before, after))
            && (cause == Same || cause == Masked <==> before == after)
            && (cause == TokenGroups || cause == Masked ==> req.kind.Token?)
            && !(SomeTightens(before, after) && SomeLoosens(before, after))
  {
    CausesAreDirections(cat, req, service);
    AnswersAreLadders(cat, req, service);
    MergeExplained(AnswersBefore(cat, req, service), AnswersAfter(cat, req, [], service),
                   CausesOf(cat, req, [], service), req.kind);
  }

  /**
   * What disagrees with the arithmetic is the custom policies' doing where there are some, and a
   * fault where there are none.
   */
  lemma DisagreementIsBlamed(before: bool, after: bool, a: Inputs)
    ensures a.previousInputs != before || a.withoutProject != a.ownerGroups ==>
              ClassifyCheck(before, after, Some(a), true) == CustomPolicies
    ensures a.previousInputs != before ==> ClassifyCheck(before, after, Some(a), false) == ParityMismatch
    ensures a.previousInputs == before && a.withoutProject != a.ownerGroups ==>
              ClassifyCheck(before, after, Some(a), false) == Unexplained
    ensures a.previousInputs == before && a.withoutProject == a.ownerGroups ==>
              ClassifyCheck(before, after, Some(a), true) == ClassifyCheck(before, after, Some(a), false)
    ensures before != after ==>
              && ClassifyCheck(before, after, None, true) == CustomPolicies
              && ClassifyCheck(before, after, None, false) == Unexplained
  {
  }

  /** How much a cause weighs in a report. */
  function Severity(cause: Cause): nat {
    match cause
    case Same => 0
    case Masked => 1
    case ProjectNarrowing => 2
    case TokenGroups => 2
    case TokenGroupsAndNarrowing => 3
    case CustomPolicies => 4
    case Unexplained => 5
    case ParityMismatch => 6
  }

  /** The merged cause is the worst of its parts, or the combination of two that weigh the same. */
  lemma MergeIsWorst(causes: seq<Cause>)
    requires causes != []
    ensures forall c :: c in causes ==> Severity(c) <= Severity(MergeCauses(causes))
    ensures MergeCauses(causes) in causes
            || (MergeCauses(causes) == TokenGroupsAndNarrowing && TokenGroups in causes && ProjectNarrowing in causes)
    ensures TokenGroups in causes && ProjectNarrowing in causes ==> Severity(MergeCauses(causes)) >= 3
  {
    assert causes[0] in causes;
  }

  lemma MergeKeepsIntegrity(causes: seq<Cause>)
    ensures IsIntegrityCause(MergeCauses(causes)) <==> ParityMismatch in causes || Unexplained in causes
  {
  }

  lemma ClassifyBlamesCustom(before: Checks, after: Checks, previous: Checks, noProject: Checks, owner: Checks)
    ensures !IsIntegrityCause(MergeCauses(ClassifyAll(before, after, previous, noProject, owner, true)))
  {
    var causes := ClassifyAll(before, after, previous, noProject, owner, true);
    assert !IsIntegrityCause(causes[0]) && !IsIntegrityCause(causes[1]) && !IsIntegrityCause(causes[2]);
    MergeKeepsIntegrity(causes);
  }

  /** With custom policies in force a difference is theirs: the report never calls itself unreliable. */
  lemma CustomPoliciesAreBlamed(cat: Catalog, req: Request, custom: seq<Custom>, service: string)
    requires custom != []
    ensures !IsIntegrityCause(MergeCauses(CausesOf(cat, req, custom, service)))
  {
    ClassifyBlamesCustom(AnswersBefore(cat, req, service), AnswersAfter(cat, req, custom, service),
                         Verdicts(cat, Previous(cat, req), custom, service),
                         Verdicts(cat, NoNarrowing(cat, req), custom, service),
                         OwnerAnswers(cat, req, service));
  }

  /**
   * The printed level moves in the direction of the answers: it never stays put
   * while an answer changes, so the accumulator's tie-break on counts is never used.
   */
  lemma LevelsFollowAnswers(cat: Catalog, req: Request, service: string)
    requires IsService(cat, service) && WellFormed(req)
    ensures var before, after := AnswersBefore(cat, req, service), AnswersAfter(cat, req, [], service);
            var direction := DirectionOfLevels(LevelOfChecks(before), LevelOfChecks(after));
            && (direction == Tighten <==> SomeTightens(before, after))
            && (direction == Loosen <==> SomeLoosens(before, after))
  {
    AnswersAreLadders(cat, req, service);
  }
}

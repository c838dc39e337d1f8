/**
 * One workspace from end to end (scripts/iam/preflight/run.ts): the observations
 * `evaluate` makes, folded by the accumulator. With the managed policies alone the
 * figures of any directory are clean: no parity mismatch, nothing unexplained, no
 * combined cause, and every bucket of one direction.
 */
module Workspace {
  import opened Options
  import opened Levels
  import opened Rbac
  import opened Oracle
  import opened Engine
  import opened Attribution
  import Memo
  import opened Memberships
  import opened Preflight
  import opened Accumulate
  import opened Sums
  import Rollups
  import Lines

  /** One call of `evaluate` and `addContext`: whose request it is, its project label, and the services asked about. */
  datatype Case = Case(info: PrincipalInfo, project: string, caller: Caller, base: Request, groups: Groups,
                       services: seq<string>) {
    function Req(): Request {
      EngineRequest(base, groups)
    }

    function Independent(): Request {
      OracleRequest(base, groups)
    }

    /** All rows the runner holds for the caller. */
    function Rows(): seq<Row> {
      Independent().direct + Independent().group
    }
  }

  function ContextOf(cat: Catalog, setup: Setup, c: Case): Context {
    Context(c.info, c.project, ObserveAllVia(cat, setup, c.caller, c.Req(), c.Rows(), c.services))
  }

  function ContextsOf(cat: Catalog, setup: Setup, cases: seq<Case>): (r: seq<Context>)
    ensures |r| == |cases|
    ensures forall i :: 0 <= i < |cases| ==> r[i] == ContextOf(cat, setup, cases[i])
  {
    seq(|cases|, i requires 0 <= i < |cases| => ContextOf(cat, setup, cases[i]))
  }

  /** The oracle mismatches of the whole workspace. */
  function WorkspaceMismatches(cat: Catalog, setup: Setup, cases: seq<Case>): nat {
    if cases == [] then 0
    else WorkspaceMismatches(cat, setup, cases[..|cases| - 1]) + CaseMismatches(cat, setup, cases[|cases| - 1])
  }

  function CaseMismatches(cat: Catalog, setup: Setup, c: Case): nat {
    AllMismatchesVia(cat, setup, c.caller, c.Req(), c.Independent(), c.services)
  }

  method CompareCase(cat: Catalog, setup: Setup, d: Memo.Decider, acc: TenantAccumulator, c: Case)
    returns (mismatches: nat)
    requires Ready(setup, d) && acc.customPolicies == setup.custom
    modifies d`failures, d.memo, acc
    ensures Ready(setup, d)
    ensures acc.Abs() == AddContext(old(acc.Abs()), ContextOf(cat, setup, c), setup.custom)
    ensures mismatches == CaseMismatches(cat, setup, c)
    ensures NeverFails(setup.ask) ==> d.failures == old(d.failures)
  {
    var observed;
    observed, mismatches := Evaluate(cat, setup, d, c.caller, c.base, c.groups, c.services);
    acc.RecordContext(Context(c.info, c.project, observed));
  }

  /** The next case of a workspace, on top of those already compared. */
  method CompareNext(cat: Catalog, setup: Setup, d: Memo.Decider, acc: TenantAccumulator, cases: seq<Case>, i: nat,
                     ghost start: Acc)
    returns (mismatches: nat)
    requires Ready(setup, d) && acc.customPolicies == setup.custom && i < |cases|
    requires acc.Abs() == AccAfter(start, cat, setup, cases, i)
    modifies d`failures, d.memo, acc
    ensures Ready(setup, d) && acc.Abs() == AccAfter(start, cat, setup, cases, i + 1)
    ensures WorkspaceMismatches(cat, setup, cases[..i + 1]) == WorkspaceMismatches(cat, setup, cases[..i]) + mismatches
    ensures NeverFails(setup.ask) ==> d.failures == old(d.failures)
  {
    OneMoreCase(start, cat, setup, cases, i);
    mismatches := CompareCase(cat, setup, d, acc, cases[i]);
  }

  ghost function AccAfter(start: Acc, cat: Catalog, setup: Setup, cases: seq<Case>, n: nat): Acc
    requires n <= |cases|
  {
    AddAll(start, ContextsOf(cat, setup, cases[..n]), setup.custom)
  }

  /** The loops over people and tokens: evaluate every case, feed the accumulator, count the mismatches. */
  method Compare(cat: Catalog, setup: Setup, d: Memo.Decider, cases: seq<Case>)
    returns (acc: TenantAccumulator, mismatches: nat, ghost start: Acc)
    requires Ready(setup, d)
    modifies d`failures, d.memo
    ensures fresh(acc) && acc.customPolicies == setup.custom && Fresh(start)
    ensures acc.Abs() == AddAll(start, ContextsOf(cat, setup, cases), setup.custom)
    ensures mismatches == WorkspaceMismatches(cat, setup, cases)
    ensures NeverFails(setup.ask) ==> d.failures == old(d.failures)
  {
    acc := new TenantAccumulator(setup.custom);
    mismatches, start := 0, acc.Abs();
    for i := 0 to |cases|
      invariant Ready(setup, d) && fresh(acc) && acc.customPolicies == setup.custom
      invariant acc.Abs() == AccAfter(start, cat, setup, cases, i)
      invariant mismatches == WorkspaceMismatches(cat, setup, cases[..i])
      invariant NeverFails(setup.ask) ==> d.failures == old(d.failures)
    {
      var n := CompareNext(cat, setup, d, acc, cases, i, start);
      mismatches := mismatches + n;
    }
    assert cases[..|cases|] == cases;
  }

  lemma OneMoreCase(start: Acc, cat: Catalog, setup: Setup, cases: seq<Case>, i: nat)
    requires i < |cases|
    ensures AddAll(start, ContextsOf(cat, setup, cases[..i + 1]), setup.custom)
            == AddContext(AddAll(start, ContextsOf(cat, setup, cases[..i]), setup.custom),
                          ContextOf(cat, setup, cases[i]), setup.custom)
    ensures WorkspaceMismatches(cat, setup, cases[..i + 1])
            == WorkspaceMismatches(cat, setup, cases[..i]) + CaseMismatches(cat, setup, cases[i])
  {
    var next, contexts := cases[..i + 1], ContextsOf(cat, setup, cases[..i + 1]);
    assert next[..i] == cases[..i] && next[i] == cases[i];
    assert contexts[..i] == ContextsOf(cat, setup, cases[..i]) && contexts[i] == ContextOf(cat, setup, cases[i]);
  }

  /** `people` are keys the runner only uses for signed-in members. */
  predicate Proper(cat: Catalog, c: Case, people: set<string>) {
    && WellFormed(c.base)
    && (forall s :: s in c.services ==> IsService(cat, s))
    && (c.info.key in people ==> c.base.kind.Session?)
  }

  // ── one observation ──

  predicate Told(x: Answer, kind: Kind) {
    Explains(x.cause, x.before, x.after, kind)
  }

  predicate AllTold(answers: seq<Answer>, kind: Kind) {
    forall i :: 0 <= i < |answers| ==> Told(answers[i], kind)
  }

  /** An answer without a recorded cause did not change, so it is filed as "same". */
  lemma UnattributedTold(o: ServiceObservation, kind: Kind)
    requires o.before == o.after && ReadCheck !in o.causes && WriteCheck !in o.causes && AdminCheck !in o.causes
    ensures AllTold(AnswersOf(o, false), kind)
  {
  }

  lemma AttributedTold(o: ServiceObservation, causes: seq<Cause>, kind: Kind)
    requires ExplainsAll(causes, o.before, o.after, kind) && o.causes == CauseMap(causes)
    ensures AllTold(AnswersOf(o, false), kind)
    ensures CausesFor(o, false) == causes
  {
  }

  lemma ObservationTold(cat: Catalog, verifyAll: bool, c: Caller, req: Request, rows: seq<Row>, service: string)
    requires IsService(cat, service) && WellFormed(req)
    ensures AllTold(AnswersOf(ObserveVia(cat, Managed(cat, verifyAll), c, req, rows, service), false), req.kind)
  {
    ManagedObservation(cat, c, req, rows, verifyAll, service);
    ManagedTold(cat, req, rows, verifyAll, service);
  }

  lemma ManagedTold(cat: Catalog, req: Request, rows: seq<Row>, verifyAll: bool, service: string)
    requires IsService(cat, service) && WellFormed(req)
    ensures AllTold(AnswersOf(Observe(cat, req, rows, verifyAll, service), false), req.kind)
  {
    var o := Observe(cat, req, rows, verifyAll, service);
    CausesAreDirections(cat, req, service);
    if o.before != o.after || verifyAll {
      AttributedTold(o, CausesOf(cat, req, [], service), req.kind);
    } else {
      UnattributedTold(o, req.kind);
    }
  }

  /** The line a changed service gets: its cause is project levels exactly when its direction is "tighten". */
  lemma LineMatchesCause(cat: Catalog, req: Request, rows: seq<Row>, verifyAll: bool, service: string)
    requires IsService(cat, service) && WellFormed(req)
    requires AnswersBefore(cat, req, service) != AnswersAfter(cat, req, [], service)
    ensures var o := Observe(cat, req, rows, verifyAll, service);
            && (KeyFor(o, false).cause == ProjectNarrowing <==> ServiceDirection(o) == Tighten)
            && (KeyFor(o, false).cause == TokenGroups <==> ServiceDirection(o) == Loosen)
  {
    var o := Observe(cat, req, rows, verifyAll, service);
    CausesAreDirections(cat, req, service);
    AttributedTold(o, CausesOf(cat, req, [], service), req.kind);
    ServiceCause(cat, req, service);
    LevelsFollowAnswers(cat, req, service);
    AnswersAreLadders(cat, req, service);
  }

  // ── the accumulator stays clean ──

  /** Only the two honest causes have buckets, each bucket moves one way, and no person is filed under token groups. */
  predicate Clean(c: Counts, buckets: map<Cause, Bucket>, people: set<string>) {
    && c.parityMismatches == 0 && c.unexplained == 0
    && (forall cause :: cause in buckets ==> cause == ProjectNarrowing || cause == TokenGroups)
    && OneWay(c, BucketAt(buckets, ProjectNarrowing), BucketAt(buckets, TokenGroups))
    && BucketAt(buckets, TokenGroups).principals !! people
  }

  predicate OneWay(c: Counts, narrowing: Bucket, groups: Bucket) {
    && c.tighten == narrowing.tighten == narrowing.decisions && narrowing.loosen == 0
    && c.loosen == groups.loosen == groups.decisions && groups.tighten == 0
  }

  lemma AnswerKeepsClean(c: Counts, buckets: map<Cause, Bucket>, people: set<string>, principal: string,
                         service: string, x: Answer, kind: Kind)
    requires Clean(c, buckets, people) && Told(x, kind) && (principal in people ==> kind.Session?)
    ensures var direction := DirectionOf(x.before, x.after);
            Clean(Count(c, x.cause, direction), File(buckets, x.cause, principal, service, direction), people)
  {
  }

  lemma {:induction false} AnswersKeepClean(c: Counts, buckets: map<Cause, Bucket>, people: set<string>,
                                            principal: string, service: string, answers: seq<Answer>, kind: Kind)
    requires Clean(c, buckets, people) && AllTold(answers, kind) && (principal in people ==> kind.Session?)
    ensures Clean(CountAll(c, answers), FileAll(buckets, principal, service, answers), people)
  {
    if answers != [] {
      var init, x := answers[..|answers| - 1], answers[|answers| - 1];
      AnswersKeepClean(c, buckets, people, principal, service, init, kind);
      AnswerKeepsClean(CountAll(c, init), FileAll(buckets, principal, service, init), people, principal, service, x,
                       kind);
    }
  }

  ghost predicate CleanAcc(a: Acc, people: set<string>) {
    Clean(a.counts, a.buckets, people)
  }

  lemma {:induction false} ServicesKeepClean(a: Acc, people: set<string>, cat: Catalog, verifyAll: bool, c: Case,
                                             services: seq<string>)
    requires CleanAcc(a, people) && c.info.key in a.principals
    requires Proper(cat, c.(services := services), people)
    ensures var observed := ObserveAllVia(cat, Managed(cat, verifyAll), c.caller, c.Req(), c.Rows(), services);
            CleanAcc(AddServices(a, c.info.key, c.project, observed, false), people)
  {
    if services != [] {
      var init, service := services[..|services| - 1], services[|services| - 1];
      ServicesKeepClean(a, people, cat, verifyAll, c, init);
      ObservationTold(cat, verifyAll, c.caller, c.Req(), c.Rows(), service);
      ObserveMore(cat, Managed(cat, verifyAll), c.caller, c.Req(), c.Rows(), services, |services| - 1);
      assert services[..|services|] == services;
      NextService(a, people, c.info.key, c.project,
                  ObserveAllVia(cat, Managed(cat, verifyAll), c.caller, c.Req(), c.Rows(), init),
                  ObserveVia(cat, Managed(cat, verifyAll), c.caller, c.Req(), c.Rows(), service), c.Req().kind);
    }
  }

  lemma NextService(a: Acc, people: set<string>, principal: string, project: string, observed: seq<ServiceObservation>,
                    o: ServiceObservation, kind: Kind)
    requires principal in a.principals && (principal in people ==> kind.Session?)
    requires CleanAcc(AddServices(a, principal, project, observed, false), people) && AllTold(AnswersOf(o, false), kind)
    ensures CleanAcc(AddServices(a, principal, project, observed + [o], false), people)
  {
    OneMoreService(a, principal, project, observed, o, false);
    ServiceKeepsClean(AddServices(a, principal, project, observed, false), people, principal, project, o, kind);
  }

  lemma OneMoreService(a: Acc, principal: string, project: string, observed: seq<ServiceObservation>,
                       o: ServiceObservation, custom: bool)
    requires principal in a.principals
    ensures AddServices(a, principal, project, observed + [o], custom)
            == AddService(AddServices(a, principal, project, observed, custom), principal, project, o, custom)
  {
    var all := observed + [o];
    assert all[..|all| - 1] == observed && all[|all| - 1] == o;
  }

  lemma ServiceKeepsClean(a: Acc, people: set<string>, principal: string, project: string, o: ServiceObservation,
                          kind: Kind)
    requires principal in a.principals && (principal in people ==> kind.Session?)
    requires CleanAcc(a, people) && AllTold(AnswersOf(o, false), kind)
    ensures CleanAcc(AddService(a, principal, project, o, false), people)
  {
    AnswersKeepClean(a.counts, a.buckets, people, principal, o.service, AnswersOf(o, false), kind);
  }

  lemma EnterKeepsClean(a: Acc, info: PrincipalInfo, people: set<string>)
    requires CleanAcc(a, people)
    ensures CleanAcc(Enter(a, info), people)
  {
  }

  lemma FreshIsClean(a: Acc, people: set<string>)
    requires Fresh(a)
    ensures CleanAcc(a, people)
  {
  }

  /**
   * Whatever the directory, and whether or not every answer is verified: after any
   * sequence of contexts nothing is a parity mismatch or unexplained, project levels
   * only ever take away, token groups only ever add, the direction totals are those
   * two buckets, and no signed-in member is listed as gaining.
   */
  lemma {:induction false} WorkspaceIsClean(start: Acc, cat: Catalog, cases: seq<Case>, verifyAll: bool,
                                            people: set<string>)
    requires Fresh(start) && forall i :: 0 <= i < |cases| ==> Proper(cat, cases[i], people)
    ensures CleanAcc(AddAll(start, ContextsOf(cat, Managed(cat, verifyAll), cases), false), people)
  {
    if cases == [] {
      FreshIsClean(start, people);
    } else {
      var n := |cases| - 1;
      WorkspaceIsClean(start, cat, cases[..n], verifyAll, people);
      var a := AddAll(start, ContextsOf(cat, Managed(cat, verifyAll), cases[..n]), false);
      CaseKeepsClean(a, people, cat, verifyAll, cases[n]);
      OneMoreCase(start, cat, Managed(cat, verifyAll), cases, n);
      assert cases[..n + 1] == cases;
    }
  }

  lemma CaseKeepsClean(a: Acc, people: set<string>, cat: Catalog, verifyAll: bool, c: Case)
    requires CleanAcc(a, people) && Proper(cat, c, people)
    ensures CleanAcc(AddContext(a, ContextOf(cat, Managed(cat, verifyAll), c), false), people)
  {
    EnterKeepsClean(a, c.info, people);
    ServicesKeepClean(Enter(a, c.info), people, cat, verifyAll, c, c.services);
  }

  // ── the engine and the oracle ──

  predicate NoOrphans(cases: seq<Case>) {
    forall i :: 0 <= i < |cases| ==> NoOrphanRows(cases[i].groups)
  }

  /** Without orphan rows a workspace has no oracle mismatch. */
  lemma {:induction false} WorkspaceAgrees(cat: Catalog, cases: seq<Case>, verifyAll: bool, people: set<string>)
    requires NoOrphans(cases) && forall i :: 0 <= i < |cases| ==> Proper(cat, cases[i], people)
    ensures WorkspaceMismatches(cat, Managed(cat, verifyAll), cases) == 0
  {
    if cases != [] {
      var c := cases[|cases| - 1];
      WorkspaceAgrees(cat, cases[..|cases| - 1], verifyAll, people);
      ReportsNoMismatch(cat, c.caller, c.base, c.groups, verifyAll, c.services);
    }
  }

  predicate AgreesAbout(cat: Catalog, setup: Setup, c: Case) {
    AllAgree(cat, setup, c.caller, c.Req(), c.Independent(), c.services)
  }

  lemma CaseCounted(cat: Catalog, setup: Setup, c: Case)
    requires !setup.custom
    ensures CaseMismatches(cat, setup, c) == 0 <==> AgreesAbout(cat, setup, c)
  {
    NothingCounted(cat, setup, c.caller, c.Req(), c.Independent(), c.services);
  }

  predicate AllAgreeAbout(cat: Catalog, setup: Setup, cases: seq<Case>) {
    cases == [] || (AllAgreeAbout(cat, setup, cases[..|cases| - 1]) && AgreesAbout(cat, setup, cases[|cases| - 1]))
  }

  /** A workspace counts no mismatch exactly when engine and oracle agree about every case, service and check. */
  lemma {:induction false} MismatchesAreCounted(cat: Catalog, setup: Setup, cases: seq<Case>)
    requires !setup.custom
    ensures WorkspaceMismatches(cat, setup, cases) == 0 <==> AllAgreeAbout(cat, setup, cases)
  {
    if cases != [] {
      MismatchesAreCounted(cat, setup, cases[..|cases| - 1]);
      CaseCounted(cat, setup, cases[|cases| - 1]);
    }
  }

  // ── what every workspace's figures count ──

  /** Whatever the engine answers, the causes come from `classifyCheck` or are unset. */
  lemma ObservedIsHonest(cat: Catalog, setup: Setup, c: Caller, req: Request, rows: seq<Row>, service: string)
    ensures Honest(ObserveVia(cat, setup, c, req, rows, service), setup.custom)
  {
    var o := ObserveVia(cat, setup, c, req, rows, service);
    if o.before != o.after || setup.verifyAll {
      ClassifiedMap(o, Via(setup.ask, c, Previous(cat, req), service),
                    Via(setup.ask, c, NoNarrowing(cat, req), service),
                    OwnerAnswers(cat, req, service), setup.custom);
    }
    ClassifiedIsHonest(o, setup.custom);
  }

  lemma ClassifiedMap(o: ServiceObservation, previous: Checks, noProject: Checks, owner: Checks, custom: bool)
    requires o.causes == CauseMap(ClassifyAll(o.before, o.after, previous, noProject, owner, custom))
    ensures forall check :: check in o.causes ==> Classified(o, check, custom)
  {
    forall check | check in o.causes ensures Classified(o, check, custom) {
      var inputs := Some(Inputs(previous.At(check), noProject.At(check), owner.At(check)));
      assert o.causes[check] == ClassifyCheck(o.before.At(check), o.after.At(check), inputs, custom);
    }
  }

  lemma CaseIsHonest(cat: Catalog, setup: Setup, c: Case)
    ensures Rollups.AllHonest(ContextOf(cat, setup, c).services, setup.custom)
  {
    var observed := ContextOf(cat, setup, c).services;
    forall i | 0 <= i < |observed| ensures Honest(observed[i], setup.custom) {
      ObservedIsHonest(cat, setup, c.caller, c.Req(), c.Rows(), c.services[i]);
    }
  }

  /**
   * The tighten and loosen totals of any workspace, through any engine, are its numbers of answers
   * that moved each way.
   */
  lemma WorkspaceTotalsAreMoves(start: Acc, cat: Catalog, setup: Setup, cases: seq<Case>)
    requires Fresh(start)
    ensures var contexts := ContextsOf(cat, setup, cases);
            var counts := AddAll(start, contexts, setup.custom).counts;
            && counts.tighten == AllMoved(contexts, Tighten, setup.custom)
            && counts.loosen == AllMoved(contexts, Loosen, setup.custom)
  {
    var contexts := ContextsOf(cat, setup, cases);
    AllContextsHonest(cat, setup, cases);
    forall i, j | 0 <= i < |contexts| && 0 <= j < |contexts[i].services|
        ensures Honest(contexts[i].services[j], setup.custom) {
      assert Rollups.AllHonest(contexts[i].services, setup.custom);
    }
    TotalsAreMoves(start, contexts, setup.custom);
  }

  lemma AllContextsHonest(cat: Catalog, setup: Setup, cases: seq<Case>)
    ensures |ContextsOf(cat, setup, cases)| == |cases|
    ensures forall i :: 0 <= i < |cases| ==> Rollups.AllHonest(ContextsOf(cat, setup, cases)[i].services, setup.custom)
  {
    var contexts := ContextsOf(cat, setup, cases);
    forall i | 0 <= i < |cases| ensures Rollups.AllHonest(contexts[i].services, setup.custom) {
      CaseIsHonest(cat, setup, cases[i]);
    }
  }

  /** One case per principal and project label, each service asked about once. */
  ghost predicate DistinctCases(cases: seq<Case>) {
    && (forall i, j ::
          0 <= i < j < |cases| ==> cases[i].info.key != cases[j].info.key || cases[i].project != cases[j].project)
    && (forall i :: 0 <= i < |cases| ==> NoDuplicates(cases[i].services))
  }

  lemma CaseServicesDistinct(cat: Catalog, setup: Setup, c: Case)
    requires NoDuplicates(c.services)
    ensures Rollups.DistinctServices(ContextOf(cat, setup, c).services)
  {
    var observed := ContextOf(cat, setup, c).services;
    forall i | 0 <= i < |observed| ensures observed[i].service == c.services[i] {
      assert observed[i] == ObserveVia(cat, setup, c.caller, c.Req(), c.Rows(), c.services[i]);
    }
  }

  lemma CasesDistinct(cat: Catalog, setup: Setup, cases: seq<Case>)
    requires DistinctCases(cases)
    ensures Rollups.Distinct(ContextsOf(cat, setup, cases))
  {
    var contexts := ContextsOf(cat, setup, cases);
    forall i | 0 <= i < |contexts| ensures Rollups.DistinctServices(contexts[i].services) {
      CaseServicesDistinct(cat, setup, cases[i]);
    }
  }

  /** And its service changes number exactly the observations whose answers changed. */
  lemma WorkspaceServiceChanges(start: Acc, cat: Catalog, setup: Setup, cases: seq<Case>, es: seq<Rollups.Entry>)
    requires Fresh(start) && DistinctCases(cases) && NoDuplicates(es)
    requires forall e ::
               e in es <==> Rollups.IsEntry(AddAll(start, ContextsOf(cat, setup, cases), setup.custom).principals, e)
    ensures |es| == Rollups.ChangedObservations(ContextsOf(cat, setup, cases))
  {
    AllContextsHonest(cat, setup, cases);
    CasesDistinct(cat, setup, cases);
    Rollups.ServiceChangesAreObservations(start, ContextsOf(cat, setup, cases), setup.custom, es);
  }

  // ── the rollups of a workspace ──

  lemma ObservedIsLaddered(cat: Catalog, verifyAll: bool, c: Caller, req: Request, rows: seq<Row>, service: string)
    requires IsService(cat, service) && WellFormed(req)
    ensures Lines.Laddered(ObserveVia(cat, Managed(cat, verifyAll), c, req, rows, service))
  {
    ManagedObservation(cat, c, req, rows, verifyAll, service);
    LevelsFollowAnswers(cat, req, service);
  }

  lemma CaseIsLaddered(cat: Catalog, verifyAll: bool, c: Case, people: set<string>)
    requires Proper(cat, c, people)
    ensures Lines.AllLaddered(ContextOf(cat, Managed(cat, verifyAll), c).services)
  {
    var observed := ContextOf(cat, Managed(cat, verifyAll), c).services;
    forall i | 0 <= i < |observed| ensures Lines.Laddered(observed[i]) {
      assert c.services[i] in c.services;
      ObservedIsLaddered(cat, verifyAll, c.caller, c.Req(), c.Rows(), c.services[i]);
    }
  }

  /**
   * For any directory under the managed policies, both rollups count under "tighten"
   * exactly the services in which some answer is lost.
   */
  lemma WorkspaceRollups(start: Acc, cat: Catalog, verifyAll: bool, cases: seq<Case>, people: set<string>,
                         es: seq<Rollups.Entry>)
    requires Fresh(start) && DistinctCases(cases) && NoDuplicates(es)
    requires forall i :: 0 <= i < |cases| ==> Proper(cat, cases[i], people)
    requires forall e :: e in es <==>
               Rollups.IsEntry(AddAll(start, ContextsOf(cat, Managed(cat, verifyAll), cases), false).principals, e)
    ensures var contexts := ContextsOf(cat, Managed(cat, verifyAll), cases);
            var ps := AddAll(start, contexts, false).principals;
            && Rollups.Total(Rollups.Roll(es, ps, Rollups.ByProject), true) == Lines.TightenedObservations(contexts)
            && Rollups.Total(Rollups.Roll(es, ps, Rollups.ByService), true) == Lines.TightenedObservations(contexts)
  {
    var contexts := ContextsOf(cat, Managed(cat, verifyAll), cases);
    AllContextsHonest(cat, Managed(cat, verifyAll), cases);
    CasesDistinct(cat, Managed(cat, verifyAll), cases);
    forall i | 0 <= i < |contexts| ensures Lines.AllLaddered(contexts[i].services) {
      CaseIsLaddered(cat, verifyAll, cases[i], people);
    }
    Lines.RollupsCountTightened(start, contexts, false, es);
  }
}

/**
 * One workspace of the report (scripts/iam/preflight/run.ts): the `evaluate` step
 * that asks the engine (through the memo), compares it with the previous release
 * and with the oracle, and attributes every changed answer.
 */
module Preflight {
  import opened Options
  import opened Levels
  import opened Rbac
  import opened Oracle
  import opened Engine
  import opened Attribution
  import opened Memo
  import opened Memberships
  import opened Orphans
  import opened Sums

  // ── evaluating one context ──

  /** Rows of the narrowing project still carry a "No access" the upgrade does not read. */
  predicate HasIgnored(cat: Catalog, rows: seq<Row>, project: string, since: int) {
    exists i :: 0 <= i < |rows| && rows[i].projectId == project && IgnoredNone(cat, rows[i], since) != {}
  }

  /**
   * The engine narrows by a project, and one of the rows the runner holds for that
   * project, those of deleted groups included, has something the upgrade ignores.
   */
  predicate DefersAnything(cat: Catalog, req: Request, rows: seq<Row>) {
    ResolveNarrowing(cat, req).Some? && HasIgnored(cat, rows, PickProject(req).value, req.since)
  }

  function CauseMap(causes: seq<Cause>): map<Check, Cause>
    requires |causes| == 3
  {
    map[ReadCheck := causes[0], WriteCheck := causes[1], AdminCheck := causes[2]]
  }

  function Differences(a: Checks, b: Checks): nat {
    One(a.read != b.read) + One(a.write != b.write) + One(a.admin != b.admin)
  }

  // ── through any engine ──

  /** How one workspace is evaluated: the engine it asks, whether custom policies are in force, and `--verify-all`. */
  datatype Setup = Setup(ask: Ask, custom: bool, verifyAll: bool)

  /** Who is asking: the channel, and what else identifies the caller. */
  datatype Caller = Caller(channel: string, who: string)

  function Via(ask: Ask, c: Caller, p: Principal, service: string): Checks {
    Direct(ask, Query(c.channel, c.who, p, service))
  }

  function CausesVia(cat: Catalog, setup: Setup, c: Caller, req: Request, service: string): seq<Cause> {
    ClassifyAll(AnswersBefore(cat, req, service), Via(setup.ask, c, BuildPrincipal(cat, req), service),
                Via(setup.ask, c, Previous(cat, req), service), Via(setup.ask, c, NoNarrowing(cat, req), service),
                OwnerAnswers(cat, req, service), setup.custom)
  }

  /** The observation `evaluate` records about one service, whatever the engine answers. */
  function ObserveVia(cat: Catalog, setup: Setup, c: Caller, req: Request, rows: seq<Row>,
                      service: string): ServiceObservation {
    var before, after := AnswersBefore(cat, req, service), Via(setup.ask, c, BuildPrincipal(cat, req), service);
    var deferred := Via(setup.ask, c, BuildPrincipal(cat, req.(since := 0)), service);
    ServiceObservation(
      service, before, after,
      if before != after || setup.verifyAll then CauseMap(CausesVia(cat, setup, c, req, service)) else map[],
      if DefersAnything(cat, req, rows) && deferred != after then Some(deferred) else None)
  }

  /** Engine answers that differ from the oracle's; not counted under custom policies. */
  function MismatchesVia(cat: Catalog, setup: Setup, c: Caller, req: Request, oracle: Request, service: string): nat {
    if setup.custom then 0
    else Differences(OracleAnswers(cat, oracle, service), Via(setup.ask, c, BuildPrincipal(cat, req), service))
  }

  function ObserveAllVia(cat: Catalog, setup: Setup, c: Caller, req: Request, rows: seq<Row>,
                         services: seq<string>): (r: seq<ServiceObservation>)
    ensures |r| == |services|
    ensures forall i :: 0 <= i < |services| ==> r[i] == ObserveVia(cat, setup, c, req, rows, services[i])
  {
    seq(|services|, i requires 0 <= i < |services| => ObserveVia(cat, setup, c, req, rows, services[i]))
  }

  lemma ObserveMore(cat: Catalog, setup: Setup, c: Caller, req: Request, rows: seq<Row>, services: seq<string>, n: nat)
    requires n < |services|
    ensures ObserveAllVia(cat, setup, c, req, rows, services[..n + 1])
            == ObserveAllVia(cat, setup, c, req, rows, services[..n])
                + [ObserveVia(cat, setup, c, req, rows, services[n])]
  {
    var a, b := services[..n + 1], services[..n];
    assert a[n] == services[n] && forall i :: 0 <= i < n ==> a[i] == b[i];
    Extends(ObserveAllVia(cat, setup, c, req, rows, a), ObserveAllVia(cat, setup, c, req, rows, b),
            ObserveVia(cat, setup, c, req, rows, services[n]));
  }

  function AllMismatchesVia(cat: Catalog, setup: Setup, c: Caller, req: Request, oracle: Request,
                            services: seq<string>): nat {
    if services == [] then 0
    else AllMismatchesVia(cat, setup, c, req, oracle, services[..|services| - 1])
         + MismatchesVia(cat, setup, c, req, oracle, services[|services| - 1])
  }

  ghost predicate NeverFails(ask: Ask) {
    forall q, check :: !ask(q, check).failed
  }

  /** The runner's decider: a memo only without custom policies, over an engine that answers by signature. */
  ghost predicate Ready(setup: Setup, d: Decider)
    reads d, d.memo
  {
    && d.ask == setup.ask
    && (d.memo != null ==> !setup.custom && SignatureOnly(d.ask) && Faithful(d.ask, d.memo.maxSignatures, d.Abs()))
  }

  /** One engine question through the memo: whoever asked first, the answer is this caller's. */
  method Consult(setup: Setup, d: Decider, c: Caller, p: Principal, service: string) returns (out: Checks)
    requires Ready(setup, d)
    modifies d`failures, d.memo
    ensures Ready(setup, d) && out == Via(setup.ask, c, p, service)
    ensures d.failures >= old(d.failures) && (NeverFails(d.ask) ==> d.failures == old(d.failures))
  {
    var q := Query(c.channel, c.who, p, service);
    if d.memo != null { StepIsDirect(d.ask, d.memo.maxSignatures, d.Abs(), q); }
    out := d.DecideAll(q);
  }

  /** The extra answers behind the causes of one service. */
  method Attribute(cat: Catalog, setup: Setup, d: Decider, c: Caller, req: Request, service: string, before: Checks,
                   after: Checks)
    returns (causes: seq<Cause>)
    requires Ready(setup, d)
    requires before == AnswersBefore(cat, req, service) && after == Via(setup.ask, c, BuildPrincipal(cat, req), service)
    modifies d`failures, d.memo
    ensures Ready(setup, d) && causes == CausesVia(cat, setup, c, req, service)
    ensures d.failures >= old(d.failures) && (NeverFails(d.ask) ==> d.failures == old(d.failures))
  {
    var owner := before;
    if req.kind.Token? {
      owner := PreviousAnswers(cat, req.user, req.grants, req.scope, service);
    }
    var noProject := Consult(setup, d, c, NoNarrowing(cat, req), service);
    var previous := Consult(setup, d, c, Previous(cat, req), service);
    causes := ClassifyAll(before, after, previous, noProject, owner, setup.custom);
  }

  /** The loop body of `evaluate`: one service of one context, and how far the engine strays from the oracle. */
  method EvaluateService(cat: Catalog, setup: Setup, d: Decider, c: Caller, req: Request, oracle: Request,
                         membership: Option<Membership>, service: string)
    returns (o: ServiceObservation, mismatches: nat)
    requires Ready(setup, d) && membership == MembershipOf(cat, oracle)
    modifies d`failures, d.memo
    ensures Ready(setup, d) && o == ObserveVia(cat, setup, c, req, oracle.direct + oracle.group, service)
    ensures mismatches == MismatchesVia(cat, setup, c, req, oracle, service)
    ensures d.failures >= old(d.failures) && (NeverFails(d.ask) ==> d.failures == old(d.failures))
  {
    var before := PreviousAnswers(cat, req.user, PreviousGrants(req), req.scope, service);
    var after := Consult(setup, d, c, BuildPrincipal(cat, req), service);
    var independent := OracleChecks(cat, oracle, service, membership);
    mismatches := if setup.custom then 0 else Differences(independent, after);
    var causes: map<Check, Cause> := map[];
    if before != after || setup.verifyAll {
      var three := Attribute(cat, setup, d, c, req, service, before, after);
      causes := CauseMap(three);
    }
    var deferred := None;
    if DefersAnything(cat, req, oracle.direct + oracle.group) {
      var answers := Consult(setup, d, c, BuildPrincipal(cat, req.(since := 0)), service);
      if answers != after { deferred := Some(answers); }
    }
    o := ServiceObservation(service, before, after, causes, deferred);
  }

  /** One pass of the loop, on top of the services already observed. */
  method EvaluateNext(cat: Catalog, setup: Setup, d: Decider, c: Caller, req: Request, oracle: Request,
                      membership: Option<Membership>, services: seq<string>, i: nat)
    returns (o: ServiceObservation, n: nat)
    requires Ready(setup, d) && membership == MembershipOf(cat, oracle) && i < |services|
    modifies d`failures, d.memo
    ensures Ready(setup, d)
    ensures var rows := oracle.direct + oracle.group;
            ObserveAllVia(cat, setup, c, req, rows, services[..i + 1])
                == ObserveAllVia(cat, setup, c, req, rows, services[..i]) + [o]
    ensures AllMismatchesVia(cat, setup, c, req, oracle, services[..i + 1])
            == AllMismatchesVia(cat, setup, c, req, oracle, services[..i]) + n
    ensures d.failures >= old(d.failures) && (NeverFails(d.ask) ==> d.failures == old(d.failures))
  {
    assert services[..i + 1][..i] == services[..i];
    ObserveMore(cat, setup, c, req, oracle.direct + oracle.group, services, i);
    o, n := EvaluateService(cat, setup, d, c, req, oracle, membership, services[i]);
  }

  /**
   * run.ts `evaluate`: every service of one context of one caller. With any engine,
   * custom policies or not, memoised or not, it records what asking each time would.
   */
  method Evaluate(cat: Catalog, setup: Setup, d: Decider, c: Caller, base: Request, g: Groups, services: seq<string>)
    returns (observed: seq<ServiceObservation>, mismatches: nat)
    requires Ready(setup, d)
    modifies d`failures, d.memo
    ensures Ready(setup, d)
    ensures var req, oracle := EngineRequest(base, g), OracleRequest(base, g);
            && observed == ObserveAllVia(cat, setup, c, req, oracle.direct + oracle.group, services)
            && mismatches == AllMismatchesVia(cat, setup, c, req, oracle, services)
    ensures d.failures >= old(d.failures) && (NeverFails(d.ask) ==> d.failures == old(d.failures))
  {
    var req, oracle := EngineRequest(base, g), OracleRequest(base, g);
    var membership := ComputeMembership(cat, oracle);
    observed, mismatches := [], 0;
    for i := 0 to |services|
      invariant Ready(setup, d)
      invariant observed == ObserveAllVia(cat, setup, c, req, oracle.direct + oracle.group, services[..i])
      invariant mismatches == AllMismatchesVia(cat, setup, c, req, oracle, services[..i])
      invariant d.failures >= old(d.failures) && (NeverFails(d.ask) ==> d.failures == old(d.failures))
    {
      var o, n := EvaluateNext(cat, setup, d, c, req, oracle, membership, services, i);
      observed, mismatches := observed + [o], mismatches + n;
    }
    assert services[..|services|] == services;
  }

  // ── through the managed policies ──

  function Managed(cat: Catalog, verifyAll: bool): Setup {
    Setup(ManagedAsk(cat), false, verifyAll)
  }

  /** The observation of a workspace without custom policies. */
  function Observe(cat: Catalog, req: Request, rows: seq<Row>, verifyAll: bool, service: string): ServiceObservation {
    var before, after := AnswersBefore(cat, req, service), AnswersAfter(cat, req, [], service);
    var deferred := AnswersAfter(cat, req.(since := 0), [], service);
    ServiceObservation(
      service, before, after,
      if before != after || verifyAll then CauseMap(CausesOf(cat, req, [], service)) else map[],
      if DefersAnything(cat, req, rows) && deferred != after then Some(deferred) else None)
  }

  lemma ManagedVia(cat: Catalog, c: Caller, p: Principal, service: string)
    ensures Via(ManagedAsk(cat), c, p, service) == Verdicts(cat, p, [], service)
  {
  }

  lemma ManagedObservation(cat: Catalog, c: Caller, req: Request, rows: seq<Row>, verifyAll: bool, service: string)
    ensures ObserveVia(cat, Managed(cat, verifyAll), c, req, rows, service)
            == Observe(cat, req, rows, verifyAll, service)
  {
    ManagedVia(cat, c, BuildPrincipal(cat, req), service);
    ManagedVia(cat, c, BuildPrincipal(cat, req.(since := 0)), service);
    ManagedVia(cat, c, Previous(cat, req), service);
    ManagedVia(cat, c, NoNarrowing(cat, req), service);
  }

  lemma AnswersAgree(cat: Catalog, base: Request, g: Groups, service: string)
    requires IsService(cat, service) && WellFormed(base) && NoOrphanRows(g)
    ensures AnswersAfter(cat, EngineRequest(base, g), [], service)
            == OracleAnswers(cat, OracleRequest(base, g), service)
  {
    NoMismatch(cat, base, g, ReadCheck, service);
    NoMismatch(cat, base, g, WriteCheck, service);
    NoMismatch(cat, base, g, AdminCheck, service);
  }

  /** Without orphan rows the report counts no oracle mismatch, whatever it evaluates. */
  lemma {:induction false} ReportsNoMismatch(cat: Catalog, c: Caller, base: Request, g: Groups, verifyAll: bool,
                                             services: seq<string>)
    requires WellFormed(base) && NoOrphanRows(g)
    requires forall s :: s in services ==> IsService(cat, s)
    ensures AllMismatchesVia(cat, Managed(cat, verifyAll), c, EngineRequest(base, g), OracleRequest(base, g),
                             services) == 0
  {
    if services != [] {
      ReportsNoMismatch(cat, c, base, g, verifyAll, services[..|services| - 1]);
      NoMismatchVia(cat, c, base, g, verifyAll, services[|services| - 1]);
    }
  }

  lemma NoMismatchVia(cat: Catalog, c: Caller, base: Request, g: Groups, verifyAll: bool, service: string)
    requires WellFormed(base) && NoOrphanRows(g) && IsService(cat, service)
    ensures MismatchesVia(cat, Managed(cat, verifyAll), c, EngineRequest(base, g), OracleRequest(base, g), service) == 0
  {
    AnswersAgree(cat, base, g, service);
    ManagedVia(cat, c, BuildPrincipal(cat, EngineRequest(base, g)), service);
  }

  // ── what a mismatch count says ──

  /** The count is the number of checks answered differently. */
  lemma DifferencesCount(a: Checks, b: Checks)
    ensures Differences(a, b) == 0 <==> a == b
    ensures Differences(a, b) == 3 <==> a.read != b.read && a.write != b.write && a.admin != b.admin
    ensures a.read == b.read && a.write == b.write && a.admin != b.admin ==> Differences(a, b) == 1
  {
  }

  predicate AgreeOn(cat: Catalog, setup: Setup, c: Caller, req: Request, oracle: Request, service: string) {
    OracleAnswers(cat, oracle, service) == Via(setup.ask, c, BuildPrincipal(cat, req), service)
  }

  /** Engine and oracle give the same three answers about every service. */
  predicate AllAgree(cat: Catalog, setup: Setup, c: Caller, req: Request, oracle: Request, services: seq<string>) {
    services == []
    || (AllAgree(cat, setup, c, req, oracle, services[..|services| - 1])
        && AgreeOn(cat, setup, c, req, oracle, services[|services| - 1]))
  }

  lemma OneCounted(cat: Catalog, setup: Setup, c: Caller, req: Request, oracle: Request, service: string)
    ensures setup.custom ==> MismatchesVia(cat, setup, c, req, oracle, service) == 0
    ensures !setup.custom ==>
              (AgreeOn(cat, setup, c, req, oracle, service) <==>
                 MismatchesVia(cat, setup, c, req, oracle, service) == 0)
  {
    DifferencesCount(OracleAnswers(cat, oracle, service), Via(setup.ask, c, BuildPrincipal(cat, req), service));
  }

  /** Without custom policies nothing is counted exactly when every answer agrees; with them nothing is ever counted. */
  lemma {:induction false} NothingCounted(cat: Catalog, setup: Setup, c: Caller, req: Request, oracle: Request,
                                          services: seq<string>)
    ensures setup.custom ==> AllMismatchesVia(cat, setup, c, req, oracle, services) == 0
    ensures !setup.custom ==>
              (AllAgree(cat, setup, c, req, oracle, services) <==>
                 AllMismatchesVia(cat, setup, c, req, oracle, services) == 0)
  {
    if services != [] {
      NothingCounted(cat, setup, c, req, oracle, services[..|services| - 1]);
      OneCounted(cat, setup, c, req, oracle, services[|services| - 1]);
    }
  }
}

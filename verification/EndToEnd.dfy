/**
 * The whole report over the managed policies (scripts/iam/preflight/run.ts): what
 * its exit code says about itself.
 */
module EndToEnd {
  import opened Rbac
  import opened Memo
  import opened Preflight
  import opened Workspace
  import opened Report
  import A = Accumulate

  predicate AllProper(cat: Catalog, cases: seq<Case>, people: set<string>) {
    forall i :: 0 <= i < |cases| ==> Proper(cat, cases[i], people)
  }

  /** The integrity figures of one workspace whose engine never fails. */
  function IntegrityOf(cat: Catalog, verifyAll: bool, cases: seq<Case>, start: A.Acc): Integrity {
    var counts := A.AddAll(start, ContextsOf(cat, Managed(cat, verifyAll), cases), false).counts;
    Integrity(0, WorkspaceMismatches(cat, Managed(cat, verifyAll), cases), counts.parityMismatches, counts.unexplained)
  }

  /** The only way a workspace can look broken is an orphan row. */
  lemma IntegrityIsMismatch(cat: Catalog, verifyAll: bool, cases: seq<Case>, people: set<string>, start: A.Acc)
    requires A.Fresh(start) && AllProper(cat, cases, people)
    ensures IntegrityProblem(IntegrityOf(cat, verifyAll, cases, start))
            <==> WorkspaceMismatches(cat, Managed(cat, verifyAll), cases) > 0
    ensures IntegrityProblem(IntegrityOf(cat, verifyAll, cases, start))
            <==> !AllAgreeAbout(cat, Managed(cat, verifyAll), cases)
    ensures NoOrphans(cases) ==> !IntegrityProblem(IntegrityOf(cat, verifyAll, cases, start))
  {
    MismatchesAreCounted(cat, Managed(cat, verifyAll), cases);
    WorkspaceIsClean(start, cat, cases, verifyAll, people);
    if NoOrphans(cases) { WorkspaceAgrees(cat, cases, verifyAll, people); }
  }

  /** One workspace, from a fresh memo or without one, to its integrity figures. */
  method RunTenant(cat: Catalog, cases: seq<Case>, verifyAll: bool, noMemo: bool, ghost people: set<string>)
    returns (acc: A.TenantAccumulator, integrity: Integrity)
    requires AllProper(cat, cases, people)
    ensures fresh(acc)
    ensures IntegrityProblem(integrity) <==> !AllAgreeAbout(cat, Managed(cat, verifyAll), cases)
    ensures NoOrphans(cases) ==> !IntegrityProblem(integrity)
  {
    var setup := Managed(cat, verifyAll);
    var memo: DecisionMemo? := null;
    if !noMemo { memo := new DecisionMemo(); }
    var d := new Decider(ManagedAsk(cat), memo);
    ManagedIsSignatureOnly(cat);
    ghost var start;
    var mismatches;
    acc, mismatches, start := Compare(cat, setup, d, cases);
    integrity := Integrity(d.failures, mismatches, acc.counts.parityMismatches, acc.counts.unexplained);
    IntegrityIsMismatch(cat, verifyAll, cases, people, start);
    assert integrity == IntegrityOf(cat, verifyAll, cases, start);
  }

  /**
   * For any number of workspaces without orphan rows and custom policies, whatever
   * their directories, the totals report no integrity problem.
   */
  lemma ReportIsSound(cat: Catalog, verifyAll: bool, workspaces: seq<seq<Case>>, people: set<string>, start: A.Acc,
                      ts: seq<Tenant>, totals: Totals)
    requires A.Fresh(start) && |ts| == |workspaces| && AreTotals(totals, ts)
    requires forall i :: 0 <= i < |ts| ==> ts[i].integrity == IntegrityOf(cat, verifyAll, workspaces[i], start)
    requires forall i :: 0 <= i < |ts| ==> AllProper(cat, workspaces[i], people) && NoOrphans(workspaces[i])
    ensures !IntegrityProblem(totals.integrity)
  {
    IntegrityIsSome(ts, totals);
    forall i | 0 <= i < |ts| ensures !IntegrityProblem(ts[i].integrity) {
      IntegrityIsMismatch(cat, verifyAll, workspaces[i], people, start);
    }
  }
}

/**
 * Adding the workspaces of a report up (scripts/iam/preflight/report.ts
 * `buildTotals`, `integrityProblem`), and leaving the lists out
 * (scripts/iam/preflight/run.ts `stripLists`).
 */
module Report {
  import opened Attribution
  import opened Sums
  import A = Accumulate

  datatype CauseFigures = CauseFigures(decisions: nat, tighten: nat, loosen: nat, principals: nat)

  datatype Integrity = Integrity(engineFailures: nat, oracleMismatches: nat, parityMismatches: nat, unexplained: nat)

  predicate IntegrityProblem(i: Integrity) {
    i.engineFailures + i.oracleMismatches + i.parityMismatches + i.unexplained > 0
  }

  /** The plain counters of a workspace, and of the whole report. */
  datatype Figures = Figures(users: nat, tokens: nat, contexts: nat, decisions: nat, same: nat, masked: nat,
                             differs: nat,
                             tighten: nat, loosen: nat, changedUsers: nat, changedTokens: nat,
                             deferredPrincipals: nat, deferredEntries: nat, scopedTokens: nat)

  datatype Surface = Surface(id: string, count: nat, principals: seq<string>)

  /** The per-person lists, which `--summary-only` leaves out. */
  datatype Lists = Lists(principalChanges: seq<string>, deferred: seq<string>, tokens: seq<string>,
                         accessChanges: seq<string>, skipped: seq<string>)

  datatype Tenant = Tenant(figures: Figures, byCause: map<Cause, CauseFigures>, integrity: Integrity,
                           newlyGated: seq<Surface>, access: map<string, nat>, lists: Lists)

  datatype Totals = Totals(tenants: nat, figures: Figures, byCause: map<Cause, CauseFigures>, integrity: Integrity,
                           newlyGated: map<string, nat>, access: map<string, nat>)

  // ── adding one workspace ──

  function AddFigures(a: Figures, b: Figures): Figures {
    Figures(a.users + b.users, a.tokens + b.tokens, a.contexts + b.contexts, a.decisions + b.decisions, a.same + b.same,
            a.masked + b.masked, a.differs + b.differs, a.tighten + b.tighten, a.loosen + b.loosen,
            a.changedUsers + b.changedUsers, a.changedTokens + b.changedTokens,
            a.deferredPrincipals + b.deferredPrincipals, a.deferredEntries + b.deferredEntries,
            a.scopedTokens + b.scopedTokens)
  }

  function AddIntegrity(a: Integrity, b: Integrity): Integrity {
    Integrity(a.engineFailures + b.engineFailures, a.oracleMismatches + b.oracleMismatches,
              a.parityMismatches + b.parityMismatches, a.unexplained + b.unexplained)
  }

  function AddCause(a: CauseFigures, b: CauseFigures): CauseFigures {
    CauseFigures(a.decisions + b.decisions, a.tighten + b.tighten, a.loosen + b.loosen, a.principals + b.principals)
  }

  const NO_CAUSE := CauseFigures(0, 0, 0, 0)

  function CauseAt(m: map<Cause, CauseFigures>, c: Cause): CauseFigures {
    if c in m then m[c] else NO_CAUSE
  }

  function CountAt(m: map<string, nat>, k: string): nat {
    if k in m then m[k] else 0
  }

  function JoinCauses(sum: map<Cause, CauseFigures>, more: map<Cause, CauseFigures>): map<Cause, CauseFigures> {
    map c | c in sum.Keys + more.Keys :: AddCause(CauseAt(sum, c), CauseAt(more, c))
  }

  method AddCauses(sum: map<Cause, CauseFigures>, more: map<Cause, CauseFigures>) returns (r: map<Cause, CauseFigures>)
    ensures r == JoinCauses(sum, more)
  {
    r := sum;
    var left := more.Keys;
    while left != {}
      invariant left <= more.Keys
      invariant r.Keys == sum.Keys + (more.Keys - left)
      invariant forall c ::
                  c in r ==> r[c] == if c in left || c !in more then sum[c] else AddCause(CauseAt(sum, c), more[c])
      decreases left
    {
      var c :| c in left;
      r := r[c := AddCause(CauseAt(r, c), more[c])];
      left := left - {c};
    }
    AddNothing(sum, more);
  }

  lemma AddNothing(sum: map<Cause, CauseFigures>, more: map<Cause, CauseFigures>)
    ensures forall c :: c in sum && c !in more ==> AddCause(CauseAt(sum, c), CauseAt(more, c)) == sum[c]
  {
  }

  method AddCounts(sum: map<string, nat>, more: map<string, nat>) returns (r: map<string, nat>)
    ensures r.Keys == sum.Keys + more.Keys
    ensures forall k :: CountAt(r, k) == CountAt(sum, k) + CountAt(more, k)
  {
    r := sum;
    var left := more.Keys;
    while left != {}
      invariant left <= more.Keys
      invariant r.Keys == sum.Keys + (more.Keys - left)
      invariant forall k :: CountAt(r, k) == CountAt(sum, k) + if k in left then 0 else CountAt(more, k)
      decreases left
    {
      var k :| k in left;
      r := r[k := CountAt(r, k) + more[k]];
      left := left - {k};
    }
  }

  function SurfaceCount(s: seq<Surface>, id: string): nat {
    if s == [] then 0
    else SurfaceCount(s[..|s| - 1], id) + if s[|s| - 1].id == id then s[|s| - 1].count else 0
  }

  method AddSurfaces(sum: map<string, nat>, more: seq<Surface>) returns (r: map<string, nat>)
    ensures forall id :: CountAt(r, id) == CountAt(sum, id) + SurfaceCount(more, id)
    ensures forall id :: id in r <==> id in sum || exists s :: s in more && s.id == id
  {
    r := sum;
    for i := 0 to |more|
      invariant forall id :: CountAt(r, id) == CountAt(sum, id) + SurfaceCount(more[..i], id)
      invariant forall id :: id in r <==> id in sum || exists s :: s in more[..i] && s.id == id
    {
      assert more[..i + 1][..i] == more[..i] && more[..i + 1] == more[..i] + [more[i]];
      r := r[more[i].id := CountAt(r, more[i].id) + more[i].count];
    }
    assert more[..|more|] == more;
  }

  // ── every figure of the report ──

  datatype Figure =
    | Users | Tokens | Contexts | Decisions | SameCount | MaskedCount | Differs | TightenCount | LoosenCount
    | ChangedUsers | ChangedTokens | DeferredPrincipals | DeferredEntries | ScopedTokens
    | EngineFailures | OracleMismatches | ParityMismatches | UnexplainedCount
    | CauseDecisions(cause: Cause) | CauseTighten(cause: Cause)
    | CauseLoosen(cause: Cause) | CausePrincipals(cause: Cause)

  function PlainFigure(f: Figures, i: Integrity, byCause: map<Cause, CauseFigures>, figure: Figure): nat {
    match figure
    case Users => f.users
    case Tokens => f.tokens
    case Contexts => f.contexts
    case Decisions => f.decisions
    case SameCount => f.same
    case MaskedCount => f.masked
    case Differs => f.differs
    case TightenCount => f.tighten
    case LoosenCount => f.loosen
    case ChangedUsers => f.changedUsers
    case ChangedTokens => f.changedTokens
    case DeferredPrincipals => f.deferredPrincipals
    case DeferredEntries => f.deferredEntries
    case ScopedTokens => f.scopedTokens
    case EngineFailures => i.engineFailures
    case OracleMismatches => i.oracleMismatches
    case ParityMismatches => i.parityMismatches
    case UnexplainedCount => i.unexplained
    case CauseDecisions(c) => CauseAt(byCause, c).decisions
    case CauseTighten(c) => CauseAt(byCause, c).tighten
    case CauseLoosen(c) => CauseAt(byCause, c).loosen
    case CausePrincipals(c) => CauseAt(byCause, c).principals
  }

  /**
   * Any number a report shows: a plain one, the people behind a newly gated surface, the scenarios
   * of an access change.
   */
  datatype Number = Plain(figure: Figure) | Gated(id: string) | Access(change: string)

  function Own(t: Tenant, n: Number): nat {
    match n
    case Plain(figure) => PlainFigure(t.figures, t.integrity, t.byCause, figure)
    case Gated(id) => SurfaceCount(t.newlyGated, id)
    case Access(change) => CountAt(t.access, change)
  }

  function Shown(t: Totals, n: Number): nat {
    match n
    case Plain(figure) => PlainFigure(t.figures, t.integrity, t.byCause, figure)
    case Gated(id) => CountAt(t.newlyGated, id)
    case Access(change) => CountAt(t.access, change)
  }

  /** The reference: a number added up over the workspaces. */
  function SumOf(ts: seq<Tenant>, n: Number): nat {
    if ts == [] then 0 else SumOf(ts[..|ts| - 1], n) + Own(ts[|ts| - 1], n)
  }

  ghost predicate AreTotals(t: Totals, ts: seq<Tenant>) {
    t.tenants == |ts| && forall n :: Shown(t, n) == SumOf(ts, n)
  }

  lemma PlainAdds(f: Figures, g: Figures, i: Integrity, j: Integrity, b: map<Cause, CauseFigures>, c: map<Cause,
                  CauseFigures>, figure: Figure)
    ensures PlainFigure(AddFigures(f, g), AddIntegrity(i, j), JoinCauses(b, c), figure)
            == PlainFigure(f, i, b, figure) + PlainFigure(g, j, c, figure)
  {
  }

  method AddTenant(t: Totals, one: Tenant) returns (r: Totals)
    ensures r.tenants == t.tenants + 1 && forall n :: Shown(r, n) == Shown(t, n) + Own(one, n)
  {
    var byCause := AddCauses(t.byCause, one.byCause);
    var newlyGated := AddSurfaces(t.newlyGated, one.newlyGated);
    var access := AddCounts(t.access, one.access);
    r := Totals(t.tenants + 1, AddFigures(t.figures, one.figures), byCause,
                AddIntegrity(t.integrity, one.integrity), newlyGated, access);
    forall n ensures Shown(r, n) == Shown(t, n) + Own(one, n) {
      if n.Plain? { PlainAdds(t.figures, one.figures, t.integrity, one.integrity, t.byCause, one.byCause, n.figure); }
    }
  }

  method BuildTotals(ts: seq<Tenant>) returns (t: Totals)
    ensures AreTotals(t, ts)
  {
    t := Totals(0, Figures(0, 0, 0, 0, 0, 0, 0, 0, 0, 0, 0, 0, 0, 0), map[], Integrity(0, 0, 0, 0), map[], map[]);
    for i := 0 to |ts|
      invariant AreTotals(t, ts[..i])
    {
      t := AddTenant(t, ts[i]);
      forall n ensures SumOf(ts[..i + 1], n) == SumOf(ts[..i], n) + Own(ts[i], n) { SumOne(ts, i, n); }
    }
    assert ts[..|ts|] == ts;
  }

  lemma SumOne(ts: seq<Tenant>, i: nat, n: Number)
    requires i < |ts|
    ensures SumOf(ts[..i + 1], n) == SumOf(ts[..i], n) + Own(ts[i], n)
  {
    var next := ts[..i + 1];
    assert next[..i] == ts[..i] && next[i] == ts[i];
  }

  // ── a sum homomorphism ──

  lemma {:induction false} SumConcat(a: seq<Tenant>, b: seq<Tenant>, n: Number)
    ensures SumOf(a + b, n) == SumOf(a, n) + SumOf(b, n)
    decreases |b|
  {
    if b == [] {
      assert a + b == a;
    } else {
      SumConcat(a, b[..|b| - 1], n);
      assert (a + b)[..|a + b| - 1] == a + b[..|b| - 1] && (a + b)[|a + b| - 1] == b[|b| - 1];
    }
  }

  /** Any workspace can be taken out first. */
  lemma TakeOutTenant(a: seq<Tenant>, i: nat, n: Number)
    requires i < |a|
    ensures SumOf(a, n) == SumOf(a[..i] + a[i + 1..], n) + Own(a[i], n)
  {
    assert a == a[..i + 1] + a[i + 1..];
    SumConcat(a[..i + 1], a[i + 1..], n);
    SumConcat(a[..i], a[i + 1..], n);
    SumOne(a, i, n);
  }

  lemma {:induction false} SumPermutes(a: seq<Tenant>, b: seq<Tenant>, n: Number)
    requires multiset(a) == multiset(b)
    ensures SumOf(a, n) == SumOf(b, n)
    decreases |a|
  {
    SameSize(a, b);
    if a != [] {
      var i := MatchLast(a, b);
      SumPermutes(a[..i] + a[i + 1..], b[..|b| - 1], n);
      TakeOutTenant(a, i, n);
    }
  }

  /** Joining two lists of workspaces adds every number. */
  lemma ConcatAdds(a: seq<Tenant>, ta: Totals, b: seq<Tenant>, tb: Totals, t: Totals)
    requires AreTotals(ta, a) && AreTotals(tb, b) && AreTotals(t, a + b)
    ensures t.tenants == ta.tenants + tb.tenants
    ensures forall n :: Shown(t, n) == Shown(ta, n) + Shown(tb, n)
  {
    forall n ensures Shown(t, n) == Shown(ta, n) + Shown(tb, n) {
      SumConcat(a, b, n);
      assert Shown(t, n) == SumOf(a + b, n) && Shown(ta, n) == SumOf(a, n) && Shown(tb, n) == SumOf(b, n);
    }
  }

  /** The order of the workspaces changes no number. */
  lemma OrderDoesNotMatter(a: seq<Tenant>, b: seq<Tenant>, t: Totals)
    requires multiset(a) == multiset(b)
    ensures AreTotals(t, a) <==> AreTotals(t, b)
  {
    SameSize(a, b);
    forall n ensures SumOf(a, n) == SumOf(b, n) { SumPermutes(a, b, n); }
  }

  // ── what the totals keep ──

  predicate Balanced(t: Tenant) {
    t.figures.decisions == t.figures.same + t.figures.masked + t.figures.differs
  }

  lemma {:induction false} SumsBalance(ts: seq<Tenant>)
    requires forall i :: 0 <= i < |ts| ==> Balanced(ts[i])
    ensures SumOf(ts, Plain(Decisions))
            == SumOf(ts, Plain(SameCount)) + SumOf(ts, Plain(MaskedCount)) + SumOf(ts, Plain(Differs))
  {
    if ts != [] { SumsBalance(ts[..|ts| - 1]); }
  }

  /** When every workspace accounts for its decisions, so do the totals. */
  lemma TotalsBalance(ts: seq<Tenant>, t: Totals)
    requires AreTotals(t, ts) && forall i :: 0 <= i < |ts| ==> Balanced(ts[i])
    ensures t.figures.decisions == t.figures.same + t.figures.masked + t.figures.differs
  {
    SumsBalance(ts);
    assert Shown(t, Plain(Decisions)) == SumOf(ts, Plain(Decisions))
        && Shown(t, Plain(SameCount)) == SumOf(ts, Plain(SameCount));
    assert Shown(t, Plain(MaskedCount)) == SumOf(ts, Plain(MaskedCount))
        && Shown(t, Plain(Differs)) == SumOf(ts, Plain(Differs));
  }

  lemma {:induction false} SumIsSome(ts: seq<Tenant>, n: Number)
    ensures SumOf(ts, n) > 0 <==> exists i :: 0 <= i < |ts| && Own(ts[i], n) > 0
  {
    if ts != [] {
      var init := ts[..|ts| - 1];
      SumIsSome(init, n);
      assert forall i :: 0 <= i < |init| ==> init[i] == ts[i];
    }
  }

  /** The four numbers that say the report itself cannot be trusted. */
  const SUSPECT: seq<Number> := [Plain(EngineFailures), Plain(OracleMismatches), Plain(ParityMismatches),
                                 Plain(UnexplainedCount)]

  lemma ProblemIsSuspect(t: Tenant)
    ensures IntegrityProblem(t.integrity) <==> exists k :: 0 <= k < 4 && Own(t, SUSPECT[k]) > 0
  {
    assert Own(t, SUSPECT[0]) == t.integrity.engineFailures && Own(t, SUSPECT[1]) == t.integrity.oracleMismatches;
    assert Own(t, SUSPECT[2]) == t.integrity.parityMismatches && Own(t, SUSPECT[3]) == t.integrity.unexplained;
  }

  lemma TotalProblemIsSuspect(t: Totals)
    ensures IntegrityProblem(t.integrity) <==> exists k :: 0 <= k < 4 && Shown(t, SUSPECT[k]) > 0
  {
    assert Shown(t, SUSPECT[0]) == t.integrity.engineFailures && Shown(t, SUSPECT[1]) == t.integrity.oracleMismatches;
    assert Shown(t, SUSPECT[2]) == t.integrity.parityMismatches && Shown(t, SUSPECT[3]) == t.integrity.unexplained;
  }

  /** The report flags an integrity problem exactly when some workspace has one. */
  lemma IntegrityIsSome(ts: seq<Tenant>, t: Totals)
    requires AreTotals(t, ts)
    ensures IntegrityProblem(t.integrity) <==> exists i :: 0 <= i < |ts| && IntegrityProblem(ts[i].integrity)
  {
    TotalProblemIsSuspect(t);
    forall k | 0 <= k < 4
        ensures Shown(t, SUSPECT[k]) > 0 <==> exists i :: 0 <= i < |ts| && Own(ts[i], SUSPECT[k]) > 0 {
      SumIsSome(ts, SUSPECT[k]);
    }
    forall i | 0 <= i < |ts|
        ensures IntegrityProblem(ts[i].integrity) <==> exists k :: 0 <= k < 4 && Own(ts[i], SUSPECT[k]) > 0 {
      ProblemIsSuspect(ts[i]);
    }
  }

  // ── the totals account for every difference ──

  datatype Movement = AnyWay | Tighter | Looser

  function Whole(m: Movement): Number {
    match m
    case AnyWay => Plain(Differs)
    case Tighter => Plain(TightenCount)
    case Looser => Plain(LoosenCount)
  }

  function Of(m: Movement, c: Cause): Number {
    match m
    case AnyWay => Plain(CauseDecisions(c))
    case Tighter => Plain(CauseTighten(c))
    case Looser => Plain(CauseLoosen(c))
  }

  /** The workspace figures are those an accumulator closes with. */
  ghost predicate FinishedFrom(t: Tenant, a: A.Acc) {
    && t.figures.decisions == a.counts.decisions && t.figures.same == a.counts.same
        && t.figures.masked == a.counts.masked
    && t.figures.differs == a.counts.decisions - a.counts.same - a.counts.masked
    && t.figures.tighten == a.counts.tighten && t.figures.loosen == a.counts.loosen
    && forall c :: SameFigures(CauseAt(t.byCause, c), A.BucketAt(a.buckets, c))
  }

  predicate SameFigures(f: CauseFigures, b: A.Bucket) {
    f.decisions == b.decisions && f.tighten == b.tighten && f.loosen == b.loosen && f.principals == |b.principals|
  }

  ghost predicate Accounted(t: Tenant, m: Movement) {
    Own(t, Whole(m))
        == Own(t, Of(m, ProjectNarrowing)) + Own(t, Of(m, TokenGroups)) + Own(t, Of(m, TokenGroupsAndNarrowing))
                        + Own(t, Of(m, CustomPolicies)) + Own(t, Of(m, ParityMismatch)) + Own(t, Of(m, Unexplained))
  }

  function FigureOfMovement(m: Movement): A.Figure {
    match m
    case AnyWay => A.Decisions
    case Tighter => A.Tightened
    case Looser => A.Loosened
  }

  lemma FinishedAt(t: Tenant, a: A.Acc, m: Movement, c: Cause)
    requires FinishedFrom(t, a)
    ensures Own(t, Of(m, c)) == A.FigureOf(A.BucketAt(a.buckets, c), FigureOfMovement(m))
  {
    assert SameFigures(CauseAt(t.byCause, c), A.BucketAt(a.buckets, c));
  }

  lemma FinishedIsAccounted(t: Tenant, a: A.Acc, m: Movement)
    requires FinishedFrom(t, a) && A.Balanced(a.counts, a.buckets)
    ensures Accounted(t, m) && Balanced(t)
  {
    FinishedAt(t, a, m, ProjectNarrowing);
    FinishedAt(t, a, m, TokenGroups);
    FinishedAt(t, a, m, TokenGroupsAndNarrowing);
    FinishedAt(t, a, m, CustomPolicies);
    FinishedAt(t, a, m, ParityMismatch);
    FinishedAt(t, a, m, Unexplained);
  }

  lemma {:induction false} SumsAccounted(ts: seq<Tenant>, m: Movement)
    requires forall i :: 0 <= i < |ts| ==> Accounted(ts[i], m)
    ensures SumOf(ts, Whole(m))
            == SumOf(ts, Of(m, ProjectNarrowing)) + SumOf(ts, Of(m, TokenGroups))
                + SumOf(ts, Of(m, TokenGroupsAndNarrowing))
                                   + SumOf(ts, Of(m, CustomPolicies)) + SumOf(ts, Of(m, ParityMismatch))
                                       + SumOf(ts, Of(m, Unexplained))
  {
    if ts != [] {
      SumsAccounted(ts[..|ts| - 1], m);
      assert Accounted(ts[|ts| - 1], m);
    }
  }

  /**
   * For workspaces accumulated from any contexts at all, the report's differing
   * answers, and those that tighten or loosen, are those of its six causes.
   */
  lemma TotalsAccounted(start: A.Acc, ctxs: seq<seq<A.Context>>, custom: seq<bool>, ts: seq<Tenant>, t: Totals,
                        m: Movement)
    requires A.Fresh(start) && |ctxs| == |custom| == |ts| && AreTotals(t, ts)
    requires forall i :: 0 <= i < |ts| ==> FinishedFrom(ts[i], A.AddAll(start, ctxs[i], custom[i]))
    ensures Shown(t, Whole(m))
            == Shown(t, Of(m, ProjectNarrowing)) + Shown(t, Of(m, TokenGroups))
                + Shown(t, Of(m, TokenGroupsAndNarrowing))
                                  + Shown(t, Of(m, CustomPolicies)) + Shown(t, Of(m, ParityMismatch))
                                      + Shown(t, Of(m, Unexplained))
  {
    forall i | 0 <= i < |ts| ensures Accounted(ts[i], m) {
      A.FiguresBalance(start, ctxs[i], custom[i]);
      FinishedIsAccounted(ts[i], A.AddAll(start, ctxs[i], custom[i]), m);
    }
    SumsAccounted(ts, m);
  }

  // ── leaving the lists out ──

  function StripSurfaces(s: seq<Surface>): seq<Surface> {
    if s == [] then [] else StripSurfaces(s[..|s| - 1]) + [s[|s| - 1].(principals := [])]
  }

  function Strip(t: Tenant): Tenant {
    t.(newlyGated := StripSurfaces(t.newlyGated),
       lists := Lists([], [], [], [], if |t.lists.skipped| <= 50 then t.lists.skipped else t.lists.skipped[..50]))
  }

  function StripLists(ts: seq<Tenant>): seq<Tenant> {
    if ts == [] then [] else StripLists(ts[..|ts| - 1]) + [Strip(ts[|ts| - 1])]
  }

  lemma {:induction false} StripAt(ts: seq<Tenant>, i: nat)
    requires i < |ts|
    ensures |StripLists(ts)| == |ts| && StripLists(ts)[i] == Strip(ts[i])
  {
    var n := |ts| - 1;
    if n > 0 {
      StripAt(ts[..n], if i < n then i else 0);
    } else {
      assert ts[..n] == [];
    }
  }

  /** Leaving the lists out leaves no per-person list but at most fifty skipped principals. */
  lemma StripDropsLists(t: Tenant)
    ensures var stripped := Strip(t);
            && stripped.lists.principalChanges == stripped.lists.deferred == [] == stripped.lists.tokens
            && stripped.lists.accessChanges == []
            && |stripped.lists.skipped| <= 50 && stripped.lists.skipped <= t.lists.skipped
            && (|t.lists.skipped| <= 50 ==> stripped.lists.skipped == t.lists.skipped)
            && forall s :: s in stripped.newlyGated ==> s.principals == []
  {
    StripDropsSurfaces(t.newlyGated);
  }

  lemma {:induction false} StripDropsSurfaces(s: seq<Surface>)
    ensures forall x :: x in StripSurfaces(s) ==> x.principals == []
  {
    if s != [] { StripDropsSurfaces(s[..|s| - 1]); }
  }

  lemma {:induction false} StripKeepsSurface(s: seq<Surface>, id: string)
    ensures SurfaceCount(StripSurfaces(s), id) == SurfaceCount(s, id)
  {
    if s != [] { StripKeepsSurface(s[..|s| - 1], id); }
  }

  lemma StripKeepsOwn(t: Tenant, n: Number)
    ensures Own(Strip(t), n) == Own(t, n)
  {
    if n.Gated? { StripKeepsSurface(t.newlyGated, n.id); }
  }

  lemma {:induction false} StripKeepsSum(ts: seq<Tenant>, n: Number)
    ensures |StripLists(ts)| == |ts| && SumOf(StripLists(ts), n) == SumOf(ts, n)
  {
    if ts != [] {
      StripKeepsSum(ts[..|ts| - 1], n);
      StripKeepsOwn(ts[|ts| - 1], n);
    }
  }

  /** Totals computed before or after the lists are left out are the same. */
  lemma TotalsIgnoreLists(ts: seq<Tenant>, t: Totals)
    ensures AreTotals(t, StripLists(ts)) <==> AreTotals(t, ts)
  {
    forall n ensures |StripLists(ts)| == |ts| && SumOf(StripLists(ts), n) == SumOf(ts, n) { StripKeepsSum(ts, n); }
    StripKeepsSum(ts, Gated(""));
  }
}

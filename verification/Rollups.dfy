/**
 * The closing pass of the accumulator (accumulate.ts `finish`): the changed
 * principals, and the per-project and per-service rollups of their changes.
 */
module Rollups {
  import opened Options
  import opened Levels
  import opened Attribution
  import opened Accumulate
  import opened Sums

  /** One line of the report: a change of one principal in one project. */
  datatype Entry = Entry(principal: string, key: ChangeKey, project: string)

  predicate IsEntry(ps: map<string, Principal>, e: Entry) {
    e.principal in ps && e.key in ps[e.principal].changes && e.project in ps[e.principal].changes[e.key].projects
  }

  predicate Tightens(ps: map<string, Principal>, e: Entry) {
    e.principal in ps && e.key in ps[e.principal].changes && ps[e.principal].changes[e.key].direction == Tighten
  }

  // ── the lines, listed once each ──

  method ListProjects(p: string, k: ChangeKey, projects: set<string>) returns (es: seq<Entry>)
    ensures NoDuplicates(es)
    ensures forall e :: e in es <==> e.principal == p && e.key == k && e.project in projects
    ensures |es| == |projects|
  {
    es := [];
    var left := projects;
    while left != {}
      invariant left <= projects
      invariant NoDuplicates(es) && |es| + |left| == |projects|
      invariant forall e :: e in es <==> e.principal == p && e.key == k && e.project in projects && e.project !in left
      decreases left
    {
      var j :| j in left;
      NoDuplicatesConcat(es, [Entry(p, k, j)]);
      es := es + [Entry(p, k, j)];
      left := left - {j};
    }
  }

  method ListChanges(p: string, changes: map<ChangeKey, Change>) returns (es: seq<Entry>)
    ensures NoDuplicates(es)
    ensures forall e :: e in es <==> e.principal == p && e.key in changes && e.project in changes[e.key].projects
  {
    es := [];
    var left := changes.Keys;
    while left != {}
      invariant left <= changes.Keys
      invariant NoDuplicates(es)
      invariant forall e :: e in es <==>
                  && e.principal == p && e.key in changes && e.key !in left
                      && e.project in changes[e.key].projects
      decreases left
    {
      var k :| k in left;
      var more := ListProjects(p, k, changes[k].projects);
      NoDuplicatesConcat(es, more);
      es := es + more;
      left := left - {k};
    }
  }

  method ListEntries(ps: map<string, Principal>) returns (es: seq<Entry>)
    ensures NoDuplicates(es)
    ensures forall e :: e in es <==> IsEntry(ps, e)
  {
    es := [];
    var left := ps.Keys;
    while left != {}
      invariant left <= ps.Keys
      invariant NoDuplicates(es)
      invariant forall e :: e in es <==> IsEntry(ps, e) && e.principal !in left
      decreases left
    {
      var p :| p in left;
      var more := ListChanges(p, ps[p].changes);
      NoDuplicatesConcat(es, more);
      es := es + more;
      left := left - {p};
    }
  }

  // ── the rollups ──

  datatype Axis = ByProject | ByService

  function Label(axis: Axis, e: Entry): string {
    if axis.ByProject? then e.project else e.key.service
  }

  /** What the row of a label also lists: the services of a project, or the projects of a service. */
  function Other(axis: Axis, e: Entry): string {
    if axis.ByProject? then e.key.service else e.project
  }

  datatype Rollup = Rollup(principals: set<string>, others: set<string>, tighten: nat, loosen: nat) {
    function Get(tightens: bool): nat {
      if tightens then tighten else loosen
    }
  }

  type Table = map<string, Rollup>

  const NEW_ROLLUP := Rollup({}, {}, 0, 0)

  function RowAt(t: Table, x: string): Rollup {
    if x in t then t[x] else NEW_ROLLUP
  }

  function Raised(r: Rollup, principal: string, other: string, tightens: bool): Rollup {
    Rollup(r.principals + {principal}, r.others + {other}, r.tighten + One(tightens), r.loosen + One(!tightens))
  }

  function Bump(t: Table, axis: Axis, e: Entry, tightens: bool): Table {
    t[Label(axis, e) := Raised(RowAt(t, Label(axis, e)), e.principal, Other(axis, e), tightens)]
  }

  function Roll(es: seq<Entry>, ps: map<string, Principal>, axis: Axis): Table {
    if es == [] then map[]
    else Bump(Roll(es[..|es| - 1], ps, axis), axis, es[|es| - 1], Tightens(ps, es[|es| - 1]))
  }

  predicate IsChanged(ps: map<string, Principal>, p: string) {
    p in ps && ps[p].changes.Keys != {}
  }

  /** The changed principals, listed once each and split by kind: the two kinds make up the list. */
  method ListChanged(ps: map<string, Principal>) returns (listed: seq<string>, users: set<string>, tokens: set<string>)
    ensures NoDuplicates(listed) && forall p :: p in listed <==> IsChanged(ps, p)
    ensures forall p :: p in users <==> IsChanged(ps, p) && !ps[p].isToken
    ensures forall p :: p in tokens <==> IsChanged(ps, p) && ps[p].isToken
    ensures |users| + |tokens| == |listed|
  {
    listed, users, tokens := [], {}, {};
    var left := ps.Keys;
    while left != {}
      invariant left <= ps.Keys
      invariant NoDuplicates(listed) && forall p :: p in listed <==> IsChanged(ps, p) && p !in left
      invariant forall p :: p in users <==> IsChanged(ps, p) && p !in left && !ps[p].isToken
      invariant forall p :: p in tokens <==> IsChanged(ps, p) && p !in left && ps[p].isToken
      invariant |users| + |tokens| == |listed|
      decreases left
    {
      var p :| p in left;
      left := left - {p};
      if ps[p].changes.Keys != {} {
        NoDuplicatesConcat(listed, [p]);
        listed := listed + [p];
        if ps[p].isToken { tokens := tokens + {p}; } else { users := users + {p}; }
      }
    }
  }

  /** One line of the deferred list: a level a principal would lose once an ignored "No access" counts. */
  datatype DeferredLine = DeferredLine(principal: string, key: DeferredKey)

  predicate IsDeferred(ps: map<string, Principal>, line: DeferredLine) {
    line.principal in ps && line.key in ps[line.principal].deferred
  }

  method DeferredOf(p: string, deferred: map<DeferredKey, set<string>>) returns (lines: seq<DeferredLine>)
    ensures NoDuplicates(lines)
    ensures forall line :: line in lines <==> line.principal == p && line.key in deferred
  {
    lines := [];
    var left := deferred.Keys;
    while left != {}
      invariant left <= deferred.Keys && NoDuplicates(lines)
      invariant forall line :: line in lines <==> line.principal == p && line.key in deferred && line.key !in left
      decreases left
    {
      var k :| k in left;
      NoDuplicatesConcat(lines, [DeferredLine(p, k)]);
      lines := lines + [DeferredLine(p, k)];
      left := left - {k};
    }
  }

  /** The deferred list: every principal with a deferred line once, and every such line once. */
  method ListDeferred(ps: map<string, Principal>) returns (listed: seq<string>, lines: seq<DeferredLine>)
    ensures NoDuplicates(listed) && forall p :: p in listed <==> p in ps && ps[p].deferred.Keys != {}
    ensures NoDuplicates(lines) && forall line :: line in lines <==> IsDeferred(ps, line)
  {
    listed, lines := [], [];
    var left := ps.Keys;
    while left != {}
      invariant left <= ps.Keys && NoDuplicates(listed) && NoDuplicates(lines)
      invariant forall p :: p in listed <==> p in ps && p !in left && ps[p].deferred.Keys != {}
      invariant forall line :: line in lines <==> IsDeferred(ps, line) && line.principal !in left
      decreases left
    {
      var p :| p in left;
      var more := DeferredOf(p, ps[p].deferred);
      NoDuplicatesConcat(lines, more);
      lines, left := lines + more, left - {p};
      if ps[p].deferred.Keys != {} {
        NoDuplicatesConcat(listed, [p]);
        listed := listed + [p];
      }
    }
  }

  datatype Summary = Summary(serviceChanges: nat, listed: seq<string>, users: nat, tokens: nat, byProject: Table,
                             byService: Table,
                             deferredPrincipals: seq<string>, deferredLines: seq<DeferredLine>)

  /** The inner loops of `finish`: each line into both rollups. */
  method RollUp(es: seq<Entry>, ps: map<string, Principal>) returns (byProject: Table, byService: Table)
    ensures byProject == Roll(es, ps, ByProject) && byService == Roll(es, ps, ByService)
  {
    byProject, byService := map[], map[];
    for i := 0 to |es|
      invariant byProject == Roll(es[..i], ps, ByProject)
      invariant byService == Roll(es[..i], ps, ByService)
    {
      RollOne(es, i, ps, ByProject);
      RollOne(es, i, ps, ByService);
      var tightens := Tightens(ps, es[i]);
      byProject := Bump(byProject, ByProject, es[i], tightens);
      byService := Bump(byService, ByService, es[i], tightens);
    }
    assert es[..|es|] == es;
  }

  lemma RollOne(es: seq<Entry>, i: nat, ps: map<string, Principal>, axis: Axis)
    requires i < |es|
    ensures Roll(es[..i + 1], ps, axis) == Bump(Roll(es[..i], ps, axis), axis, es[i], Tightens(ps, es[i]))
  {
    var next := es[..i + 1];
    assert next[..i] == es[..i] && next[i] == es[i];
  }

  /** `finish`: every changed principal, and the rollups of the lines, every line once. */
  method Finish(ps: map<string, Principal>) returns (s: Summary, ghost es: seq<Entry>)
    ensures NoDuplicates(es) && forall e :: e in es <==> IsEntry(ps, e)
    ensures s.serviceChanges == |es|
    ensures s.byProject == Roll(es, ps, ByProject) && s.byService == Roll(es, ps, ByService)
    ensures NoDuplicates(s.listed) && forall p :: p in s.listed <==> IsChanged(ps, p)
    ensures s.users == |set p | p in ps && IsChanged(ps, p) && !ps[p].isToken|
    ensures s.tokens == |set p | p in ps && IsChanged(ps, p) && ps[p].isToken|
    ensures s.users + s.tokens == |s.listed|
    ensures Total(s.byProject, true) == Total(s.byService, true)
            && Total(s.byProject, false) == Total(s.byService, false)
    ensures Total(s.byProject, true) + Total(s.byProject, false) == s.serviceChanges
    ensures NoDuplicates(s.deferredPrincipals)
    ensures forall p :: p in s.deferredPrincipals <==> p in ps && ps[p].deferred.Keys != {}
    ensures NoDuplicates(s.deferredLines) && forall line :: line in s.deferredLines <==> IsDeferred(ps, line)
  {
    var listed, users, tokens := ListChanged(ps);
    assert users == (set p | p in ps && IsChanged(ps, p) && !ps[p].isToken);
    assert tokens == (set p | p in ps && IsChanged(ps, p) && ps[p].isToken);
    var lines := ListEntries(ps);
    var byProject, byService := RollUp(lines, ps);
    RollupsAgree(lines, ps);
    var deferredPrincipals, deferredLines := ListDeferred(ps);
    s := Summary(|lines|, listed, |users|, |tokens|, byProject, byService, deferredPrincipals, deferredLines);
    es := lines;
  }

  // ── what a row says ──

  function CountAt(es: seq<Entry>, ps: map<string, Principal>, axis: Axis, x: string, tightens: bool): nat {
    if es == [] then 0
    else
      var e := es[|es| - 1];
      CountAt(es[..|es| - 1], ps, axis, x, tightens) + One(Label(axis, e) == x && Tightens(ps, e) == tightens)
  }

  /** A row counts exactly the lines with its label, each way. */
  lemma {:induction false} RowCounts(es: seq<Entry>, ps: map<string, Principal>, axis: Axis, x: string)
    ensures RowAt(Roll(es, ps, axis), x).tighten == CountAt(es, ps, axis, x, true)
    ensures RowAt(Roll(es, ps, axis), x).loosen == CountAt(es, ps, axis, x, false)
  {
    if es != [] { RowCounts(es[..|es| - 1], ps, axis, x); }
  }

  predicate Mentions(es: seq<Entry>, axis: Axis, x: string, e: Entry) {
    e in es && Label(axis, e) == x
  }

  lemma {:induction false} RowNames(es: seq<Entry>, ps: map<string, Principal>, axis: Axis, x: string, p: string,
                                    o: string)
    ensures x in Roll(es, ps, axis) <==> exists e :: Mentions(es, axis, x, e)
    ensures p in RowAt(Roll(es, ps, axis), x).principals <==> exists e :: Mentions(es, axis, x, e) && e.principal == p
    ensures o in RowAt(Roll(es, ps, axis), x).others <==> exists e :: Mentions(es, axis, x, e) && Other(axis, e) == o
  {
    if es != [] {
      var init, last := es[..|es| - 1], es[|es| - 1];
      RowNames(init, ps, axis, x, p, o);
      BumpNames(Roll(init, ps, axis), axis, last, Tightens(ps, last), x, p, o);
      assert forall e ::
            Mentions(es, axis, x, e) <==> Mentions(init, axis, x, e) || (e == last && Label(axis, last) == x);
      assert Label(axis, last) == x ==> Mentions(es, axis, x, last);
    }
  }

  lemma BumpNames(t: Table, axis: Axis, e: Entry, tightens: bool, x: string, p: string, o: string)
    ensures var t' := Bump(t, axis, e, tightens);
            && (x in t' <==> x in t || Label(axis, e) == x)
            && (p in RowAt(t', x).principals
                <==> p in RowAt(t, x).principals || (Label(axis, e) == x && e.principal == p))
            && (o in RowAt(t', x).others <==> o in RowAt(t, x).others || (Label(axis, e) == x && Other(axis, e) == o))
  {
  }

  function LinesOfProject(es: seq<Entry>, ps: map<string, Principal>, project: string, tightens: bool): nat {
    if es == [] then 0
    else
      var e := es[|es| - 1];
      LinesOfProject(es[..|es| - 1], ps, project, tightens) + One(e.project == project && Tightens(ps, e) == tightens)
  }

  function LinesOfService(es: seq<Entry>, ps: map<string, Principal>, service: string, tightens: bool): nat {
    if es == [] then 0
    else
      var e := es[|es| - 1];
      LinesOfService(es[..|es| - 1], ps, service, tightens)
          + One(e.key.service == service && Tightens(ps, e) == tightens)
  }

  lemma {:induction false} LinesByLabel(es: seq<Entry>, ps: map<string, Principal>, x: string, tightens: bool)
    ensures CountAt(es, ps, ByProject, x, tightens) == LinesOfProject(es, ps, x, tightens)
    ensures CountAt(es, ps, ByService, x, tightens) == LinesOfService(es, ps, x, tightens)
  {
    if es != [] { LinesByLabel(es[..|es| - 1], ps, x, tightens); }
  }

  /** The row of a project: its lines each way, and the people and services of those lines. */
  lemma ProjectRow(es: seq<Entry>, ps: map<string, Principal>, project: string, p: string, service: string)
    ensures var row := RowAt(Roll(es, ps, ByProject), project);
            && row.tighten == LinesOfProject(es, ps, project, true)
                && row.loosen == LinesOfProject(es, ps, project, false)
            && (p in row.principals <==> exists e :: e in es && e.project == project && e.principal == p)
            && (service in row.others <==> exists e :: e in es && e.project == project && e.key.service == service)
  {
    RowCounts(es, ps, ByProject, project);
    LinesByLabel(es, ps, project, true);
    LinesByLabel(es, ps, project, false);
    RowNames(es, ps, ByProject, project, p, service);
    assert forall e :: Mentions(es, ByProject, project, e) <==> e in es && e.project == project;
  }

  /** The row of a service: its lines each way, and the people and projects of those lines. */
  lemma ServiceRow(es: seq<Entry>, ps: map<string, Principal>, service: string, p: string, project: string)
    ensures var row := RowAt(Roll(es, ps, ByService), service);
            && row.tighten == LinesOfService(es, ps, service, true)
                && row.loosen == LinesOfService(es, ps, service, false)
            && (p in row.principals <==> exists e :: e in es && e.key.service == service && e.principal == p)
            && (project in row.others <==> exists e :: e in es && e.key.service == service && e.project == project)
  {
    RowCounts(es, ps, ByService, service);
    LinesByLabel(es, ps, service, true);
    LinesByLabel(es, ps, service, false);
    RowNames(es, ps, ByService, service, p, project);
    assert forall e :: Mentions(es, ByService, service, e) <==> e in es && e.key.service == service;
  }

  // ── the rollups agree ──

  ghost function Total(t: Table, tightens: bool): nat {
    Sum(t.Keys, x => RowAt(t, x).Get(tightens))
  }

  lemma BumpTotal(t: Table, axis: Axis, e: Entry, tightens: bool, figure: bool)
    ensures Total(Bump(t, axis, e, tightens), figure) == Total(t, figure) + One(tightens == figure)
  {
    var t', x := Bump(t, axis, e, tightens), Label(axis, e);
    var f, g := (y: string) => RowAt(t, y).Get(figure), (y: string) => RowAt(t', y).Get(figure);
    SumTakeOut(t'.Keys, x, g);
    SumSame(t'.Keys - {x}, f, g);
    if x in t {
      SumTakeOut(t.Keys, x, f);
      assert t'.Keys - {x} == t.Keys - {x};
    } else {
      assert t'.Keys - {x} == t.Keys;
    }
  }

  function Moves(es: seq<Entry>, ps: map<string, Principal>, tightens: bool): nat {
    if es == [] then 0
    else Moves(es[..|es| - 1], ps, tightens) + One(Tightens(ps, es[|es| - 1]) == tightens)
  }

  lemma {:induction false} RollTotal(es: seq<Entry>, ps: map<string, Principal>, axis: Axis, tightens: bool)
    ensures Total(Roll(es, ps, axis), tightens) == Moves(es, ps, tightens)
  {
    if es != [] {
      RollTotal(es[..|es| - 1], ps, axis, tightens);
      BumpTotal(Roll(es[..|es| - 1], ps, axis), axis, es[|es| - 1], Tightens(ps, es[|es| - 1]), tightens);
    }
  }

  lemma {:induction false} MovesMakeUp(es: seq<Entry>, ps: map<string, Principal>)
    ensures Moves(es, ps, true) + Moves(es, ps, false) == |es|
  {
    if es != [] { MovesMakeUp(es[..|es| - 1], ps); }
  }

  /** The per-project and per-service rollups each add up to the service changes, and agree on either direction. */
  lemma RollupsAgree(es: seq<Entry>, ps: map<string, Principal>)
    ensures Total(Roll(es, ps, ByProject), true) == Total(Roll(es, ps, ByService), true)
    ensures Total(Roll(es, ps, ByProject), false) == Total(Roll(es, ps, ByService), false)
    ensures Total(Roll(es, ps, ByProject), true) + Total(Roll(es, ps, ByProject), false) == |es|
  {
    RollTotal(es, ps, ByProject, true);
    RollTotal(es, ps, ByService, true);
    RollTotal(es, ps, ByProject, false);
    RollTotal(es, ps, ByService, false);
    MovesMakeUp(es, ps);
  }

  // ── service changes are changed observations ──

  /** The lines one context adds, when it is the only one of its principal and project. */
  function ContextEntries(ctx: Context, services: seq<ServiceObservation>, customPolicies: bool): seq<Entry> {
    if services == [] then []
    else
      var rest, o := ContextEntries(ctx, services[..|services| - 1], customPolicies), services[|services| - 1];
      if AnyDiffers(AnswersOf(o, customPolicies))
          then rest + [Entry(ctx.principal.key, KeyFor(o, customPolicies), ctx.project)] else rest
  }

  function AllEntries(ctxs: seq<Context>, customPolicies: bool): seq<Entry> {
    if ctxs == [] then []
    else AllEntries(ctxs[..|ctxs| - 1], customPolicies)
         + ContextEntries(ctxs[|ctxs| - 1], ctxs[|ctxs| - 1].services, customPolicies)
  }

  lemma NoteEntry(ps: map<string, Principal>, principal: string, project: string, o: ServiceObservation,
                  customPolicies: bool, e: Entry)
    requires principal in ps
    ensures IsEntry(ps[principal := Note(ps[principal], project, o, customPolicies)], e) <==>
              IsEntry(ps, e)
                  || (AnyDiffers(AnswersOf(o, customPolicies))
                      && e == Entry(principal, KeyFor(o, customPolicies), project))
  {
  }

  lemma {:induction false} ServiceEntries(a: Acc, ctx: Context, services: seq<ServiceObservation>,
                                          customPolicies: bool, e: Entry)
    requires ctx.principal.key in a.principals
    ensures IsEntry(AddServices(a, ctx.principal.key, ctx.project, services, customPolicies).principals, e) <==>
              IsEntry(a.principals, e) || e in ContextEntries(ctx, services, customPolicies)
  {
    if services != [] {
      var init, o := services[..|services| - 1], services[|services| - 1];
      ServiceEntries(a, ctx, init, customPolicies, e);
      NoteEntry(AddServices(a, ctx.principal.key, ctx.project, init, customPolicies).principals,
                ctx.principal.key, ctx.project, o, customPolicies, e);
    }
  }

  /** The lines of the report are those of the changed observations. */
  lemma {:induction false} ReportEntries(start: Acc, ctxs: seq<Context>, customPolicies: bool, e: Entry)
    requires Fresh(start)
    ensures IsEntry(AddAll(start, ctxs, customPolicies).principals, e) <==> e in AllEntries(ctxs, customPolicies)
  {
    if ctxs != [] {
      var init, ctx := ctxs[..|ctxs| - 1], ctxs[|ctxs| - 1];
      ReportEntries(start, init, customPolicies, e);
      var a := AddAll(start, init, customPolicies);
      assert IsEntry(Enter(a, ctx.principal).principals, e) <==> IsEntry(a.principals, e);
      ServiceEntries(Enter(a, ctx.principal), ctx, ctx.services, customPolicies, e);
    }
  }

  /** One context per principal and project, one observation per service. */
  ghost predicate Distinct(ctxs: seq<Context>) {
    && (forall i, j ::
          0 <= i < j < |ctxs| ==> ctxs[i].principal.key != ctxs[j].principal.key || ctxs[i].project != ctxs[j].project)
    && (forall i :: 0 <= i < |ctxs| ==> DistinctServices(ctxs[i].services))
  }

  ghost predicate DistinctServices(services: seq<ServiceObservation>) {
    forall i, j :: 0 <= i < j < |services| ==> services[i].service != services[j].service
  }

  lemma {:induction false} ContextEntriesDistinct(ctx: Context, services: seq<ServiceObservation>, customPolicies: bool)
    requires DistinctServices(services)
    ensures NoDuplicates(ContextEntries(ctx, services, customPolicies))
    ensures forall e :: e in ContextEntries(ctx, services, customPolicies) ==>
              e.principal == ctx.principal.key && e.project == ctx.project
                  && exists o :: o in services && o.service == e.key.service
  {
    if services != [] {
      var init, o := services[..|services| - 1], services[|services| - 1];
      ContextEntriesDistinct(ctx, init, customPolicies);
      assert services == init + [o];
      var rest := ContextEntries(ctx, init, customPolicies);
      NoDuplicatesConcat(rest, [Entry(ctx.principal.key, KeyFor(o, customPolicies), ctx.project)]);
    }
  }

  lemma {:induction false} AllEntriesDistinct(ctxs: seq<Context>, customPolicies: bool)
    requires Distinct(ctxs)
    ensures NoDuplicates(AllEntries(ctxs, customPolicies))
    ensures forall e :: e in AllEntries(ctxs, customPolicies) ==>
              exists i :: 0 <= i < |ctxs| && e.principal == ctxs[i].principal.key && e.project == ctxs[i].project
  {
    if ctxs != [] {
      var init, ctx := ctxs[..|ctxs| - 1], ctxs[|ctxs| - 1];
      AllEntriesDistinct(init, customPolicies);
      ContextEntriesDistinct(ctx, ctx.services, customPolicies);
      NoDuplicatesConcat(AllEntries(init, customPolicies), ContextEntries(ctx, ctx.services, customPolicies));
    }
  }

  /** For causes that come from `classifyCheck`, a line stands for an observation whose answers differ. */
  lemma LineMeansChange(o: ServiceObservation, customPolicies: bool)
    requires Honest(o, customPolicies)
    ensures AnyDiffers(AnswersOf(o, customPolicies)) <==> o.before != o.after
  {
    var answers := AnswersOf(o, customPolicies);
    assert answers[..2][..1] == answers[..1] && answers[..1][..0] == [];
    assert AnyDiffers(answers[..1]) <==> IsDifference(answers[0].cause) && answers[0].before != answers[0].after;
    assert AnyDiffers(answers[..2])
        <==> AnyDiffers(answers[..1]) || (IsDifference(answers[1].cause) && answers[1].before != answers[1].after);
    assert answers[0] == AnswersOf(o, customPolicies)[0];
  }

  /** How many observations changed an answer. */
  function ChangedServices(services: seq<ServiceObservation>): nat {
    if services == [] then 0
    else ChangedServices(services[..|services| - 1])
         + One(services[|services| - 1].before != services[|services| - 1].after)
  }

  function ChangedObservations(ctxs: seq<Context>): nat {
    if ctxs == [] then 0
    else ChangedObservations(ctxs[..|ctxs| - 1]) + ChangedServices(ctxs[|ctxs| - 1].services)
  }

  predicate AllHonest(services: seq<ServiceObservation>, customPolicies: bool) {
    forall i :: 0 <= i < |services| ==> Honest(services[i], customPolicies)
  }

  lemma {:induction false} ContextEntriesCount(ctx: Context, services: seq<ServiceObservation>, customPolicies: bool)
    requires AllHonest(services, customPolicies)
    ensures |ContextEntries(ctx, services, customPolicies)| == ChangedServices(services)
  {
    if services != [] {
      ContextEntriesCount(ctx, services[..|services| - 1], customPolicies);
      LineMeansChange(services[|services| - 1], customPolicies);
    }
  }

  lemma {:induction false} AllEntriesCount(ctxs: seq<Context>, customPolicies: bool)
    requires forall i :: 0 <= i < |ctxs| ==> AllHonest(ctxs[i].services, customPolicies)
    ensures |AllEntries(ctxs, customPolicies)| == ChangedObservations(ctxs)
  {
    if ctxs != [] {
      AllEntriesCount(ctxs[..|ctxs| - 1], customPolicies);
      ContextEntriesCount(ctxs[|ctxs| - 1], ctxs[|ctxs| - 1].services, customPolicies);
    }
  }

  /**
   * When every context and service is observed once, the report's service changes
   * are counted right: one for each observation with a changed answer.
   */
  lemma ServiceChangesAreObservations(start: Acc, ctxs: seq<Context>, customPolicies: bool, es: seq<Entry>)
    requires Fresh(start) && Distinct(ctxs)
    requires forall i :: 0 <= i < |ctxs| ==> AllHonest(ctxs[i].services, customPolicies)
    requires NoDuplicates(es) && forall e :: e in es <==> IsEntry(AddAll(start, ctxs, customPolicies).principals, e)
    ensures |es| == ChangedObservations(ctxs)
  {
    AllEntriesDistinct(ctxs, customPolicies);
    AllEntriesCount(ctxs, customPolicies);
    forall e ensures e in es <==> e in AllEntries(ctxs, customPolicies) {
      ReportEntries(start, ctxs, customPolicies, e);
    }
    SameLength(es, AllEntries(ctxs, customPolicies));
  }
}

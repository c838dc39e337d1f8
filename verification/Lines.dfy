/**
 * What the accumulator's lines and buckets say about the observations behind them
 * (scripts/iam/preflight/accumulate.ts): the direction of a line, the deferred
 * levels, who is filed under a cause, and how many observations tighten.
 */
module Lines {
  import opened Options
  import opened Levels
  import opened Attribution
  import opened Accumulate
  import opened Rollups
  import opened Sums

  // ── the direction of a line ──

  /** A line whose level moves is stored with the direction of that move. */
  predicate RightDirection(key: ChangeKey, change: Change) {
    key.before != key.after ==> (change.direction == Tighten <==> Rank(key.after) < Rank(key.before))
                                && (change.direction == Loosen <==> Rank(key.after) > Rank(key.before))
  }

  ghost predicate RightLines(changes: map<ChangeKey, Change>) {
    forall key :: key in changes ==> RightDirection(key, changes[key])
  }

  ghost predicate AllRight(ps: map<string, Principal>) {
    forall p :: p in ps ==> RightLines(ps[p].changes)
  }

  lemma NoteKeepsRight(p: Principal, project: string, o: ServiceObservation, custom: bool)
    requires RightLines(p.changes)
    ensures RightLines(Note(p, project, o, custom).changes)
  {
    assert RightDirection(KeyFor(o, custom), Change(ServiceDirection(o), {project}));
  }

  lemma {:induction false} ServicesKeepRight(a: Acc, principal: string, project: string,
                                             services: seq<ServiceObservation>, custom: bool)
    requires principal in a.principals && AllRight(a.principals)
    ensures AllRight(AddServices(a, principal, project, services, custom).principals)
  {
    if services != [] {
      var init, o := services[..|services| - 1], services[|services| - 1];
      ServicesKeepRight(a, principal, project, init, custom);
      NoteKeepsRight(AddServices(a, principal, project, init, custom).principals[principal], project, o, custom);
    }
  }

  /** Over any contexts, every line whose level moves carries the direction of its move. */
  lemma {:induction false} DirectionsAreRight(start: Acc, ctxs: seq<Context>, custom: bool)
    requires Fresh(start)
    ensures AllRight(AddAll(start, ctxs, custom).principals)
  {
    if ctxs != [] {
      var init, ctx := ctxs[..|ctxs| - 1], ctxs[|ctxs| - 1];
      DirectionsAreRight(start, init, custom);
      var a := Enter(AddAll(start, init, custom), ctx.principal);
      assert AllRight(a.principals);
      ServicesKeepRight(a, ctx.principal.key, ctx.project, ctx.services, custom);
    }
  }

  /** When a service only gains or only loses answers, its direction says which, even where its level stays. */
  lemma OneWayDirection(o: ServiceObservation)
    ensures SomeTightens(o.before, o.after) && !SomeLoosens(o.before, o.after) ==> ServiceDirection(o) == Tighten
    ensures SomeLoosens(o.before, o.after) && !SomeTightens(o.before, o.after) ==> ServiceDirection(o) == Loosen
  {
  }

  // ── the rollups count tightened observations ──

  predicate KeyTightens(e: Entry) {
    Rank(e.key.after) < Rank(e.key.before)
  }

  function Tightening(es: seq<Entry>): seq<Entry> {
    if es == [] then []
    else
      var rest, last := Tightening(es[..|es| - 1]), es[|es| - 1];
      if KeyTightens(last) then rest + [last] else rest
  }

  lemma {:induction false} TighteningMembers(es: seq<Entry>, e: Entry)
    ensures e in Tightening(es) <==> e in es && KeyTightens(e)
  {
    if es != [] {
      TighteningMembers(es[..|es| - 1], e);
      assert es == es[..|es| - 1] + [es[|es| - 1]];
    }
  }

  lemma {:induction false} TighteningDistinct(es: seq<Entry>)
    requires NoDuplicates(es)
    ensures NoDuplicates(Tightening(es))
  {
    if es != [] {
      var init, last := es[..|es| - 1], es[|es| - 1];
      TighteningDistinct(init);
      TighteningMembers(init, last);
      assert last !in init;
      NoDuplicatesConcat(Tightening(init), if KeyTightens(last) then [last] else []);
    }
  }

  /** Two lists of the same lines, each without repetition, tighten alike. */
  lemma SameTightening(a: seq<Entry>, b: seq<Entry>)
    requires NoDuplicates(a) && NoDuplicates(b) && forall e :: e in a <==> e in b
    ensures |Tightening(a)| == |Tightening(b)|
  {
    TighteningDistinct(a);
    TighteningDistinct(b);
    forall e ensures e in Tightening(a) <==> e in Tightening(b) {
      TighteningMembers(a, e);
      TighteningMembers(b, e);
    }
    SameLength(Tightening(a), Tightening(b));
  }

  lemma {:induction false} MovesAreTightening(es: seq<Entry>, ps: map<string, Principal>)
    requires forall e :: e in es ==> (Tightens(ps, e) <==> KeyTightens(e))
    ensures Moves(es, ps, true) == |Tightening(es)|
  {
    if es != [] {
      assert es[|es| - 1] in es;
      MovesAreTightening(es[..|es| - 1], ps);
    }
  }

  /** The level shows which way the answers went. */
  predicate Laddered(o: ServiceObservation) {
    && (SomeTightens(o.before, o.after) <==> Rank(LevelOfChecks(o.after)) < Rank(LevelOfChecks(o.before)))
    && (SomeLoosens(o.before, o.after) <==> Rank(LevelOfChecks(o.after)) > Rank(LevelOfChecks(o.before)))
  }

  predicate AllLaddered(services: seq<ServiceObservation>) {
    forall i :: 0 <= i < |services| ==> Laddered(services[i])
  }

  function TightenedServices(services: seq<ServiceObservation>): nat {
    if services == [] then 0
    else
      var o := services[|services| - 1];
      TightenedServices(services[..|services| - 1]) + One(SomeTightens(o.before, o.after))
  }

  function TightenedObservations(ctxs: seq<Context>): nat {
    if ctxs == [] then 0
    else TightenedObservations(ctxs[..|ctxs| - 1]) + TightenedServices(ctxs[|ctxs| - 1].services)
  }

  lemma {:induction false} TighteningConcat(a: seq<Entry>, b: seq<Entry>)
    ensures |Tightening(a + b)| == |Tightening(a)| + |Tightening(b)|
  {
    if b == [] {
      assert a + b == a;
    } else {
      assert (a + b)[..|a + b| - 1] == a + b[..|b| - 1];
      TighteningConcat(a, b[..|b| - 1]);
    }
  }

  lemma ObservationTightens(ctx: Context, es: seq<Entry>, es': seq<Entry>, o: ServiceObservation, custom: bool)
    requires Honest(o, custom) && Laddered(o)
    requires es'
             == if AnyDiffers(AnswersOf(o, custom))
                 then es + [Entry(ctx.principal.key, KeyFor(o, custom), ctx.project)] else es
    ensures |Tightening(es')| == |Tightening(es)| + One(SomeTightens(o.before, o.after))
  {
    LineMeansChange(o, custom);
    if AnyDiffers(AnswersOf(o, custom)) {
      var e := Entry(ctx.principal.key, KeyFor(o, custom), ctx.project);
      assert (es + [e])[..|es|] == es;
    }
  }

  lemma {:induction false} ContextTightens(ctx: Context, services: seq<ServiceObservation>, custom: bool)
    requires AllHonest(services, custom) && AllLaddered(services)
    ensures |Tightening(ContextEntries(ctx, services, custom))| == TightenedServices(services)
  {
    if services != [] {
      var init, o := services[..|services| - 1], services[|services| - 1];
      ContextTightens(ctx, init, custom);
      ObservationTightens(ctx, ContextEntries(ctx, init, custom), ContextEntries(ctx, services, custom), o, custom);
    }
  }

  lemma {:induction false} AllTighten(ctxs: seq<Context>, custom: bool)
    requires forall i :: 0 <= i < |ctxs| ==> AllHonest(ctxs[i].services, custom) && AllLaddered(ctxs[i].services)
    ensures |Tightening(AllEntries(ctxs, custom))| == TightenedObservations(ctxs)
  {
    if ctxs != [] {
      var init, ctx := ctxs[..|ctxs| - 1], ctxs[|ctxs| - 1];
      AllTighten(init, custom);
      ContextTightens(ctx, ctx.services, custom);
      TighteningConcat(AllEntries(init, custom), ContextEntries(ctx, ctx.services, custom));
    }
  }

  lemma LineTightens(ps: map<string, Principal>, e: Entry)
    requires AllRight(ps) && IsEntry(ps, e) && e.key.before != e.key.after
    ensures Tightens(ps, e) <==> KeyTightens(e)
  {
    assert RightDirection(e.key, ps[e.principal].changes[e.key]);
  }

  lemma {:induction false} LinesMove(ctx: Context, services: seq<ServiceObservation>, custom: bool, e: Entry)
    requires AllHonest(services, custom) && AllLaddered(services) && e in ContextEntries(ctx, services, custom)
    ensures e.key.before != e.key.after
  {
    var o := services[|services| - 1];
    if e in ContextEntries(ctx, services[..|services| - 1], custom) {
      LinesMove(ctx, services[..|services| - 1], custom, e);
    } else {
      LineMeansChange(o, custom);
    }
  }

  lemma {:induction false} AllLinesMove(ctxs: seq<Context>, custom: bool, e: Entry)
    requires forall i :: 0 <= i < |ctxs| ==> AllHonest(ctxs[i].services, custom) && AllLaddered(ctxs[i].services)
    requires e in AllEntries(ctxs, custom)
    ensures e.key.before != e.key.after
  {
    var init, ctx := ctxs[..|ctxs| - 1], ctxs[|ctxs| - 1];
    if e in AllEntries(init, custom) {
      AllLinesMove(init, custom, e);
    } else {
      LinesMove(ctx, ctx.services, custom, e);
    }
  }

  /**
   * For distinct contexts whose levels show their answers, both rollups count under
   * "tighten" exactly the observations in which some answer is lost.
   */
  lemma RollupsCountTightened(start: Acc, ctxs: seq<Context>, custom: bool, es: seq<Entry>)
    requires Fresh(start) && Rollups.Distinct(ctxs)
    requires forall i :: 0 <= i < |ctxs| ==> AllHonest(ctxs[i].services, custom) && AllLaddered(ctxs[i].services)
    requires NoDuplicates(es) && forall e :: e in es <==> IsEntry(AddAll(start, ctxs, custom).principals, e)
    ensures var ps := AddAll(start, ctxs, custom).principals;
            && Total(Roll(es, ps, ByProject), true) == TightenedObservations(ctxs)
            && Total(Roll(es, ps, ByService), true) == TightenedObservations(ctxs)
  {
    var ps := AddAll(start, ctxs, custom).principals;
    forall e ensures e in es <==> e in AllEntries(ctxs, custom) { ReportEntries(start, ctxs, custom, e); }
    DirectionsAreRight(start, ctxs, custom);
    forall e | e in es ensures Tightens(ps, e) <==> KeyTightens(e) {
      AllLinesMove(ctxs, custom, e);
      LineTightens(ps, e);
    }
    MovesAreTightening(es, ps);
    AllEntriesDistinct(ctxs, custom);
    SameTightening(es, AllEntries(ctxs, custom));
    AllTighten(ctxs, custom);
    RollTotal(es, ps, ByProject, true);
    RollTotal(es, ps, ByService, true);
  }

  // ── which levels are listed as deferred ──

  /** One deferred level of one principal in one project. */
  datatype Loss = Loss(principal: string, key: DeferredKey, project: string)

  predicate IsLoss(ps: map<string, Principal>, x: Loss) {
    x.principal in ps && x.key in ps[x.principal].deferred && x.project in ps[x.principal].deferred[x.key]
  }

  /** The observation says that a level would be lost. */
  predicate WouldLose(o: ServiceObservation) {
    o.deferred.Some? && Rank(LevelOfChecks(o.deferred.value)) < Rank(LevelOfChecks(o.after))
  }

  function Losses(principal: string, project: string, services: seq<ServiceObservation>): seq<Loss> {
    if services == [] then []
    else
      var rest, o := Losses(principal, project, services[..|services| - 1]), services[|services| - 1];
      if WouldLose(o)
      then rest
          + [Loss(principal, DeferredKey(o.service, LevelOfChecks(o.after), LevelOfChecks(o.deferred.value)), project)]
      else rest
  }

  function AllLosses(ctxs: seq<Context>): seq<Loss> {
    if ctxs == [] then []
    else
      var ctx := ctxs[|ctxs| - 1];
      AllLosses(ctxs[..|ctxs| - 1]) + Losses(ctx.principal.key, ctx.project, ctx.services)
  }

  lemma NoteLoss(ps: map<string, Principal>, principal: string, project: string, o: ServiceObservation, custom: bool,
                 x: Loss)
    requires principal in ps
    ensures IsLoss(ps[principal := Note(ps[principal], project, o, custom)], x) <==>
              || IsLoss(ps, x)
              || (WouldLose(o) && x == Loss(principal, DeferredKey(o.service, LevelOfChecks(o.after),
                                                                   LevelOfChecks(o.deferred.value)), project))
  {
  }

  lemma {:induction false} ServicesLose(a: Acc, principal: string, project: string, services: seq<ServiceObservation>,
                                        custom: bool, x: Loss)
    requires principal in a.principals
    ensures IsLoss(AddServices(a, principal, project, services, custom).principals, x)
            <==> IsLoss(a.principals, x) || x in Losses(principal, project, services)
  {
    if services != [] {
      var init, o := services[..|services| - 1], services[|services| - 1];
      ServicesLose(a, principal, project, init, custom, x);
      NoteLoss(AddServices(a, principal, project, init, custom).principals, principal, project, o, custom, x);
    }
  }

  /** Over any contexts, the deferred list holds exactly the levels some observation would lose. */
  lemma {:induction false} DeferredAreLosses(start: Acc, ctxs: seq<Context>, custom: bool, x: Loss)
    requires Fresh(start)
    ensures IsLoss(AddAll(start, ctxs, custom).principals, x) <==> x in AllLosses(ctxs)
  {
    if ctxs != [] {
      var init, ctx := ctxs[..|ctxs| - 1], ctxs[|ctxs| - 1];
      DeferredAreLosses(start, init, custom, x);
      var a := AddAll(start, init, custom);
      assert IsLoss(Enter(a, ctx.principal).principals, x) <==> IsLoss(a.principals, x);
      ServicesLose(Enter(a, ctx.principal), ctx.principal.key, ctx.project, ctx.services, custom, x);
    }
  }

  // ── whose kind a principal has ──

  /** A principal is listed exactly when a context named it, with the kind of its first context. */
  lemma {:induction false} KindIsFirst(start: Acc, ctxs: seq<Context>, custom: bool, key: string)
    requires Fresh(start)
    ensures var ps := AddAll(start, ctxs, custom).principals;
            if FirstOf(ctxs, key) == |ctxs| then key !in ps
            else key in ps && ps[key].isToken == ctxs[FirstOf(ctxs, key)].principal.isToken
  {
    if ctxs != [] {
      var init, ctx := ctxs[..|ctxs| - 1], ctxs[|ctxs| - 1];
      KindIsFirst(start, init, custom, key);
      FirstOfInit(ctxs, key);
      ServicesKeepKinds(Enter(AddAll(start, init, custom), ctx.principal), ctx.principal.key, ctx.project,
                        ctx.services, custom, key);
    }
  }

  /** The place of the first context of a principal, or the number of contexts. */
  function FirstOf(ctxs: seq<Context>, key: string): (i: nat)
    ensures i <= |ctxs|
    ensures i < |ctxs| ==> ctxs[i].principal.key == key
    ensures forall j :: 0 <= j < i ==> ctxs[j].principal.key != key
  {
    if ctxs == [] then 0
    else if FirstOf(ctxs[..|ctxs| - 1], key) < |ctxs| - 1 then FirstOf(ctxs[..|ctxs| - 1], key)
    else if ctxs[|ctxs| - 1].principal.key == key then |ctxs| - 1
    else |ctxs|
  }

  lemma FirstOfInit(ctxs: seq<Context>, key: string)
    requires ctxs != []
    ensures var i := FirstOf(ctxs[..|ctxs| - 1], key);
            i < |ctxs| - 1 ==> FirstOf(ctxs, key) == i
  {
  }

  lemma {:induction false} ServicesKeepKinds(a: Acc, principal: string, project: string,
                                             services: seq<ServiceObservation>, custom: bool, key: string)
    requires principal in a.principals
    ensures var ps := AddServices(a, principal, project, services, custom).principals;
            && (key in ps <==> key in a.principals)
            && (key in ps ==> ps[key].isToken == a.principals[key].isToken)
  {
    if services != [] { ServicesKeepKinds(a, principal, project, services[..|services| - 1], custom, key); }
  }

  // ── who is filed under a cause ──

  datatype Filing = Filing(cause: Cause, principal: string, service: string)

  function Filed(principal: string, service: string, answers: seq<Answer>): seq<Filing> {
    if answers == [] then []
    else
      var rest, x := Filed(principal, service, answers[..|answers| - 1]), answers[|answers| - 1];
      if x.cause != Same && x.cause != Masked then rest + [Filing(x.cause, principal, service)] else rest
  }

  function ServicesFiled(principal: string, services: seq<ServiceObservation>, custom: bool): seq<Filing> {
    if services == [] then []
    else
      var o := services[|services| - 1];
      ServicesFiled(principal, services[..|services| - 1], custom) + Filed(principal, o.service, AnswersOf(o, custom))
  }

  function AllFiled(ctxs: seq<Context>, custom: bool): seq<Filing> {
    if ctxs == [] then []
    else
      var ctx := ctxs[|ctxs| - 1];
      AllFiled(ctxs[..|ctxs| - 1], custom) + ServicesFiled(ctx.principal.key, ctx.services, custom)
  }

  predicate InBucket(buckets: map<Cause, Bucket>, x: Filing) {
    (x.principal, x.service) in BucketAt(buckets, x.cause).pairs
  }

  lemma {:induction false} AnswersFile(buckets: map<Cause, Bucket>, principal: string, service: string,
                                       answers: seq<Answer>, x: Filing)
    ensures InBucket(FileAll(buckets, principal, service, answers), x)
            <==> InBucket(buckets, x) || x in Filed(principal, service, answers)
  {
    if answers != [] {
      var init, last := answers[..|answers| - 1], answers[|answers| - 1];
      AnswersFile(buckets, principal, service, init, x);
      OneFiled(FileAll(buckets, principal, service, init), last.cause, principal, service,
               DirectionOf(last.before, last.after), x);
    }
  }

  lemma OneFiled(buckets: map<Cause, Bucket>, cause: Cause, principal: string, service: string, direction: Direction,
                 x: Filing)
    ensures InBucket(File(buckets, cause, principal, service, direction), x)
            <==> InBucket(buckets, x) || (cause != Same && cause != Masked && x == Filing(cause, principal, service))
  {
  }

  lemma {:induction false} ServicesFile(a: Acc, principal: string, project: string, services: seq<ServiceObservation>,
                                        custom: bool, x: Filing)
    requires principal in a.principals
    ensures InBucket(AddServices(a, principal, project, services, custom).buckets, x)
            <==> InBucket(a.buckets, x) || x in ServicesFiled(principal, services, custom)
  {
    if services != [] {
      var init, o := services[..|services| - 1], services[|services| - 1];
      ServicesFile(a, principal, project, init, custom, x);
      AnswersFile(AddServices(a, principal, project, init, custom).buckets, principal, o.service, AnswersOf(o, custom),
                  x);
    }
  }

  /** Over any contexts, a bucket's pairs are exactly the principals and services with an answer of its cause. */
  lemma {:induction false} PairsAreFilings(start: Acc, ctxs: seq<Context>, custom: bool, x: Filing)
    requires Fresh(start)
    ensures InBucket(AddAll(start, ctxs, custom).buckets, x) <==> x in AllFiled(ctxs, custom)
  {
    if ctxs != [] {
      var init, ctx := ctxs[..|ctxs| - 1], ctxs[|ctxs| - 1];
      PairsAreFilings(start, init, custom, x);
      var a := Enter(AddAll(start, init, custom), ctx.principal);
      ServicesFile(a, ctx.principal.key, ctx.project, ctx.services, custom, x);
    }
  }

  /** A bucket's principals and services are those of its pairs. */
  ghost predicate Named(b: Bucket) {
    && (forall p :: p in b.principals <==> exists s :: (p, s) in b.pairs)
    && (forall s :: s in b.services <==> exists p :: (p, s) in b.pairs)
  }

  lemma FileInKeepsNamed(b: Bucket, principal: string, service: string, direction: Direction)
    requires Named(b)
    ensures Named(FileIn(b, principal, service, direction))
  {
    var b' := FileIn(b, principal, service, direction);
    assert (principal, service) in b'.pairs;
    forall p ensures p in b'.principals <==> exists s :: (p, s) in b'.pairs {
      if s :| (p, s) in b'.pairs { assert (p, s) in b.pairs || p == principal; }
      if p in b.principals {
        var s :| (p, s) in b.pairs;
        assert (p, s) in b'.pairs;
      }
    }
    forall s ensures s in b'.services <==> exists p :: (p, s) in b'.pairs {
      if p :| (p, s) in b'.pairs { assert (p, s) in b.pairs || s == service; }
      if s in b.services {
        var p :| (p, s) in b.pairs;
        assert (p, s) in b'.pairs;
      }
    }
  }

  ghost predicate AllNamed(buckets: map<Cause, Bucket>) {
    forall c :: Named(BucketAt(buckets, c))
  }

  lemma FileKeepsNamed(buckets: map<Cause, Bucket>, cause: Cause, principal: string, service: string,
                       direction: Direction)
    requires AllNamed(buckets)
    ensures AllNamed(File(buckets, cause, principal, service, direction))
  {
    FileInKeepsNamed(BucketAt(buckets, cause), principal, service, direction);
    forall c ensures Named(BucketAt(File(buckets, cause, principal, service, direction), c)) {
      assert Named(BucketAt(buckets, c));
    }
  }

  lemma {:induction false} AnswersKeepNamed(buckets: map<Cause, Bucket>, principal: string, service: string,
                                            answers: seq<Answer>)
    requires AllNamed(buckets)
    ensures AllNamed(FileAll(buckets, principal, service, answers))
  {
    if answers != [] {
      var init, x := answers[..|answers| - 1], answers[|answers| - 1];
      AnswersKeepNamed(buckets, principal, service, init);
      FileKeepsNamed(FileAll(buckets, principal, service, init), x.cause, principal, service,
                     DirectionOf(x.before, x.after));
    }
  }

  lemma {:induction false} ServicesKeepNamed(a: Acc, principal: string, project: string,
                                             services: seq<ServiceObservation>, custom: bool)
    requires principal in a.principals && AllNamed(a.buckets)
    ensures AllNamed(AddServices(a, principal, project, services, custom).buckets)
  {
    if services != [] {
      var init, o := services[..|services| - 1], services[|services| - 1];
      ServicesKeepNamed(a, principal, project, init, custom);
      AnswersKeepNamed(AddServices(a, principal, project, init, custom).buckets, principal, o.service,
                       AnswersOf(o, custom));
    }
  }

  /** So the principals and services a cause reports are those with an answer filed under it. */
  lemma {:induction false} BucketsNameTheirs(start: Acc, ctxs: seq<Context>, custom: bool)
    requires Fresh(start)
    ensures AllNamed(AddAll(start, ctxs, custom).buckets)
  {
    if ctxs == [] {
      forall c ensures Named(BucketAt(start.buckets, c)) { assert BucketAt(start.buckets, c) == NEW_BUCKET; }
    } else {
      var init, ctx := ctxs[..|ctxs| - 1], ctxs[|ctxs| - 1];
      BucketsNameTheirs(start, init, custom);
      ServicesKeepNamed(Enter(AddAll(start, init, custom), ctx.principal), ctx.principal.key, ctx.project,
                        ctx.services, custom);
    }
  }

  // ── the causes of a principal ──

  predicate HasCause(ps: map<string, Principal>, principal: string, cause: Cause) {
    principal in ps && cause in ps[principal].causes
  }

  lemma {:induction false} CausesOfAnswers(principal: string, service: string, answers: seq<Answer>, cause: Cause)
    ensures cause in DifferenceCauses(answers)
            <==> Filing(cause, principal, service) in Filed(principal, service, answers)
  {
    if answers != [] { CausesOfAnswers(principal, service, answers[..|answers| - 1], cause); }
  }

  predicate HasFiling(filings: seq<Filing>, principal: string, cause: Cause) {
    exists i :: 0 <= i < |filings| && filings[i].principal == principal && filings[i].cause == cause
  }

  lemma HasFilingConcat(a: seq<Filing>, b: seq<Filing>, principal: string, cause: Cause)
    ensures HasFiling(a + b, principal, cause) <==> HasFiling(a, principal, cause) || HasFiling(b, principal, cause)
  {
    var all := a + b;
    if i :| 0 <= i < |all| && all[i].principal == principal && all[i].cause == cause {
      if i < |a| { assert a[i] == all[i]; } else { assert b[i - |a|] == all[i]; }
    }
    if i :| 0 <= i < |a| && a[i].principal == principal && a[i].cause == cause { assert all[i] == a[i]; }
    if i :| 0 <= i < |b| && b[i].principal == principal && b[i].cause == cause { assert all[|a| + i] == b[i]; }
  }

  lemma {:induction false} FiledAlike(principal: string, service: string, answers: seq<Answer>)
    ensures forall x :: x in Filed(principal, service, answers) ==> x.principal == principal && x.service == service
  {
    if answers != [] { FiledAlike(principal, service, answers[..|answers| - 1]); }
  }

  lemma FilingIsCause(who: string, service: string, answers: seq<Answer>, principal: string, cause: Cause)
    ensures HasFiling(Filed(who, service, answers), principal, cause)
            <==> principal == who && cause in DifferenceCauses(answers)
  {
    var filed := Filed(who, service, answers);
    FiledAlike(who, service, answers);
    CausesOfAnswers(who, service, answers, cause);
    if i :| 0 <= i < |filed| && filed[i].principal == principal && filed[i].cause == cause {
      assert filed[i] in filed && filed[i] == Filing(cause, who, service);
    }
  }

  lemma {:induction false} ServicesCause(a: Acc, who: string, project: string, services: seq<ServiceObservation>,
                                         custom: bool, principal: string, cause: Cause)
    requires who in a.principals
    ensures HasCause(AddServices(a, who, project, services, custom).principals, principal, cause)
            <==> || HasCause(a.principals, principal, cause)
                 || HasFiling(ServicesFiled(who, services, custom), principal, cause)
  {
    if services != [] {
      var init, o := services[..|services| - 1], services[|services| - 1];
      ServicesCause(a, who, project, init, custom, principal, cause);
      FilingIsCause(who, o.service, AnswersOf(o, custom), principal, cause);
      HasFilingConcat(ServicesFiled(who, init, custom), Filed(who, o.service, AnswersOf(o, custom)), principal, cause);
    }
  }

  /** Over any contexts, the causes listed for a principal are exactly those it has an answer filed under. */
  lemma {:induction false} CausesAreFilings(start: Acc, ctxs: seq<Context>, custom: bool, principal: string,
                                            cause: Cause)
    requires Fresh(start)
    ensures HasCause(AddAll(start, ctxs, custom).principals, principal, cause)
            <==> HasFiling(AllFiled(ctxs, custom), principal, cause)
  {
    if ctxs != [] {
      var init, ctx := ctxs[..|ctxs| - 1], ctxs[|ctxs| - 1];
      CausesAreFilings(start, init, custom, principal, cause);
      var a := AddAll(start, init, custom);
      assert HasCause(Enter(a, ctx.principal).principals, principal, cause)
          <==> HasCause(a.principals, principal, cause);
      ServicesCause(Enter(a, ctx.principal), ctx.principal.key, ctx.project, ctx.services, custom, principal, cause);
      HasFilingConcat(AllFiled(init, custom), ServicesFiled(ctx.principal.key, ctx.services, custom), principal, cause);
    }
  }

  // ── how many answers each cause has ──

  function WithCause(answers: seq<Answer>, cause: Cause): nat {
    if answers == [] then 0 else WithCause(answers[..|answers| - 1], cause) + One(answers[|answers| - 1].cause == cause)
  }

  function ServicesWithCause(services: seq<ServiceObservation>, custom: bool, cause: Cause): nat {
    if services == [] then 0
    else ServicesWithCause(services[..|services| - 1], custom, cause)
         + WithCause(AnswersOf(services[|services| - 1], custom), cause)
  }

  function AllWithCause(ctxs: seq<Context>, custom: bool, cause: Cause): nat {
    if ctxs == [] then 0
    else AllWithCause(ctxs[..|ctxs| - 1], custom, cause) + ServicesWithCause(ctxs[|ctxs| - 1].services, custom, cause)
  }

  /** The figure the report shows for a cause. */
  function CauseFigure(c: Counts, buckets: map<Cause, Bucket>, cause: Cause): nat {
    match cause
    case Same => c.same
    case Masked => c.masked
    case _ => BucketAt(buckets, cause).decisions
  }

  lemma AnswerRaisesCause(c: Counts, buckets: map<Cause, Bucket>, filed: Cause, principal: string, service: string,
                          direction: Direction, cause: Cause)
    ensures CauseFigure(Count(c, filed, direction), File(buckets, filed, principal, service, direction), cause)
            == CauseFigure(c, buckets, cause) + One(filed == cause)
  {
  }

  lemma {:induction false} AnswersRaiseCause(c: Counts, buckets: map<Cause, Bucket>, principal: string, service: string,
                                             answers: seq<Answer>, cause: Cause)
    ensures CauseFigure(CountAll(c, answers), FileAll(buckets, principal, service, answers), cause)
            == CauseFigure(c, buckets, cause) + WithCause(answers, cause)
  {
    if answers != [] {
      var init, x := answers[..|answers| - 1], answers[|answers| - 1];
      AnswersRaiseCause(c, buckets, principal, service, init, cause);
      AnswerRaisesCause(CountAll(c, init), FileAll(buckets, principal, service, init), x.cause, principal, service,
                        DirectionOf(x.before, x.after), cause);
    }
  }

  lemma {:induction false} ServicesRaiseCause(a: Acc, principal: string, project: string,
                                              services: seq<ServiceObservation>,
                                              custom: bool, cause: Cause)
    requires principal in a.principals
    ensures var r := AddServices(a, principal, project, services, custom);
            CauseFigure(r.counts, r.buckets, cause)
            == CauseFigure(a.counts, a.buckets, cause) + ServicesWithCause(services, custom, cause)
  {
    if services != [] {
      var init, o := services[..|services| - 1], services[|services| - 1];
      ServicesRaiseCause(a, principal, project, init, custom, cause);
      var b := AddServices(a, principal, project, init, custom);
      AnswersRaiseCause(b.counts, b.buckets, principal, o.service, AnswersOf(o, custom), cause);
    }
  }

  /** Over any contexts, "same", "masked" and every bucket count exactly the answers of their cause. */
  lemma {:induction false} FiguresAreAnswers(start: Acc, ctxs: seq<Context>, custom: bool, cause: Cause)
    requires Fresh(start)
    ensures var a := AddAll(start, ctxs, custom);
            CauseFigure(a.counts, a.buckets, cause) == AllWithCause(ctxs, custom, cause)
  {
    if ctxs == [] {
      assert BucketAt(start.buckets, cause) == NEW_BUCKET;
    } else {
      var init, ctx := ctxs[..|ctxs| - 1], ctxs[|ctxs| - 1];
      FiguresAreAnswers(start, init, custom, cause);
      ServicesRaiseCause(Enter(AddAll(start, init, custom), ctx.principal), ctx.principal.key, ctx.project,
                         ctx.services,
                         custom, cause);
    }
  }
}

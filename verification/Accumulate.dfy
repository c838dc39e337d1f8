/**
 * Folding the observations of one workspace into the report's figures and lists
 * (scripts/iam/preflight/accumulate.ts).
 */
module Accumulate {
  import opened Options
  import opened Levels
  import opened Attribution

  datatype PrincipalInfo = PrincipalInfo(key: string, isToken: bool)

  datatype Context = Context(principal: PrincipalInfo, project: string, services: seq<ServiceObservation>)

  datatype Bucket = Bucket(decisions: nat, tighten: nat, loosen: nat,
                           principals: set<string>, pairs: set<(string, string)>, services: set<string>)

  const NEW_BUCKET := Bucket(0, 0, 0, {}, {}, {})

  datatype ChangeKey = ChangeKey(service: string, before: Level, after: Level, cause: Cause)

  /** One line of a principal's list: where it applies, and the direction of its first occurrence. */
  datatype Change = Change(direction: Direction, projects: set<string>)

  datatype DeferredKey = DeferredKey(service: string, from: Level, to: Level)

  datatype Principal = Principal(isToken: bool, causes: set<Cause>, changes: map<ChangeKey, Change>,
                                 deferred: map<DeferredKey, set<string>>)

  datatype Counts = Counts(contexts: nat, decisions: nat, same: nat, masked: nat, tighten: nat, loosen: nat,
                           parityMismatches: nat, unexplained: nat)

  datatype Acc = Acc(counts: Counts, buckets: map<Cause, Bucket>, principals: map<string, Principal>)

  /** The accumulator before the first context. */
  predicate Fresh(a: Acc) {
    a.counts == Counts(0, 0, 0, 0, 0, 0, 0, 0) && a.buckets.Keys == {} && a.principals.Keys == {}
  }

  // ── one answer ──

  /** The cause an answer is filed under: a difference nobody attributed is the custom policies' or unexplained. */
  function CauseFor(o: ServiceObservation, check: Check, customPolicies: bool): Cause {
    if check in o.causes then o.causes[check]
    else if o.before.At(check) == o.after.At(check) then Same
    else if customPolicies then CustomPolicies
    else Unexplained
  }

  predicate IsDifference(cause: Cause) {
    cause != Same && cause != Masked
  }

  function BucketAt(buckets: map<Cause, Bucket>, cause: Cause): Bucket {
    if cause in buckets then buckets[cause] else NEW_BUCKET
  }

  function FileIn(b: Bucket, principal: string, service: string, direction: Direction): Bucket {
    Bucket(b.decisions + 1, b.tighten + One(direction == Tighten), b.loosen + One(direction == Loosen),
           b.principals + {principal}, b.pairs + {(principal, service)}, b.services + {service})
  }

  /** The buckets after one answer: a difference goes into the bucket of its cause. */
  function File(buckets: map<Cause, Bucket>, cause: Cause, principal: string, service: string,
                direction: Direction): map<Cause, Bucket> {
    if IsDifference(cause) then buckets[cause := FileIn(BucketAt(buckets, cause), principal, service, direction)]
    else buckets
  }

  /** The counters after one answer. */
  function Count(c: Counts, cause: Cause, direction: Direction): Counts {
    if IsDifference(cause) then
      c.(decisions := c.decisions + 1,
         tighten := c.tighten + One(direction == Tighten), loosen := c.loosen + One(direction == Loosen),
         parityMismatches := c.parityMismatches + One(cause == ParityMismatch),
         unexplained := c.unexplained + One(cause == Unexplained))
    else
      c.(decisions := c.decisions + 1, same := c.same + One(cause == Same), masked := c.masked + One(cause == Masked))
  }

  // ── one service ──

  function CausesFor(o: ServiceObservation, customPolicies: bool): seq<Cause> {
    [CauseFor(o, ReadCheck, customPolicies), CauseFor(o, WriteCheck, customPolicies),
     CauseFor(o, AdminCheck, customPolicies)]
  }

  /** One answer as the loop over the checks sees it. */
  datatype Answer = Answer(cause: Cause, before: bool, after: bool)

  function AnswersOf(o: ServiceObservation, customPolicies: bool): seq<Answer> {
    [Answer(CauseFor(o, ReadCheck, customPolicies), o.before.read, o.after.read),
     Answer(CauseFor(o, WriteCheck, customPolicies), o.before.write, o.after.write),
     Answer(CauseFor(o, AdminCheck, customPolicies), o.before.admin, o.after.admin)]
  }

  function CountAll(c: Counts, answers: seq<Answer>): Counts {
    if answers == [] then c
    else
      var x := answers[|answers| - 1];
      Count(CountAll(c, answers[..|answers| - 1]), x.cause, DirectionOf(x.before, x.after))
  }

  function FileAll(buckets: map<Cause, Bucket>, principal: string, service: string,
                   answers: seq<Answer>): map<Cause, Bucket> {
    if answers == [] then buckets
    else
      var x := answers[|answers| - 1];
      File(FileAll(buckets, principal, service, answers[..|answers| - 1]), x.cause, principal, service,
           DirectionOf(x.before, x.after))
  }

  function DifferenceCauses(answers: seq<Answer>): set<Cause> {
    if answers == [] then {}
    else
      var rest, x := DifferenceCauses(answers[..|answers| - 1]), answers[|answers| - 1];
      if IsDifference(x.cause) then rest + {x.cause} else rest
  }

  /** Some answer changed and its cause says so. */
  predicate AnyDiffers(answers: seq<Answer>) {
    answers != []
    && var x := answers[|answers| - 1];
       AnyDiffers(answers[..|answers| - 1]) || (IsDifference(x.cause) && x.before != x.after)
  }

  function Granted(c: Checks): nat {
    One(c.read) + One(c.write) + One(c.admin)
  }

  function ServiceDirection(o: ServiceObservation): Direction {
    var direction := DirectionOfLevels(LevelOfChecks(o.before), LevelOfChecks(o.after));
    if direction != Unchanged then direction else if Granted(o.after) > Granted(o.before) then Loosen else Tighten
  }

  function KeyFor(o: ServiceObservation, customPolicies: bool): ChangeKey {
    ChangeKey(o.service, LevelOfChecks(o.before), LevelOfChecks(o.after), MergeCauses(CausesFor(o, customPolicies)))
  }

  function NoteChange(changes: map<ChangeKey, Change>, key: ChangeKey, direction: Direction,
                      project: string): map<ChangeKey, Change> {
    changes[key := if key in changes then changes[key].(projects := changes[key].projects + {project})
        else Change(direction, {project})]
  }

  /** A deferred answer is listed when it takes a level away. */
  function NoteDeferred(deferred: map<DeferredKey, set<string>>, o: ServiceObservation,
                        project: string): map<DeferredKey, set<string>> {
    if o.deferred.None? then deferred
    else
      var from, to := LevelOfChecks(o.after), LevelOfChecks(o.deferred.value);
      if DirectionOfLevels(from, to) != Tighten then deferred
      else
        var key := DeferredKey(o.service, from, to);
        deferred[key := (if key in deferred then deferred[key] else {}) + {project}]
  }

  /** The principal's own lists after one service. */
  function Note(p: Principal, project: string, o: ServiceObservation, customPolicies: bool): Principal {
    var answers := AnswersOf(o, customPolicies);
    p.(causes := p.causes + DifferenceCauses(answers),
       changes := if AnyDiffers(answers)
           then NoteChange(p.changes, KeyFor(o, customPolicies), ServiceDirection(o), project) else p.changes,
       deferred := NoteDeferred(p.deferred, o, project))
  }

  function AddService(a: Acc, principal: string, project: string, o: ServiceObservation, customPolicies: bool): Acc
    requires principal in a.principals
  {
    var answers := AnswersOf(o, customPolicies);
    Acc(CountAll(a.counts, answers),
        FileAll(a.buckets, principal, o.service, answers),
        a.principals[principal := Note(a.principals[principal], project, o, customPolicies)])
  }

  // ── contexts ──

  function AddServices(a: Acc, principal: string, project: string, services: seq<ServiceObservation>,
                       customPolicies: bool): (r: Acc)
    requires principal in a.principals
    ensures principal in r.principals
  {
    if services == [] then a
    else AddService(AddServices(a, principal, project, services[..|services| - 1], customPolicies),
                    principal, project, services[|services| - 1], customPolicies)
  }

  function Enter(a: Acc, info: PrincipalInfo): (r: Acc)
    ensures info.key in r.principals
  {
    var counts := a.counts.(contexts := a.counts.contexts + 1);
    if info.key in a.principals then a.(counts := counts)
    else a.(counts := counts, principals := a.principals[info.key := Principal(info.isToken, {}, map[], map[])])
  }

  function AddContext(a: Acc, ctx: Context, customPolicies: bool): Acc {
    AddServices(Enter(a, ctx.principal), ctx.principal.key, ctx.project, ctx.services, customPolicies)
  }

  function AddAll(start: Acc, ctxs: seq<Context>, customPolicies: bool): Acc {
    if ctxs == [] then start
    else AddContext(AddAll(start, ctxs[..|ctxs| - 1], customPolicies), ctxs[|ctxs| - 1], customPolicies)
  }

  /** The accumulator of the report, updated in place as the runner feeds it. */
  class TenantAccumulator {
    const customPolicies: bool
    var counts: Counts
    var buckets: map<Cause, Bucket>
    var principals: map<string, Principal>

    ghost function Abs(): Acc
      reads this
    {
      Acc(counts, buckets, principals)
    }

    constructor (customPolicies: bool)
      ensures Fresh(Abs()) && this.customPolicies == customPolicies
    {
      this.customPolicies := customPolicies;
      counts, buckets, principals := Counts(0, 0, 0, 0, 0, 0, 0, 0), map[], map[];
    }

    /** The part of the inner loop body that counts and files one answer. */
    method RecordAnswer(principal: string, service: string, x: Answer)
      modifies this`counts, this`buckets
      ensures counts == Count(old(counts), x.cause, DirectionOf(x.before, x.after))
      ensures buckets == File(old(buckets), x.cause, principal, service, DirectionOf(x.before, x.after))
    {
      counts := counts.(decisions := counts.decisions + 1);
      if x.cause == Same {
        counts := counts.(same := counts.same + 1);
        return;
      }
      if x.cause == Masked {
        counts := counts.(masked := counts.masked + 1);
        return;
      }
      var direction := DirectionOf(x.before, x.after);
      var b := BucketAt(buckets, x.cause);
      if direction == Tighten {
        counts := counts.(tighten := counts.tighten + 1);
        b := b.(tighten := b.tighten + 1);
      } else if direction == Loosen {
        counts := counts.(loosen := counts.loosen + 1);
        b := b.(loosen := b.loosen + 1);
      }
      buckets := buckets[x.cause := b.(decisions := b.decisions + 1, principals := b.principals + {principal},
                                       pairs := b.pairs + {(principal, service)}, services := b.services + {service})];
      if x.cause == ParityMismatch { counts := counts.(parityMismatches := counts.parityMismatches + 1); }
      if x.cause == Unexplained { counts := counts.(unexplained := counts.unexplained + 1); }
    }

    /** The loop over the checks of one service. */
    method RecordAnswers(principal: string, service: string, answers: seq<Answer>)
      returns (causes: set<Cause>, anyDiffers: bool)
      modifies this`counts, this`buckets
      ensures counts == CountAll(old(counts), answers)
      ensures buckets == FileAll(old(buckets), principal, service, answers)
      ensures causes == DifferenceCauses(answers) && anyDiffers == AnyDiffers(answers)
    {
      causes, anyDiffers := {}, false;
      for i := 0 to |answers|
        invariant counts == CountAll(old(counts), answers[..i])
        invariant buckets == FileAll(old(buckets), principal, service, answers[..i])
        invariant causes == DifferenceCauses(answers[..i]) && anyDiffers == AnyDiffers(answers[..i])
      {
        var x := answers[i];
        ghost var next := answers[..i + 1];
        assert next[..i] == answers[..i] && next[i] == x;
        RecordAnswer(principal, service, x);
        if IsDifference(x.cause) {
          anyDiffers := anyDiffers || x.before != x.after;
          causes := causes + {x.cause};
        }
      }
      assert answers[..|answers|] == answers;
    }

    method RecordService(principal: string, project: string, o: ServiceObservation)
      requires principal in principals
      modifies this
      ensures Abs() == AddService(old(Abs()), principal, project, o, customPolicies)
    {
      var causes, anyDiffers := RecordAnswers(principal, o.service, AnswersOf(o, customPolicies));
      var p := principals[principal];
      p := p.(causes := p.causes + causes);
      if anyDiffers {
        var beforeLevel, afterLevel := LevelOfChecks(o.before), LevelOfChecks(o.after);
        var key := ChangeKey(o.service, beforeLevel, afterLevel, MergeCauses(CausesFor(o, customPolicies)));
        p := p.(changes := NoteChange(p.changes, key, ServiceDirection(o), project));
      }
      p := p.(deferred := NoteDeferred(p.deferred, o, project));
      principals := principals[principal := p];
    }

    method RecordContext(ctx: Context)
      modifies this
      ensures Abs() == AddContext(old(Abs()), ctx, customPolicies)
    {
      counts := counts.(contexts := counts.contexts + 1);
      if ctx.principal.key !in principals {
        principals := principals[ctx.principal.key := Principal(ctx.principal.isToken, {}, map[], map[])];
      }
      for i := 0 to |ctx.services|
        invariant ctx.principal.key in principals
        invariant Abs()
                  == AddServices(Enter(old(Abs()), ctx.principal), ctx.principal.key, ctx.project, ctx.services[..i],
                                 customPolicies)
      {
        assert ctx.services[..i + 1][..i] == ctx.services[..i];
        RecordService(ctx.principal.key, ctx.project, ctx.services[i]);
      }
      assert ctx.services[..|ctx.services|] == ctx.services;
    }
  }

  // ── the figures balance ──

  datatype Figure = Decisions | Tightened | Loosened

  function FigureOf(b: Bucket, figure: Figure): nat {
    match figure
    case Decisions => b.decisions
    case Tightened => b.tighten
    case Loosened => b.loosen
  }

  /** A figure of the report, added up over the six buckets that hold differences. */
  function OverBuckets(buckets: map<Cause, Bucket>, figure: Figure): nat {
    FigureOf(BucketAt(buckets, ProjectNarrowing), figure) + FigureOf(BucketAt(buckets, TokenGroups), figure)
    + FigureOf(BucketAt(buckets, TokenGroupsAndNarrowing), figure) + FigureOf(BucketAt(buckets, CustomPolicies), figure)
    + FigureOf(BucketAt(buckets, ParityMismatch), figure) + FigureOf(BucketAt(buckets, Unexplained), figure)
  }

  predicate Balanced(c: Counts, buckets: map<Cause, Bucket>) {
    && Same !in buckets && Masked !in buckets
    && c.decisions == c.same + c.masked + OverBuckets(buckets, Decisions)
    && c.tighten == OverBuckets(buckets, Tightened)
    && c.loosen == OverBuckets(buckets, Loosened)
    && c.parityMismatches == BucketAt(buckets, ParityMismatch).decisions
    && c.unexplained == BucketAt(buckets, Unexplained).decisions
  }

  /** What one filed difference adds to a figure. */
  function Delta(direction: Direction, figure: Figure): nat {
    match figure
    case Decisions => 1
    case Tightened => One(direction == Tighten)
    case Loosened => One(direction == Loosen)
  }

  lemma FileAt(buckets: map<Cause, Bucket>, cause: Cause, principal: string, service: string, direction: Direction,
               figure: Figure, c: Cause)
    requires IsDifference(cause)
    ensures FigureOf(BucketAt(File(buckets, cause, principal, service, direction), c), figure)
            == FigureOf(BucketAt(buckets, c), figure) + if c == cause then Delta(direction, figure) else 0
  {
  }

  /** Filing a difference adds to one bucket, hence to each figure once. */
  lemma FileAdds(buckets: map<Cause, Bucket>, cause: Cause, principal: string, service: string, direction: Direction,
                 figure: Figure)
    requires IsDifference(cause)
    ensures OverBuckets(File(buckets, cause, principal, service, direction), figure)
            == OverBuckets(buckets, figure) + Delta(direction, figure)
  {
    FileAt(buckets, cause, principal, service, direction, figure, ProjectNarrowing);
    FileAt(buckets, cause, principal, service, direction, figure, TokenGroups);
    FileAt(buckets, cause, principal, service, direction, figure, TokenGroupsAndNarrowing);
    FileAt(buckets, cause, principal, service, direction, figure, CustomPolicies);
    FileAt(buckets, cause, principal, service, direction, figure, ParityMismatch);
    FileAt(buckets, cause, principal, service, direction, figure, Unexplained);
  }

  lemma AnswerKeepsBalance(c: Counts, buckets: map<Cause, Bucket>, cause: Cause, principal: string, service: string,
                           direction: Direction)
    requires Balanced(c, buckets)
    ensures Balanced(Count(c, cause, direction), File(buckets, cause, principal, service, direction))
  {
    if IsDifference(cause) {
      FileAdds(buckets, cause, principal, service, direction, Decisions);
      FileAdds(buckets, cause, principal, service, direction, Tightened);
      FileAdds(buckets, cause, principal, service, direction, Loosened);
      FileAt(buckets, cause, principal, service, direction, Decisions, ParityMismatch);
      FileAt(buckets, cause, principal, service, direction, Decisions, Unexplained);
    }
  }

  lemma {:induction false} AnswersKeepBalance(c: Counts, buckets: map<Cause, Bucket>, principal: string,
                                              service: string, answers: seq<Answer>)
    requires Balanced(c, buckets)
    ensures Balanced(CountAll(c, answers), FileAll(buckets, principal, service, answers))
    ensures CountAll(c, answers).decisions == c.decisions + |answers|
    ensures CountAll(c, answers).contexts == c.contexts
  {
    if answers != [] {
      var init, x := answers[..|answers| - 1], answers[|answers| - 1];
      AnswersKeepBalance(c, buckets, principal, service, init);
      AnswerKeepsBalance(CountAll(c, init), FileAll(buckets, principal, service, init), x.cause, principal, service,
                         DirectionOf(x.before, x.after));
    }
  }

  lemma {:induction false} ServicesKeepBalance(a: Acc, principal: string, project: string,
                                               services: seq<ServiceObservation>, customPolicies: bool)
    requires Balanced(a.counts, a.buckets) && principal in a.principals
    ensures var r := AddServices(a, principal, project, services, customPolicies);
            && Balanced(r.counts, r.buckets)
            && r.counts.decisions == a.counts.decisions + 3 * |services|
            && r.counts.contexts == a.counts.contexts
  {
    if services != [] {
      var init, o := services[..|services| - 1], services[|services| - 1];
      ServicesKeepBalance(a, principal, project, init, customPolicies);
      var b := AddServices(a, principal, project, init, customPolicies);
      AnswersKeepBalance(b.counts, b.buckets, principal, o.service, AnswersOf(o, customPolicies));
    }
  }

  lemma EnterKeepsBalance(a: Acc, info: PrincipalInfo)
    requires Balanced(a.counts, a.buckets)
    ensures Balanced(Enter(a, info).counts, Enter(a, info).buckets)
    ensures Enter(a, info).counts.decisions == a.counts.decisions
            && Enter(a, info).counts.contexts == a.counts.contexts + 1
  {
  }

  lemma EmptyIsBalanced(c: Counts, buckets: map<Cause, Bucket>)
    requires forall cause :: cause !in buckets
    requires c.decisions == c.same == c.masked == c.tighten == c.loosen == c.parityMismatches == c.unexplained == 0
    ensures Balanced(c, buckets)
  {
  }

  function Observed(ctxs: seq<Context>): nat {
    if ctxs == [] then 0 else Observed(ctxs[..|ctxs| - 1]) + |ctxs[|ctxs| - 1].services|
  }

  /**
   * After any sequence of contexts every decision is accounted for: three per
   * service observed, and each of them "same", "masked" or in exactly one bucket,
   * with the direction totals and integrity counters those of the buckets.
   */
  lemma {:induction false} FiguresBalance(start: Acc, ctxs: seq<Context>, customPolicies: bool)
    requires Fresh(start)
    ensures var a := AddAll(start, ctxs, customPolicies);
            && Balanced(a.counts, a.buckets)
            && a.counts.decisions == 3 * Observed(ctxs)
            && a.counts.contexts == |ctxs|
  {
    if ctxs == [] {
      EmptyIsBalanced(start.counts, start.buckets);
    } else {
      var init, ctx := ctxs[..|ctxs| - 1], ctxs[|ctxs| - 1];
      FiguresBalance(start, init, customPolicies);
      EnterKeepsBalance(AddAll(start, init, customPolicies), ctx.principal);
      var a := Enter(AddAll(start, init, customPolicies), ctx.principal);
      ServicesKeepBalance(a, ctx.principal.key, ctx.project, ctx.services, customPolicies);
    }
  }

  // ── what nobody attributed ──

  /**
   * A changed answer without a recorded cause is the custom policies' where there are some, and
   * unexplained where not.
   */
  lemma UnsetCause(o: ServiceObservation, check: Check)
    requires check !in o.causes
    ensures o.before.At(check) == o.after.At(check) ==> CauseFor(o, check, true) == CauseFor(o, check, false) == Same
    ensures o.before.At(check) != o.after.At(check) ==>
              CauseFor(o, check, true) == CustomPolicies && CauseFor(o, check, false) == Unexplained
  {
  }

  // ── the direction totals are the changed answers ──

  /** The causes come from `classifyCheck` or are unset: an answer filed as same or masked did not change. */
  predicate Honest(o: ServiceObservation, customPolicies: bool) {
    forall i :: 0 <= i < 3 ==>
      var x := AnswersOf(o, customPolicies)[i];
      !IsDifference(x.cause) ==> x.before == x.after
  }

  /** What `classifyCheck` calls same or masked is an answer that did not change, whatever the inputs. */
  lemma ClassifyIsHonest(before: bool, after: bool, inputs: Option<Inputs>, customPolicies: bool)
    ensures !IsDifference(ClassifyCheck(before, after, inputs, customPolicies)) ==> before == after
  {
  }

  /** The recorded cause is what `classifyCheck` says about the answer, with some attribution inputs or none. */
  ghost predicate Classified(o: ServiceObservation, check: Check, customPolicies: bool)
    requires check in o.causes
  {
    exists inputs :: o.causes[check] == ClassifyCheck(o.before.At(check), o.after.At(check), inputs, customPolicies)
  }

  lemma CauseForIsHonest(o: ServiceObservation, check: Check, customPolicies: bool)
    requires check in o.causes ==> Classified(o, check, customPolicies)
    ensures !IsDifference(CauseFor(o, check, customPolicies)) ==> o.before.At(check) == o.after.At(check)
  {
    if check in o.causes {
      var inputs :| o.causes[check] == ClassifyCheck(o.before.At(check), o.after.At(check), inputs, customPolicies);
      ClassifyIsHonest(o.before.At(check), o.after.At(check), inputs, customPolicies);
    }
  }

  /** So an observation is honest whose causes all come from `classifyCheck` or are unset. */
  lemma ClassifiedIsHonest(o: ServiceObservation, customPolicies: bool)
    requires forall check :: check in o.causes ==> Classified(o, check, customPolicies)
    ensures Honest(o, customPolicies)
  {
    CauseForIsHonest(o, ReadCheck, customPolicies);
    CauseForIsHonest(o, WriteCheck, customPolicies);
    CauseForIsHonest(o, AdminCheck, customPolicies);
  }

  function Moved(answers: seq<Answer>, direction: Direction): nat {
    if answers == [] then 0
    else
      var x := answers[|answers| - 1];
      Moved(answers[..|answers| - 1], direction) + One(DirectionOf(x.before, x.after) == direction)
  }

  function ServicesMoved(services: seq<ServiceObservation>, direction: Direction, customPolicies: bool): nat {
    if services == [] then 0
    else ServicesMoved(services[..|services| - 1], direction, customPolicies)
         + Moved(AnswersOf(services[|services| - 1], customPolicies), direction)
  }

  function AllMoved(ctxs: seq<Context>, direction: Direction, customPolicies: bool): nat {
    if ctxs == [] then 0
    else AllMoved(ctxs[..|ctxs| - 1], direction, customPolicies)
         + ServicesMoved(ctxs[|ctxs| - 1].services, direction, customPolicies)
  }

  lemma {:induction false} CountAllMoves(c: Counts, answers: seq<Answer>)
    requires forall i :: 0 <= i < |answers| && !IsDifference(answers[i].cause) ==> answers[i].before == answers[i].after
    ensures CountAll(c, answers).tighten == c.tighten + Moved(answers, Tighten)
    ensures CountAll(c, answers).loosen == c.loosen + Moved(answers, Loosen)
  {
    if answers != [] { CountAllMoves(c, answers[..|answers| - 1]); }
  }

  lemma {:induction false} ServicesMove(a: Acc, principal: string, project: string, services: seq<ServiceObservation>,
                                        customPolicies: bool)
    requires principal in a.principals && forall i :: 0 <= i < |services| ==> Honest(services[i], customPolicies)
    ensures var r := AddServices(a, principal, project, services, customPolicies).counts;
            && r.tighten == a.counts.tighten + ServicesMoved(services, Tighten, customPolicies)
            && r.loosen == a.counts.loosen + ServicesMoved(services, Loosen, customPolicies)
  {
    if services != [] {
      var init, o := services[..|services| - 1], services[|services| - 1];
      ServicesMove(a, principal, project, init, customPolicies);
      CountAllMoves(AddServices(a, principal, project, init, customPolicies).counts, AnswersOf(o, customPolicies));
    }
  }

  /** The tighten and loosen totals are exactly the numbers of answers that moved each way. */
  lemma {:induction false} TotalsAreMoves(start: Acc, ctxs: seq<Context>, customPolicies: bool)
    requires Fresh(start)
    requires forall i, j ::
               0 <= i < |ctxs| && 0 <= j < |ctxs[i].services| ==> Honest(ctxs[i].services[j], customPolicies)
    ensures AddAll(start, ctxs, customPolicies).counts.tighten == AllMoved(ctxs, Tighten, customPolicies)
    ensures AddAll(start, ctxs, customPolicies).counts.loosen == AllMoved(ctxs, Loosen, customPolicies)
  {
    if ctxs != [] {
      var init, ctx := ctxs[..|ctxs| - 1], ctxs[|ctxs| - 1];
      TotalsAreMoves(start, init, customPolicies);
      ServicesMove(Enter(AddAll(start, init, customPolicies), ctx.principal), ctx.principal.key, ctx.project,
                   ctx.services, customPolicies);
    }
  }
}

/**
 * Sharing engine answers between callers that are the same to the engine:
 * the signature and the memo of memo.ts, and `decide` / `decideAll` of run.ts.
 */
module Memo {
  import opened Options
  import opened Levels
  import opened Rbac
  import opened Engine
  import opened Json

  // ── the signature ──

  function Strings(ids: seq<string>): Json {
    JArray(seq(|ids|, i requires 0 <= i < |ids| => JString(ids[i])))
  }

  function Limits(sets: LevelSets): seq<Json> {
    [Strings(sets.read), Strings(sets.write), Strings(sets.admin)]
  }

  function Parts(channel: string, p: Principal): seq<Json> {
    [JString(channel), JString(if p.kind.Token? then "token" else "user")]
    + Limits(p.sets)
    + [if p.projDeny.Some? then JArray(Limits(p.projDeny.value)) else JNull,
       if p.token.Some? then JArray([JBool(p.token.value.scoped)] + Limits(p.token.value.sets)) else JNull]
  }

  /** memo.ts `decisionSignature`: everything the managed policies read, as one string. */
  function Signature(channel: string, p: Principal): string {
    Render(JArray(Parts(channel, p)))
  }

  lemma ArrayInjective(a: seq<Json>, b: seq<Json>)
    requires JArray(a) == JArray(b)
    ensures a == b
  {
    var u, v := JArray(a).items, JArray(b).items;
    assert |a| == |u| == |v| == |b|;
    forall i | 0 <= i < |a| ensures a[i] == b[i] {
      assert u[i] == Item(None, a[i]) && v[i] == Item(None, b[i]);
    }
  }

  lemma StringsInjective(a: seq<string>, b: seq<string>)
    requires Strings(a) == Strings(b)
    ensures a == b
  {
    var u := seq(|a|, i requires 0 <= i < |a| => JString(a[i]));
    var v := seq(|b|, i requires 0 <= i < |b| => JString(b[i]));
    ArrayInjective(u, v);
    forall i | 0 <= i < |a| ensures a[i] == b[i] {
      assert u[i] == JString(a[i]) && v[i] == JString(b[i]);
    }
  }

  lemma LimitsInjective(a: LevelSets, b: LevelSets)
    requires Limits(a) == Limits(b)
    ensures a == b
  {
    assert Limits(a)[0] == Limits(b)[0] && Limits(a)[1] == Limits(b)[1] && Limits(a)[2] == Limits(b)[2];
    StringsInjective(a.read, b.read);
    StringsInjective(a.write, b.write);
    StringsInjective(a.admin, b.admin);
  }

  lemma CapsInjective(a: TokenCaps, b: TokenCaps)
    requires JArray([JBool(a.scoped)] + Limits(a.sets)) == JArray([JBool(b.scoped)] + Limits(b.sets))
    ensures a == b
  {
    var u, v := [JBool(a.scoped)] + Limits(a.sets), [JBool(b.scoped)] + Limits(b.sets);
    ArrayInjective(u, v);
    assert u[0] == v[0] && u[1..] == Limits(a.sets) && v[1..] == Limits(b.sets);
    LimitsInjective(a.sets, b.sets);
  }

  lemma StringsValid(ids: seq<string>)
    ensures Valid(Strings(ids))
  {
  }

  lemma ArrayValid(values: seq<Json>)
    requires forall v :: v in values ==> Valid(v)
    ensures Valid(JArray(values))
  {
    assert forall item :: item in JArray(values).items ==> item.key.None? && item.value in values;
  }

  lemma LimitsValid(sets: LevelSets)
    ensures forall v :: v in Limits(sets) ==> Valid(v)
  {
    StringsValid(sets.read);
    StringsValid(sets.write);
    StringsValid(sets.admin);
  }

  lemma SignatureValid(channel: string, p: Principal)
    ensures Valid(JArray(Parts(channel, p)))
  {
    LimitsValid(p.sets);
    if p.projDeny.Some? {
      LimitsValid(p.projDeny.value);
      ArrayValid(Limits(p.projDeny.value));
    }
    if p.token.Some? {
      LimitsValid(p.token.value.sets);
      ArrayValid([JBool(p.token.value.scoped)] + Limits(p.token.value.sets));
    }
    ArrayValid(Parts(channel, p));
  }

  /** Distinct callers never share a memo entry: the string gives back the channel and the principal. */
  lemma SignatureInjective(channel: string, p: Principal, channel': string, p': Principal)
    requires Signature(channel, p) == Signature(channel', p')
    ensures channel == channel' && p == p'
  {
    SignatureValid(channel, p);
    SignatureValid(channel', p');
    RenderInjective(JArray(Parts(channel, p)), JArray(Parts(channel', p')));
    ArrayInjective(Parts(channel, p), Parts(channel', p'));
    PartsInjective(channel, p, channel', p');
  }

  lemma PartsInjective(channel: string, p: Principal, channel': string, p': Principal)
    requires Parts(channel, p) == Parts(channel', p')
    ensures channel == channel' && p == p'
  {
    var a, b := Parts(channel, p), Parts(channel', p');
    assert a[0] == b[0] && a[1] == b[1] && a[5] == b[5] && a[6] == b[6];
    assert a[2..5] == Limits(p.sets) && b[2..5] == Limits(p'.sets);
    LimitsInjective(p.sets, p'.sets);
    if p.projDeny.Some? {
      ArrayInjective(Limits(p.projDeny.value), Limits(p'.projDeny.value));
      LimitsInjective(p.projDeny.value, p'.projDeny.value);
    }
    if p.token.Some? { CapsInjective(p.token.value, p'.token.value); }
  }

  // ── the engine as the runner asks it ──

  /** One `decideAll` call: `who` is everything about the caller the signature leaves out. */
  datatype Query = Query(channel: string, who: string, principal: Principal, service: string)

  function Key(q: Query): string {
    Signature(q.channel, q.principal)
  }

  datatype Answer = Answer(allowed: bool, failed: bool)

  type Ask = (Query, Check) -> Answer

  /** Asking the engine itself, three checks at a time. */
  function Direct(ask: Ask, q: Query): Checks {
    Checks(ask(q, ReadCheck).allowed, ask(q, WriteCheck).allowed, ask(q, AdminCheck).allowed)
  }

  function DirectFailures(ask: Ask, q: Query): nat {
    One(ask(q, ReadCheck).failed) + One(ask(q, WriteCheck).failed) + One(ask(q, AdminCheck).failed)
  }

  /** The assumption behind sharing: callers with one signature get one answer per service and check. */
  ghost predicate SignatureOnly(ask: Ask) {
    forall q, q', check :: Key(q) == Key(q') && q.service == q'.service ==> ask(q, check) == ask(q', check)
  }

  function ManagedAsk(cat: Catalog): Ask {
    (q: Query, check: Check) => Answer(Allowed(cat, q.principal, [], check, q.service), false)
  }

  /** The managed policies meet the assumption. */
  lemma ManagedIsSignatureOnly(cat: Catalog)
    ensures SignatureOnly(ManagedAsk(cat))
  {
    forall q: Query, q': Query, check | Key(q) == Key(q') && q.service == q'.service
      ensures ManagedAsk(cat)(q, check) == ManagedAsk(cat)(q', check)
    {
      SignatureInjective(q.channel, q.principal, q'.channel, q'.principal);
    }
  }

  // ── the memo ──

  type Table = map<string, map<string, Checks>>

  const MAX_SIGNATURES: nat := 20_000

  function Find(table: Table, signature: string, service: string): Option<Checks> {
    if signature in table && service in table[signature] then Some(table[signature][service]) else None
  }

  function Insert(table: Table, max: nat, signature: string, service: string, checks: Checks): Table {
    if signature in table then table[signature := table[signature][service := checks]]
    else if |table| >= max then table
    else table[signature := map[service := checks]]
  }

  class DecisionMemo {
    var bySignature: Table
    var hits: nat
    var misses: nat
    const maxSignatures: nat

    constructor (maxSignatures: nat := MAX_SIGNATURES)
      ensures bySignature == map[] && hits == 0 && misses == 0 && this.maxSignatures == maxSignatures
    {
      bySignature, hits, misses := map[], 0, 0;
      this.maxSignatures := maxSignatures;
    }

    method Get(signature: string, service: string) returns (hit: Option<Checks>)
      modifies this
      ensures hit == Find(bySignature, signature, service)
      ensures bySignature == old(bySignature)
      ensures hits == old(hits) + One(hit.Some?) && misses == old(misses) + One(hit.None?)
    {
      hit := None;
      if signature in bySignature {
        var services := bySignature[signature];
        if service in services { hit := Some(services[service]); }
      }
      if hit.Some? { hits := hits + 1; } else { misses := misses + 1; }
    }

    method Set(signature: string, service: string, checks: Checks)
      modifies this
      ensures bySignature == Insert(old(bySignature), maxSignatures, signature, service, checks)
      ensures hits == old(hits) && misses == old(misses)
    {
      var services: map<string, Checks> := map[];
      if signature in bySignature {
        services := bySignature[signature];
      } else if |bySignature| >= maxSignatures {
        return;
      }
      bySignature := bySignature[signature := services[service := checks]];
    }
  }

  // ── a run of decisions ──

  datatype State = State(table: Table, hits: nat, misses: nat, failures: nat)

  const START := State(map[], 0, 0, 0)

  function Step(ask: Ask, max: nat, s: State, q: Query): (State, Checks) {
    match Find(s.table, Key(q), q.service)
    case Some(checks) => (s.(hits := s.hits + 1), checks)
    case None =>
      (State(Insert(s.table, max, Key(q), q.service, Direct(ask, q)), s.hits, s.misses + 1,
             s.failures + DirectFailures(ask, q)),
       Direct(ask, q))
  }

  function Run(ask: Ask, max: nat, queries: seq<Query>): (State, seq<Checks>) {
    if queries == [] then (START, [])
    else
      var (s, answers) := Run(ask, max, queries[..|queries| - 1]);
      var (s', answer) := Step(ask, max, s, queries[|queries| - 1]);
      (s', answers + [answer])
  }

  function RunDirect(ask: Ask, queries: seq<Query>): seq<Checks> {
    seq(|queries|, i requires 0 <= i < |queries| => Direct(ask, queries[i]))
  }

  /** What the memo holds is what the engine would say, and nothing held came from a failure unless one was counted. */
  ghost predicate Faithful(ask: Ask, max: nat, s: State) {
    && |s.table| <= max
    && forall q: Query :: Find(s.table, Key(q), q.service).Some? ==>
         && Find(s.table, Key(q), q.service).value == Direct(ask, q)
         && (s.failures == 0 ==> DirectFailures(ask, q) == 0)
  }

  lemma StepIsDirect(ask: Ask, max: nat, s: State, q: Query)
    requires SignatureOnly(ask) && Faithful(ask, max, s)
    ensures var (s', answer) := Step(ask, max, s, q);
            && Faithful(ask, max, s') && answer == Direct(ask, q)
            && s'.hits + s'.misses == s.hits + s.misses + 1
            && s.failures <= s'.failures <= s.failures + DirectFailures(ask, q)
            && (s'.failures == 0 ==> DirectFailures(ask, q) == 0)
  {
    var (s', answer) := Step(ask, max, s, q);
    forall r: Query | Find(s'.table, Key(r), r.service).Some?
      ensures Find(s'.table, Key(r), r.service).value == Direct(ask, r)
      ensures s'.failures == 0 ==> DirectFailures(ask, r) == 0
    {
      if Key(r) == Key(q) && r.service == q.service {
        assert forall check :: ask(r, check) == ask(q, check);
      } else {
        assert Find(s.table, Key(r), r.service) == Find(s'.table, Key(r), r.service);
      }
    }
  }

  /** What is stored within the bound is found again, and storing disturbs nothing else. */
  lemma FoundAfterInsert(table: Table, max: nat, signature: string, service: string, checks: Checks, other: string,
                         elsewhere: string)
    ensures signature in table || |table| < max ==>
              Find(Insert(table, max, signature, service, checks), signature, service) == Some(checks)
    ensures (other, elsewhere) != (signature, service) ==>
              Find(Insert(table, max, signature, service, checks), other, elsewhere) == Find(table, other, elsewhere)
    ensures signature !in table && |table| >= max ==> Insert(table, max, signature, service, checks) == table
  {
  }

  /** Within the bound, asking again about the same signature and service is a hit: no engine call, no new failure. */
  lemma RepeatIsHit(ask: Ask, max: nat, s: State, q: Query, again: Query)
    requires Key(q) in s.table || |s.table| < max
    requires Key(again) == Key(q) && again.service == q.service
    ensures var s' := Step(ask, max, s, q).0;
            Step(ask, max, s', again) == (s'.(hits := s'.hits + 1), Step(ask, max, s, q).1)
  {
    FoundAfterInsert(s.table, max, Key(q), q.service, Direct(ask, q), Key(q), q.service);
  }

  /** With room for every caller, each signature and service is asked once: what was asked before is never a miss. */
  lemma {:induction false} EverythingIsKept(ask: Ask, max: nat, queries: seq<Query>, i: nat)
    requires |queries| <= max && i < |queries|
    ensures |Run(ask, max, queries).0.table| <= |queries|
    ensures Find(Run(ask, max, queries).0.table, Key(queries[i]), queries[i].service).Some?
  {
    var n := |queries| - 1;
    var s := Run(ask, max, queries[..n]).0;
    TableIsSmall(ask, max, queries[..n]);
    TableIsSmall(ask, max, queries);
    FoundAfterInsert(s.table, max, Key(queries[n]), queries[n].service, Direct(ask, queries[n]), Key(queries[i]),
                     queries[i].service);
    if i < n { EverythingIsKept(ask, max, queries[..n], i); }
  }

  lemma {:induction false} TableIsSmall(ask: Ask, max: nat, queries: seq<Query>)
    ensures |Run(ask, max, queries).0.table| <= |queries|
  {
    if queries != [] { TableIsSmall(ask, max, queries[..|queries| - 1]); }
  }

  /**
   * For every sequence of calls and every bound on the memo, the memoised run
   * gives the answers of asking the engine each time, counts every lookup once,
   * keeps within its bound, and reports no engine failure exactly when the
   * direct run has none.
   */
  lemma {:induction false} MemoisedRunIsDirect(ask: Ask, max: nat, queries: seq<Query>)
    requires SignatureOnly(ask)
    ensures var (s, answers) := Run(ask, max, queries);
            && answers == RunDirect(ask, queries)
            && s.hits + s.misses == |queries|
            && |s.table| <= max
            && Faithful(ask, max, s)
            && (s.failures == 0 <==> forall q :: q in queries ==> DirectFailures(ask, q) == 0)
  {
    if queries != [] {
      var rest, q := queries[..|queries| - 1], queries[|queries| - 1];
      MemoisedRunIsDirect(ask, max, rest);
      StepIsDirect(ask, max, Run(ask, max, rest).0, q);
      assert queries == rest + [q];
      assert RunDirect(ask, queries) == RunDirect(ask, rest) + [Direct(ask, q)];
    }
  }

  /** run.ts `decide` / `decideAll` with the failure count and the optional memo they close over. */
  class Decider {
    const ask: Ask
    const memo: DecisionMemo?
    var failures: nat

    constructor (ask: Ask, memo: DecisionMemo?)
      ensures this.ask == ask && this.memo == memo && failures == 0
    {
      this.ask := ask;
      this.memo := memo;
      failures := 0;
    }

    ghost function Abs(): State
      requires memo != null
      reads this, memo
    {
      State(memo.bySignature, memo.hits, memo.misses, failures)
    }

    method Decide(q: Query, check: Check) returns (allowed: bool)
      modifies this`failures
      ensures allowed == ask(q, check).allowed
      ensures failures == old(failures) + One(ask(q, check).failed)
    {
      var answer := ask(q, check);
      if answer.failed { failures := failures + 1; }
      allowed := answer.allowed;
    }

    method AskAll(q: Query) returns (out: Checks)
      modifies this`failures
      ensures out == Direct(ask, q)
      ensures failures == old(failures) + DirectFailures(ask, q)
    {
      var read := Decide(q, ReadCheck);
      var write := Decide(q, WriteCheck);
      var admin := Decide(q, AdminCheck);
      out := Checks(read, write, admin);
    }

    method DecideAll(q: Query) returns (out: Checks)
      modifies this`failures, memo
      ensures memo == null ==> out == Direct(ask, q) && failures == old(failures) + DirectFailures(ask, q)
      ensures memo != null ==> (Abs(), out) == Step(ask, memo.maxSignatures, old(Abs()), q)
    {
      if memo == null {
        out := AskAll(q);
        return;
      }
      var signature := Signature(q.channel, q.principal);
      var hit := memo.Get(signature, q.service);
      if hit.Some? { return hit.value; }
      out := AskAll(q);
      memo.Set(signature, q.service, out);
    }

    /** The runner's whole sequence of calls, from a fresh memo or without one. */
    method DecideSequence(queries: seq<Query>) returns (answers: seq<Checks>)
      requires SignatureOnly(ask) && failures == 0
      requires memo != null ==> Abs() == START
      modifies this`failures, memo
      ensures answers == RunDirect(ask, queries)
      ensures failures == 0 <==> forall q :: q in queries ==> DirectFailures(ask, q) == 0
      ensures memo != null ==> |memo.bySignature| <= memo.maxSignatures && memo.hits + memo.misses == |queries|
    {
      answers := [];
      for i := 0 to |queries|
        invariant memo != null ==> (Abs(), answers) == Run(ask, memo.maxSignatures, queries[..i])
        invariant memo == null ==> answers == RunDirect(ask, queries[..i])
        invariant memo == null ==> (failures == 0 <==> forall q :: q in queries[..i] ==> DirectFailures(ask, q) == 0)
      {
        assert queries[..i + 1] == queries[..i] + [queries[i]];
        assert queries[..i + 1][..i] == queries[..i];
        var answer := DecideAll(queries[i]);
        answers := answers + [answer];
      }
      assert queries[..|queries|] == queries;
      if memo != null { MemoisedRunIsDirect(ask, memo.maxSignatures, queries); }
    }
  }
}

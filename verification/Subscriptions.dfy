/**
 * The connector subscription table: triggers with the same connector, trigger,
 * parameters and schedule share one subscription, counted by the triggers bound
 * to it (src/__tests__/helpers/fakeConnectorHost.ts, the stand-in for the contract
 * of src/enterprise/connector-triggers.ts).
 */
module Subscriptions {
  import opened Options
  import opened Json

  datatype Kind = Webhook | Poll

  datatype Status = Active | Failed | Manual | Paused

  datatype Subscription = Subscription(
    key: string, kind: Kind, status: Status, secret: Option<nat>, previousValidUntil: Option<int>, bound: set<string>)

  /** The connector settings of a trigger; `subscription` is the number of its `sub_<n>` id. */
  datatype Settings = Settings(connectorId: string, trigger: string, params: Json, schedule: Json, kind: Kind,
                               subscription: Option<nat>)

  /** The fields that tell subscriptions apart, rendered (`keyOf`); an absent schedule is null. */
  function KeyOf(s: Settings): string {
    Render(JArray([JString(s.connectorId), JString(s.trigger), s.params, s.schedule]))
  }

  ghost predicate ValidSettings(s: Settings) {
    Valid(s.params) && Valid(s.schedule)
  }

  /** Two triggers share a key exactly when connector, trigger, parameters and schedule are all the same. */
  lemma SharedKey(a: Settings, b: Settings)
    requires ValidSettings(a) && ValidSettings(b)
    ensures KeyOf(a) == KeyOf(b) <==>
              a.connectorId == b.connectorId && a.trigger == b.trigger && a.params == b.params
                  && a.schedule == b.schedule
  {
    var x := [JString(a.connectorId), JString(a.trigger), a.params, a.schedule];
    var y := [JString(b.connectorId), JString(b.trigger), b.params, b.schedule];
    if KeyOf(a) == KeyOf(b) {
      assert Valid(JArray(x)) && Valid(JArray(y));
      RenderInjective(JArray(x), JArray(y));
      var u, v := JArray(x).items, JArray(y).items;
      assert forall i :: 0 <= i < 4 ==> u[i].value == x[i] && v[i].value == y[i];
      assert x[0] == y[0] && x[1] == y[1] && x[2] == y[2] && x[3] == y[3];
    }
  }

  /** The table: live subscriptions by id number, and the counter ids are drawn from. */
  datatype Table = Table(subs: map<nat, Subscription>, counter: nat)

  const EMPTY := Table(map[], 0)

  /** One key, one subscription; no subscription without a binding; ids come from the counter and are never reused. */
  ghost predicate Inv(t: Table) {
    && (forall i, j :: i in t.subs && j in t.subs && t.subs[i].key == t.subs[j].key ==> i == j)
    && (forall i :: i in t.subs ==> t.subs[i].bound != {} && 1 <= i <= t.counter)
  }

  predicate HasKey(t: Table, key: string) {
    exists i :: i in t.subs && t.subs[i].key == key
  }

  // ── the operations as state changes ──

  /** `id` is what attach answers: the subscription with the key, else a new one. */
  function Attach(t: Table, trigger: string, s: Settings, status: Status, id: nat): Table {
    if id in t.subs then t.(subs := t.subs[id := t.subs[id].(bound := t.subs[id].bound + {trigger})])
    else Table(t.subs[id := Subscription(KeyOf(s), s.kind, status, Some(id), None, {trigger})], t.counter + 1)
  }

  predicate AttachAnswers(t: Table, s: Settings, id: nat) {
    if HasKey(t, KeyOf(s)) then id in t.subs && t.subs[id].key == KeyOf(s) else id == t.counter + 1
  }

  function Detach(t: Table, trigger: string, s: Settings): Table {
    if s.subscription.None? || s.subscription.value !in t.subs then t
    else
      var id := s.subscription.value;
      var sub := t.subs[id].(bound := t.subs[id].bound - {trigger});
      if sub.bound == {} then t.(subs := t.subs - {id}) else t.(subs := t.subs[id := sub])
  }

  function Rotate(t: Table, s: Settings, until: Option<int>): Table {
    if s.subscription.None? || s.subscription.value !in t.subs || t.subs[s.subscription.value].kind.Poll? then t
    else
      var id := s.subscription.value;
      // a rotated secret no longer carries the number it was created with
      t.(subs := t.subs[id := t.subs[id].(secret := Some(0), previousValidUntil := until)])
  }

  function Retry(t: Table, s: Settings): Table {
    if s.subscription.None? || s.subscription.value !in t.subs then t
    else t.(subs := t.subs[s.subscription.value := t.subs[s.subscription.value].(status := Active)])
  }

  // ── what each operation does to which subscription ──

  /**
   * Attaching binds the trigger to the subscription of its key and touches no other; a new one is
   * as the settings say.
   */
  lemma AttachExactly(t: Table, trigger: string, s: Settings, status: Status, id: nat, other: nat)
    requires Inv(t) && AttachAnswers(t, s, id)
    ensures var t' := Attach(t, trigger, s, status, id);
            && id in t'.subs && t'.subs[id].key == KeyOf(s) && trigger in t'.subs[id].bound
            && (other != id
                ==> (other in t'.subs <==> other in t.subs) && (other in t.subs ==> t'.subs[other] == t.subs[other]))
            && (id in t.subs ==>
                  && t'.subs[id].bound == t.subs[id].bound + {trigger} && t'.counter == t.counter
                  && t'.subs[id].kind == t.subs[id].kind && t'.subs[id].status == t.subs[id].status
                  && t'.subs[id].secret == t.subs[id].secret)
            && (id !in t.subs ==>
                  && t'.subs[id].bound == {trigger} && t'.subs[id].kind == s.kind && t'.subs[id].status == status
                  && t'.subs[id].secret.Some? && t'.subs[id].previousValidUntil.None?
                  && forall i :: i in t.subs ==> t.subs[i].key != KeyOf(s))
  {
  }

  /**
   * Detaching unbinds the trigger there, drops the subscription exactly with its last binding, and
   * touches no other.
   */
  lemma DetachExactly(t: Table, trigger: string, s: Settings, id: nat, other: nat)
    requires Inv(t) && s.subscription == Some(id) && id in t.subs
    ensures var t' := Detach(t, trigger, s);
            && (id in t'.subs <==> t.subs[id].bound - {trigger} != {})
            && (id in t'.subs ==> t'.subs[id] == t.subs[id].(bound := t.subs[id].bound - {trigger}))
            && (other != id
                ==> (other in t'.subs <==> other in t.subs) && (other in t.subs ==> t'.subs[other] == t.subs[other]))
            && t'.counter == t.counter
  {
  }

  /** Rotating gives a webhook subscription a new secret and the grace instant, and changes nothing of a poll one. */
  lemma RotateExactly(t: Table, s: Settings, until: Option<int>, id: nat)
    requires Inv(t) && s.subscription == Some(id) && id in t.subs && t.subs[id].secret != Some(0)
    ensures var t' := Rotate(t, s, until);
            && t'.subs.Keys == t.subs.Keys && t'.counter == t.counter
            && (forall i :: i in t.subs && i != id ==> t'.subs[i] == t.subs[i])
            && (t.subs[id].kind == Poll ==> t'.subs[id] == t.subs[id])
            && (t.subs[id].kind == Webhook ==>
                  && t'.subs[id].secret.Some? && t'.subs[id].secret != t.subs[id].secret
                  && t'.subs[id].previousValidUntil == until
                  && t'.subs[id].bound == t.subs[id].bound && t'.subs[id].status == t.subs[id].status)
  {
  }

  /** Retrying makes the subscription active and changes nothing else. */
  lemma RetryExactly(t: Table, s: Settings, id: nat)
    requires s.subscription == Some(id) && id in t.subs
    ensures var t' := Retry(t, s);
            && t'.subs.Keys == t.subs.Keys && t'.counter == t.counter
            && t'.subs[id] == t.subs[id].(status := Active)
            && forall i :: i in t.subs && i != id ==> t'.subs[i] == t.subs[i]
  {
  }

  /** A trigger without a subscription, or with one that is gone, changes nothing. */
  lemma UnboundChangesNothing(t: Table, trigger: string, s: Settings, until: Option<int>)
    requires s.subscription.None? || s.subscription.value !in t.subs
    ensures Detach(t, trigger, s) == Rotate(t, s, until) == Retry(t, s) == t
  {
  }

  datatype Op =
    | AttachOp(trigger: string, settings: Settings, status: Status, id: nat)
    | DetachOp(trigger: string, settings: Settings)
    | RotateOp(settings: Settings, until: Option<int>)
    | RetryOp(settings: Settings)

  predicate Enabled(t: Table, op: Op) {
    op.AttachOp? ==> AttachAnswers(t, op.settings, op.id)
  }

  function Step(t: Table, op: Op): Table {
    match op
    case AttachOp(trigger, s, status, id) => Attach(t, trigger, s, status, id)
    case DetachOp(trigger, s) => Detach(t, trigger, s)
    case RotateOp(s, until) => Rotate(t, s, until)
    case RetryOp(s) => Retry(t, s)
  }

  /** What any step leaves true of the table before it. */
  ghost predicate Follows(t: Table, t': Table) {
    && Inv(t') && t'.counter >= t.counter
    && (forall i :: i in t'.subs && i !in t.subs ==> i > t.counter)
    && (forall i :: i in t'.subs && i in t.subs ==> t'.subs[i].key == t.subs[i].key)
  }

  lemma AttachKeepsInv(t: Table, trigger: string, s: Settings, status: Status, id: nat)
    requires Inv(t) && AttachAnswers(t, s, id)
    ensures Follows(t, Attach(t, trigger, s, status, id))
  {
    if id !in t.subs {
      assert forall i :: i in t.subs ==> t.subs[i].key != KeyOf(s);
    }
  }

  lemma DetachKeepsInv(t: Table, trigger: string, s: Settings)
    requires Inv(t)
    ensures Follows(t, Detach(t, trigger, s))
  {
  }

  lemma StepKeepsInv(t: Table, op: Op)
    requires Inv(t) && Enabled(t, op)
    ensures Follows(t, Step(t, op))
  {
    match op {
      case AttachOp(trigger, s, status, id) => AttachKeepsInv(t, trigger, s, status, id);
      case DetachOp(trigger, s) => DetachKeepsInv(t, trigger, s);
      case RotateOp(_, _) =>
      case RetryOp(_) =>
    }
  }

  /** A run of operations from the empty table, each answered by the table as it then stands. */
  function After(ops: seq<Op>): Table {
    if ops == [] then EMPTY else Step(After(ops[..|ops| - 1]), ops[|ops| - 1])
  }

  ghost predicate Legal(ops: seq<Op>) {
    ops != [] ==> Legal(ops[..|ops| - 1]) && Enabled(After(ops[..|ops| - 1]), ops[|ops| - 1])
  }

  /** In every reachable table: one live subscription per key, each with a binding, and ids within the counter. */
  lemma {:induction false} ReachableInv(ops: seq<Op>)
    requires Legal(ops)
    ensures Inv(After(ops))
  {
    if ops != [] {
      ReachableInv(ops[..|ops| - 1]);
      StepKeepsInv(After(ops[..|ops| - 1]), ops[|ops| - 1]);
    }
  }

  /** An id that was live once and is gone never comes back, and a live one never changes its key. */
  lemma {:induction false} IdsAreNeverReused(ops: seq<Op>, n: nat, id: nat)
    requires Legal(ops) && n <= |ops| && id <= After(ops[..n]).counter
    ensures id in After(ops).subs
            ==> id in After(ops[..n]).subs && After(ops).subs[id].key == After(ops[..n]).subs[id].key
    ensures After(ops[..n]).counter <= After(ops).counter
  {
    if n == |ops| {
      assert ops[..n] == ops;
    } else {
      var init := ops[..|ops| - 1];
      assert init[..n] == ops[..n];
      IdsAreNeverReused(init, n, id);
      ReachableInv(init);
      StepKeepsInv(After(init), ops[|ops| - 1]);
    }
  }

  /**
   * Attaching a trigger and detaching it with the returned settings restores the
   * live subscriptions exactly when the trigger was not bound to that one already.
   */
  lemma AttachDetachRestores(t: Table, trigger: string, s: Settings, status: Status, id: nat)
    requires Inv(t) && AttachAnswers(t, s, id)
    ensures Detach(Attach(t, trigger, s, status, id), trigger, s.(subscription := Some(id))).subs == t.subs
            <==> !(id in t.subs && trigger in t.subs[id].bound)
  {
    var attached := Attach(t, trigger, s, status, id);
    var detached := Detach(attached, trigger, s.(subscription := Some(id)));
    if id in t.subs {
      var bound := t.subs[id].bound;
      if trigger in bound {
        assert trigger !in bound + {trigger} - {trigger};
        assert id in detached.subs ==> detached.subs[id].bound != bound;
      } else {
        assert bound + {trigger} - {trigger} == bound;
        assert detached.subs[id] == t.subs[id];
      }
    } else {
      assert attached.subs[id].bound - {trigger} == {};
    }
  }

  /** Two triggers end up on one subscription exactly when their settings agree on everything that identifies it. */
  lemma SharingIsExact(t: Table, a: string, sa: Settings, b: string, sb: Settings, status: Status, ia: nat, ib: nat)
    requires Inv(t) && ValidSettings(sa) && ValidSettings(sb)
    requires AttachAnswers(t, sa, ia) && AttachAnswers(Attach(t, a, sa, status, ia), sb, ib)
    ensures ia == ib <==>
              sa.connectorId == sb.connectorId && sa.trigger == sb.trigger && sa.params == sb.params
                  && sa.schedule == sb.schedule
  {
    var t' := Attach(t, a, sa, status, ia);
    StepKeepsInv(t, AttachOp(a, sa, status, ia));
    assert t'.subs[ia].key == KeyOf(sa);
    SharedKey(sa, sb);
  }

  // ── the host ──

  datatype View = View(id: nat, bindings: nat, secret: Option<nat>)

  class Host {
    var subs: map<nat, Subscription>
    var counter: nat

    ghost function Abs(): Table
      reads this
    {
      Table(subs, counter)
    }

    constructor ()
      ensures Abs() == EMPTY
    {
      subs, counter := map[], 0;
    }

    /** The live subscription with the key, if there is one. */
    method FindByKey(key: string) returns (id: Option<nat>)
      ensures id.Some? ==> id.value in subs && subs[id.value].key == key
      ensures id.None? ==> !HasKey(Abs(), key)
    {
      var left := subs.Keys;
      while left != {}
        invariant left <= subs.Keys
        invariant forall i :: i in subs && i !in left ==> subs[i].key != key
        decreases left
      {
        var i :| i in left;
        if subs[i].key == key { return Some(i); }
        left := left - {i};
      }
      id := None;
    }

    /** Binds a trigger; the secret is shown only by the attach that created the subscription. */
    method AttachTrigger(trigger: string, s: Settings, status: Status) returns (settings: Settings, view: View)
      requires Inv(Abs())
      modifies this
      ensures Inv(Abs())
      ensures settings == s.(subscription := Some(view.id)) && AttachAnswers(old(Abs()), s, view.id)
      ensures Abs() == Attach(old(Abs()), trigger, s, status, view.id)
      ensures view.id in subs && trigger in subs[view.id].bound && view.bindings == |subs[view.id].bound|
      ensures view.secret.Some? <==> !old(HasKey(Abs(), KeyOf(s)))
    {
      var key := KeyOf(s);
      var found := FindByKey(key);
      var id: nat;
      var secret: Option<nat> := None;
      if found.Some? {
        id := found.value;
        subs := subs[id := subs[id].(bound := subs[id].bound + {trigger})];
      } else {
        assert counter + 1 !in subs;
        counter := counter + 1;
        id, secret := counter, Some(counter);
        subs := subs[id := Subscription(key, s.kind, status, secret, None, {trigger})];
      }
      settings := s.(subscription := Some(id));
      view := View(id, |subs[id].bound|, secret);
      assert Abs() == Attach(old(Abs()), trigger, s, status, id);
      AttachKeepsInv(old(Abs()), trigger, s, status, id);
    }

    method DetachTrigger(trigger: string, s: Settings)
      requires Inv(Abs())
      modifies this
      ensures Inv(Abs()) && Abs() == Detach(old(Abs()), trigger, s)
    {
      StepKeepsInv(Abs(), DetachOp(trigger, s));
      if s.subscription.None? || s.subscription.value !in subs { return; }
      var id := s.subscription.value;
      subs := subs[id := subs[id].(bound := subs[id].bound - {trigger})];
      if subs[id].bound == {} { subs := subs - {id}; }
    }

    method RotateSecret(s: Settings, until: Option<int>)
      requires Inv(Abs())
      modifies this
      ensures Inv(Abs()) && Abs() == Rotate(old(Abs()), s, until)
    {
      StepKeepsInv(Abs(), RotateOp(s, until));
      if s.subscription.None? || s.subscription.value !in subs { return; }
      var id := s.subscription.value;
      if subs[id].kind.Poll? { return; }
      subs := subs[id := subs[id].(secret := Some(0), previousValidUntil := until)];
    }

    method RetryRegistration(s: Settings)
      requires Inv(Abs())
      modifies this
      ensures Inv(Abs()) && Abs() == Retry(old(Abs()), s)
    {
      StepKeepsInv(Abs(), RetryOp(s));
      if s.subscription.None? || s.subscription.value !in subs { return; }
      subs := subs[s.subscription.value := subs[s.subscription.value].(status := Active)];
    }
  }
}

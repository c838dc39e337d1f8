/**
 * Who is evaluated when the list is capped: the sampling order
 * (scripts/iam/preflight/order.ts) and the loops over people and tokens that stop
 * at `--max-principals` (scripts/iam/preflight/run.ts).
 */
module Sampling {
  import opened Options
  import opened Rbac
  import opened Oracle
  import opened Memberships
  import opened Sums

  // ── scores ──

  predicate HasEntries(stored: Stored) {
    stored.Object? && stored.entries.Keys != {}
  }

  function WithLevels(rows: seq<Row>): nat {
    if rows == [] then 0
    else WithLevels(rows[..|rows| - 1]) + if HasEntries(rows[|rows| - 1].stored) then 1 else 0
  }

  /** Owners and admins are below everybody; others score by what the upgrade can touch. */
  function UserScore(user: Grant, rows: seq<Row>, g: Groups): int {
    if IsPrivileged(user.role) then -1
    else WithLevels(rows) * 4 + |RowsOf(g.memberOf, g.rows)| * 2 + |g.memberOf| + |rows|
         + if HasEntries(user.levels) then 1 else 0
  }

  lemma PrivilegedScoreLowest(user: Grant, rows: seq<Row>, g: Groups)
    ensures UserScore(user, rows, g) < 0 <==> IsPrivileged(user.role)
  {
  }

  /**
   * What a member's score is made of: five for an assignment with levels and one for
   * any other, one for a group and two for each of its project rows, one for own levels.
   */
  lemma ScoreIsMadeOf(user: Grant, rows: seq<Row>, g: Groups, row: Row, id: string)
    requires user.role != "owner" && user.role != "admin"
    ensures UserScore(user, rows + [row], g)
            == UserScore(user, rows, g) + if row.stored.Object? && row.stored.entries != map[] then 5 else 1
    ensures UserScore(user, rows, g.(memberOf := g.memberOf + [id]))
            == UserScore(user, rows, g) + 1 + if id in g.rows then 2 * |g.rows[id]| else 0
    ensures user.levels.NotAnObject? ==>
              forall entries :: entries != map[] ==>
                UserScore(user.(levels := Object(entries)), rows, g) == UserScore(user, rows, g) + 1
    ensures rows == [] && g.memberOf == [] && user.levels.NotAnObject? ==> UserScore(user, rows, g) == 0
  {
    assert (rows + [row])[..|rows|] == rows;
    assert (g.memberOf + [id])[..|g.memberOf|] == g.memberOf;
    assert row.stored.Object? ==> (row.stored.entries == map[] <==> row.stored.entries.Keys == {});
    forall entries: map<string, string> | entries != map[] ensures entries.Keys != {} {
      assert entries.Keys == {} ==> entries == map[];
    }
  }

  // ── the order ──

  /** A person or token with its score and its place in the database's order. */
  datatype Item<T> = Item(what: T, index: nat, score: int)

  /** The comparator: higher score first, then the earlier place. */
  predicate Before<T>(a: Item<T>, b: Item<T>) {
    a.score > b.score || (a.score == b.score && a.index < b.index)
  }

  ghost predicate Sorted<T>(s: seq<Item<T>>) {
    forall i, j :: 0 <= i < j < |s| ==> Before(s[i], s[j])
  }

  function Number<T>(all: seq<T>, score: T -> int): (s: seq<Item<T>>)
    ensures |s| == |all| && forall i :: 0 <= i < |s| ==> s[i] == Item(all[i], i, score(all[i]))
  {
    seq(|all|, i requires 0 <= i < |all| => Item(all[i], i, score(all[i])))
  }

  function Insert<T>(x: Item<T>, s: seq<Item<T>>): seq<Item<T>> {
    if s == [] || Before(x, s[0]) then [x] + s else [s[0]] + Insert(x, s[1..])
  }

  function Sort<T>(s: seq<Item<T>>): seq<Item<T>> {
    if s == [] then [] else Insert(s[|s| - 1], Sort(s[..|s| - 1]))
  }

  /** orderUsersForSampling and orderTokensForSampling, for the score each uses. */
  function OrderForSampling<T>(all: seq<T>, score: T -> int): seq<Item<T>> {
    Sort(Number(all, score))
  }

  ghost predicate DistinctPlaces<T>(s: seq<Item<T>>) {
    forall i, j :: 0 <= i < j < |s| ==> s[i].index != s[j].index
  }

  lemma {:induction false} InsertKeeps<T>(x: Item<T>, s: seq<Item<T>>)
    ensures multiset(Insert(x, s)) == multiset(s) + multiset{x}
  {
    if s != [] && !Before(x, s[0]) {
      InsertKeeps(x, s[1..]);
      assert s == [s[0]] + s[1..];
    }
  }

  lemma InsertMember<T>(x: Item<T>, s: seq<Item<T>>, y: Item<T>)
    requires y in Insert(x, s)
    ensures y == x || y in s
  {
    InsertKeeps(x, s);
    assert y in multiset(Insert(x, s));
  }

  lemma SortedTail<T>(s: seq<Item<T>>)
    requires Sorted(s) && s != []
    ensures Sorted(s[1..]) && forall y :: y in s[1..] ==> Before(s[0], y) && y in s
  {
    forall y | y in s[1..] ensures Before(s[0], y) && y in s {
      var k :| 0 <= k < |s[1..]| && s[1..][k] == y;
      assert s[k + 1] == y;
    }
  }

  lemma SortedCons<T>(head: Item<T>, tail: seq<Item<T>>)
    requires Sorted(tail) && forall y :: y in tail ==> Before(head, y)
    ensures Sorted([head] + tail)
  {
    assert forall j :: 0 <= j < |tail| ==> tail[j] in tail;
  }

  /** Nothing of the tail, nor the later item put into it, comes before the head. */
  lemma HeadComesFirst<T>(x: Item<T>, s: seq<Item<T>>, y: Item<T>)
    requires Sorted(s) && s != [] && !Before(x, s[0]) && x.index != s[0].index
    requires y in Insert(x, s[1..])
    ensures Before(s[0], y)
  {
    InsertMember(x, s[1..], y);
    SortedTail(s);
  }

  lemma {:induction false} InsertSorts<T>(x: Item<T>, s: seq<Item<T>>)
    requires Sorted(s) && forall y :: y in s ==> y.index != x.index
    ensures Sorted(Insert(x, s))
  {
    if s == [] {
      assert Insert(x, s) == [x] + s;
    } else if Before(x, s[0]) {
      SortedTail(s);
      assert s == [s[0]] + s[1..];
      SortedCons(x, s);
    } else {
      assert s[0] in s;
      SortedTail(s);
      InsertSorts(x, s[1..]);
      forall y | y in Insert(x, s[1..]) ensures Before(s[0], y) { HeadComesFirst(x, s, y); }
      SortedCons(s[0], Insert(x, s[1..]));
    }
  }

  /** The sampling order is a permutation, by falling score, equal scores in the database's order. */
  lemma {:induction false} SortIsStable<T>(s: seq<Item<T>>)
    requires DistinctPlaces(s)
    ensures multiset(Sort(s)) == multiset(s)
    ensures Sorted(Sort(s))
    ensures forall i, j :: 0 <= i < j < |Sort(s)| ==>
              && Sort(s)[i].score >= Sort(s)[j].score
              && (Sort(s)[i].score == Sort(s)[j].score ==> Sort(s)[i].index < Sort(s)[j].index)
  {
    if s != [] {
      var init, last := s[..|s| - 1], s[|s| - 1];
      SortIsStable(init);
      assert s == init + [last];
      InsertKeeps(last, Sort(init));
      forall y | y in Sort(init) ensures y.index != last.index {
        assert y in multiset(init);
        assert y in init;
      }
      InsertSorts(last, Sort(init));
    }
  }

  /** Only one order meets that description, whichever algorithm produced it. */
  lemma {:induction false} OrderIsUnique<T>(a: seq<Item<T>>, b: seq<Item<T>>)
    requires Sorted(a) && Sorted(b) && multiset(a) == multiset(b)
    ensures a == b
  {
    assert |a| == |multiset(a)| == |b|;
    if a != [] {
      assert a[0] in multiset(b);
      assert b[0] in multiset(a);
      assert a[0] in b && b[0] in a;
      assert a[0] == b[0];
      assert a == [a[0]] + a[1..] && b == [b[0]] + b[1..];
      assert multiset(a[1..]) == multiset(a) - multiset{a[0]};
      assert multiset(b[1..]) == multiset(b) - multiset{b[0]};
      OrderIsUnique(a[1..], b[1..]);
    }
  }

  // ── the capped loop ──

  /** Absent: its stored record is gone; Skipped: cannot sign in or call; Eligible: compared if the cap allows. */
  datatype Standing = Absent | Skipped | Eligible

  datatype Sample<T> = Sample(evaluated: seq<Item<T>>, skipped: seq<Item<T>>, absent: seq<Item<T>>,
                              cutOff: seq<Item<T>>)

  function Select<T>(s: seq<Item<T>>, standing: T -> Standing, wanted: Standing): seq<Item<T>> {
    if s == [] then []
    else
      var rest, x := Select(s[..|s| - 1], standing, wanted), s[|s| - 1];
      if standing(x.what) == wanted then rest + [x] else rest
  }

  predicate Room(cap: Option<nat>, n: nat) {
    cap.None? || n < cap.value
  }

  /** The first `cap` of a list, all of it without a cap. */
  function Quota<T>(s: seq<T>, cap: Option<nat>): nat {
    if cap.None? || |s| <= cap.value then |s| else cap.value
  }

  method TakeCapped<T>(ordered: seq<Item<T>>, standing: T -> Standing, cap: Option<nat>)
    returns (r: Sample<T>, truncated: bool)
    ensures r.skipped == Select(ordered, standing, Skipped) && r.absent == Select(ordered, standing, Absent)
    ensures r.evaluated + r.cutOff == Select(ordered, standing, Eligible)
    ensures |r.evaluated| == Quota(Select(ordered, standing, Eligible), cap)
    ensures truncated <==> r.cutOff != []
  {
    r, truncated := Sample([], [], [], []), false;
    for i := 0 to |ordered|
      invariant r.skipped == Select(ordered[..i], standing, Skipped)
                && r.absent == Select(ordered[..i], standing, Absent)
      invariant r.evaluated + r.cutOff == Select(ordered[..i], standing, Eligible)
      invariant r.cutOff != [] ==> !Room(cap, |r.evaluated|)
      invariant cap.Some? ==> |r.evaluated| <= cap.value
      invariant truncated <==> r.cutOff != []
    {
      var x := ordered[i];
      assert ordered[..i + 1][..i] == ordered[..i];
      if standing(x.what) == Absent {
        r := r.(absent := r.absent + [x]);
      } else if standing(x.what) == Skipped {
        r := r.(skipped := r.skipped + [x]);
      } else if !Room(cap, |r.evaluated|) {
        truncated, r := true, r.(cutOff := r.cutOff + [x]);
      } else {
        r := r.(evaluated := r.evaluated + [x]);
      }
    }
    assert ordered[..|ordered|] == ordered;
  }

  // ── what a capped report covers ──

  lemma {:induction false} SelectMembers<T>(s: seq<Item<T>>, standing: T -> Standing, wanted: Standing, x: Item<T>)
    ensures x in Select(s, standing, wanted) <==> x in s && standing(x.what) == wanted
  {
    if s != [] {
      SelectMembers(s[..|s| - 1], standing, wanted, x);
      assert s == s[..|s| - 1] + [s[|s| - 1]];
    }
  }

  lemma {:induction false} SelectKeepsOrder<T>(s: seq<Item<T>>, standing: T -> Standing, wanted: Standing)
    requires Sorted(s)
    ensures Sorted(Select(s, standing, wanted))
  {
    if s != [] {
      var init, last := s[..|s| - 1], s[|s| - 1];
      SelectKeepsOrder(init, standing, wanted);
      forall x | x in Select(init, standing, wanted) ensures Before(x, last) {
        SelectMembers(init, standing, wanted, x);
      }
    }
  }

  lemma {:induction false} SelectsMakeUp<T>(s: seq<Item<T>>, standing: T -> Standing)
    ensures multiset(Select(s, standing, Absent)) + multiset(Select(s, standing, Skipped))
            + multiset(Select(s, standing, Eligible)) == multiset(s)
  {
    if s != [] {
      SelectsMakeUp(s[..|s| - 1], standing);
      assert s == s[..|s| - 1] + [s[|s| - 1]];
    }
  }

  lemma PartsMakeUp<T>(a: seq<T>, b: seq<T>, c: seq<T>, d: seq<T>, all: seq<T>)
    requires multiset(a) + multiset(b) + multiset(c) + multiset(d) == multiset(all)
    ensures |a| + |b| + |c| + |d| == |all|
  {
    assert |multiset(all)| == |multiset(a)| + |multiset(b)| + |multiset(c)| + |multiset(d)|;
  }

  /** Everyone in the directory is evaluated, skipped, absent or cut off, and nobody twice. */
  lemma SampleCoversEveryone<T>(all: seq<T>, score: T -> int, standing: T -> Standing, r: Sample<T>)
    requires r.skipped == Select(OrderForSampling(all, score), standing, Skipped)
    requires r.absent == Select(OrderForSampling(all, score), standing, Absent)
    requires r.evaluated + r.cutOff == Select(OrderForSampling(all, score), standing, Eligible)
    ensures multiset(r.evaluated) + multiset(r.skipped) + multiset(r.absent) + multiset(r.cutOff)
            == multiset(Number(all, score))
    ensures |r.evaluated| + |r.skipped| + |r.absent| + |r.cutOff| == |all|
  {
    var items := Number(all, score);
    SortIsStable(items);
    SelectsMakeUp(Sort(items), standing);
    assert multiset(r.evaluated + r.cutOff) == multiset(r.evaluated) + multiset(r.cutOff);
    PartsMakeUp(r.evaluated, r.skipped, r.absent, r.cutOff, items);
  }

  /** The evaluated are the highest-scoring eligible: every one of them comes before every one cut off. */
  lemma EvaluatedAreHighest<T>(ordered: seq<Item<T>>, standing: T -> Standing, r: Sample<T>)
    requires Sorted(ordered) && r.evaluated + r.cutOff == Select(ordered, standing, Eligible)
    ensures forall x, y :: x in r.evaluated && y in r.cutOff ==> Before(x, y)
    ensures Sorted(r.evaluated)
    ensures forall x :: x in r.evaluated || x in r.cutOff <==> x in ordered && standing(x.what) == Eligible
  {
    var eligible := Select(ordered, standing, Eligible);
    SelectKeepsOrder(ordered, standing, Eligible);
    var n := |r.evaluated|;
    assert r.evaluated == eligible[..n] && r.cutOff == eligible[n..];
    forall x, y | x in r.evaluated && y in r.cutOff ensures Before(x, y) {
      var i :| 0 <= i < n && eligible[i] == x;
      var j :| n <= j < |eligible| && eligible[j] == y;
    }
    forall x ensures x in r.evaluated || x in r.cutOff <==> x in ordered && standing(x.what) == Eligible {
      SelectMembers(ordered, standing, Eligible, x);
      assert x in eligible <==> x in r.evaluated || x in r.cutOff;
    }
  }

  /** A person as the people loop sees them. */
  datatype Person = Person(user: Grant, rows: seq<Row>, groups: Groups, loaded: bool, disabled: bool, canLogin: bool)

  function PersonScore(p: Person): int {
    UserScore(p.user, p.rows, p.groups)
  }

  function PersonStanding(p: Person): Standing {
    if !p.loaded then Absent else if p.disabled || !p.canLogin then Skipped else Eligible
  }

  /** An owner or admin is evaluated only after every eligible other member, and never instead of one. */
  lemma PrivilegedComeLast(ordered: seq<Item<Person>>, r: Sample<Person>, owner: Item<Person>, other: Item<Person>)
    requires Sorted(ordered) && r.evaluated + r.cutOff == Select(ordered, PersonStanding, Eligible)
    requires forall x :: x in ordered ==> x.score == PersonScore(x.what)
    requires owner in r.evaluated && IsPrivileged(owner.what.user.role)
    requires other in ordered && PersonStanding(other.what) == Eligible && !IsPrivileged(other.what.user.role)
    ensures other in r.evaluated && Before(other, owner)
  {
    EvaluatedAreHighest(ordered, PersonStanding, r);
    PrivilegedScoreLowest(owner.what.user, owner.what.rows, owner.what.groups);
    PrivilegedScoreLowest(other.what.user, other.what.rows, other.what.groups);
    assert owner in ordered;
  }

  /** Order, then take what the cap allows: the shape both loops share. */
  method SampleBy<T>(all: seq<T>, score: T -> int, standing: T -> Standing, cap: Option<nat>)
    returns (r: Sample<T>, truncated: bool)
    ensures |r.evaluated| + |r.skipped| + |r.absent| + |r.cutOff| == |all|
    ensures forall x, y :: x in r.evaluated && y in r.cutOff ==> Before(x, y)
    ensures forall x :: x in r.absent ==> standing(x.what) == Absent
    ensures forall x :: x in r.skipped ==> standing(x.what) == Skipped
    ensures forall x :: x in r.evaluated || x in r.cutOff ==> standing(x.what) == Eligible
    ensures cap.None? ==> r.cutOff == []
    ensures cap.Some? ==> |r.evaluated| <= cap.value && (|r.evaluated| < cap.value ==> r.cutOff == [])
    ensures truncated <==> r.cutOff != []
  {
    var ordered := OrderForSampling(all, score);
    SortIsStable(Number(all, score));
    r, truncated := TakeCapped(ordered, standing, cap);
    SampleCoversEveryone(all, score, standing, r);
    EvaluatedAreHighest(ordered, standing, r);
    assert |r.evaluated| + |r.cutOff| == |Select(ordered, standing, Eligible)|;
    forall x
        ensures (x in r.skipped ==> standing(x.what) == Skipped) && (x in r.absent ==> standing(x.what) == Absent) {
      SelectMembers(ordered, standing, Skipped, x);
      SelectMembers(ordered, standing, Absent, x);
    }
  }

  /** The people loop: who is skipped, who is not in the store, and who is evaluated under the cap. */
  method SamplePeople(people: seq<Person>, cap: Option<nat>) returns (r: Sample<Person>, truncated: bool)
    ensures |r.evaluated| + |r.skipped| + |r.absent| + |r.cutOff| == |people|
    ensures forall x, y :: x in r.evaluated && y in r.cutOff ==> x.score >= y.score
    ensures forall x :: x in r.absent ==> !x.what.loaded
    ensures forall x :: x in r.skipped ==> x.what.loaded && (x.what.disabled || !x.what.canLogin)
    ensures forall x :: x in r.evaluated || x in r.cutOff ==> x.what.loaded && !x.what.disabled && x.what.canLogin
    ensures cap.None? ==> r.cutOff == []
    ensures cap.Some? ==> |r.evaluated| <= cap.value && (|r.evaluated| < cap.value ==> r.cutOff == [])
    ensures truncated <==> r.cutOff != []
  {
    r, truncated := SampleBy(people, PersonScore, PersonStanding, cap);
  }

  /** A token as the token loop sees it; the groups are those of its owner's id. */
  datatype TokenRow = TokenRow(groups: Groups, ownerLoaded: bool, ownerDisabled: bool, expired: bool, unscoped: bool,
                               hasProject: bool)

  predicate OwnerGains(t: TokenRow) {
    GrantsOf(t.groups.memberOf, t.groups.existing) != []
  }

  /** The owner gains something exactly through an existing group with a role or an entry. */
  lemma OwnerGainsThroughGroups(t: TokenRow)
    ensures OwnerGains(t) <==>
              exists i :: 0 <= i < |t.groups.memberOf| && t.groups.memberOf[i] in t.groups.existing
                          && GivesSomething(t.groups.existing[t.groups.memberOf[i]])
  {
    var grants := GrantsOf(t.groups.memberOf, t.groups.existing);
    SomeMember(grants);
    if g :| g in grants { GrantsAre(t.groups.memberOf, t.groups.existing, g); }
    if i :| 0 <= i < |t.groups.memberOf| && t.groups.memberOf[i] in t.groups.existing
            && GivesSomething(t.groups.existing[t.groups.memberOf[i]])
    {
      GrantsAre(t.groups.memberOf, t.groups.existing, t.groups.existing[t.groups.memberOf[i]]);
    }
  }

  predicate GivesSomething(g: Grant) {
    g.role != "" || (g.levels.Object? && g.levels.entries != map[])
  }

  function TokenScore(t: TokenRow): int {
    (if t.unscoped && OwnerGains(t) then 4 else 0) + (if t.unscoped then 2 else 0) + if t.hasProject then 0 else 1
  }

  function TokenStanding(t: TokenRow): Standing {
    if !t.ownerLoaded || t.ownerDisabled || t.expired then Skipped else Eligible
  }

  /**
   * The token loop: a token goes unchecked exactly when it could not be used, or when the cap was
   * filled by earlier ones.
   */
  method SampleTokens(tokens: seq<TokenRow>, cap: Option<nat>) returns (r: Sample<TokenRow>, truncated: bool)
    ensures |r.evaluated| + |r.skipped| + |r.cutOff| == |tokens| && r.absent == []
    ensures forall x, y :: x in r.evaluated && y in r.cutOff ==> Before(x, y)
    ensures forall x :: x in r.skipped ==> !x.what.ownerLoaded || x.what.ownerDisabled || x.what.expired
    ensures forall x :: x in r.evaluated || x in r.cutOff ==>
              x.what.ownerLoaded && !x.what.ownerDisabled && !x.what.expired
    ensures cap.None? ==> r.cutOff == []
    ensures cap.Some? ==> |r.evaluated| <= cap.value && (|r.evaluated| < cap.value ==> r.cutOff == [])
    ensures truncated <==> r.cutOff != []
  {
    r, truncated := SampleBy(tokens, TokenScore, TokenStanding, cap);
    assert forall x :: x in r.absent ==> TokenStanding(x.what) == Absent;
    SomeMember(r.absent);
  }

  /** The weights never mix: unscoped tokens with a gaining owner, then unscoped ones, then those without a project. */
  lemma TokenScoreIsLexicographic(a: TokenRow, b: TokenRow)
    ensures TokenScore(a) > TokenScore(b) <==>
              if (a.unscoped && OwnerGains(a)) != (b.unscoped && OwnerGains(b)) then a.unscoped && OwnerGains(a)
              else if a.unscoped != b.unscoped then a.unscoped
              else !a.hasProject && b.hasProject
  {
  }
}

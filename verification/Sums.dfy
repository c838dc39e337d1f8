/** Finite sums over sets of labels, and lists without repetition. */
module Sums {
  ghost function Pick(keys: set<string>): (x: string)
    requires keys != {}
    ensures x in keys
  {
    var x :| x in keys; x
  }

  ghost function Sum(keys: set<string>, f: string -> nat): nat {
    if keys == {} then 0 else f(Pick(keys)) + Sum(keys - {Pick(keys)}, f)
  }

  lemma {:induction false} SumSame(keys: set<string>, f: string -> nat, g: string -> nat)
    requires forall x :: x in keys ==> f(x) == g(x)
    ensures Sum(keys, f) == Sum(keys, g)
  {
    if keys != {} { SumSame(keys - {Pick(keys)}, f, g); }
  }

  /** Any member can be taken out first. */
  lemma {:induction false} SumTakeOut(keys: set<string>, x: string, f: string -> nat)
    requires x in keys
    ensures Sum(keys, f) == f(x) + Sum(keys - {x}, f)
  {
    var y := Pick(keys);
    if y != x {
      SumTakeOut(keys - {y}, x, f);
      SumTakeOut(keys - {x}, y, f);
      assert keys - {y} - {x} == keys - {x} - {y};
    }
  }

  ghost predicate NoDuplicates<T>(s: seq<T>) {
    forall i, j :: 0 <= i < j < |s| ==> s[i] != s[j]
  }

  lemma NoDuplicatesConcat<T>(a: seq<T>, b: seq<T>)
    requires NoDuplicates(a) && NoDuplicates(b)
    requires forall x :: x in a ==> x !in b
    ensures NoDuplicates(a + b)
  {
    var s := a + b;
    forall i, j | 0 <= i < j < |s| ensures s[i] != s[j] {
      if i < |a| <= j { assert s[i] in a && s[j] in b; }
    }
  }

  lemma {:induction false} SetOfList<T>(s: seq<T>)
    requires NoDuplicates(s)
    ensures |set x | x in s| == |s|
  {
    if s != [] {
      var init, last := s[..|s| - 1], s[|s| - 1];
      SetOfList(init);
      assert last !in init;
      assert (set x | x in s) == (set x | x in init) + {last};
    }
  }

  /** Two lists of the same things, each without repetition, are equally long. */
  lemma SameLength<T>(a: seq<T>, b: seq<T>)
    requires NoDuplicates(a) && NoDuplicates(b)
    requires forall x :: x in a <==> x in b
    ensures |a| == |b|
  {
    SetOfList(a);
    SetOfList(b);
    assert (set x | x in a) == (set x | x in b);
  }

  lemma Extends<T>(longer: seq<T>, shorter: seq<T>, last: T)
    requires |longer| == |shorter| + 1 && longer[|shorter|] == last
    requires forall i :: 0 <= i < |shorter| ==> longer[i] == shorter[i]
    ensures longer == shorter + [last]
  {
  }

  lemma SomeMember<T>(s: seq<T>)
    ensures s != [] ==> exists x :: x in s
  {
    if s != [] { assert s[0] in s; }
  }

  lemma SameSize<T>(a: seq<T>, b: seq<T>)
    requires multiset(a) == multiset(b)
    ensures |a| == |b|
  {
    assert |multiset(a)| == |a|;
  }

  /** Of two orders of the same things: where the last one of `b` stands in `a`. */
  lemma MatchLast<T>(a: seq<T>, b: seq<T>) returns (i: nat)
    requires multiset(a) == multiset(b) && b != []
    ensures i < |a| && a[i] == b[|b| - 1]
    ensures multiset(a[..i] + a[i + 1..]) == multiset(b[..|b| - 1])
  {
    var init, last := b[..|b| - 1], b[|b| - 1];
    assert b == init + [last];
    assert last in multiset(a);
    i :| 0 <= i < |a| && a[i] == last;
    var left, right := a[..i], a[i + 1..];
    assert a == left + [last] + right;
    assert multiset(left + [last] + right) == multiset(left) + multiset{last} + multiset(right);
    Cancel(multiset(left + right), multiset(init), last);
  }

  lemma Cancel<T>(a: multiset<T>, b: multiset<T>, x: T)
    requires a + multiset{x} == b + multiset{x}
    ensures a == b
  {
    assert a == a + multiset{x} - multiset{x};
    assert b == b + multiset{x} - multiset{x};
  }
}

/**
  `sorted(set(xs))` on strings: the distinct values of a list in ascending
  Python order. It gives the dashboard its option lists, and `groupby` its
  key order.
 */
module SortedStrings {
  import opened Strings

  /** Each element is strictly below every later one, so none repeats. */
  predicate StrictlySorted(s: seq<string>) {
    forall i, j | 0 <= i < j < |s| :: Below(s[i], s[j])
  }

  /** No value occurs twice. */
  predicate Distinct<T(==)>(s: seq<T>) {
    forall i, j | 0 <= i < j < |s| :: s[i] != s[j]
  }

  function Elems<T>(s: seq<T>): set<T> {
    set x | x in s
  }

  lemma NoElems<T>(s: seq<T>)
    ensures Elems(s) == {} <==> s == []
  {
    if s != [] {
      assert s[0] in Elems(s);
    }
  }

  lemma SortedIsDistinct(s: seq<string>)
    requires StrictlySorted(s)
    ensures Distinct(s)
  {
    forall i, j | 0 <= i < j < |s|
      ensures s[i] != s[j]
    {
      BelowIrreflexive(s[i]);
    }
  }

  /** Adds `x` to a sorted list of distinct strings, keeping it sorted. */
  function Insert(x: string, s: seq<string>): (r: seq<string>)
    requires StrictlySorted(s)
    ensures StrictlySorted(r)
    ensures Elems(r) == Elems(s) + {x}
  {
    if |s| == 0 then [x]
    else if x == s[0] then
      ElemsCons(s[0], s[1..]);
      s
    else if Below(x, s[0]) then
      InsertFront(x, s);
      [x] + s
    else
      BelowTotal(x, s[0]);
      var rest := Insert(x, s[1..]);
      ElemsCons(s[0], s[1..]);
      ElemsCons(s[0], rest);
      ConsSorted(s[0], rest);
      [s[0]] + rest
  }

  lemma ElemsCons(a: string, s: seq<string>)
    ensures Elems([a] + s) == {a} + Elems(s)
  {
  }

  /** A value below the head of a sorted list goes in front of it. */
  lemma InsertFront(x: string, s: seq<string>)
    requires StrictlySorted(s) && |s| > 0 && Below(x, s[0])
    ensures StrictlySorted([x] + s)
    ensures Elems([x] + s) == Elems(s) + {x}
  {
    forall j | 0 < j < |s| ensures Below(x, s[j]) {
      BelowTransitive(x, s[0], s[j]);
    }
    ElemsCons(x, s);
  }

  /** A value below every element of a sorted list can head it. */
  lemma ConsSorted(a: string, r: seq<string>)
    requires StrictlySorted(r)
    requires forall y | y in Elems(r) :: Below(a, y)
    ensures StrictlySorted([a] + r)
  {
    forall k | 0 <= k < |r| ensures Below(a, r[k]) {
      assert r[k] in Elems(r);
    }
  }

  /** `sorted(set(xs))`. */
  function SortedDistinct(xs: seq<string>): (r: seq<string>)
    ensures StrictlySorted(r)
    ensures Elems(r) == Elems(xs)
  {
    if |xs| == 0 then []
    else
      var init := xs[..|xs| - 1];
      assert xs == init + [xs[|xs| - 1]];
      assert Elems(xs) == Elems(init) + {xs[|xs| - 1]};
      Insert(xs[|xs| - 1], SortedDistinct(init))
  }

  /** A strictly sorted list is determined by its elements. */
  lemma {:induction false} SortedUnique(a: seq<string>, b: seq<string>)
    requires StrictlySorted(a) && StrictlySorted(b)
    requires Elems(a) == Elems(b)
    ensures a == b
    decreases |a|
  {
    if |a| == 0 {
      NoElems(b);
    } else {
      assert a[0] in Elems(b);
      assert |b| > 0;
      assert b[0] in Elems(a);
      // the least element heads both lists
      if a[0] != b[0] {
        var i :| 0 <= i < |a| && a[i] == b[0];
        var j :| 0 <= j < |b| && b[j] == a[0];
        assert 0 < i && 0 < j;
        BelowAsymmetric(a[0], a[i]);
      }
      forall x | x in Elems(a[1..])
        ensures x in Elems(b[1..])
      {
        var i :| 1 <= i < |a| && a[i] == x;
        assert x in Elems(b);
        var j :| 0 <= j < |b| && b[j] == x;
        if j == 0 { BelowIrreflexive(a[0]); }
      }
      forall x | x in Elems(b[1..])
        ensures x in Elems(a[1..])
      {
        var j :| 1 <= j < |b| && b[j] == x;
        assert x in Elems(a);
        var i :| 0 <= i < |a| && a[i] == x;
        if i == 0 { BelowIrreflexive(b[0]); }
      }
      SortedUnique(a[1..], b[1..]);
      assert a == [a[0]] + a[1..] && b == [b[0]] + b[1..];
    }
  }

  /** `sorted(set(xs))` depends only on which values `xs` holds. */
  lemma SortedDistinctCanonical(xs: seq<string>, ys: seq<string>)
    requires Elems(xs) == Elems(ys)
    ensures SortedDistinct(xs) == SortedDistinct(ys)
  {
    SortedUnique(SortedDistinct(xs), SortedDistinct(ys));
  }
}

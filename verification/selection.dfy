/**
  Boolean-mask row selection, the `df[mask]` of the data-frame library: keep
  the rows whose mask entry is true, in their original order.
 */
module Selection {
  import opened Outcomes

  /** The first position at or after `i` whose mask entry is true. */
  function FirstFrom(mask: seq<bool>, i: nat): (r: Option<nat>)
    requires i <= |mask|
    ensures r.Some? ==> i <= r.value < |mask| && mask[r.value]
    ensures r.Some? ==> forall j | i <= j < r.value :: !mask[j]
    ensures r.None? ==> forall j | i <= j < |mask| :: !mask[j]
    decreases |mask| - i
  {
    if i == |mask| then None
    else if mask[i] then Some(i)
    else FirstFrom(mask, i + 1)
  }

  /** The positions whose mask entry is true, in increasing order. */
  function Positions(mask: seq<bool>): (idx: seq<nat>)
    ensures forall k | 0 <= k < |idx| :: idx[k] < |mask| && mask[idx[k]]
    ensures forall k, l | 0 <= k < l < |idx| :: idx[k] < idx[l]
    ensures forall i | 0 <= i < |mask| && mask[i] :: i in idx
  {
    if |mask| == 0 then []
    else
      var n := |mask| - 1;
      var init := Positions(mask[..n]);
      if mask[n] then init + [n] else init
  }

  /** `xs[mask]`: the entries whose mask entry is true, in order. */
  function Select<T>(xs: seq<T>, mask: seq<bool>): (ys: seq<T>)
    requires |mask| == |xs|
    ensures |ys| == |Positions(mask)|
    ensures forall k | 0 <= k < |ys| :: ys[k] == xs[Positions(mask)[k]]
  {
    if |xs| == 0 then []
    else
      var n := |xs| - 1;
      var init := Select(xs[..n], mask[..n]);
      assert forall k | 0 <= k < |init| :: xs[..n][Positions(mask[..n])[k]] == xs[Positions(mask[..n])[k]];
      if mask[n] then init + [xs[n]] else init
  }

  /** `ys` is `xs` with some entries left out, the rest in their order. */
  predicate IsSubsequence<T(==)>(ys: seq<T>, xs: seq<T>)
    decreases |xs|
  {
    if |ys| == 0 then true
    else if |xs| == 0 then false
    else if ys[|ys| - 1] == xs[|xs| - 1] then IsSubsequence(ys[..|ys| - 1], xs[..|xs| - 1])
    else IsSubsequence(ys, xs[..|xs| - 1])
  }

  /** A selection keeps order, and keeps each entry exactly as often as it
      occurs among the entries the mask marks. */
  lemma {:induction false} SelectFacts<T>(xs: seq<T>, mask: seq<bool>)
    requires |mask| == |xs|
    ensures IsSubsequence(Select(xs, mask), xs)
    ensures |Select(xs, mask)| <= |xs|
    ensures multiset(Select(xs, mask)) <= multiset(xs)
  {
    if |xs| > 0 {
      var n := |xs| - 1;
      SelectFacts(xs[..n], mask[..n]);
      assert xs == xs[..n] + [xs[n]];
      var init := Select(xs[..n], mask[..n]);
      if mask[n] {
        assert (init + [xs[n]])[..|init|] == init;
      } else {
        SubsequenceExtend(init, xs[..n], xs[n]);
      }
    }
  }

  lemma {:induction false} SubsequenceExtend<T>(ys: seq<T>, xs: seq<T>, x: T)
    requires IsSubsequence(ys, xs)
    ensures IsSubsequence(ys, xs + [x])
    decreases |xs|, 1
  {
    assert (xs + [x])[..|xs|] == xs;
    if |ys| > 0 && ys[|ys| - 1] == x {
      // matching the last entry against x instead of inside xs
      SubsequenceDrop(ys, xs);
      assert IsSubsequence(ys[..|ys| - 1], xs);
    }
  }

  lemma {:induction false} SubsequenceDrop<T>(ys: seq<T>, xs: seq<T>)
    requires |ys| > 0 && IsSubsequence(ys, xs)
    ensures IsSubsequence(ys[..|ys| - 1], xs)
    decreases |xs|, 0
  {
    var n := |xs| - 1;
    if ys[|ys| - 1] == xs[n] {
      SubsequenceExtend(ys[..|ys| - 1], xs[..n], xs[n]);
      assert xs[..n] + [xs[n]] == xs;
    } else {
      SubsequenceDrop(ys, xs[..n]);
      SubsequenceExtend(ys[..|ys| - 1], xs[..n], xs[n]);
      assert xs[..n] + [xs[n]] == xs;
    }
  }

  // ---------------------------------------------------------------------
  // Selection by a predicate on the entries
  // ---------------------------------------------------------------------

  /** The mask a predicate draws over a list. */
  function MaskOf<T>(xs: seq<T>, keep: T -> bool): (mask: seq<bool>)
    ensures |mask| == |xs|
    ensures forall i | 0 <= i < |xs| :: mask[i] == keep(xs[i])
  {
    seq(|xs|, i requires 0 <= i < |xs| => keep(xs[i]))
  }

  /** `xs[xs.map(keep)]`: the entries `keep` accepts, in order. */
  function Where<T>(xs: seq<T>, keep: T -> bool): seq<T> {
    Select(xs, MaskOf(xs, keep))
  }

  /** Selecting from a list extended by one entry. */
  lemma WhereSnoc<T>(xs: seq<T>, x: T, keep: T -> bool)
    ensures Where(xs + [x], keep) == Where(xs, keep) + (if keep(x) then [x] else [])
  {
    var ys := xs + [x];
    assert ys[..|xs|] == xs;
    assert MaskOf(ys, keep)[..|xs|] == MaskOf(xs, keep);
  }

  /** A selection keeps each accepted value as often as the list holds it,
      and no rejected value at all. */
  lemma {:induction false} WhereCount<T>(xs: seq<T>, keep: T -> bool)
    ensures forall v :: multiset(Where(xs, keep))[v] == if keep(v) then multiset(xs)[v] else 0
  {
    if |xs| > 0 {
      var n := |xs| - 1;
      assert xs == xs[..n] + [xs[n]];
      WhereCount(xs[..n], keep);
      WhereSnoc(xs[..n], xs[n], keep);
    }
  }

  /** Two selections in a row are one selection by both predicates. */
  lemma {:induction false} WhereWhere<T>(xs: seq<T>, p: T -> bool, q: T -> bool, both: T -> bool)
    requires forall x :: both(x) == (p(x) && q(x))
    ensures Where(Where(xs, p), q) == Where(xs, both)
  {
    if |xs| > 0 {
      var n, x := |xs| - 1, xs[|xs| - 1];
      var a := Where(xs[..n], p);
      assert xs == xs[..n] + [x];
      WhereWhere(xs[..n], p, q, both);
      WhereSnoc(xs[..n], x, p);
      WhereSnoc(xs[..n], x, both);
      if p(x) {
        WhereSnoc(a, x, q);
      } else {
        assert Where(xs, p) == a;
      }
    }
  }

  /** A predicate that accepts every entry selects the whole list. */
  lemma {:induction false} WhereAll<T>(xs: seq<T>, keep: T -> bool)
    requires forall i | 0 <= i < |xs| :: keep(xs[i])
    ensures Where(xs, keep) == xs
  {
    if |xs| > 0 {
      var n := |xs| - 1;
      assert xs == xs[..n] + [xs[n]];
      WhereAll(xs[..n], keep);
      WhereSnoc(xs[..n], xs[n], keep);
    }
  }
}

/**
  The group-by-and-sum of the dashboard: one line per distinct OS (or per
  distinct FAMILIA) with PREVISTO, REALIZADO and SALDO summed over the
  records that share it, keys in ascending order as the data-frame
  library's `groupby` returns them.
 */
module Aggregation {
  import opened Strings
  import opened SortedStrings
  import opened Sheet

  /** The three amounts of a record or of a group of records. */
  datatype Totals = Totals(previsto: real, realizado: real, saldo: real) {
    function Plus(o: Totals): Totals {
      Totals(previsto + o.previsto, realizado + o.realizado, saldo + o.saldo)
    }
  }

  const Zero: Totals := Totals(0.0, 0.0, 0.0)

  function Amounts(r: Record): Totals {
    Totals(r.previsto, r.realizado, r.saldo)
  }

  /** The column a group-by runs on. */
  datatype KeyColumn = ByOs | ByFamilia

  function KeyOf(r: Record, col: KeyColumn): string {
    match col
    case ByOs => r.os
    case ByFamilia => r.familia
  }

  /** The key column of `rows`, top to bottom. */
  function Keys(rows: seq<Record>, col: KeyColumn): (ks: seq<string>)
    ensures |ks| == |rows|
    ensures forall i | 0 <= i < |rows| :: ks[i] == KeyOf(rows[i], col)
  {
    seq(|rows|, i requires 0 <= i < |rows| => KeyOf(rows[i], col))
  }

  /** The sum of every record's amounts. */
  function Total(rows: seq<Record>): Totals {
    if |rows| == 0 then Zero
    else Total(rows[..|rows| - 1]).Plus(Amounts(rows[|rows| - 1]))
  }

  /** What record `r` adds to the sums of key `k`. */
  function Share(r: Record, col: KeyColumn, k: string): Totals {
    if KeyOf(r, col) == k then Amounts(r) else Zero
  }

  /** The reference sum: the amounts of the records whose key is `k`. */
  function SumWhere(rows: seq<Record>, col: KeyColumn, k: string): Totals {
    if |rows| == 0 then Zero
    else SumWhere(rows[..|rows| - 1], col, k).Plus(Share(rows[|rows| - 1], col, k))
  }

  lemma {:induction false} SumWhereAbsent(rows: seq<Record>, col: KeyColumn, k: string)
    requires k !in Keys(rows, col)
    ensures SumWhere(rows, col, k) == Zero
  {
    if |rows| > 0 {
      var n := |rows| - 1;
      assert Keys(rows[..n], col) == Keys(rows, col)[..n];
      SumWhereAbsent(rows[..n], col, k);
    }
  }

  /** The running sums per key, accumulated row by row as the group-by does. */
  function Tally(rows: seq<Record>, col: KeyColumn): (m: map<string, Totals>)
    ensures m.Keys == Elems(Keys(rows, col))
    ensures forall k | k in m :: m[k] == SumWhere(rows, col, k)
  {
    if |rows| == 0 then map[]
    else
      var n := |rows| - 1;
      var m := Tally(rows[..n], col);
      var k := KeyOf(rows[n], col);
      assert Keys(rows, col) == Keys(rows[..n], col) + [k];
      assert k in m || SumWhere(rows[..n], col, k) == Zero by {
        if k !in m { SumWhereAbsent(rows[..n], col, k); }
      }
      m[k := (if k in m then m[k] else Zero).Plus(Amounts(rows[n]))]
  }

  /** One output line of the group-by. */
  datatype Group = Group(key: string, sums: Totals)

  function GroupKeys(gs: seq<Group>): (ks: seq<string>)
    ensures |ks| == |gs|
    ensures forall i | 0 <= i < |gs| :: ks[i] == gs[i].key
  {
    seq(|gs|, i requires 0 <= i < |gs| => gs[i].key)
  }

  /** `df.groupby(col).agg(sum).reset_index()`: one group per distinct key, in
      ascending key order, holding the sums of the records with that key. */
  function GroupBy(rows: seq<Record>, col: KeyColumn): (gs: seq<Group>)
    ensures StrictlySorted(GroupKeys(gs))
    ensures Elems(GroupKeys(gs)) == Elems(Keys(rows, col))
    ensures forall i | 0 <= i < |gs| :: gs[i].sums == SumWhere(rows, col, gs[i].key)
    ensures gs == [] <==> rows == []
  {
    var ks := SortedDistinct(Keys(rows, col));
    var m := Tally(rows, col);
    var gs := seq(|ks|, i requires 0 <= i < |ks| => Group(ks[i], m[ks[i]]));
    assert GroupKeys(gs) == ks;
    NoElems(ks);
    NoElems(Keys(rows, col));
    gs
  }

  // ---------------------------------------------------------------------
  // Distinct keys
  // ---------------------------------------------------------------------

  /** A list without repeats has as many entries as it has values. */
  lemma {:induction false} DistinctCard(s: seq<string>)
    requires Distinct(s)
    ensures |Elems(s)| == |s|
  {
    if |s| > 0 {
      var n := |s| - 1;
      assert s == s[..n] + [s[n]];
      assert Elems(s) == Elems(s[..n]) + {s[n]};
      assert s[n] !in Elems(s[..n]);
      DistinctCard(s[..n]);
    }
  }

  /** There are exactly as many groups as distinct keys, and no key repeats. */
  lemma GroupCount(rows: seq<Record>, col: KeyColumn)
    ensures Distinct(GroupKeys(GroupBy(rows, col)))
    ensures |GroupBy(rows, col)| == |Elems(Keys(rows, col))|
  {
    var ks := GroupKeys(GroupBy(rows, col));
    SortedIsDistinct(ks);
    DistinctCard(ks);
  }

  // ---------------------------------------------------------------------
  // Column totals
  // ---------------------------------------------------------------------

  /** The sums of the groups, added up. */
  function SumGroups(gs: seq<Group>): Totals {
    if |gs| == 0 then Zero else gs[0].sums.Plus(SumGroups(gs[1..]))
  }

  /** The reference sums of the keys `ks`, added up. */
  function SumKeys(rows: seq<Record>, col: KeyColumn, ks: seq<string>): Totals {
    if |ks| == 0 then Zero else SumWhere(rows, col, ks[0]).Plus(SumKeys(rows, col, ks[1..]))
  }

  /** What record `r` adds to the sums of the keys `ks`, added up. */
  function Shares(r: Record, col: KeyColumn, ks: seq<string>): Totals {
    if |ks| == 0 then Zero else Share(r, col, ks[0]).Plus(Shares(r, col, ks[1..]))
  }

  lemma SumWhereSnoc(rows: seq<Record>, r: Record, col: KeyColumn, k: string)
    ensures SumWhere(rows + [r], col, k) == SumWhere(rows, col, k).Plus(Share(r, col, k))
  {
    assert (rows + [r])[..|rows|] == rows;
  }

  lemma PlusSwap(a: Totals, b: Totals, c: Totals, d: Totals)
    ensures a.Plus(b).Plus(c.Plus(d)) == a.Plus(c).Plus(b.Plus(d))
  {
  }

  lemma {:induction false} SumKeysSnoc(rows: seq<Record>, r: Record, col: KeyColumn, ks: seq<string>)
    ensures SumKeys(rows + [r], col, ks) == SumKeys(rows, col, ks).Plus(Shares(r, col, ks))
  {
    if |ks| > 0 {
      SumKeysSnoc(rows, r, col, ks[1..]);
      SumWhereSnoc(rows, r, col, ks[0]);
      PlusSwap(SumWhere(rows, col, ks[0]), Share(r, col, ks[0]), SumKeys(rows, col, ks[1..]), Shares(r, col, ks[1..]));
    }
  }

  /** A record's key counted once among distinct keys: it adds its amounts once. */
  lemma {:induction false} SharesOnce(r: Record, col: KeyColumn, ks: seq<string>)
    requires Distinct(ks)
    ensures KeyOf(r, col) in ks ==> Shares(r, col, ks) == Amounts(r)
    ensures KeyOf(r, col) !in ks ==> Shares(r, col, ks) == Zero
  {
    if |ks| > 0 {
      SharesOnce(r, col, ks[1..]);
      if KeyOf(r, col) == ks[0] {
        assert ks[0] !in ks[1..] by {
          forall j | 0 <= j < |ks| - 1
            ensures ks[1..][j] != ks[0]
          {
            assert ks[1..][j] == ks[j + 1];
          }
        }
      }
    }
  }

  /** Adding up the reference sums over a distinct list of keys that covers
      every record's key gives the total of all records. */
  lemma {:induction false} SumKeysCover(rows: seq<Record>, col: KeyColumn, ks: seq<string>)
    requires Distinct(ks)
    requires forall i | 0 <= i < |rows| :: KeyOf(rows[i], col) in ks
    ensures SumKeys(rows, col, ks) == Total(rows)
  {
    if |rows| == 0 {
      SumKeysZero(col, ks);
    } else {
      var n := |rows| - 1;
      SumKeysCover(rows[..n], col, ks);
      assert rows == rows[..n] + [rows[n]];
      SumKeysSnoc(rows[..n], rows[n], col, ks);
      SharesOnce(rows[n], col, ks);
    }
  }

  lemma {:induction false} SumKeysZero(col: KeyColumn, ks: seq<string>)
    ensures SumKeys([], col, ks) == Zero
  {
    if |ks| > 0 {
      SumKeysZero(col, ks[1..]);
    }
  }

  lemma {:induction false} SumGroupsKeys(rows: seq<Record>, col: KeyColumn, gs: seq<Group>)
    requires forall i | 0 <= i < |gs| :: gs[i].sums == SumWhere(rows, col, gs[i].key)
    ensures SumGroups(gs) == SumKeys(rows, col, GroupKeys(gs))
  {
    if |gs| > 0 {
      SumGroupsKeys(rows, col, gs[1..]);
      assert GroupKeys(gs)[1..] == GroupKeys(gs[1..]);
    }
  }

  /** Grouping loses and doubles nothing: the groups' PREVISTO, REALIZADO and
      SALDO add up to the column totals of the records. */
  lemma GroupByTotals(rows: seq<Record>, col: KeyColumn)
    ensures SumGroups(GroupBy(rows, col)) == Total(rows)
  {
    var gs := GroupBy(rows, col);
    var ks := GroupKeys(gs);
    SortedIsDistinct(ks);
    forall i | 0 <= i < |rows|
      ensures KeyOf(rows[i], col) in ks
    {
      assert Keys(rows, col)[i] in Elems(Keys(rows, col));
    }
    SumGroupsKeys(rows, col, gs);
    SumKeysCover(rows, col, ks);
  }

  // ---------------------------------------------------------------------
  // Row order does not matter
  // ---------------------------------------------------------------------

  lemma {:induction false} SumWhereAppend(a: seq<Record>, b: seq<Record>, col: KeyColumn, k: string)
    ensures SumWhere(a + b, col, k) == SumWhere(a, col, k).Plus(SumWhere(b, col, k))
  {
    if |b| == 0 {
      assert a + b == a;
    } else {
      var n := |b| - 1;
      assert (a + b)[..|a| + n] == a + b[..n];
      SumWhereAppend(a, b[..n], col, k);
    }
  }

  /** Taking out the record at `j` takes out one copy of it ... */
  lemma RemoveOne(b: seq<Record>, j: nat)
    requires j < |b|
    ensures multiset(b[..j] + b[j + 1..]) == multiset(b) - multiset{b[j]}
  {
    assert b == b[..j] + [b[j]] + b[j + 1..];
  }

  /** ... and takes its share out of the reference sum. */
  lemma SumWhereRemove(b: seq<Record>, j: nat, col: KeyColumn, k: string)
    requires j < |b|
    ensures SumWhere(b, col, k) == SumWhere(b[..j] + b[j + 1..], col, k).Plus(Share(b[j], col, k))
  {
    var p, x, q := b[..j], b[j], b[j + 1..];
    assert b == (p + [x]) + q;
    SumWhereAppend(p + [x], q, col, k);
    SumWhereSnoc(p, x, col, k);
    SumWhereAppend(p, q, col, k);
    PlusSwap(SumWhere(p, col, k), Share(x, col, k), SumWhere(q, col, k), Zero);
  }

  /** The reference sum depends only on which records there are, not on their order. */
  lemma {:induction false} SumWhereOrderFree(a: seq<Record>, b: seq<Record>, col: KeyColumn, k: string)
    requires multiset(a) == multiset(b)
    ensures SumWhere(a, col, k) == SumWhere(b, col, k)
    decreases |a|
  {
    if |a| > 0 {
      var n := |a| - 1;
      var x := a[n];
      assert a == a[..n] + [x];
      assert multiset(a[..n]) == multiset(a) - multiset{x};
      assert x in multiset(b);
      var j :| 0 <= j < |b| && b[j] == x;
      RemoveOne(b, j);
      SumWhereRemove(b, j, col, k);
      SumWhereOrderFree(a[..n], b[..j] + b[j + 1..], col, k);
    }
  }

  lemma KeysOrderFree(a: seq<Record>, b: seq<Record>, col: KeyColumn)
    requires multiset(a) == multiset(b)
    ensures Elems(Keys(a, col)) == Elems(Keys(b, col))
  {
    forall k | k in Elems(Keys(a, col))
      ensures k in Elems(Keys(b, col))
    {
      var i :| 0 <= i < |a| && KeyOf(a[i], col) == k;
      assert a[i] in multiset(b);
      var j :| 0 <= j < |b| && b[j] == a[i];
      assert Keys(b, col)[j] == k;
    }
    forall k | k in Elems(Keys(b, col))
      ensures k in Elems(Keys(a, col))
    {
      var j :| 0 <= j < |b| && KeyOf(b[j], col) == k;
      assert b[j] in multiset(a);
      var i :| 0 <= i < |a| && a[i] == b[j];
      assert Keys(a, col)[i] == k;
    }
  }

  /** Reordering the records does not change the group-by's result. */
  lemma GroupByOrderFree(a: seq<Record>, b: seq<Record>, col: KeyColumn)
    requires multiset(a) == multiset(b)
    ensures GroupBy(a, col) == GroupBy(b, col)
  {
    var ga := GroupBy(a, col);
    var gb := GroupBy(b, col);
    KeysOrderFree(a, b, col);
    SortedUnique(GroupKeys(ga), GroupKeys(gb));
    forall i | 0 <= i < |ga|
      ensures ga[i] == gb[i]
    {
      assert GroupKeys(ga)[i] == GroupKeys(gb)[i];
      SumWhereOrderFree(a, b, col, ga[i].key);
    }
  }
}

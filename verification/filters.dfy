/**
  The sidebar filters of the dashboard, taken as an immutable value: the OS
  and family selections applied to the detail records, and the OS search box
  that narrows the list of OS options offered for selection.
 */
module Filters {
  import opened Strings
  import opened SortedStrings
  import opened Selection
  import opened Sheet
  import opened Aggregation
  import opened Risk

  /** What the sidebar holds: the chosen status labels, OS numbers and
      families, and the text typed in the OS search box. */
  datatype Criteria = Criteria(status: seq<Tier>, os: seq<string>, familias: seq<string>, search: string)

  /** Criteria that restrict nothing: the state after "clear filters". */
  const NoCriteria: Criteria := Criteria([], [], [], "")

  /** An empty selection restricts nothing; otherwise the value must be chosen. */
  predicate Admits(sel: seq<string>, v: string) {
    |sel| == 0 || v in sel
  }

  /** A record passes both the OS and the family selection. */
  predicate Matches(c: Criteria, r: Record) {
    Admits(c.os, r.os) && Admits(c.familias, r.familia)
  }

  function OsIn(sel: seq<string>): Record -> bool {
    (r: Record) => r.os in sel
  }

  function FamiliaIn(sel: seq<string>): Record -> bool {
    (r: Record) => r.familia in sel
  }

  function MatchesAll(c: Criteria): Record -> bool {
    (r: Record) => Matches(c, r)
  }

  /** The detail filter as the dashboard applies it: the OS selection when
      there is one, then the family selection when there is one. */
  function FilterDetail(rows: seq<Record>, c: Criteria): seq<Record> {
    var byOs := if |c.os| > 0 then Where(rows, OsIn(c.os)) else rows;
    if |c.familias| > 0 then Where(byOs, FamiliaIn(c.familias)) else byOs
  }

  /** Two predicates that agree everywhere select the same entries. */
  lemma WhereSame<T>(xs: seq<T>, p: T -> bool, q: T -> bool)
    requires forall x :: p(x) == q(x)
    ensures Where(xs, p) == Where(xs, q)
  {
    assert MaskOf(xs, p) == MaskOf(xs, q);
  }

  /** The two filters in a row are one selection by their conjunction. */
  lemma FilterDetailIsConjunction(rows: seq<Record>, c: Criteria)
    ensures FilterDetail(rows, c) == Where(rows, MatchesAll(c))
  {
    var m := MatchesAll(c);
    if |c.os| > 0 && |c.familias| > 0 {
      WhereWhere(rows, OsIn(c.os), FamiliaIn(c.familias), m);
    } else if |c.os| > 0 {
      WhereSame(rows, OsIn(c.os), m);
    } else if |c.familias| > 0 {
      WhereSame(rows, FamiliaIn(c.familias), m);
    } else {
      WhereAll(rows, m);
    }
  }

  /** The filtered detail keeps the input's order, and holds exactly the
      records that pass both selections, each as often as the input holds it. */
  lemma FilterDetailKeeps(rows: seq<Record>, c: Criteria)
    ensures IsSubsequence(FilterDetail(rows, c), rows)
    ensures forall r :: multiset(FilterDetail(rows, c))[r] == if Matches(c, r) then multiset(rows)[r] else 0
  {
    FilterDetailIsConjunction(rows, c);
    SelectFacts(rows, MaskOf(rows, MatchesAll(c)));
    WhereCount(rows, MatchesAll(c));
  }

  /** With nothing selected the detail is not filtered at all. */
  lemma FilterDetailNoSelection(rows: seq<Record>, c: Criteria)
    requires |c.os| == 0 && |c.familias| == 0
    ensures FilterDetail(rows, c) == rows
  {
  }

  // ---------------------------------------------------------------------
  // Option lists and the OS search box
  // ---------------------------------------------------------------------

  /** `sorted(df[col].unique())`: the values of a column, once each, ascending. */
  function OptionList(rows: seq<Record>, col: KeyColumn): (opts: seq<string>)
    ensures StrictlySorted(opts)
    ensures forall x :: x in opts <==> x in Keys(rows, col)
  {
    var opts := SortedDistinct(Keys(rows, col));
    assert forall x :: x in opts <==> x in Elems(opts);
    opts
  }

  /** The typed search text, stripped and lower-cased, occurs in the
      lower-cased OS number. */
  function SearchHit(search: string): string -> bool {
    (os: string) => Contains(Lower(Strip(search)), Lower(os))
  }

  /** The OS options offered: those the search text hits (all of them when
      the box is empty), together with the OS numbers already selected, once
      each and in ascending order. */
  function OsOptions(osList: seq<string>, search: string, selected: seq<string>): (opts: seq<string>)
    ensures StrictlySorted(opts)
    ensures forall x :: x in opts <==>
      x in selected || (x in osList && (|search| == 0 || Occurs(Lower(Strip(search)), Lower(x))))
  {
    var shown := if |search| > 0 then Where(osList, SearchHit(search)) else osList;
    ShownOptions(osList, search, shown);
    var opts := SortedDistinct(shown + selected);
    assert forall x :: x in opts <==> x in Elems(opts);
    opts
  }

  /** The OS options the sidebar offers for a sheet: the search applied to the
      sheet's sorted OS list, joined with the current selection. */
  function SidebarOsOptions(records: seq<Record>, c: Criteria): (opts: seq<string>)
    ensures StrictlySorted(opts)
    ensures forall x :: x in opts <==>
      x in c.os || (x in Keys(records, ByOs) && (|c.search| == 0 || Occurs(Lower(Strip(c.search)), Lower(x))))
  {
    OsOptions(OptionList(records, ByOs), c.search, c.os)
  }

  lemma ShownOptions(osList: seq<string>, search: string, shown: seq<string>)
    requires shown == if |search| > 0 then Where(osList, SearchHit(search)) else osList
    ensures forall x :: x in shown <==>
      x in osList && (|search| == 0 || Occurs(Lower(Strip(search)), Lower(x)))
  {
    if |search| > 0 {
      WhereCount(osList, SearchHit(search));
      forall x
        ensures x in shown <==> x in osList && Occurs(Lower(Strip(search)), Lower(x))
      {
        SearchHitOne(osList, search, shown, x);
      }
    }
  }

  lemma SearchHitOne(osList: seq<string>, search: string, shown: seq<string>, x: string)
    requires multiset(shown)[x] == if SearchHit(search)(x) then multiset(osList)[x] else 0
    ensures x in shown <==> x in osList && Occurs(Lower(Strip(search)), Lower(x))
  {
    assert x in shown <==> multiset(shown)[x] > 0;
    assert x in osList <==> multiset(osList)[x] > 0;
    ContainsIff(Lower(Strip(search)), Lower(x));
  }

  /** A search box holding only whitespace offers the same options as an
      empty one: the stripped text is found in every OS number. */
  lemma BlankSearchOffersAll(osList: seq<string>, search: string, selected: seq<string>)
    requires Strip(search) == []
    ensures OsOptions(osList, search, selected) == OsOptions(osList, [], selected)
  {
    var a := OsOptions(osList, search, selected);
    var b := OsOptions(osList, [], selected);
    forall x | x in a
      ensures x in b
    {
    }
    forall x | x in b && x !in selected
      ensures x in a
    {
      assert Lower(Strip(search)) == [];
      assert OccursAt(Lower(Strip(search)), Lower(x), 0);
    }
    SortedUnique(a, b);
  }
}

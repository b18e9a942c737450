/**
  What the dashboard derives from the filtered records: the per-OS and
  per-family summary tables (sums, execution percentage, tier), the status
  filter on the per-OS table, the tier counters over all OS, the per-OS
  tally of its family lines by tier, the headline totals, and the whole
  pass from a raw sheet and the sidebar's criteria to what is shown.
 */
module Report {
  import opened Outcomes
  import opened Strings
  import opened SortedStrings
  import opened Selection
  import opened Sheet
  import opened Aggregation
  import opened Risk
  import opened Filters

  /** One line of a summary table: a key, its summed amounts, its execution
      percentage and its tier. */
  datatype Summary = Summary(key: string, sums: Totals, pct: real, tier: Tier)

  /** Percentage and tier added to each group, as the two summary tables do. */
  function Summarise(gs: seq<Group>): (ss: seq<Summary>)
    ensures |ss| == |gs|
    ensures forall i | 0 <= i < |gs| :: ss[i].key == gs[i].key && ss[i].sums == gs[i].sums
    ensures forall i | 0 <= i < |gs| ::
      ss[i].tier == Classify(gs[i].sums.previsto, gs[i].sums.realizado)
      && ss[i].pct == ExecPct(gs[i].sums.previsto, gs[i].sums.realizado)
  {
    seq(|gs|, i requires 0 <= i < |gs| =>
      var t := gs[i].sums;
      Summary(gs[i].key, t, ExecPct(t.previsto, t.realizado), Classify(t.previsto, t.realizado)))
  }

  /** The per-OS table of the filtered records. */
  function OsTable(detail: seq<Record>): seq<Summary> {
    Summarise(GroupBy(detail, ByOs))
  }

  /** The per-family table of the filtered records. */
  function FamilyTable(detail: seq<Record>): seq<Summary> {
    Summarise(GroupBy(detail, ByFamilia))
  }

  function SummaryKeys(ss: seq<Summary>): (ks: seq<string>)
    ensures |ks| == |ss|
    ensures forall i | 0 <= i < |ss| :: ks[i] == ss[i].key
  {
    seq(|ss|, i requires 0 <= i < |ss| => ss[i].key)
  }

  /** The tier the classifier gives the summed amounts of key `k`. */
  function TierOfKey(rows: seq<Record>, col: KeyColumn, k: string): Tier {
    var t := SumWhere(rows, col, k);
    Classify(t.previsto, t.realizado)
  }

  lemma SummaryKeysOfGroups(gs: seq<Group>)
    ensures SummaryKeys(Summarise(gs)) == GroupKeys(gs)
  {
  }

  /** Every line of a summary table belongs to a distinct key of the records,
      and every key has a line. */
  lemma SummaryKeysFacts(rows: seq<Record>, col: KeyColumn)
    ensures Distinct(SummaryKeys(Summarise(GroupBy(rows, col))))
    ensures Elems(SummaryKeys(Summarise(GroupBy(rows, col)))) == Elems(Keys(rows, col))
  {
    SummaryKeysOfGroups(GroupBy(rows, col));
    GroupCount(rows, col);
  }

  /** Each line's amounts are its key's summed amounts, and its tier and
      percentage are read off those sums. */
  lemma SummaryLine(rows: seq<Record>, col: KeyColumn, i: nat)
    requires i < |GroupBy(rows, col)|
    ensures var s := Summarise(GroupBy(rows, col))[i];
      && s.sums == SumWhere(rows, col, s.key)
      && s.tier == TierOfKey(rows, col, s.key)
      && s.pct == ExecPct(s.sums.previsto, s.sums.realizado)
  {
    var gs := GroupBy(rows, col);
    assert Summarise(gs)[i].key == gs[i].key;
  }

  // ---------------------------------------------------------------------
  // Status filter
  // ---------------------------------------------------------------------

  function TierIn(status: seq<Tier>): Summary -> bool {
    (s: Summary) => s.tier in status
  }

  /** The status filter on the per-OS table: the lines whose tier is chosen,
      or every line when no status is chosen. */
  function StatusFilter(ss: seq<Summary>, status: seq<Tier>): (out: seq<Summary>)
    ensures IsSubsequence(out, ss)
    ensures forall s :: multiset(out)[s] == if |status| == 0 || s.tier in status then multiset(ss)[s] else 0
    ensures |status| == 0 ==> out == ss
  {
    if |status| > 0 then
      SelectFacts(ss, MaskOf(ss, TierIn(status)));
      WhereCount(ss, TierIn(status));
      Where(ss, TierIn(status))
    else
      SelectFacts(ss, MaskOf(ss, (s: Summary) => true));
      WhereAll(ss, (s: Summary) => true);
      ss
  }

  // ---------------------------------------------------------------------
  // Tier counters
  // ---------------------------------------------------------------------

  function HasTier(t: Tier): Summary -> bool {
    (s: Summary) => s.tier == t
  }

  /** `len(table[table['RISCO'] == t])`. */
  function CountTier(ss: seq<Summary>, t: Tier): nat {
    |Where(ss, HasTier(t))|
  }

  /** The five counters shown in the summary cards and caption. */
  datatype TierCounts = TierCounts(estourado: nat, critico: nat, atencao: nat, ok: nat, semOrcamento: nat)

  function CountTiers(ss: seq<Summary>): TierCounts {
    TierCounts(CountTier(ss, OverBudget), CountTier(ss, Critical), CountTier(ss, Warning),
               CountTier(ss, Ok), CountTier(ss, NoBudget))
  }

  /** The keys of the lines of `ss` whose tier is `t`. */
  function KeysWithTier(ss: seq<Summary>, t: Tier): set<string> {
    set i | 0 <= i < |ss| && ss[i].tier == t :: ss[i].key
  }

  lemma CountTierSnoc(ss: seq<Summary>, x: Summary, t: Tier)
    ensures CountTier(ss + [x], t) == CountTier(ss, t) + (if x.tier == t then 1 else 0)
  {
    WhereSnoc(ss, x, HasTier(t));
  }

  lemma KeysWithTierSnoc(ss: seq<Summary>, x: Summary, t: Tier)
    requires x.key !in SummaryKeys(ss)
    ensures x.tier == t ==> KeysWithTier(ss + [x], t) == KeysWithTier(ss, t) + {x.key}
    ensures x.tier != t ==> KeysWithTier(ss + [x], t) == KeysWithTier(ss, t)
    ensures x.key !in KeysWithTier(ss, t)
  {
    var ys := ss + [x];
    var before, after := KeysWithTier(ss, t), KeysWithTier(ys, t);
    var added := if x.tier == t then {x.key} else {};
    forall k | k in after
      ensures k in before + added
    {
      var i :| 0 <= i < |ys| && ys[i].tier == t && ys[i].key == k;
      if i < |ss| {
        assert ss[i] == ys[i];
      }
    }
    forall k | k in before + added
      ensures k in after
    {
      if k in before {
        var i :| 0 <= i < |ss| && ss[i].tier == t && ss[i].key == k;
        assert ys[i] == ss[i];
      } else {
        assert ys[|ss|] == x;
      }
    }
    assert after == before + added;
    forall i | 0 <= i < |ss| && ss[i].tier == t
      ensures ss[i].key != x.key
    {
      assert SummaryKeys(ss)[i] == ss[i].key;
    }
  }

  /** Over lines with distinct keys, a tier's counter is the number of keys
      with that tier. */
  lemma {:induction false} CountTierKeys(ss: seq<Summary>, t: Tier)
    requires Distinct(SummaryKeys(ss))
    ensures CountTier(ss, t) == |KeysWithTier(ss, t)|
  {
    if |ss| > 0 {
      var n := |ss| - 1;
      var init, x := ss[..n], ss[n];
      assert ss == init + [x];
      assert SummaryKeys(init) == SummaryKeys(ss)[..n];
      assert x.key !in SummaryKeys(init) by {
        forall i | 0 <= i < n
          ensures SummaryKeys(init)[i] != x.key
        {
          assert SummaryKeys(ss)[i] != SummaryKeys(ss)[n];
        }
      }
      CountTierKeys(init, t);
      CountTierSnoc(init, x, t);
      KeysWithTierSnoc(init, x, t);
    }
  }

  /** The keys of one tier, read off any table that has one line per key
      and gives each line its key's tier. */
  lemma KeysWithTierOfTable(rows: seq<Record>, ss: seq<Summary>, t: Tier)
    requires Elems(SummaryKeys(ss)) == Elems(Keys(rows, ByOs))
    requires forall i | 0 <= i < |ss| :: ss[i].tier == TierOfKey(rows, ByOs, ss[i].key)
    ensures KeysWithTier(ss, t) == set k | k in Elems(Keys(rows, ByOs)) && TierOfKey(rows, ByOs, k) == t
  {
    var want := set k | k in Elems(Keys(rows, ByOs)) && TierOfKey(rows, ByOs, k) == t;
    forall k | k in want
      ensures k in KeysWithTier(ss, t)
    {
      assert k in Elems(SummaryKeys(ss));
      var i :| 0 <= i < |ss| && SummaryKeys(ss)[i] == k;
    }
    forall k | k in KeysWithTier(ss, t)
      ensures k in want
    {
      var i :| 0 <= i < |ss| && ss[i].tier == t && ss[i].key == k;
      assert SummaryKeys(ss)[i] == k;
      assert k in Elems(SummaryKeys(ss));
    }
  }

  /** The distinct OS of `rows` whose summed amounts fall in tier `t`. */
  function OsWithTier(rows: seq<Record>, t: Tier): set<string> {
    set k | k in Elems(Keys(rows, ByOs)) && TierOfKey(rows, ByOs, k) == t
  }

  /** Each tier counter over all records is the number of distinct OS whose
      summed amounts the classifier puts in that tier. */
  lemma CountTierMeaning(rows: seq<Record>, t: Tier)
    ensures CountTier(OsTable(rows), t) == |OsWithTier(rows, t)|
  {
    var ss := OsTable(rows);
    SummaryKeysFacts(rows, ByOs);
    CountTierKeys(ss, t);
    forall i | 0 <= i < |ss|
      ensures ss[i].tier == TierOfKey(rows, ByOs, ss[i].key)
    {
      SummaryLine(rows, ByOs, i);
    }
    KeysWithTierOfTable(rows, ss, t);
  }

  function Sum(c: TierCounts): nat {
    c.estourado + c.critico + c.atencao + c.ok + c.semOrcamento
  }

  /** Every line is counted under exactly one tier. */
  lemma {:induction false} CountsPartition(ss: seq<Summary>)
    ensures Sum(CountTiers(ss)) == |ss|
  {
    if |ss| > 0 {
      var n := |ss| - 1;
      assert ss == ss[..n] + [ss[n]];
      CountsPartition(ss[..n]);
      CountTierSnoc(ss[..n], ss[n], OverBudget);
      CountTierSnoc(ss[..n], ss[n], Critical);
      CountTierSnoc(ss[..n], ss[n], Warning);
      CountTierSnoc(ss[..n], ss[n], Ok);
      CountTierSnoc(ss[..n], ss[n], NoBudget);
    }
  }

  /** The counters over all records add up to the number of distinct OS. */
  lemma CountsCoverEveryOs(rows: seq<Record>)
    ensures Sum(CountTiers(OsTable(rows))) == |Elems(Keys(rows, ByOs))|
  {
    CountsPartition(OsTable(rows));
    GroupCount(rows, ByOs);
  }

  // ---------------------------------------------------------------------
  // Family tally of one OS card
  // ---------------------------------------------------------------------

  /** The tier of a single detail line. */
  function LineTier(r: Record): Tier {
    Classify(r.previsto, r.realizado)
  }

  /** The tiers of the detail lines, top to bottom. */
  function LineTiers(lines: seq<Record>): (ts: seq<Tier>)
    ensures |ts| == |lines|
    ensures forall i | 0 <= i < |lines| :: ts[i] == LineTier(lines[i])
  {
    seq(|lines|, i requires 0 <= i < |lines| => LineTier(lines[i]))
  }

  /** A dictionary from tier to count, filled one tier at a time with
      `d[t] = d.get(t, 0) + 1`: a tier is a key once it occurs, and maps to
      the number of its occurrences. */
  function TierTally(ts: seq<Tier>): (m: map<Tier, nat>)
    ensures forall t :: t in m <==> t in ts
    ensures forall t | t in m :: m[t] == multiset(ts)[t]
  {
    if |ts| == 0 then map[]
    else
      var n := |ts| - 1;
      var m := TierTally(ts[..n]);
      var t := ts[n];
      assert ts == ts[..n] + [t];
      assert multiset(ts) == multiset(ts[..n]) + multiset{t};
      m[t := (if t in m then m[t] else 0) + 1]
  }

  /** The per-tier dictionary an OS card builds over its detail lines: a
      tier is present exactly when some line has it, and counts the lines
      that have it. */
  function FamilyStatus(lines: seq<Record>): (m: map<Tier, nat>)
    ensures forall t :: t in m <==> exists i | 0 <= i < |lines| :: LineTier(lines[i]) == t
    ensures forall t | t in m :: m[t] == multiset(LineTiers(lines))[t]
  {
    var ts := LineTiers(lines);
    assert forall t :: t in ts <==> exists i | 0 <= i < |lines| :: LineTier(lines[i]) == t;
    TierTally(ts)
  }

  /** The detail lines of one OS among the filtered records. */
  function LinesOf(detail: seq<Record>, os: string): seq<Record> {
    Where(detail, OsIn([os]))
  }

  function LineHasTier(t: Tier): Record -> bool {
    (r: Record) => LineTier(r) == t
  }

  function OsLineHasTier(os: string, t: Tier): Record -> bool {
    (r: Record) => r.os == os && LineTier(r) == t
  }

  /** The number of detail lines of OS `os` whose own amounts fall in tier `t`. */
  function CountLines(detail: seq<Record>, os: string, t: Tier): nat {
    |Where(detail, OsLineHasTier(os, t))|
  }

  /** A tier occurs in the tiers of some lines as often as there are lines
      of that tier. */
  lemma {:induction false} TierMultiplicity(lines: seq<Record>, t: Tier)
    ensures multiset(LineTiers(lines))[t] == |Where(lines, LineHasTier(t))|
  {
    if |lines| > 0 {
      var n := |lines| - 1;
      assert lines == lines[..n] + [lines[n]];
      assert LineTiers(lines) == LineTiers(lines[..n]) + [LineTier(lines[n])];
      TierMultiplicity(lines[..n], t);
      WhereSnoc(lines[..n], lines[n], LineHasTier(t));
    }
  }

  /** What one OS card shows besides its table line: the card's own execution
      percentage and the tally of its detail lines by tier. */
  datatype Card = Card(line: Summary, pct: real, familyStatus: map<Tier, nat>)

  function CardOf(detail: seq<Record>, s: Summary): Card {
    Card(s, CardExecPct(s.sums.previsto, s.sums.realizado), FamilyStatus(LinesOf(detail, s.key)))
  }

  function Cards(detail: seq<Record>, ss: seq<Summary>): (cs: seq<Card>)
    ensures |cs| == |ss|
    ensures forall i | 0 <= i < |ss| :: cs[i] == CardOf(detail, ss[i])
  {
    seq(|ss|, i requires 0 <= i < |ss| => CardOf(detail, ss[i]))
  }

  /** A card's tally has a tier exactly when some detail line of its OS has
      that tier, and counts the detail lines of its OS with that tier. */
  predicate TalliesLines(detail: seq<Record>, os: string, m: map<Tier, nat>) {
    && (forall t :: t in m <==> exists r | r in detail :: r.os == os && LineTier(r) == t)
    && (forall t | t in m :: m[t] == CountLines(detail, os, t))
  }

  lemma CardTally(detail: seq<Record>, os: string)
    ensures TalliesLines(detail, os, FamilyStatus(LinesOf(detail, os)))
  {
    var m := FamilyStatus(LinesOf(detail, os));
    forall t
      ensures t in m <==> exists r | r in detail :: r.os == os && LineTier(r) == t
    {
      TallyKey(detail, os, t);
    }
    forall t | t in m
      ensures m[t] == CountLines(detail, os, t)
    {
      TallyCount(detail, os, t);
    }
  }

  lemma TallyCount(detail: seq<Record>, os: string, t: Tier)
    requires t in FamilyStatus(LinesOf(detail, os))
    ensures FamilyStatus(LinesOf(detail, os))[t] == CountLines(detail, os, t)
  {
    TierMultiplicity(LinesOf(detail, os), t);
    OsLineHasTierSplits(os, t);
    WhereWhere(detail, OsIn([os]), LineHasTier(t), OsLineHasTier(os, t));
  }

  lemma OsLineHasTierSplits(os: string, t: Tier)
    ensures forall r :: OsLineHasTier(os, t)(r) == (OsIn([os])(r) && LineHasTier(t)(r))
  {
  }

  lemma TallyKey(detail: seq<Record>, os: string, t: Tier)
    ensures t in FamilyStatus(LinesOf(detail, os)) <==>
      exists r | r in detail :: r.os == os && LineTier(r) == t
  {
    LinesOfMembers(detail, os);
    TallyKeyOf(LinesOf(detail, os), detail, os, t);
  }

  lemma TallyKeyOf(lines: seq<Record>, detail: seq<Record>, os: string, t: Tier)
    requires forall r :: r in lines <==> r in detail && r.os == os
    ensures t in FamilyStatus(lines) <==> exists r | r in detail :: r.os == os && LineTier(r) == t
  {
    if t in FamilyStatus(lines) {
      var i :| 0 <= i < |lines| && LineTier(lines[i]) == t;
      assert lines[i] in lines;
    }
    if r :| r in detail && r.os == os && LineTier(r) == t {
      assert r in lines;
      var i :| 0 <= i < |lines| && lines[i] == r;
    }
  }

  /** The lines of an OS are the detail lines with that OS. */
  lemma LinesOfMembers(detail: seq<Record>, os: string)
    ensures forall r :: r in LinesOf(detail, os) <==> r in detail && r.os == os
  {
    WhereCount(detail, OsIn([os]));
    forall r
      ensures r in LinesOf(detail, os) <==> r in detail && r.os == os
    {
      assert r in LinesOf(detail, os) <==> multiset(LinesOf(detail, os))[r] > 0;
      assert r in detail <==> multiset(detail)[r] > 0;
    }
  }

  // ---------------------------------------------------------------------
  // Headline metrics
  // ---------------------------------------------------------------------

  function SumSummaries(ss: seq<Summary>): Totals {
    if |ss| == 0 then Zero else ss[0].sums.Plus(SumSummaries(ss[1..]))
  }

  /** The headline: the per-OS table's amounts added up, and the overall
      execution percentage, 0 unless the summed budget is positive. */
  datatype Headline = Headline(sums: Totals, pct: real)

  function MakeHeadline(ss: seq<Summary>): Headline {
    var t := SumSummaries(ss);
    Headline(t, CardExecPct(t.previsto, t.realizado))
  }

  lemma {:induction false} SumSummariesGroups(gs: seq<Group>)
    ensures SumSummaries(Summarise(gs)) == SumGroups(gs)
  {
    if |gs| > 0 {
      assert Summarise(gs)[1..] == Summarise(gs[1..]);
      SumSummariesGroups(gs[1..]);
    }
  }

  /** With no status chosen, the headline amounts are the column totals of
      the filtered records. */
  lemma HeadlineTotals(detail: seq<Record>, status: seq<Tier>)
    requires |status| == 0
    ensures MakeHeadline(StatusFilter(OsTable(detail), status)).sums == Total(detail)
  {
    SumSummariesGroups(GroupBy(detail, ByOs));
    GroupByTotals(detail, ByOs);
  }

  // ---------------------------------------------------------------------
  // One pass of the dashboard
  // ---------------------------------------------------------------------

  /** What a pass produces when there is something to show. */
  datatype View = View(
    detail: seq<Record>,       // the filtered records
    osTable: seq<Summary>,     // per-OS table after the status filter
    familyTable: seq<Summary>, // per-family table of the filtered records
    counts: TierCounts,        // tier counters over every OS of the sheet
    headline: Headline,        // totals of the per-OS table
    cards: seq<Card>)          // one card per line of the per-OS table

  /** The three outcomes of a pass: the sheet cannot be read, the filters
      leave no record, or a view. */
  datatype Screen = SheetFailed(error: SheetError) | NothingMatches | Shown(view: View)

  /** The filtered detail is empty exactly when no record passes the selections. */
  lemma NothingMatchesIff(records: seq<Record>, c: Criteria)
    ensures FilterDetail(records, c) == [] <==> forall r | r in records :: !Matches(c, r)
  {
    var detail := FilterDetail(records, c);
    FilterDetailKeeps(records, c);
    if detail != [] {
      assert multiset(detail)[detail[0]] > 0;
    }
    if r :| r in records && Matches(c, r) {
      assert multiset(records)[r] > 0;
      assert multiset(detail)[r] > 0;
    }
  }

  /** Everything derived from the records read and the sidebar's criteria. */
  function BuildView(records: seq<Record>, c: Criteria): View {
    var detail := FilterDetail(records, c);
    var osTable := StatusFilter(OsTable(detail), c.status);
    View(detail, osTable, FamilyTable(detail), CountTiers(OsTable(records)),
         MakeHeadline(osTable), Cards(detail, osTable))
  }

  /** The counter of one tier. */
  function Counter(counts: TierCounts, t: Tier): nat {
    match t
    case OverBudget => counts.estourado
    case Critical => counts.critico
    case Warning => counts.atencao
    case Ok => counts.ok
    case NoBudget => counts.semOrcamento
  }

  /** The view's detail is the records that pass both selections, in order. */
  lemma ViewDetail(records: seq<Record>, c: Criteria)
    ensures IsSubsequence(BuildView(records, c).detail, records)
    ensures forall r ::
      multiset(BuildView(records, c).detail)[r] == (if Matches(c, r) then multiset(records)[r] else 0)
  {
    FilterDetailKeeps(records, c);
  }

  /** The counters are taken over every OS of the sheet, whatever the
      selections: each counts the OS whose summed amounts fall in its tier. */
  lemma ViewCounts(records: seq<Record>, c: Criteria)
    ensures forall t :: Counter(BuildView(records, c).counts, t) == |OsWithTier(records, t)|
    ensures Sum(BuildView(records, c).counts) == |Elems(Keys(records, ByOs))|
  {
    var counts := CountTiers(OsTable(records));
    assert BuildView(records, c).counts == counts;
    forall t
      ensures Counter(counts, t) == |OsWithTier(records, t)|
    {
      CountTierMeaning(records, t);
    }
    CountsCoverEveryOs(records);
  }

  /** The shown per-OS table has one line for each OS of the filtered detail
      whose tier is selected (or any, when none is) and for no other key;
      each line sums its OS over the detail and carries that sum's tier. */
  lemma ViewOsTable(records: seq<Record>, c: Criteria)
    ensures var v := BuildView(records, c);
      forall i | 0 <= i < |v.osTable| ::
        && v.osTable[i].sums == SumWhere(v.detail, ByOs, v.osTable[i].key)
        && v.osTable[i].tier == TierOfKey(v.detail, ByOs, v.osTable[i].key)
        && (|c.status| == 0 || v.osTable[i].tier in c.status)
    ensures Distinct(SummaryKeys(BuildView(records, c).osTable))
    ensures var v := BuildView(records, c);
      forall k :: k in SummaryKeys(v.osTable) <==>
        k in Elems(Keys(v.detail, ByOs)) && (|c.status| == 0 || TierOfKey(v.detail, ByOs, k) in c.status)
  {
    var detail := FilterDetail(records, c);
    var full := OsTable(detail);
    var shown := StatusFilter(full, c.status);
    assert BuildView(records, c).osTable == shown;
    forall i | 0 <= i < |shown|
      ensures shown[i].sums == SumWhere(detail, ByOs, shown[i].key)
      ensures shown[i].tier == TierOfKey(detail, ByOs, shown[i].key)
      ensures |c.status| == 0 || shown[i].tier in c.status
    {
      ShownLine(detail, c.status, i);
    }
    ShownKeys(detail, c.status);
  }

  /** The keys of the shown per-OS table: each selected OS of the detail
      once, and nothing else. */
  lemma ShownKeys(detail: seq<Record>, status: seq<Tier>)
    ensures Distinct(SummaryKeys(StatusFilter(OsTable(detail), status)))
    ensures forall k :: k in SummaryKeys(StatusFilter(OsTable(detail), status)) <==>
      k in Elems(Keys(detail, ByOs)) && (|status| == 0 || TierOfKey(detail, ByOs, k) in status)
  {
    var full := OsTable(detail);
    var shown := StatusFilter(full, status);
    forall k | k in SummaryKeys(shown)
      ensures k in Elems(Keys(detail, ByOs)) && (|status| == 0 || TierOfKey(detail, ByOs, k) in status)
    {
      var i :| 0 <= i < |shown| && SummaryKeys(shown)[i] == k;
      ShownLine(detail, status, i);
    }
    forall k | k in Elems(Keys(detail, ByOs)) && (|status| == 0 || TierOfKey(detail, ByOs, k) in status)
      ensures k in SummaryKeys(shown)
    {
      ShownKey(detail, status, k);
    }
    SummaryKeysFacts(detail, ByOs);
    StatusFilterDistinct(full, status);
  }

  lemma ShownLine(detail: seq<Record>, status: seq<Tier>, i: nat)
    requires i < |StatusFilter(OsTable(detail), status)|
    ensures var s := StatusFilter(OsTable(detail), status)[i];
      && s.sums == SumWhere(detail, ByOs, s.key)
      && s.tier == TierOfKey(detail, ByOs, s.key)
      && (|status| == 0 || s.tier in status)
      && s.key in Elems(Keys(detail, ByOs))
  {
    var full := OsTable(detail);
    var s := StatusFilter(full, status)[i];
    assert multiset(StatusFilter(full, status))[s] > 0;
    assert multiset(full)[s] > 0;
    var j :| 0 <= j < |full| && full[j] == s;
    SummaryLine(detail, ByOs, j);
    SummaryKeysFacts(detail, ByOs);
    assert SummaryKeys(full)[j] == s.key;
  }

  /** The status filter keeps lines in their order, so it keeps keys that
      were distinct distinct. */
  lemma StatusFilterDistinct(ss: seq<Summary>, status: seq<Tier>)
    requires Distinct(SummaryKeys(ss))
    ensures Distinct(SummaryKeys(StatusFilter(ss, status)))
  {
    if |status| > 0 {
      var mask := MaskOf(ss, TierIn(status));
      var out := StatusFilter(ss, status);
      assert out == Select(ss, mask);
      var idx := Positions(mask);
      forall k, l | 0 <= k < l < |out|
        ensures SummaryKeys(out)[k] != SummaryKeys(out)[l]
      {
        assert out[k] == ss[idx[k]] && out[l] == ss[idx[l]];
        assert idx[k] < idx[l];
        assert SummaryKeys(ss)[idx[k]] != SummaryKeys(ss)[idx[l]];
      }
    }
  }

  lemma ShownKey(detail: seq<Record>, status: seq<Tier>, k: string)
    requires k in Elems(Keys(detail, ByOs))
    requires |status| == 0 || TierOfKey(detail, ByOs, k) in status
    ensures k in SummaryKeys(StatusFilter(OsTable(detail), status))
  {
    var full := OsTable(detail);
    SummaryKeysFacts(detail, ByOs);
    assert k in Elems(SummaryKeys(full));
    var j :| 0 <= j < |full| && SummaryKeys(full)[j] == k;
    SummaryLine(detail, ByOs, j);
    KeptLineShown(full, status, j);
  }

  /** A line whose tier is selected survives the status filter. */
  lemma KeptLineShown(ss: seq<Summary>, status: seq<Tier>, j: nat)
    requires j < |ss| && (|status| == 0 || ss[j].tier in status)
    ensures ss[j].key in SummaryKeys(StatusFilter(ss, status))
  {
    var shown := StatusFilter(ss, status);
    assert multiset(ss)[ss[j]] > 0;
    assert multiset(shown)[ss[j]] > 0;
    var i :| 0 <= i < |shown| && shown[i] == ss[j];
    assert SummaryKeys(shown)[i] == ss[j].key;
  }

  /** The per-family table sums the filtered detail by family, not the
      per-OS table: one line per family of the detail, in ascending order,
      each with its family's sums and their tier. */
  lemma ViewFamilyTable(records: seq<Record>, c: Criteria)
    ensures var v := BuildView(records, c);
      && StrictlySorted(SummaryKeys(v.familyTable))
      && Elems(SummaryKeys(v.familyTable)) == Elems(Keys(v.detail, ByFamilia))
      && forall i | 0 <= i < |v.familyTable| ::
           && v.familyTable[i].sums == SumWhere(v.detail, ByFamilia, v.familyTable[i].key)
           && v.familyTable[i].tier == TierOfKey(v.detail, ByFamilia, v.familyTable[i].key)
  {
    var detail := FilterDetail(records, c);
    SummaryKeysFacts(detail, ByFamilia);
    SummaryKeysOfGroups(GroupBy(detail, ByFamilia));
    forall i | 0 <= i < |FamilyTable(detail)|
      ensures FamilyTable(detail)[i].sums == SumWhere(detail, ByFamilia, FamilyTable(detail)[i].key)
      ensures FamilyTable(detail)[i].tier == TierOfKey(detail, ByFamilia, FamilyTable(detail)[i].key)
    {
      SummaryLine(detail, ByFamilia, i);
    }
  }

  /** With no status chosen the headline amounts are the column totals of the
      filtered detail. */
  lemma ViewHeadline(records: seq<Record>, c: Criteria)
    requires |c.status| == 0
    ensures BuildView(records, c).headline.sums == Total(BuildView(records, c).detail)
  {
    HeadlineTotals(FilterDetail(records, c), c.status);
  }

  /** What the card of line `s` shows: that line, the card percentage of the
      OS's summed detail amounts (0 for a budget that is not positive, unlike
      the table's percentage when the budget is negative), and
      the tally of the OS's detail lines by their own tier. */
  predicate CardReports(detail: seq<Record>, s: Summary, card: Card) {
    var sums := SumWhere(detail, ByOs, s.key);
    && card.line == s
    && card.pct == CardExecPct(sums.previsto, sums.realizado)
    && TalliesLines(detail, s.key, card.familyStatus)
  }

  lemma CardFacts(detail: seq<Record>, s: Summary)
    requires s.sums == SumWhere(detail, ByOs, s.key)
    ensures CardReports(detail, s, CardOf(detail, s))
  {
    var card := CardOf(detail, s);
    CardTally(detail, s.key);
    assert TalliesLines(detail, s.key, card.familyStatus);
  }

  /** One card per shown OS line, each showing what `CardReports` says. */
  lemma ViewCards(records: seq<Record>, c: Criteria)
    ensures var v := BuildView(records, c);
      && |v.cards| == |v.osTable|
      && forall i | 0 <= i < |v.cards| :: CardReports(v.detail, v.osTable[i], v.cards[i])
  {
    var v := BuildView(records, c);
    forall i | 0 <= i < |v.cards|
      ensures CardReports(v.detail, v.osTable[i], v.cards[i])
    {
      ShownLine(v.detail, c.status, i);
      CardFacts(v.detail, v.osTable[i]);
    }
  }

  /** Clearing the filters shows every record, every OS and the sheet's totals. */
  lemma ClearedFilters(records: seq<Record>)
    ensures BuildView(records, NoCriteria).detail == records
    ensures BuildView(records, NoCriteria).osTable == OsTable(records)
    ensures BuildView(records, NoCriteria).headline.sums == Total(records)
  {
    HeadlineTotals(records, NoCriteria.status);
  }

  /** Reads the sheet, filters, aggregates, classifies and counts. */
  function Dashboard(g: Grid, conv: Conversions, c: Criteria): (s: Screen)
    requires g.Valid()
    ensures s.SheetFailed? <==> ProcessSheet(g, conv).Failure?
    ensures s.SheetFailed? && s.error == HeaderNotFound <==> LocateHeader(g, conv).None?
    ensures s.NothingMatches? <==>
      ProcessSheet(g, conv).Success? && forall r | r in ProcessSheet(g, conv).value :: !Matches(c, r)
    ensures s.Shown? ==> s.view == BuildView(ProcessSheet(g, conv).value, c)
    ensures s.Shown? ==> s.view.detail != [] && (|c.status| == 0 ==> s.view.osTable != [])
  {
    match ProcessSheet(g, conv)
    case Failure(e) => SheetFailed(e)
    case Success(records) =>
      NothingMatchesIff(records, c);
      var v := BuildView(records, c);
      if v.detail == [] then NothingMatches else Shown(v)
  }

  // ---------------------------------------------------------------------
  // A worked example
  // ---------------------------------------------------------------------

  /** One OS with three families: (1000, 500), (500, 600) and (0, 50). */
  const Example: seq<Record> := [
    Record("100", "A", 1000.0, 500.0, 500.0),
    Record("100", "B", 500.0, 600.0, -100.0),
    Record("100", "C", 0.0, 50.0, -50.0)]

  lemma ExampleSums(col: KeyColumn, k: string)
    ensures SumWhere(Example, col, k)
      == Share(Example[0], col, k).Plus(Share(Example[1], col, k)).Plus(Share(Example[2], col, k))
  {
    var a, b, c := Example[0], Example[1], Example[2];
    assert Example == [a, b] + [c];
    assert [a, b] == [a] + [b];
    assert [a] == [] + [a];
    SumWhereSnoc([], a, col, k);
    SumWhereSnoc([a], b, col, k);
    SumWhereSnoc([a, b], c, col, k);
  }

  lemma ExampleOsSums()
    ensures SumWhere(Example, ByOs, "100") == Totals(1500.0, 1150.0, 350.0)
  {
    ExampleSums(ByOs, "100");
    assert Share(Example[0], ByOs, "100") == Totals(1000.0, 500.0, 500.0);
    assert Share(Example[1], ByOs, "100") == Totals(500.0, 600.0, -100.0);
    assert Share(Example[2], ByOs, "100") == Totals(0.0, 50.0, -50.0);
  }

  lemma ExampleFamilySums()
    ensures SumWhere(Example, ByFamilia, "C") == Totals(0.0, 50.0, -50.0)
  {
    ExampleSums(ByFamilia, "C");
    assert Example[0].familia != "C" && Example[1].familia != "C";
    assert Share(Example[2], ByFamilia, "C") == Totals(0.0, 50.0, -50.0);
  }

  lemma ExampleKeys()
    ensures Elems(Keys(Example, ByOs)) == {"100"}
    ensures Elems(Keys(Example, ByFamilia)) == {"A", "B", "C"}
  {
    assert Keys(Example, ByOs) == ["100", "100", "100"];
    assert Keys(Example, ByFamilia) == ["A", "B", "C"];
  }

  lemma AbcSorted()
    ensures StrictlySorted(["A", "B", "C"])
    ensures Elems(["A", "B", "C"]) == {"A", "B", "C"}
  {
    var s: seq<string> := ["A", "B", "C"];
    assert Below(s[0], s[1]) && Below(s[0], s[2]) && Below(s[1], s[2]);
  }

  /** The OS sums to (1500, 1150), about 76.7 %: a warning. */
  lemma WorkedExampleOs()
    ensures |OsTable(Example)| == 1
    ensures OsTable(Example)[0].key == "100"
    ensures OsTable(Example)[0].sums == Totals(1500.0, 1150.0, 350.0)
    ensures OsTable(Example)[0].tier == Warning
  {
    ExampleKeys();
    var os := GroupBy(Example, ByOs);
    GroupCount(Example, ByOs);
    assert |{"100"}| == 1;
    var k := GroupKeys(os)[0];
    assert k in Elems(GroupKeys(os));
    assert k == "100";
    ExampleOsSums();
    SummaryLine(Example, ByOs, 0);
    assert OsTable(Example) == Summarise(os);
    ClassifyPositiveBudget(1500.0, 1150.0);
  }

  lemma ExampleFamilyKeys()
    ensures GroupKeys(GroupBy(Example, ByFamilia)) == ["A", "B", "C"]
  {
    ExampleKeys();
    AbcSorted();
    SortedUnique(GroupKeys(GroupBy(Example, ByFamilia)), ["A", "B", "C"]);
  }

  /** The families come out in ascending order, and the one with no budget
      but some spending is critical. */
  lemma WorkedExampleFamilies()
    ensures SummaryKeys(FamilyTable(Example)) == ["A", "B", "C"]
    ensures FamilyTable(Example)[2].tier == Critical
  {
    var fam := GroupBy(Example, ByFamilia);
    ExampleFamilyKeys();
    SummaryKeysOfGroups(fam);
    ExampleFamilySums();
    SummaryLine(Example, ByFamilia, 2);
  }
}

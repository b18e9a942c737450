# CMV budget-execution dashboard — a Dafny model of its data pipeline

The dashboard reads a cost spreadsheet with one line per service order (OS)
and cost family (FAMILIA). Each line carries a budgeted amount (PREVISTO), an
actual amount (REALIZADO) and a balance (SALDO). The dashboard then sums the
lines per OS and per family and puts every sum in one of five risk tiers:
ESTOURADO, CRÍTICO, ATENÇÃO, OK and SEM ORÇAMENTO.

This project models the deterministic pipeline behind the screen and proves
properties of it:

- **Header locator and row normaliser** (`Sheet`). The header is the first
  of the first ten rows whose first cell, stripped and upper-cased, is one of
  `O_S`, `OS`, `O.S.`, `O.S`. The rows below it keep the five columns in a
  fixed order. Rows without an OS, or whose OS text (upper-cased, not
  stripped) is a header spelling, are dropped. Amounts become numbers, with 0
  for a missing or non-numeric cell, and OS and FAMILIA are trimmed.
- **Group-by-and-sum** on OS or on FAMILIA (`Aggregation`). It gives one
  line per distinct key, in ascending key order.
- **Risk classifier**, the two execution-percentage formulas, and the label,
  colour and style-class tables (`Risk`).
- **Sidebar filters** (`Filters`). The OS and family selections are applied
  as a conjunction. The OS search box narrows the offered OS options.
- **Tables, status filter, tier counters, per-card family tally, headline
  totals and one whole pass** from a raw grid and the sidebar's criteria to
  the shown screen (`Report`).

Supporting modules:

- `Outcomes`: `Option` and `Result`.
- `Strings`: Python's `strip`, `upper`, `lower`, substring `in` and string `<`.
- `SortedStrings`: `sorted(set(...))`.
- `Selection`: order-preserving selection by a mask or a predicate.

Amounts are `real`, so sums and divisions are exact. A cell is
`Empty | Text | Num`.

Two library conversions are parameters of type `Sheet.Conversions`, because
the model cannot reproduce them:

- how `str()` writes a number;
- how `to_numeric` reads a text.

An empty cell is written `"nan"`, as `astype(str)` writes a missing value.

## Model

| member | source | states |
|---|---|---|
| Sheet.LocateHeader | app.py:125-134 | the header row is the smallest index below min(10, row count) whose stripped, upper-cased first cell is a header spelling; there is no header (never a default row 0) exactly when no row of that window qualifies |
| Sheet.ProcessSheet | app.py:121-149 | reading fails with HeaderNotFound exactly when the locator finds nothing; it succeeds exactly when a header is found and the sheet has the five named columns |
| Sheet.RecordsFollowHeader | app.py:136-147 | every record comes, in sheet order and once each, from a row strictly below the header row that has an OS cell and whose OS text, upper-cased, is not a header spelling; every such row yields a record; each record holds that row's stripped OS and FAMILIA and its amounts read as numbers, 0 when unreadable |
| Sheet.BelowHeaderProvenance | app.py:136-147 | the same correspondence between records and kept rows, for any row chosen as the header |
| Sheet.NormalisedTrimmed | app.py:146-147 | OS and FAMILIA of every record are trimmed: stripping them again changes nothing |
| Sheet.PaddedHeaderKept | app.py:127-141 | a repeated header row whose OS cell is " OS" passes the repeated-header guard, because that guard does not strip, yet its record's OS is a header spelling |
| Strings.Strip | app.py:127 | the result has no leading or trailing whitespace and is the input with whitespace cut from both ends only |
| Strings.StripIdempotent | app.py:146-147 | stripping twice is stripping once |
| Strings.ContainsIff | app.py:378 | the substring test used by the search box holds exactly when the needle occurs at some position of the text |
| Aggregation.GroupBy | app.py:151-157 | keys come out strictly ascending; the set of keys is exactly the set of input keys; each key's three amounts equal the sums over the input lines with that key; there is no group exactly when there is no input line |
| Aggregation.Tally | app.py:151-157 | the key-to-sums dictionary has exactly the input keys, each mapped to the sums over its lines |
| Aggregation.GroupCount | app.py:516-520 | group keys are pairwise distinct and there are as many groups as distinct input keys |
| Aggregation.GroupByTotals | app.py:151-157 | adding up the groups gives the column totals of the input: grouping neither loses nor double-counts an amount |
| Aggregation.GroupByOrderFree | app.py:516-520 | two inputs holding the same lines in any order group to the same result |
| SortedStrings.SortedDistinct | app.py:369 | the option list is strictly ascending and holds exactly the distinct input values |
| SortedStrings.SortedDistinctCanonical | app.py:381 | the sorted distinct list depends only on the set of values, not on their order or repetition |
| Risk.Classify | app.py:159-175 | the SEM ORÇAMENTO tier is returned exactly when the budget is 0 and nothing positive was spent |
| Risk.ClassifyPositiveBudget | app.py:166-175 | with a positive budget: ESTOURADO iff actual > budget; CRÍTICO iff 0.9·budget ≤ actual ≤ budget; ATENÇÃO iff 0.7·budget ≤ actual < 0.9·budget; OK iff actual < 0.7·budget |
| Risk.ClassifyNegativeBudget | app.py:166-175 | with a negative budget each comparison flips: ESTOURADO iff actual < budget, and so on for the other tiers |
| Risk.ClassifyMonotone | app.py:166-175 | for a fixed positive budget, spending more never lowers the severity OK < ATENÇÃO < CRÍTICO < ESTOURADO |
| Risk.ClassifyBoundaries | app.py:159-175 | (0,0) is SEM ORÇAMENTO, (0,50) CRÍTICO, (100,100) CRÍTICO, (100,100.01) ESTOURADO, (100,90) CRÍTICO, (100,89.99) ATENÇÃO, (100,70) ATENÇÃO, (100,69.99) OK |
| Risk.ExecPct | app.py:403 | the table percentage is 0 for a zero budget and otherwise satisfies pct · budget = 100 · actual |
| Risk.CardExecPct | app.py:229 | the card and headline percentage is 0 for every budget ≤ 0 and otherwise satisfies pct · budget = 100 · actual |
| Risk.ExecPctVariants | app.py:229 | the two percentage formulas agree exactly when the budget is not negative or nothing was spent |
| Risk.TierFollowsPct | app.py:403-404 | apart from a zero budget, the tier is read off the table percentage by the thresholds 100/90/70; with a zero budget the percentage is 0 even when the tier is CRÍTICO |
| Risk.ParseLabel | app.py:177-197 | a label read back names a tier whose label it is |
| Risk.LabelRoundTrip | app.py:361-365 | every tier's label is read back as that tier |
| Risk.LookupTables | app.py:177-197 | distinct tiers get distinct colours and style classes; an unknown label gets the grey colour and the "cinza" class of SEM ORÇAMENTO |
| Filters.FilterDetailIsConjunction | app.py:388-392 | applying the OS filter and then the family filter is one selection by "OS admitted and family admitted" |
| Filters.FilterDetailKeeps | app.py:388-392 | the filtered detail is a subsequence of the records and holds each record as often as the input does when its OS is selected (or none is) and its family is selected (or none is), and never otherwise |
| Filters.FilterDetailNoSelection | app.py:388-392 | with no OS and no family selected the detail is all records |
| Filters.OptionList | app.py:369 | a column's option list is strictly ascending and holds exactly the values of that column |
| Filters.OsOptions | app.py:376-382 | the offered OS options are strictly ascending and are exactly the selected OS together with the OS whose lower-cased text contains the stripped, lower-cased search text (all OS when the box is empty) |
| Filters.BlankSearchOffersAll | app.py:376-381 | a search box holding only whitespace offers the same options as an empty one |
| Report.SummaryLine | app.py:401-404 | each line of a summary table holds the sums of its key over the records, the tier of those sums and their percentage |
| Report.SummaryKeysFacts | app.py:401 | the keys of a summary table are distinct and are exactly the keys of the records |
| Report.StatusFilter | app.py:407-408 | the status filter keeps a subsequence holding each line as often as the table does when its tier is selected, and nothing else; with no status selected it keeps the whole table |
| Report.CountTierMeaning | app.py:414-421 | each tier counter equals the number of distinct OS of the whole sheet whose summed amounts fall in that tier |
| Report.CountsCoverEveryOs | app.py:414-421 | the five counters add up to the number of distinct OS |
| Report.CountsPartition | app.py:417-421 | the five counters of any table add up to its number of lines |
| Report.CountTierKeys | app.py:417-421 | over a table with distinct keys, a counter is the number of keys with that tier |
| Report.TierTally | app.py:235-238 | the tier dictionary built by "get or 0, plus one" has a tier as key exactly when it occurs, mapped to its number of occurrences |
| Report.FamilyStatus | app.py:235-238 | an OS card's tier dictionary has a tier exactly when some of its detail lines has it, and counts those lines |
| Report.HeadlineTotals | app.py:427-429 | with no status selected, the headline amounts equal the column totals of the filtered records |
| Report.NothingMatchesIff | app.py:394-399 | the filtered detail is empty exactly when no record passes both selections |
| Report.Dashboard | app.py:345-430 | a pass fails exactly when the sheet cannot be read, with HeaderNotFound exactly when no header is found; it stops with "nothing found" exactly when the sheet reads but no record passes the selections; otherwise it shows the view built from the records read, whose detail is non-empty and whose OS table is non-empty when no status is selected |
| Report.ViewDetail | app.py:386-392 | the view's detail is a subsequence of the records holding each record as often as they do when it passes both selections, and never otherwise |
| Report.ViewCounts | app.py:413-421 | whatever the selections, each tier counter of the view is the number of distinct OS of the whole sheet whose summed amounts fall in that tier, and the counters add up to the sheet's number of distinct OS |
| Report.ViewOsTable | app.py:400-408 | the view's OS table has exactly one line per OS of the filtered detail whose tier is selected (any, when none is): its keys are pairwise distinct, and a key appears exactly when it is an OS of the detail with a selected tier; each line holds that OS's sums over the detail and their tier |
| Report.ViewFamilyTable | app.py:514-523 | the view's family table groups the filtered detail by family: strictly ascending family keys, exactly the families of the detail, each with its sums over the detail and their tier |
| Report.ViewHeadline | app.py:427-429 | with no status selected, the view's headline amounts are the column totals of the filtered detail |
| Report.ViewCards | app.py:505-509 | the view has one card per OS-table line; each card shows that line, the card percentage of the OS's summed amounts over the filtered detail, and the tally by tier of that OS's detail lines |
| Report.CardFacts | app.py:226-238 | a card shows its OS line, the card percentage of the OS's summed detail amounts (0 for any budget ≤ 0), and a tier tally of that OS's detail lines |
| Report.CardTally | app.py:235-238 | a card's tally has a tier exactly when some detail line of its OS has that tier by its own amounts, and maps it to the number of such lines |
| Report.TierMultiplicity | app.py:235-238 | a tier occurs among the tiers of some lines as often as there are lines of that tier |
| Report.ClearedFilters | app.py:354-358 | after clearing the filters the view shows every record, the OS table of the whole sheet, and the sheet's column totals as headline |
| Filters.SidebarOsOptions | app.py:369-381 | the OS options offered for a sheet are strictly ascending and are exactly the selected OS together with the sheet's OS hit by the stripped, lower-cased search text (all of them when the box is empty) |
| Report.WorkedExampleOs | app.py:151-175 | an OS with lines (1000, 500), (500, 600) and (0, 50) sums to (1500, 1150, 350) and is ATENÇÃO |
| Report.WorkedExampleFamilies | app.py:516-523 | the same lines grouped by family give families A, B, C in that order, and C, with no budget and 50 spent, is CRÍTICO |

## Left out

- The Streamlit page, CSS, HTML cards, expanders, metrics, tabs and widgets (app.py:11-115, 223-327, 333-630) are not modelled. They are presentation only. `Report.Dashboard` returns the values behind them: the filtered detail, the two summary tables, the tier counters, the headline totals, and each OS card's percentage and tier tally.
- Reading the workbook (`pd.read_excel`) and the Excel and CSV exports are not modelled. They are file I/O. The raw sheet is an input `Sheet.Grid`, and every row of it has the same number of cells.
- How `str()` writes a number and how `to_numeric` reads a text are parameters (`Sheet.Conversions`). They are library conversions on binary floats.
- A sheet that does not have exactly five columns is `Sheet.ColumnCountMismatch`. There, pandas raises an exception on the column assignment, which the dashboard does not catch.
- Python's `str.upper` is modelled on ASCII letters plus U+017F (long s, which upper-cases to `S`). These are the only characters whose upper-case form can decide a match against the four header spellings. Other characters are left unchanged, which cannot change such a match. `str.lower` is modelled on ASCII letters only. It is used by the OS search box, whose OS numbers and search texts are taken to be ASCII.
- `formatar_moeda` and `formatar_moeda_compacto` are not modelled. They depend on float formatting and round-half-even on binary floats.
- The descending sort by execution percentage (app.py:303, 411, 524, 560) is not modelled. pandas' default sort is not stable, so the tie order is unspecified. The tables keep the ascending-key order of the group-by.
- Clearing the filters (app.py:354-358) is a session-state mutation. It is represented by the constant `Filters.NoCriteria`, the criteria after clearing.
- The family list inside an OS card (app.py:300-327), with each detail line's own percentage and tier, is not modelled beyond the card's tier tally. It is display detail over the card's detail lines.
- The family expander's count of distinct OS (app.py:540), its per-family OS list (app.py:556-560) and the emoji are not modelled. They are display detail over the same group-by.
- The amounts are exact reals, so the model says nothing about float rounding in sums or percentages.

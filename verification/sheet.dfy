/**
  Reading the cost spreadsheet: find the header row among the first ten rows,
  then turn every row below it into a record of five named columns
  (OS, FAMILIA, PREVISTO, REALIZADO, SALDO), dropping rows without an OS and
  repeated header rows, coercing the amounts to numbers and trimming the
  two text columns.
 */
module Sheet {
  import opened Outcomes
  import opened Strings
  import opened Selection

  /** One cell of the raw sheet as the spreadsheet reader delivers it. */
  datatype Cell = Empty | Text(text: string) | Num(value: real)

  /** The two conversions the spreadsheet library performs and this model
      takes as given: how a number is written out as text, and how a text
      cell is read as a number (`None` when it is not one). */
  datatype Conversions = Conversions(render: real -> string, parse: string -> Option<real>)

  /** The text of a cell: an empty cell is written "nan". */
  function CellString(c: Cell, conv: Conversions): string {
    match c
    case Empty => "nan"
    case Text(s) => s
    case Num(v) => conv.render(v)
  }

  /** A cell coerced to an amount: a number is kept, a text that reads as a
      number gives that number, anything else gives 0. */
  function Amount(c: Cell, conv: Conversions): real {
    match c
    case Empty => 0.0
    case Num(v) => v
    case Text(s) =>
      match conv.parse(s)
      case Some(v) => v
      case None => 0.0
  }

  /** The spellings of the OS column header. */
  const HeaderLabels: seq<string> := ["O_S", "OS", "O.S.", "O.S"]

  /** How many rows from the top are searched for the header. */
  const ScanLimit: nat := 10

  /** `s`, upper-cased, is one of the header spellings. */
  predicate IsHeaderLabel(s: string) {
    Upper(s) in HeaderLabels
  }

  /** The raw sheet: `width` columns, every row exactly that wide, and at
      least one column as soon as there is a row. */
  datatype Grid = Grid(width: nat, rows: seq<seq<Cell>>) {
    predicate Valid() {
      && (|rows| > 0 ==> width > 0)
      && forall i | 0 <= i < |rows| :: |rows[i]| == width
    }
  }

  /** The number of rows the header search looks at. */
  function Window(g: Grid): nat {
    if |g.rows| < ScanLimit then |g.rows| else ScanLimit
  }

  /** Row `i` starts with a header label, once stripped and upper-cased. */
  predicate HeaderAt(g: Grid, conv: Conversions, i: nat)
    requires g.Valid() && i < |g.rows|
  {
    IsHeaderLabel(Strip(CellString(g.rows[i][0], conv)))
  }

  /** Which rows of the search window start with a header label. */
  function HeaderMask(g: Grid, conv: Conversions): (mask: seq<bool>)
    requires g.Valid()
    ensures |mask| == Window(g)
    ensures forall i | 0 <= i < Window(g) :: mask[i] == HeaderAt(g, conv, i)
  {
    seq(Window(g), i requires 0 <= i < Window(g) => HeaderAt(g, conv, i))
  }

  /** The header row: the first of the first ten rows that starts with a
      header label, or `None`; never a default row. */
  function LocateHeader(g: Grid, conv: Conversions): (r: Option<nat>)
    requires g.Valid()
    ensures r.Some? ==> r.value < ScanLimit && r.value < |g.rows| && HeaderAt(g, conv, r.value)
    ensures r.Some? ==> forall j | 0 <= j < r.value :: !HeaderAt(g, conv, j)
    ensures r.None? <==> forall j | 0 <= j < Window(g) :: !HeaderAt(g, conv, j)
  {
    FirstFrom(HeaderMask(g, conv), 0)
  }

  /** A data row once the five column names are assigned. */
  datatype Row = Row(os: Cell, familia: Cell, previsto: Cell, realizado: Cell, saldo: Cell)

  function RowOf(cells: seq<Cell>): Row
    requires |cells| == 5
  {
    Row(cells[0], cells[1], cells[2], cells[3], cells[4])
  }

  /** The rows strictly below row `h`, with the five column names assigned. */
  function DataRows(g: Grid, h: nat): (rows: seq<Row>)
    requires g.Valid() && g.width == 5 && h < |g.rows|
    ensures |rows| == |g.rows| - h - 1
  {
    seq(|g.rows| - h - 1, i requires 0 <= i < |g.rows| - h - 1 => RowOf(g.rows[h + 1 + i]))
  }

  /** A normalised cost line. */
  datatype Record = Record(os: string, familia: string, previsto: real, realizado: real, saldo: real)

  /** A row is kept when its OS cell is present and its text, upper-cased
      but not stripped, is not a header label. */
  predicate Keeps(row: Row, conv: Conversions) {
    !row.os.Empty? && !IsHeaderLabel(CellString(row.os, conv))
  }

  function ToRecord(row: Row, conv: Conversions): Record {
    Record(
      Strip(CellString(row.os, conv)),
      Strip(CellString(row.familia, conv)),
      Amount(row.previsto, conv),
      Amount(row.realizado, conv),
      Amount(row.saldo, conv))
  }

  /** Which rows the normaliser keeps. */
  function KeepMask(rows: seq<Row>, conv: Conversions): (mask: seq<bool>)
    ensures |mask| == |rows|
    ensures forall i | 0 <= i < |rows| :: mask[i] == Keeps(rows[i], conv)
  {
    seq(|rows|, i requires 0 <= i < |rows| => Keeps(rows[i], conv))
  }

  /** The normaliser proper: the kept rows, in sheet order, as records. */
  function NormaliseRows(rows: seq<Row>, conv: Conversions): (out: seq<Record>)
    ensures |out| == |Positions(KeepMask(rows, conv))|
    ensures forall k | 0 <= k < |out| :: out[k] == ToRecord(rows[Positions(KeepMask(rows, conv))[k]], conv)
  {
    var kept := Select(rows, KeepMask(rows, conv));
    seq(|kept|, k requires 0 <= k < |kept| => ToRecord(kept[k], conv))
  }

  /** Every record comes out trimmed: stripping it again changes nothing. */
  lemma NormalisedTrimmed(rows: seq<Row>, conv: Conversions)
    ensures forall r | r in NormaliseRows(rows, conv) :: Strip(r.os) == r.os && Strip(r.familia) == r.familia
  {
    var out := NormaliseRows(rows, conv);
    forall r | r in out
      ensures Strip(r.os) == r.os && Strip(r.familia) == r.familia
    {
      var k :| 0 <= k < |out| && out[k] == r;
      var row := rows[Positions(KeepMask(rows, conv))[k]];
      StripIdempotent(CellString(row.os, conv));
      StripIdempotent(CellString(row.familia, conv));
    }
  }

  /** Why a sheet cannot be read. */
  datatype SheetError =
    | HeaderNotFound                // no header label in the first ten rows
    | ColumnCountMismatch(width: nat) // the sheet does not have exactly five columns

  /** Reads a sheet into records, or says why it cannot. */
  function ProcessSheet(g: Grid, conv: Conversions): (r: Result<seq<Record>, SheetError>)
    requires g.Valid()
    ensures r == Failure(HeaderNotFound) <==> LocateHeader(g, conv).None?
    ensures r.Success? <==> LocateHeader(g, conv).Some? && g.width == 5
  {
    match LocateHeader(g, conv)
    case None => Failure(HeaderNotFound)
    case Some(h) =>
      if g.width != 5 then Failure(ColumnCountMismatch(g.width))
      else
        Success(NormaliseRows(DataRows(g, h), conv))
  }

  /** Row `i` of the grid is a data row the normaliser keeps. */
  predicate KeptAt(g: Grid, conv: Conversions, i: nat)
    requires g.Valid() && g.width == 5 && i < |g.rows|
  {
    Keeps(RowOf(g.rows[i]), conv)
  }

  /** Record `rec` is what the normaliser makes of the grid row `j` places
      below the header row `h`, and that row is a kept one. */
  predicate Origin(g: Grid, conv: Conversions, h: nat, rec: Record, j: nat)
    requires g.Valid() && g.width == 5
  {
    h + 1 + j < |g.rows| && KeptAt(g, conv, h + 1 + j) && rec == ToRecord(RowOf(g.rows[h + 1 + j]), conv)
  }

  /** `src` lists, in increasing order, where the records came from, counted
      in rows below the header row `h`: exactly the kept rows below it. */
  predicate Provenance(g: Grid, conv: Conversions, h: nat, out: seq<Record>, src: seq<nat>)
    requires g.Valid() && g.width == 5
  {
    && |src| == |out|
    && (forall k | 0 <= k < |src| :: Origin(g, conv, h, out[k], src[k]))
    && (forall k, l | 0 <= k < l < |src| :: src[k] < src[l])
    && (forall i | h < i < |g.rows| && KeptAt(g, conv, i) :: i - h - 1 in src)
  }

  /** The records of a read sheet are its kept rows strictly below the header
      row, in sheet order; rows above the header and rows dropped by the
      normaliser (no OS, or a repeated header) contribute nothing. */
  lemma RecordsFollowHeader(g: Grid, conv: Conversions)
    requires g.Valid() && ProcessSheet(g, conv).Success?
    ensures g.width == 5
    ensures exists src :: Provenance(g, conv, LocateHeader(g, conv).value, ProcessSheet(g, conv).value, src)
  {
    var h := LocateHeader(g, conv).value;
    assert ProcessSheet(g, conv).value == NormaliseRows(DataRows(g, h), conv);
    BelowHeaderProvenance(g, conv, h);
    assert Provenance(g, conv, h, ProcessSheet(g, conv).value, Positions(KeepMask(DataRows(g, h), conv)));
  }

  /** The normalised rows below any row `h` are the kept grid rows after `h`. */
  lemma BelowHeaderProvenance(g: Grid, conv: Conversions, h: nat)
    requires g.Valid() && g.width == 5 && h < |g.rows|
    ensures Provenance(g, conv, h, NormaliseRows(DataRows(g, h), conv), Positions(KeepMask(DataRows(g, h), conv)))
  {
    var idx := Positions(KeepMask(DataRows(g, h), conv));
    var out := NormaliseRows(DataRows(g, h), conv);
    forall k | 0 <= k < |idx|
      ensures Origin(g, conv, h, out[k], idx[k])
    {
      SourceRow(g, conv, h, k);
    }
    forall i | h < i < |g.rows| && KeptAt(g, conv, i)
      ensures i - h - 1 in idx
    {
      KeptRowSelected(g, conv, h, i);
    }
  }

  /** The `k`-th record comes from a kept grid row below row `h`. */
  lemma SourceRow(g: Grid, conv: Conversions, h: nat, k: nat)
    requires g.Valid() && g.width == 5 && h < |g.rows|
    requires k < |Positions(KeepMask(DataRows(g, h), conv))|
    ensures Origin(g, conv, h, NormaliseRows(DataRows(g, h), conv)[k], Positions(KeepMask(DataRows(g, h), conv))[k])
  {
    var rows := DataRows(g, h);
    var j := Positions(KeepMask(rows, conv))[k];
    assert rows[j] == RowOf(g.rows[h + 1 + j]);
  }

  /** A kept grid row below row `h` is among the selected positions. */
  lemma KeptRowSelected(g: Grid, conv: Conversions, h: nat, i: nat)
    requires g.Valid() && g.width == 5 && h < i < |g.rows| && KeptAt(g, conv, i)
    ensures i - h - 1 in Positions(KeepMask(DataRows(g, h), conv))
  {
    var rows := DataRows(g, h);
    assert rows[i - h - 1] == RowOf(g.rows[i]);
    assert KeepMask(rows, conv)[i - h - 1];
  }

  lemma UpperPaddedOs()
    ensures Upper(" OS") == " OS" && Upper("OS") == "OS"
  {
    assert Upper("S") == "S";
    assert Upper("OS") == "OS";
  }

  lemma StripPaddedOs()
    ensures Strip(" OS") == "OS"
  {
    var s := " OS";
    assert SpaceBetween(s, 0, 1) && SpaceBetween(s, 3, 3);
    assert s[1..3] == "OS";
    StripUnique(s, 1, 3);
  }

  /** The repeated-header guard compares the OS text without stripping it, so
      a padded header row such as " OS" is kept, and its record's OS, once
      stripped, is a header label; the header search itself would have
      recognised that row. */
  lemma PaddedHeaderKept(conv: Conversions)
    ensures var row := Row(Text(" OS"), Text("FAMILIA"), Text("PREVISTO"), Text("REALIZADO"), Text("SALDO"));
            Keeps(row, conv) && IsHeaderLabel(ToRecord(row, conv).os)
  {
    UpperPaddedOs();
    StripPaddedOs();
  }
}

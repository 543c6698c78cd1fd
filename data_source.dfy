/**
 * `DataSource.format_data` and `DataSource.validate_symbol`: the column
 * validator every data source runs on a raw OHLCV frame before the
 * strategies see it. The raw frame is a header of column names and rows of
 * cells, each row under an index label; the formatted frame is the bar
 * series the strategies read.
 */
module DataSource {
  import opened Wrappers
  import opened Market

  /** A raw cell: NaN or None, a number, or text (a numeric column may arrive as strings). */
  datatype Cell = Missing | Num(x: real) | Text(s: string)

  /** A row of the frame under its index label. */
  datatype Row = Row(indexLabel: string, cells: seq<Cell>)

  /** A frame: its column names, in order, and its rows. */
  datatype Frame = Frame(columns: seq<string>, rows: seq<Row>)

  /** Every row has one cell per column, as in any pandas frame. */
  predicate Rectangular(f: Frame)
  {
    forall k :: 0 <= k < |f.rows| ==> |f.rows[k].cells| == |f.columns|
  }

  /** The columns the strategies need, in the order the result lists them. */
  const Required: seq<string> := ["open", "high", "low", "close", "volume"]

  /** The capitalised and upper-case spellings `format_data` renames to lower case. */
  const ColumnMapping: map<string, string> := map[
    "Open" := "open", "High" := "high", "Low" := "low", "Close" := "close", "Volume" := "volume",
    "OPEN" := "open", "HIGH" := "high", "LOW" := "low", "CLOSE" := "close", "VOLUME" := "volume"]

  /** Why `format_data` raises. */
  datatype FormatError =
    | MissingColumn(name: string)   // `ValueError("Missing required column: ...")`
    | DuplicateColumn(name: string) // `pd.to_numeric` given a two-column selection raises `TypeError`

  // ---------------------------------------------------------------------------
  // Renaming
  // ---------------------------------------------------------------------------

  /** One column name through `rename(columns=column_mapping)`. */
  function RenameColumn(c: string): string
  {
    if c in ColumnMapping then ColumnMapping[c] else c
  }

  /** `data.rename(columns=column_mapping)`: the rows are untouched. */
  function Rename(f: Frame): (g: Frame)
    ensures g.rows == f.rows && |g.columns| == |f.columns|
  {
    Frame(seq(|f.columns|, i requires 0 <= i < |f.columns| => RenameColumn(f.columns[i])), f.rows)
  }

  /**
   * Renaming only folds the capitalised and upper-case spellings of the five
   * required names onto the lower-case name: a renamed column is a required
   * one exactly when it was already, or was one of those spellings; every
   * other column keeps its name.
   */
  lemma RenameSound(f: Frame)
    ensures forall i :: 0 <= i < |f.columns| ==>
              (Rename(f).columns[i] in Required <==> f.columns[i] in Required || f.columns[i] in ColumnMapping)
    ensures forall i :: 0 <= i < |f.columns| && f.columns[i] !in ColumnMapping ==> Rename(f).columns[i] == f.columns[i]
    ensures forall c :: c in ColumnMapping ==> ColumnMapping[c] in Required && ColumnMapping[c] != c
    ensures forall c :: c in Required ==> c !in ColumnMapping
  {
  }

  // ---------------------------------------------------------------------------
  // Column checks
  // ---------------------------------------------------------------------------

  /** How many columns carry the name. */
  function Count(cols: seq<string>, name: string): (n: nat)
    ensures n == 0 <==> name !in cols
    ensures n <= |cols|
  {
    if cols == [] then 0
    else Count(cols[..|cols| - 1], name) + (if cols[|cols| - 1] == name then 1 else 0)
  }

  /** The first required name, in the order given, that is not a column. */
  function FirstMissing(cols: seq<string>, req: seq<string>): (m: Option<string>)
    ensures m.None? <==> forall c :: c in req ==> c in cols
    ensures m.Some? ==> m.value in req && m.value !in cols
  {
    if req == [] then None
    else if req[0] !in cols then Some(req[0])
    else FirstMissing(cols, req[1..])
  }

  /** The first required name, in the order given, that names more than one column. */
  function FirstDuplicate(cols: seq<string>, req: seq<string>): (m: Option<string>)
    ensures m.None? <==> forall c :: c in req ==> Count(cols, c) <= 1
    ensures m.Some? ==> m.value in req && Count(cols, m.value) > 1
  {
    if req == [] then None
    else if Count(cols, req[0]) > 1 then assert req[0] in req; Some(req[0])
    else FirstDuplicate(cols, req[1..])
  }

  /** The error is the first required column, in required order, that is absent. */
  lemma {:induction false} FirstMissingFirst(cols: seq<string>, req: seq<string>, c: string)
    ensures FirstMissing(cols, req) == Some(c) <==>
              exists k :: 0 <= k < |req| && req[k] == c && c !in cols && forall j :: 0 <= j < k ==> req[j] in cols
  {
    if req != [] {
      FirstMissingFirst(cols, req[1..], c);
      if FirstMissing(cols, req) == Some(c) && req[0] in cols {
        var k :| 0 <= k < |req[1..]| && req[1..][k] == c && c !in cols && forall j :: 0 <= j < k ==> req[1..][j] in cols;
        assert req[k + 1] == c && forall j :: 0 <= j < k + 1 ==> req[j] in cols;
      }
      if exists k :: 0 <= k < |req| && req[k] == c && c !in cols && forall j :: 0 <= j < k ==> req[j] in cols {
        var k :| 0 <= k < |req| && req[k] == c && c !in cols && forall j :: 0 <= j < k ==> req[j] in cols;
        if k > 0 {
          assert req[1..][k - 1] == c && forall j :: 0 <= j < k - 1 ==> req[1..][j] in cols;
        }
      }
    }
  }

  /** A required name that is present passes the search on to the next one. */
  lemma FirstMissingStep(cols: seq<string>, req: seq<string>, k: nat)
    requires k < |req| && req[k] in cols
    ensures FirstMissing(cols, req[k..]) == FirstMissing(cols, req[k + 1..])
  {
    assert req[k..][1..] == req[k + 1..];
  }

  /** A required name that occurs at most once passes the search on to the next one. */
  lemma FirstDuplicateStep(cols: seq<string>, req: seq<string>, k: nat)
    requires k < |req| && Count(cols, req[k]) <= 1
    ensures FirstDuplicate(cols, req[k..]) == FirstDuplicate(cols, req[k + 1..])
  {
    assert req[k..][1..] == req[k + 1..];
  }

  /** The position of a column that is present. */
  function IndexOf(cols: seq<string>, name: string): (i: nat)
    requires name in cols
    ensures i < |cols| && cols[i] == name
    ensures forall j :: 0 <= j < i ==> cols[j] != name
  {
    if cols[0] == name then 0 else 1 + IndexOf(cols[1..], name)
  }

  /** A name that occurs once sits only at its index. */
  lemma {:induction false} CountOne(cols: seq<string>, name: string, j: nat)
    requires Count(cols, name) == 1 && j < |cols| && cols[j] == name
    ensures j == IndexOf(cols, name)
  {
    var i := IndexOf(cols, name);
    if i != j {
      var lo, hi := if i < j then i else j, if i < j then j else i;
      CountTwo(cols, name, lo, hi);
    }
  }

  /** Two positions with the name make a count of at least two. */
  lemma {:induction false} CountTwo(cols: seq<string>, name: string, lo: nat, hi: nat)
    requires lo < hi < |cols| && cols[lo] == name && cols[hi] == name
    ensures Count(cols, name) >= 2
    decreases |cols|
  {
    var init := cols[..|cols| - 1];
    if hi < |cols| - 1 {
      assert init[lo] == name && init[hi] == name;
      CountTwo(init, name, lo, hi);
    } else {
      assert init[lo] == name;
    }
  }

  // ---------------------------------------------------------------------------
  // Coercion, dropna, projection
  // ---------------------------------------------------------------------------

  /**
   * `pd.to_numeric(..., errors='coerce')` on one cell: numbers and NaN stay,
   * text becomes the number it spells or NaN. `parse` is the host's number
   * parser.
   */
  function CoerceCell(c: Cell, parse: string -> Option<real>): (d: Cell)
    ensures !d.Text?
    ensures c.Num? ==> d == c
    ensures c.Missing? ==> d.Missing?
  {
    match c
    case Text(s) => (match parse(s) case Some(x) => Num(x) case None => Missing)
    case _ => c
  }

  /** `data[col] = pd.to_numeric(data[col], errors='coerce')` for the column at index `i`. */
  function CoerceColumn(f: Frame, i: nat, parse: string -> Option<real>): (g: Frame)
    ensures g.columns == f.columns && |g.rows| == |f.rows|
  {
    Frame(f.columns, seq(|f.rows|, k requires 0 <= k < |f.rows| =>
      var r := f.rows[k];
      if i < |r.cells| then Row(r.indexLabel, r.cells[i := CoerceCell(r.cells[i], parse)]) else r))
  }

  /** The frame once the first `n` required columns have been coerced. */
  function Coerced(f: Frame, n: nat, parse: string -> Option<real>): (g: Frame)
    requires n <= |Required|
    ensures g.columns == f.columns && |g.rows| == |f.rows|
  {
    Frame(f.columns, seq(|f.rows|, k requires 0 <= k < |f.rows| =>
      var r := f.rows[k];
      Row(r.indexLabel, seq(|r.cells|, j requires 0 <= j < |r.cells| =>
        if j < |f.columns| && f.columns[j] in Required[..n] then CoerceCell(r.cells[j], parse) else r.cells[j]))))
  }

  /** Coercing a cell twice is coercing it once. */
  lemma CoerceIdempotent(c: Cell, parse: string -> Option<real>)
    ensures CoerceCell(CoerceCell(c, parse), parse) == CoerceCell(c, parse)
  {
  }

  /** Coercing the next required column, which occurs once, extends the coerced prefix by that column. */
  lemma CoerceNext(f: Frame, n: nat, parse: string -> Option<real>)
    requires Rectangular(f) && n < |Required| && Count(f.columns, Required[n]) == 1
    ensures CoerceColumn(Coerced(f, n, parse), IndexOf(f.columns, Required[n]), parse) == Coerced(f, n + 1, parse)
  {
    var col := Required[n];
    var i := IndexOf(f.columns, col);
    var a, b := CoerceColumn(Coerced(f, n, parse), i, parse), Coerced(f, n + 1, parse);
    assert Required[..n + 1] == Required[..n] + [col];
    forall k | 0 <= k < |f.rows|
      ensures a.rows[k] == b.rows[k]
    {
      var r := f.rows[k];
      forall j | 0 <= j < |r.cells|
        ensures a.rows[k].cells[j] == b.rows[k].cells[j]
      {
        if f.columns[j] == col {
          CountOne(f.columns, col, j);
          CoerceIdempotent(r.cells[j], parse);
        }
      }
    }
  }

  /** No cell is NaN. */
  predicate Complete(r: Row)
  {
    forall j :: 0 <= j < |r.cells| ==> !r.cells[j].Missing?
  }

  /** `data.dropna()`: the rows with no NaN in any column, in their original order. */
  function DropNa(rows: seq<Row>): (kept: seq<Row>)
    ensures |kept| <= |rows|
  {
    if rows == [] then []
    else DropNa(rows[..|rows| - 1]) + (if Complete(rows[|rows| - 1]) then [rows[|rows| - 1]] else [])
  }

  /** A row survives exactly when it is complete. */
  lemma {:induction false} DropNaMembers(rows: seq<Row>)
    ensures forall r :: r in DropNa(rows) <==> r in rows && Complete(r)
  {
    if rows != [] {
      DropNaMembers(rows[..|rows| - 1]);
      assert rows == rows[..|rows| - 1] + [rows[|rows| - 1]];
    }
  }

  /** Dropping distributes over concatenation, so the surviving rows keep their relative order. */
  lemma {:induction false} DropNaOrder(a: seq<Row>, b: seq<Row>)
    ensures DropNa(a + b) == DropNa(a) + DropNa(b)
    decreases |b|
  {
    if b != [] {
      var b' := b[..|b| - 1];
      assert (a + b)[..|a + b| - 1] == a + b';
      DropNaOrder(a, b');
    } else {
      assert a + b == a;
    }
  }

  /** Every required column is present exactly once and, in every row, holds a number. */
  predicate Numeric(cols: seq<string>, rows: seq<Row>)
  {
    (forall c :: c in Required ==> Count(cols, c) == 1)
    && forall k :: 0 <= k < |rows| ==>
         |rows[k].cells| == |cols|
         && forall c :: c in Required ==> rows[k].cells[IndexOf(cols, c)].Num?
  }

  /** The number in the row's cell for a required column. */
  function Field(cols: seq<string>, r: Row, name: string): real
    requires Count(cols, name) == 1 && |r.cells| == |cols| && r.cells[IndexOf(cols, name)].Num?
  {
    r.cells[IndexOf(cols, name)].x
  }

  /** `data[required_columns]`: one bar per row, the index label as its date. */
  function Project(cols: seq<string>, rows: seq<Row>): (bars: seq<Bar>)
    requires Numeric(cols, rows)
    ensures |bars| == |rows|
  {
    seq(|rows|, k requires 0 <= k < |rows| =>
      Bar(rows[k].indexLabel, Field(cols, rows[k], Required[0]), Field(cols, rows[k], Required[1]), Field(cols, rows[k], Required[2]),
          Field(cols, rows[k], Required[3]), Field(cols, rows[k], Required[4])))
  }

  /** Coercing no column leaves a rectangular frame as it is. */
  lemma CoercedNothing(f: Frame, parse: string -> Option<real>)
    requires Rectangular(f)
    ensures Coerced(f, 0, parse) == f
  {
    var g := Coerced(f, 0, parse);
    forall k | 0 <= k < |f.rows|
      ensures g.rows[k] == f.rows[k]
    {
      assert g.rows[k].cells == f.rows[k].cells;
    }
  }

  /** Each bar is its row: the index label, then the numbers in the five required columns. */
  lemma ProjectFields(cols: seq<string>, rows: seq<Row>)
    requires Numeric(cols, rows)
    ensures var bars := Project(cols, rows);
            forall k :: 0 <= k < |rows| ==>
              bars[k].date == rows[k].indexLabel
              && rows[k].cells[IndexOf(cols, Required[0])] == Num(bars[k].open)
              && rows[k].cells[IndexOf(cols, Required[1])] == Num(bars[k].high)
              && rows[k].cells[IndexOf(cols, Required[2])] == Num(bars[k].low)
              && rows[k].cells[IndexOf(cols, Required[3])] == Num(bars[k].close)
              && rows[k].cells[IndexOf(cols, Required[4])] == Num(bars[k].volume)
  {
    forall k | 0 <= k < |rows|
      ensures rows[k].cells[IndexOf(cols, Required[0])].Num? && rows[k].cells[IndexOf(cols, Required[1])].Num?
      ensures rows[k].cells[IndexOf(cols, Required[2])].Num? && rows[k].cells[IndexOf(cols, Required[3])].Num?
      ensures rows[k].cells[IndexOf(cols, Required[4])].Num?
    {
      assert Required[0] in Required && Required[1] in Required && Required[2] in Required;
      assert Required[3] in Required && Required[4] in Required;
    }
  }

  /** After coercing every required column and dropping NaN rows, the required cells are numbers. */
  lemma CoercedNumeric(f: Frame, parse: string -> Option<real>)
    requires Rectangular(f) && forall c :: c in Required ==> Count(f.columns, c) == 1
    ensures Numeric(f.columns, DropNa(Coerced(f, |Required|, parse).rows))
  {
    var rows := Coerced(f, |Required|, parse).rows;
    DropNaMembers(rows);
    forall k | 0 <= k < |DropNa(rows)|
      ensures |DropNa(rows)[k].cells| == |f.columns|
      ensures forall c :: c in Required ==> DropNa(rows)[k].cells[IndexOf(f.columns, c)].Num?
    {
      var r := DropNa(rows)[k];
      assert r in rows;
      var m :| 0 <= m < |rows| && rows[m] == r;
      forall c | c in Required
        ensures r.cells[IndexOf(f.columns, c)].Num?
      {
        var i := IndexOf(f.columns, c);
        assert !r.cells[i].Missing?;
      }
    }
  }

  // ---------------------------------------------------------------------------
  // format_data
  // ---------------------------------------------------------------------------

  /**
   * `format_data` as a function of the raw frame: rename, fail on the first
   * required column that is missing, then on the first that occurs twice,
   * otherwise coerce, drop NaN rows and project.
   */
  function FormatOf(raw: Frame, parse: string -> Option<real>): (r: Result<seq<Bar>, FormatError>)
    requires Rectangular(raw)
    ensures r.Success? ==> |r.value| <= |raw.rows|
  {
    var g := Rename(raw);
    match FirstMissing(g.columns, Required)
    case Some(c) => Failure(MissingColumn(c))
    case None =>
      match FirstDuplicate(g.columns, Required)
      case Some(c) => Failure(DuplicateColumn(c))
      case None =>
        var kept := DropNa(Coerced(g, |Required|, parse).rows);
        CoercedNumeric(g, parse);
        Success(Project(g.columns, kept))
  }

  /**
   * `format_data`: rename, check the required columns one by one, coerce
   * them one by one, drop NaN rows, project. The re-indexing by a
   * `datetime` or `timestamp` column is not part of this model.
   */
  method FormatData(raw: Frame, parse: string -> Option<real>) returns (r: Result<seq<Bar>, FormatError>)
    requires Rectangular(raw)
    ensures r == FormatOf(raw, parse)
  {
    var data := Rename(raw);
    ghost var renamed := data;
    var k := 0;
    while k < |Required|
      invariant k <= |Required|
      invariant FirstMissing(data.columns, Required) == FirstMissing(data.columns, Required[k..])
    {
      if Required[k] !in data.columns {
        return Failure(MissingColumn(Required[k]));
      }
      FirstMissingStep(data.columns, Required, k);
      k := k + 1;
    }
    k := 0;
    CoercedNothing(renamed, parse);
    while k < |Required|
      invariant k <= |Required|
      invariant forall c :: c in Required ==> c in renamed.columns
      invariant data == Coerced(renamed, k, parse)
      invariant FirstDuplicate(renamed.columns, Required) == FirstDuplicate(renamed.columns, Required[k..])
    {
      var col := Required[k];
      if Count(data.columns, col) > 1 {
        return Failure(DuplicateColumn(col));
      }
      CoerceNext(renamed, k, parse);
      FirstDuplicateStep(renamed.columns, Required, k);
      data := CoerceColumn(data, IndexOf(data.columns, col), parse);
      k := k + 1;
    }
    data := Frame(data.columns, DropNa(data.rows));
    CoercedNumeric(renamed, parse);
    r := Success(Project(data.columns, data.rows));
  }

  /**
   * The outcome: `MissingColumn(c)` exactly when `c` is the first required
   * column, in required order, absent after renaming; success exactly when
   * every required column occurs once after renaming.
   */
  lemma FormatErrors(raw: Frame, parse: string -> Option<real>, c: string)
    requires Rectangular(raw)
    ensures var cols := Rename(raw).columns;
            (FormatOf(raw, parse) == Failure(MissingColumn(c)) <==>
               exists k :: 0 <= k < |Required| && Required[k] == c && c !in cols
                           && forall j :: 0 <= j < k ==> Required[j] in cols)
            && (FormatOf(raw, parse).Success? <==> forall n :: n in Required ==> Count(cols, n) == 1)
  {
    FirstMissingFirst(Rename(raw).columns, Required, c);
  }

  /**
   * On success the bars are the rows that, once the required columns are
   * coerced, have no NaN in any column, in their original order; each bar
   * carries its row's index label and the row's open, high, low, close and
   * volume numbers.
   */
  lemma FormatRows(raw: Frame, parse: string -> Option<real>)
    requires Rectangular(raw)
    ensures var g := Rename(raw);
            var r := FormatOf(raw, parse);
            r.Success? ==>
              var kept := DropNa(Coerced(g, |Required|, parse).rows);
              Numeric(g.columns, kept)
              && |r.value| == |kept|
              && (forall row :: row in kept <==> row in Coerced(g, |Required|, parse).rows && Complete(row))
              && forall k :: 0 <= k < |kept| ==>
                   r.value[k].date == kept[k].indexLabel
                   && kept[k].cells[IndexOf(g.columns, Required[0])] == Num(r.value[k].open)
                   && kept[k].cells[IndexOf(g.columns, Required[1])] == Num(r.value[k].high)
                   && kept[k].cells[IndexOf(g.columns, Required[2])] == Num(r.value[k].low)
                   && kept[k].cells[IndexOf(g.columns, Required[3])] == Num(r.value[k].close)
                   && kept[k].cells[IndexOf(g.columns, Required[4])] == Num(r.value[k].volume)
  {
    var g := Rename(raw);
    DropNaMembers(Coerced(g, |Required|, parse).rows);
    if FormatOf(raw, parse).Success? {
      CoercedNumeric(g, parse);
      ProjectFields(g.columns, DropNa(Coerced(g, |Required|, parse).rows));
    }
  }

  // ---------------------------------------------------------------------------
  // validate_symbol
  // ---------------------------------------------------------------------------

  /** `validate_symbol`: membership in the list `get_symbols()` returns, given as `symbols`. */
  function ValidateSymbol(symbols: seq<string>, symbol: string): (ok: bool)
    ensures ok <==> exists i :: 0 <= i < |symbols| && symbols[i] == symbol
  {
    symbol in symbols
  }
}

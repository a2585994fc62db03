/**
 `process_dataframe`: tags every row with the sheet it came from and gives it
 an order id. On the detail sheet the existing order-number column is
 rewritten as the decimal string of its integer value; on the done sheet a
 new leading order-number column is extracted from the record summary. Rows
 whose order number is then missing are dropped.
 */
module Normalize {
  import opened Wrappers
  import opened Digits
  import opened Sheets
  import opened OrderIds

  /** Sheet names, which are also the source tags written into each row. */
  const DetailSheet: string := "明细"
  const DoneSheet: string := "已做单"

  /** Column names: order number, record summary, source tag. */
  const OrderColumn: string := "订单编号"
  const SummaryColumn: string := "记录摘要"
  const SourceColumn: string := "来源"

  /** The column list after `df[c] = ...`: unchanged when `c` is already a column, else `c` appended. */
  function WithColumn(columns: seq<string>, c: string): (r: seq<string>)
    ensures c in r
    ensures |columns| <= |r| && r[..|columns|] == columns
    ensures forall k :: 0 <= k < |r| ==> r[k] in columns || r[k] == c
    ensures c in columns ==> r == columns
    ensures c !in columns ==> |r| == |columns| + 1
  {
    if c in columns then columns else columns + [c]
  }

  /** `df['来源'] = source` on one row. */
  function TagRow(r: Row, source: string): (r': Row)
    ensures Get(r', SourceColumn) == Text(source)
    ensures forall c :: c != SourceColumn ==> Get(r', c) == Get(r, c)
    ensures r'.Keys == r.Keys + {SourceColumn}
  {
    r[SourceColumn := Text(source)]
  }

  /** The number `int(float(x))` reads from a present cell, or `None` where `float` would raise. */
  function NumericValue(c: Cell): (r: Option<int>)
    ensures r.Some? <==> c.Number? || (c.Text? && Numeral(c.s))
    ensures c.Number? ==> r == Some(c.n)
    ensures c.Text? ==> r == ParseNumber(c.s)
  {
    match c
    case Blank => None
    case Number(n) => Some(n)
    case Text(s) => ParseNumber(s)
  }

  /**
   The detail-sheet lambda: `str(int(float(x)))` when `pd.notna(x)`, else `None`.
   Text that is not a numeral makes `float` raise.
   */
  function DetailId(c: Cell): (r: Result<Cell, Error>)
    ensures c.Blank? ==> r == Success(Blank)
    ensures r.Failure? <==> !c.Blank? && NumericValue(c).None?
    ensures r.Success? && !c.Blank? ==> r.value.Text? && ParseNumber(r.value.s) == NumericValue(c)
    ensures r.Success? && !c.Blank? ==>
      r.value.Text? && |r.value.s| > 0 &&
      (Canonical(r.value.s) || (r.value.s[0] == '-' && Canonical(r.value.s[1..])))
    ensures r.Success? && !c.Blank? ==> (Canonical(r.value.s) <==> NumericValue(c).value >= 0)
  {
    match c
    case Blank => Success(Blank)
    case Number(n) =>
      DecimalRoundTrip(n);
      Success(Text(IntToDecimal(n)))
    case Text(s) =>
      match ParseNumber(s)
      case Some(n) =>
        DecimalRoundTrip(n);
        Success(Text(IntToDecimal(n)))
      case None => Failure(NotANumber(s))
  }

  /** How a detail row and its normalised form relate: tagged, id rewritten, every other cell kept. */
  ghost predicate DetailConverted(r: Row, r': Row) {
    && Get(r', SourceColumn) == Text(DetailSheet)
    && (forall c :: c != SourceColumn && c != OrderColumn ==> Get(r', c) == Get(r, c))
    && (Get(r, OrderColumn).Blank? ==> Get(r', OrderColumn) == Blank)
    && (NumericValue(Get(r, OrderColumn)).Some? ==>
          Get(r', OrderColumn) == Text(IntToDecimal(NumericValue(Get(r, OrderColumn)).value)))
    && r'.Keys == r.Keys + {SourceColumn, OrderColumn}
  }

  function DetailRow(r: Row): (res: Result<Row, Error>)
    ensures res.Failure? <==> DetailId(Get(r, OrderColumn)).Failure?
    ensures res.Success? ==> DetailConverted(r, res.value)
  {
    var tagged := TagRow(r, DetailSheet);
    match DetailId(Get(tagged, OrderColumn))
    case Success(id) => Success(tagged[OrderColumn := id])
    case Failure(e) => Failure(e)
  }

  /** `df[order_column].apply(...)` on the detail sheet: raises if any cell does. */
  function DetailRows(rows: seq<Row>): (res: Result<seq<Row>, Error>)
    ensures res.Failure? <==> exists k :: 0 <= k < |rows| && DetailId(Get(rows[k], OrderColumn)).Failure?
    ensures res.Success? ==> |res.value| == |rows|
    ensures res.Success? ==> forall k :: 0 <= k < |rows| ==> DetailConverted(rows[k], res.value[k])
    decreases |rows|
  {
    if |rows| == 0 then Success([])
    else
      match DetailRow(rows[0])
      case Failure(e) => Failure(e)
      case Success(r) =>
        match DetailRows(rows[1..])
        case Failure(e) =>
          var k :| 0 <= k < |rows[1..]| && DetailId(Get(rows[1..][k], OrderColumn)).Failure?;
          assert DetailId(Get(rows[k + 1], OrderColumn)).Failure?;
          Failure(e)
        case Success(rest) => Success([r] + rest)
  }

  /** `str()` of what `extract_order_id` returned: a missing id becomes the text "None". */
  function Render(id: Option<string>): string {
    match id
    case None => "None"
    case Some(s) => s
  }

  /** How a done row and its normalised form relate: tagged, id extracted from the summary, every other cell kept. */
  ghost predicate DoneConverted(r: Row, r': Row, source: string) {
    var id := ExtractOrderId(Get(r, SummaryColumn));
    && Get(r', SourceColumn) == Text(source)
    && (forall c :: c != SourceColumn && c != OrderColumn ==> Get(r', c) == Get(r, c))
    && (id.Some? ==> Get(r', OrderColumn) == Text(id.value))
    && (id.None? ==> Get(r', OrderColumn) == Text("None"))
    && r'.Keys == r.Keys + {SourceColumn, OrderColumn}
  }

  function DoneRow(r: Row, source: string): (r': Row)
    ensures DoneConverted(r, r', source)
  {
    var tagged := TagRow(r, source);
    tagged[OrderColumn := Text(Render(ExtractOrderId(Get(tagged, SummaryColumn))))]
  }

  /** The done-sheet branch: tag, insert the extracted id, then `astype(str)`. */
  function DoneRows(rows: seq<Row>, source: string): (res: seq<Row>)
    ensures |res| == |rows|
    ensures forall k :: 0 <= k < |rows| ==> DoneConverted(rows[k], res[k], source)
  {
    seq(|rows|, k requires 0 <= k < |rows| => DoneRow(rows[k], source))
  }

  predicate HasOrderId(r: Row) {
    !Get(r, OrderColumn).Blank?
  }

  /** `process_dataframe(df, source)`. */
  function ProcessDataframe(t: Table, source: string): (r: Result<Table, Error>)
    ensures r.Failure? <==>
      if source == DetailSheet then
        OrderColumn !in t.columns
        || exists k :: 0 <= k < |t.rows| && DetailId(Get(t.rows[k], OrderColumn)).Failure?
      else
        SummaryColumn !in t.columns || OrderColumn in t.columns
    ensures r.Success? ==> |r.value.rows| <= |t.rows|
    ensures r.Success? && source != DetailSheet ==> |r.value.rows| == |t.rows|
    ensures r.Success? ==> forall k :: 0 <= k < |r.value.rows| ==>
      Get(r.value.rows[k], SourceColumn) == Text(source) && Get(r.value.rows[k], OrderColumn).Text?
  {
    var columns := WithColumn(t.columns, SourceColumn);
    if source == DetailSheet then
      if OrderColumn !in t.columns then Failure(MissingColumn(OrderColumn))
      else
        match DetailRows(t.rows)
        case Failure(e) => Failure(e)
        case Success(rows) => Success(Table(columns, Filter(rows, HasOrderId)))
    else if SummaryColumn !in t.columns then Failure(MissingColumn(SummaryColumn))
    else if OrderColumn in columns then Failure(ColumnExists(OrderColumn))
    else
      var rows := DoneRows(t.rows, source);
      FilterKeepsAll(rows, HasOrderId);
      Success(Table([OrderColumn] + columns, Filter(rows, HasOrderId)))
  }

  /**
   On the detail sheet, normalising then dropping equals dropping the rows with
   a missing order number, then normalising each remaining row in order: every
   kept row is tagged, its id is `str(int(value))`, which reads back as the same
   integer, and its other cells are unchanged.
   */
  lemma DetailNormalisation(t: Table, u: Table)
    requires ProcessDataframe(t, DetailSheet) == Success(u)
    ensures u.columns == WithColumn(t.columns, SourceColumn)
    ensures |u.rows| == |Filter(t.rows, HasOrderId)|
    ensures forall k :: 0 <= k < |u.rows| ==>
      var r := Filter(t.rows, HasOrderId)[k];
      && DetailConverted(r, u.rows[k])
      && Get(u.rows[k], OrderColumn).Text?
      && ParseNumber(Get(u.rows[k], OrderColumn).s) == NumericValue(Get(r, OrderColumn))
  {
    var rows := DetailRows(t.rows).value;
    FilterPointwise(t.rows, rows, HasOrderId, HasOrderId, DetailConverted);
    var kept := Filter(t.rows, HasOrderId);
    forall k | 0 <= k < |u.rows|
      ensures Get(u.rows[k], OrderColumn).Text?
      ensures ParseNumber(Get(u.rows[k], OrderColumn).s) == NumericValue(Get(kept[k], OrderColumn))
    {
      assert HasOrderId(kept[k]);
      assert kept[k] in t.rows;
      assert DetailId(Get(kept[k], OrderColumn)).Success?;
      DecimalRoundTrip(NumericValue(Get(kept[k], OrderColumn)).value);
    }
  }

  /**
   On the done sheet no row is dropped: each row keeps its cells, gains the tag,
   and gets as id the extracted digit run, or the text "None" when there is none.
   The id column is inserted in front of all others.
   */
  lemma DoneNormalisation(t: Table, source: string, u: Table)
    requires source != DetailSheet
    requires ProcessDataframe(t, source) == Success(u)
    ensures u.columns == [OrderColumn] + WithColumn(t.columns, SourceColumn)
    ensures |u.rows| == |t.rows|
    ensures forall k :: 0 <= k < |t.rows| ==> DoneConverted(t.rows[k], u.rows[k], source)
  {
    FilterKeepsAll(DoneRows(t.rows, source), HasOrderId);
  }

  /** Normalising an already normalised detail table changes nothing. */
  lemma DetailIdempotent(t: Table, u: Table)
    requires ProcessDataframe(t, DetailSheet) == Success(u)
    ensures ProcessDataframe(u, DetailSheet) == Success(u)
  {
    DetailNormalisation(t, u);
    assert OrderColumn in u.columns by {
      assert OrderColumn in t.columns;
      assert u.columns[..|t.columns|] == t.columns;
    }
    assert WithColumn(u.columns, SourceColumn) == u.columns;
    var kept := Filter(t.rows, HasOrderId);
    forall k | 0 <= k < |u.rows|
      ensures DetailRow(u.rows[k]) == Success(u.rows[k])
      ensures HasOrderId(u.rows[k])
    {
      assert HasOrderId(kept[k]);
      DetailRowFixed(kept[k], u.rows[k]);
    }
    DetailRowsUnchanged(u.rows);
    FilterKeepsAll(u.rows, HasOrderId);
  }

  /** A normalised detail row with an order number is a fixed point of the row normalisation. */
  lemma DetailRowFixed(r: Row, r': Row)
    requires DetailConverted(r, r')
    requires HasOrderId(r) && NumericValue(Get(r, OrderColumn)).Some?
    ensures DetailRow(r') == Success(r')
    ensures HasOrderId(r')
  {
    var n := NumericValue(Get(r, OrderColumn)).value;
    DecimalRoundTrip(n);
    assert r'[SourceColumn] == Text(DetailSheet);
    var tagged := TagRow(r', DetailSheet);
    assert tagged == r';
    assert DetailId(Get(tagged, OrderColumn)) == Success(Text(IntToDecimal(n)));
    assert r'[OrderColumn := Text(IntToDecimal(n))] == r';
  }

  lemma {:induction false} DetailRowsUnchanged(rows: seq<Row>)
    requires forall k :: 0 <= k < |rows| ==> DetailRow(rows[k]) == Success(rows[k])
    ensures DetailRows(rows) == Success(rows)
    decreases |rows|
  {
    if |rows| > 0 {
      DetailRowsUnchanged(rows[1..]);
      assert [rows[0]] + rows[1..] == rows;
    }
  }

  /** Normalising a normalised done table raises: the order-number column already exists. */
  lemma DoneNotRepeatable(t: Table, u: Table)
    requires ProcessDataframe(t, DoneSheet) == Success(u)
    ensures ProcessDataframe(u, DoneSheet) == Failure(ColumnExists(OrderColumn))
  {
    DoneNormalisation(t, DoneSheet, u);
    var columns := WithColumn(t.columns, SourceColumn);
    assert SummaryColumn in columns by {
      assert columns[..|t.columns|] == t.columns;
    }
    assert u.columns[1..] == columns;
  }

  /** Normalisation keeps a table well formed: distinct columns, and no cell outside them. */
  lemma NormalisationKeepsWellFormed(t: Table, source: string, u: Table)
    requires WellFormed(t)
    requires ProcessDataframe(t, source) == Success(u)
    ensures WellFormed(u)
  {
    var columns := WithColumn(t.columns, SourceColumn);
    assert columns[..|t.columns|] == t.columns;
    if source == DetailSheet {
      DetailNormalisation(t, u);
      var kept := Filter(t.rows, HasOrderId);
      forall k | 0 <= k < |u.rows|
        ensures u.rows[k].Keys <= set c | c in u.columns
      {
        assert kept[k] in t.rows;
        RowKeysWithin(kept[k], u.rows[k], t.columns, columns);
      }
    } else {
      DoneNormalisation(t, source, u);
      forall k | 0 <= k < |u.rows|
        ensures u.rows[k].Keys <= set c | c in u.columns
      {
        RowKeysWithin(t.rows[k], u.rows[k], t.columns, u.columns);
      }
    }
  }

  lemma RowKeysWithin(r: Row, r': Row, before: seq<string>, after: seq<string>)
    requires r.Keys <= set c | c in before
    requires r'.Keys == r.Keys + {SourceColumn, OrderColumn}
    requires forall c :: c in before ==> c in after
    requires SourceColumn in after && OrderColumn in after
    ensures r'.Keys <= set c | c in after
  {
  }
}

/**
 Duplicate detection over the two normalised sheets: the ids present on both,
 the duplicate table built group by group, and the two tables of rows whose id
 is on one sheet only.
 */
module Dedup {
  import opened Wrappers
  import opened Sheets
  import opened Normalize

  function IdOf(r: Row): Cell {
    Get(r, OrderColumn)
  }

  /** `set(df['订单编号'])`. */
  function IdSet(t: Table): set<Cell> {
    set r | r in t.rows :: IdOf(r)
  }

  /** `common_order_ids`: the ids that occur on both sheets. */
  function CommonIds(detail: Table, done: Table): set<Cell> {
    IdSet(detail) * IdSet(done)
  }

  /** `order` lists every id of `ids` exactly once: one possible iteration order of the set. */
  predicate Enumerates(order: seq<Cell>, ids: set<Cell>) {
    && (forall i, j :: 0 <= i < j < |order| ==> order[i] != order[j])
    && (forall k :: 0 <= k < |order| ==> order[k] in ids)
    && (forall id :: id in ids ==> id in order)
  }

  function Elements(order: seq<Cell>): set<Cell> {
    set id | id in order
  }

  /** The mask `df['订单编号'] == id`. */
  function WithId(id: Cell): Row -> bool {
    r => IdOf(r) == id
  }

  /** The mask `df['订单编号'].isin(ids)`. */
  function IdIn(ids: set<Cell>): Row -> bool {
    r => IdOf(r) in ids
  }

  /** The mask `~df['订单编号'].isin(ids)`. */
  function IdNotIn(ids: set<Cell>): Row -> bool {
    r => IdOf(r) !in ids
  }

  /** The mask `df['来源'] == tag`. */
  function TagIs(tag: string): Row -> bool {
    r => Get(r, SourceColumn) == Text(tag)
  }

  /** `df[mask]`: the rows the mask selects, columns unchanged. */
  function Select(t: Table, p: Row -> bool): Table {
    Table(t.columns, Filter(t.rows, p))
  }

  /** One group of the duplicate table: the done rows with this id, then the detail rows with it. */
  function Group(detail: Table, done: Table, id: Cell): Table {
    ConcatTables(Select(done, WithId(id)), Select(detail, WithId(id)))
  }

  /** The groups of the ids in `order`, in that order. */
  function Groups(detail: Table, done: Table, order: seq<Cell>): seq<Table> {
    seq(|order|, k requires 0 <= k < |order| => Group(detail, done, order[k]))
  }

  /** `df_duplicate`: the groups of the ids in `order`, concatenated; raises when there are none. */
  function DuplicateTable(detail: Table, done: Table, order: seq<Cell>): Result<Table, Error> {
    ConcatAll(Groups(detail, done, order))
  }

  /** `non_duplicate_detail` and `non_duplicate_done`: the rows whose id is not common. */
  function UniqueTable(t: Table, common: set<Cell>): Table {
    Select(t, IdNotIn(common))
  }

  /** Building the duplicate table raises exactly when the two sheets share no id. */
  lemma DuplicateTableFailsIff(detail: Table, done: Table, order: seq<Cell>)
    requires Enumerates(order, CommonIds(detail, done))
    ensures DuplicateTable(detail, done, order).Failure? <==> CommonIds(detail, done) == {}
    ensures DuplicateTable(detail, done, order).Failure? ==>
      DuplicateTable(detail, done, order).error == NothingToConcatenate
  {
    if |order| > 0 {
      assert order[0] in CommonIds(detail, done);
    }
  }

  /** An id is common exactly when each sheet has at least one row carrying it. */
  lemma CommonIdIff(detail: Table, done: Table, id: Cell)
    ensures id in CommonIds(detail, done) <==>
      |Filter(done.rows, WithId(id))| > 0 && |Filter(detail.rows, WithId(id))| > 0
  {
    if id in CommonIds(detail, done) {
      var a :| a in done.rows && IdOf(a) == id;
      var b :| b in detail.rows && IdOf(b) == id;
      FilterMultiplicity(done.rows, WithId(id), a);
      FilterMultiplicity(detail.rows, WithId(id), b);
    }
    if |Filter(done.rows, WithId(id))| > 0 && |Filter(detail.rows, WithId(id))| > 0 {
      var a := Filter(done.rows, WithId(id))[0];
      var b := Filter(detail.rows, WithId(id))[0];
      assert IdOf(a) == id && a in done.rows;
      assert IdOf(b) == id && b in detail.rows;
    }
  }

  /**
   The duplicate table holds, with multiplicity, exactly the done rows and the
   detail rows whose id is one of the enumerated ids.
   */
  lemma {:induction false} DuplicateRows(detail: Table, done: Table, order: seq<Cell>)
    requires |order| > 0
    requires forall i, j :: 0 <= i < j < |order| ==> order[i] != order[j]
    ensures DuplicateTable(detail, done, order).Success?
    ensures multiset(DuplicateTable(detail, done, order).value.rows) ==
      multiset(Filter(done.rows, IdIn(Elements(order)))) + multiset(Filter(detail.rows, IdIn(Elements(order))))
    decreases |order|
  {
    if |order| == 1 {
      DuplicateRowsSingle(detail, done, order);
    } else {
      DuplicateRows(detail, done, order[1..]);
      DuplicateRowsStep(detail, done, order);
    }
  }

  lemma DuplicateRowsSingle(detail: Table, done: Table, order: seq<Cell>)
    requires |order| == 1
    ensures DuplicateTable(detail, done, order).Success?
    ensures multiset(DuplicateTable(detail, done, order).value.rows) ==
      multiset(Filter(done.rows, IdIn(Elements(order)))) + multiset(Filter(detail.rows, IdIn(Elements(order))))
  {
    DuplicateTableSingle(detail, done, order);
    ElementsSingle(order);
    GroupIsIdIn(done.rows, order[0], Elements(order));
    GroupIsIdIn(detail.rows, order[0], Elements(order));
  }

  lemma DuplicateRowsStep(detail: Table, done: Table, order: seq<Cell>)
    requires |order| > 1
    requires forall i, j :: 0 <= i < j < |order| ==> order[i] != order[j]
    requires DuplicateTable(detail, done, order[1..]).Success?
    requires multiset(DuplicateTable(detail, done, order[1..]).value.rows) ==
      multiset(Filter(done.rows, IdIn(Elements(order[1..])))) + multiset(Filter(detail.rows, IdIn(Elements(order[1..]))))
    ensures DuplicateTable(detail, done, order).Success?
    ensures multiset(DuplicateTable(detail, done, order).value.rows) ==
      multiset(Filter(done.rows, IdIn(Elements(order)))) + multiset(Filter(detail.rows, IdIn(Elements(order))))
  {
    DuplicateTableCons(detail, done, order);
    ElementsCons(order);
    AddGroup(done.rows, order[0], Elements(order[1..]), Elements(order));
    AddGroup(detail.rows, order[0], Elements(order[1..]), Elements(order));
  }

  lemma DuplicateTableSingle(detail: Table, done: Table, order: seq<Cell>)
    requires |order| == 1
    ensures DuplicateTable(detail, done, order) == Success(Group(detail, done, order[0]))
  {
    assert Groups(detail, done, order) == [Group(detail, done, order[0])];
  }

  lemma DuplicateTableCons(detail: Table, done: Table, order: seq<Cell>)
    requires |order| > 1
    ensures DuplicateTable(detail, done, order).Success?
    ensures DuplicateTable(detail, done, order[1..]).Success?
    ensures DuplicateTable(detail, done, order).value.rows ==
      Group(detail, done, order[0]).rows + DuplicateTable(detail, done, order[1..]).value.rows
  {
    var gs := Groups(detail, done, order);
    assert gs[1..] == Groups(detail, done, order[1..]);
  }

  lemma ElementsSingle(order: seq<Cell>)
    requires |order| == 1
    ensures Elements(order) == {order[0]}
  {
  }

  lemma ElementsCons(order: seq<Cell>)
    requires |order| > 0
    requires forall i, j :: 0 <= i < j < |order| ==> order[i] != order[j]
    ensures Elements(order) == {order[0]} + Elements(order[1..])
    ensures order[0] !in Elements(order[1..])
  {
    assert order == [order[0]] + order[1..];
  }

  lemma GroupIsIdIn(rows: seq<Row>, o: Cell, ids: set<Cell>)
    requires ids == {o}
    ensures Filter(rows, IdIn(ids)) == Filter(rows, WithId(o))
  {
    FilterAgrees(rows, WithId(o), IdIn(ids));
  }

  lemma AddGroup(rows: seq<Row>, o: Cell, rest: set<Cell>, ids: set<Cell>)
    requires ids == {o} + rest && o !in rest
    ensures multiset(Filter(rows, IdIn(ids))) ==
      multiset(Filter(rows, WithId(o))) + multiset(Filter(rows, IdIn(rest)))
  {
    FilterDisjointUnion(rows, WithId(o), IdIn(rest), IdIn(ids));
  }

  /**
   The rows of the duplicate table carrying one id, in table order: for an
   enumerated id, its done rows in sheet order followed by its detail rows in
   sheet order; for any other id, none.
   */
  lemma {:induction false} DuplicateRowsOfId(detail: Table, done: Table, order: seq<Cell>, id: Cell)
    requires |order| > 0
    requires forall i, j :: 0 <= i < j < |order| ==> order[i] != order[j]
    ensures DuplicateTable(detail, done, order).Success?
    ensures Filter(DuplicateTable(detail, done, order).value.rows, WithId(id)) ==
      if id in Elements(order) then Filter(done.rows, WithId(id)) + Filter(detail.rows, WithId(id)) else []
    decreases |order|
  {
    if |order| == 1 {
      RowsOfIdSingle(detail, done, order, id);
    } else {
      DuplicateRowsOfId(detail, done, order[1..], id);
      RowsOfIdCons(detail, done, order, id);
    }
  }

  lemma RowsOfIdSingle(detail: Table, done: Table, order: seq<Cell>, id: Cell)
    requires |order| == 1
    ensures DuplicateTable(detail, done, order).Success?
    ensures Filter(DuplicateTable(detail, done, order).value.rows, WithId(id)) ==
      if id in Elements(order) then Filter(done.rows, WithId(id)) + Filter(detail.rows, WithId(id)) else []
  {
    GroupRowsOfId(detail, done, order[0], id);
    DuplicateTableSingle(detail, done, order);
    ElementsSingle(order);
  }

  lemma RowsOfIdCons(detail: Table, done: Table, order: seq<Cell>, id: Cell)
    requires |order| > 1
    requires forall i, j :: 0 <= i < j < |order| ==> order[i] != order[j]
    requires DuplicateTable(detail, done, order[1..]).Success?
    requires Filter(DuplicateTable(detail, done, order[1..]).value.rows, WithId(id)) ==
      if id in Elements(order[1..]) then Filter(done.rows, WithId(id)) + Filter(detail.rows, WithId(id)) else []
    ensures DuplicateTable(detail, done, order).Success?
    ensures Filter(DuplicateTable(detail, done, order).value.rows, WithId(id)) ==
      if id in Elements(order) then Filter(done.rows, WithId(id)) + Filter(detail.rows, WithId(id)) else []
  {
    var o := order[0];
    var rest := order[1..];
    var both := Filter(done.rows, WithId(id)) + Filter(detail.rows, WithId(id));
    var g := Group(detail, done, o).rows;
    var tail := DuplicateTable(detail, done, rest).value.rows;
    GroupRowsOfId(detail, done, o, id);
    DuplicateTableCons(detail, done, order);
    ElementsCons(order);
    FilterAppend(g, tail, WithId(id));
    ConsOfId(Filter(g, WithId(id)), Filter(tail, WithId(id)), both, id == o, id in Elements(rest));
  }

  /** The bookkeeping of one induction step of `DuplicateRowsOfId`, on plain sequences. */
  lemma ConsOfId(head: seq<Row>, tail: seq<Row>, both: seq<Row>, isHead: bool, inTail: bool)
    requires head == if isHead then both else []
    requires tail == if inTail then both else []
    requires !(isHead && inTail)
    ensures head + tail == if isHead || inTail then both else []
  {
  }

  /** Within one group, the rows carrying `id` are the whole group when it is the group's id, else none. */
  lemma GroupRowsOfId(detail: Table, done: Table, o: Cell, id: Cell)
    ensures Filter(Group(detail, done, o).rows, WithId(id)) ==
      if id == o then Group(detail, done, o).rows else []
  {
    var a := Filter(done.rows, WithId(o));
    var b := Filter(detail.rows, WithId(o));
    FilterAppend(a, b, WithId(id));
    if id == o {
      FilterKeepsAll(a, WithId(id));
      FilterKeepsAll(b, WithId(id));
    } else {
      FilterDropsAll(a, WithId(id));
      FilterDropsAll(b, WithId(id));
    }
  }

  /**
   Every row of the two sheets lands in exactly one output table: the duplicate
   table when its id is common, else the unique table of its own sheet.
   */
  lemma ExactPartition(detail: Table, done: Table, order: seq<Cell>)
    requires Enumerates(order, CommonIds(detail, done))
    requires CommonIds(detail, done) != {}
    ensures DuplicateTable(detail, done, order).Success?
    ensures
      var common := CommonIds(detail, done);
      multiset(DuplicateTable(detail, done, order).value.rows)
        + multiset(UniqueTable(detail, common).rows)
        + multiset(UniqueTable(done, common).rows)
      == multiset(detail.rows) + multiset(done.rows)
  {
    var common := CommonIds(detail, done);
    DuplicateTableFailsIff(detail, done, order);
    EnumeratedElements(order, common);
    DuplicateRows(detail, done, order);
    SplitByIds(detail.rows, common);
    SplitByIds(done.rows, common);
  }

  lemma EnumeratedElements(order: seq<Cell>, ids: set<Cell>)
    requires Enumerates(order, ids)
    ensures Elements(order) == ids
  {
  }

  lemma SplitByIds(rows: seq<Row>, ids: set<Cell>)
    ensures multiset(Filter(rows, IdIn(ids))) + multiset(Filter(rows, IdNotIn(ids))) == multiset(rows)
  {
    FilterComplement(rows, IdIn(ids), IdNotIn(ids));
  }

  /**
   A unique table keeps, in their original order, exactly the rows whose id is
   not common; with the rows whose id is common it makes up the whole sheet.
   */
  lemma UniqueTableLayout(t: Table, common: set<Cell>)
    ensures IsSubsequence(UniqueTable(t, common).rows, t.rows)
    ensures forall k :: 0 <= k < |UniqueTable(t, common).rows| ==> IdOf(UniqueTable(t, common).rows[k]) !in common
    ensures |UniqueTable(t, common).rows| + |Filter(t.rows, IdIn(common))| == |t.rows|
  {
    FilterIsSubsequence(t.rows, IdNotIn(common));
    SplitByIds(t.rows, common);
    FilterComplement(t.rows, IdIn(common), IdNotIn(common));
  }

  /** Where a given row ends up, decided by whether its id is common alone. */
  lemma RowPlacement(detail: Table, done: Table, order: seq<Cell>, r: Row)
    requires Enumerates(order, CommonIds(detail, done))
    requires CommonIds(detail, done) != {}
    ensures DuplicateTable(detail, done, order).Success?
    ensures r in DuplicateTable(detail, done, order).value.rows <==>
      (r in detail.rows || r in done.rows) && IdOf(r) in CommonIds(detail, done)
    ensures r in UniqueTable(detail, CommonIds(detail, done)).rows <==>
      r in detail.rows && IdOf(r) !in CommonIds(detail, done)
    ensures r in UniqueTable(done, CommonIds(detail, done)).rows <==>
      r in done.rows && IdOf(r) !in CommonIds(detail, done)
  {
    var common := CommonIds(detail, done);
    DuplicateTableFailsIff(detail, done, order);
    EnumeratedElements(order, common);
    DuplicatePlacement(detail, done, order, r);
    MaskMembership(done.rows, common, r);
    MaskMembership(detail.rows, common, r);
  }

  lemma DuplicatePlacement(detail: Table, done: Table, order: seq<Cell>, r: Row)
    requires |order| > 0
    requires forall i, j :: 0 <= i < j < |order| ==> order[i] != order[j]
    ensures DuplicateTable(detail, done, order).Success?
    ensures r in DuplicateTable(detail, done, order).value.rows <==>
      (r in detail.rows || r in done.rows) && IdOf(r) in Elements(order)
  {
    var ids := Elements(order);
    DuplicateRows(detail, done, order);
    MaskMembership(done.rows, ids, r);
    MaskMembership(detail.rows, ids, r);
    var d := DuplicateTable(detail, done, order).value.rows;
    assert r in d <==> multiset(d)[r] > 0;
  }

  lemma MaskMembership(rows: seq<Row>, ids: set<Cell>, r: Row)
    ensures multiset(Filter(rows, IdIn(ids)))[r] > 0 <==> r in rows && IdOf(r) in ids
    ensures r in Filter(rows, IdNotIn(ids)) <==> r in rows && IdOf(r) !in ids
  {
    FilterMultiplicity(rows, IdIn(ids), r);
    FilterMultiplicity(rows, IdNotIn(ids), r);
  }

  /**
   Counting by source tag in the duplicate table: as many done-tagged rows as
   done rows with a common id, and likewise for the detail sheet.
   */
  lemma DuplicateTagCounts(detail: Table, done: Table, order: seq<Cell>)
    requires Enumerates(order, CommonIds(detail, done))
    requires CommonIds(detail, done) != {}
    requires forall k :: 0 <= k < |detail.rows| ==> Get(detail.rows[k], SourceColumn) == Text(DetailSheet)
    requires forall k :: 0 <= k < |done.rows| ==> Get(done.rows[k], SourceColumn) == Text(DoneSheet)
    ensures DuplicateTable(detail, done, order).Success?
    ensures |Filter(DuplicateTable(detail, done, order).value.rows, TagIs(DoneSheet))|
      == |Filter(done.rows, IdIn(CommonIds(detail, done)))|
    ensures |Filter(DuplicateTable(detail, done, order).value.rows, TagIs(DetailSheet))|
      == |Filter(detail.rows, IdIn(CommonIds(detail, done)))|
  {
    var common := CommonIds(detail, done);
    DuplicateTableFailsIff(detail, done, order);
    EnumeratedElements(order, common);
    DuplicateRows(detail, done, order);
    var dup := DuplicateTable(detail, done, order).value.rows;
    var fDone := Filter(done.rows, IdIn(common));
    var fDetail := Filter(detail.rows, IdIn(common));
    assert multiset(dup) == multiset(fDone + fDetail);
    TagCountOf(dup, fDone, fDetail, done.rows, detail.rows, DoneSheet, DetailSheet);
    TagCountOf(dup, fDetail, fDone, detail.rows, done.rows, DetailSheet, DoneSheet);
  }

  lemma TagCountOf(dup: seq<Row>, mine: seq<Row>, theirs: seq<Row>, mineAll: seq<Row>, theirsAll: seq<Row>, tag: string, other: string)
    requires tag != other
    requires multiset(dup) == multiset(mine + theirs) || multiset(dup) == multiset(theirs + mine)
    requires forall k :: 0 <= k < |mine| ==> mine[k] in mineAll
    requires forall k :: 0 <= k < |theirs| ==> theirs[k] in theirsAll
    requires forall k :: 0 <= k < |mineAll| ==> Get(mineAll[k], SourceColumn) == Text(tag)
    requires forall k :: 0 <= k < |theirsAll| ==> Get(theirsAll[k], SourceColumn) == Text(other)
    ensures |Filter(dup, TagIs(tag))| == |mine|
  {
    assert multiset(mine + theirs) == multiset(theirs + mine);
    FilterRespectsMultiset(dup, mine + theirs, TagIs(tag));
    FilterAppend(mine, theirs, TagIs(tag));
    FilterKeepsAll(mine, TagIs(tag));
    FilterDropsAll(theirs, TagIs(tag));
  }
}

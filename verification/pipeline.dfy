/**
 The processing run of `main`, without the user interface and Excel I/O:
 normalise both sheets, find the common ids, build the duplicate and unique
 tables, and count. Any exception ends the run with no output at all.
 */
module Pipeline {
  import opened Wrappers
  import opened Digits
  import opened Sheets
  import opened Normalize
  import opened Dedup

  /** The six figures shown after a successful run. */
  datatype Summary = Summary(
    originalDetail: nat,   // "原明细总行数", counted after normalisation
    originalDone: nat,     // "原已做单总行数", counted after normalisation
    duplicateDone: nat,    // done-tagged rows of the duplicate table
    duplicateDetail: nat,  // detail-tagged rows of the duplicate table
    uniqueDetail: nat,     // rows of the detail-unique table
    uniqueDone: nat)       // rows of the done-unique table

  /** The three output sheets, in workbook order, and the summary. */
  datatype Report = Report(duplicates: Table, uniqueDetail: Table, uniqueDone: Table, summary: Summary)

  /** `len(df[df['来源'] == tag])`. */
  function TagCount(t: Table, tag: string): nat {
    |Filter(t.rows, TagIs(tag))|
  }

  /**
   The iteration order of `common_order_ids` is the set's own and is not fixed
   here: the caller supplies one, any listing of the common ids of the
   normalised sheets, each exactly once.
   */
  predicate OrderFits(detailSheet: Table, doneSheet: Table, order: seq<Cell>) {
    match (ProcessDataframe(detailSheet, DetailSheet), ProcessDataframe(doneSheet, DoneSheet))
    case (Success(detail), Success(done)) => Enumerates(order, CommonIds(detail, done))
    case _ => true
  }

  /** One processing run of `main` on the two input sheets. */
  function Run(detailSheet: Table, doneSheet: Table, order: seq<Cell>): (r: Result<Report, Error>)
    requires OrderFits(detailSheet, doneSheet, order)
    ensures ProcessDataframe(detailSheet, DetailSheet).Failure? ==> r.Failure?
    ensures ProcessDataframe(doneSheet, DoneSheet).Failure? ==> r.Failure?
    ensures r.Success? ==> r.value.summary.originalDetail <= |detailSheet.rows|
    ensures r.Success? ==> r.value.summary.originalDone == |doneSheet.rows|
  {
    match ProcessDataframe(detailSheet, DetailSheet)
    case Failure(e) => Failure(e)
    case Success(detail) =>
      match ProcessDataframe(doneSheet, DoneSheet)
      case Failure(e) => Failure(e)
      case Success(done) =>
        var common := CommonIds(detail, done);
        match DuplicateTable(detail, done, order)
        case Failure(e) => Failure(e)
        case Success(duplicates) =>
          var uniqueDetail := UniqueTable(detail, common);
          var uniqueDone := UniqueTable(done, common);
          var summary := Summary(
            |detail.rows|, |done.rows|,
            TagCount(duplicates, DoneSheet), TagCount(duplicates, DetailSheet),
            |uniqueDetail.rows|, |uniqueDone.rows|);
          Success(Report(duplicates, uniqueDetail, uniqueDone, summary))
  }

  /**
   A run fails exactly when a sheet cannot be normalised or when the two sheets
   share no order id: with nothing in common, `pd.concat` of the empty group
   list raises and no output is produced.
   */
  lemma RunFailsIff(detailSheet: Table, doneSheet: Table, order: seq<Cell>)
    requires OrderFits(detailSheet, doneSheet, order)
    ensures Run(detailSheet, doneSheet, order).Failure? <==>
      || ProcessDataframe(detailSheet, DetailSheet).Failure?
      || ProcessDataframe(doneSheet, DoneSheet).Failure?
      || CommonIds(ProcessDataframe(detailSheet, DetailSheet).value,
                   ProcessDataframe(doneSheet, DoneSheet).value) == {}
  {
    var d := ProcessDataframe(detailSheet, DetailSheet);
    var e := ProcessDataframe(doneSheet, DoneSheet);
    if d.Success? && e.Success? {
      DuplicateTableFailsIff(d.value, e.value, order);
    }
  }

  /**
   The six figures: the "original" counts are the lengths of the sheets after
   normalisation, not before; each duplicate count is the number of that
   sheet's rows whose id is common; each unique count is the length of that
   unique table. So, for each sheet, its duplicate and unique counts add up to
   its original count.
   */
  lemma SummaryAddsUp(detailSheet: Table, doneSheet: Table, order: seq<Cell>)
    requires OrderFits(detailSheet, doneSheet, order)
    requires Run(detailSheet, doneSheet, order).Success?
    ensures
      var detail := ProcessDataframe(detailSheet, DetailSheet).value;
      var done := ProcessDataframe(doneSheet, DoneSheet).value;
      var report := Run(detailSheet, doneSheet, order).value;
      var s := report.summary;
      && s.originalDetail == |detail.rows|
      && s.originalDone == |done.rows|
      && s.duplicateDone == |Filter(done.rows, IdIn(CommonIds(detail, done)))|
      && s.duplicateDetail == |Filter(detail.rows, IdIn(CommonIds(detail, done)))|
      && s.uniqueDetail == |report.uniqueDetail.rows|
      && s.uniqueDone == |report.uniqueDone.rows|
      && s.duplicateDetail + s.uniqueDetail == s.originalDetail
      && s.duplicateDone + s.uniqueDone == s.originalDone
      && s.duplicateDetail + s.duplicateDone == |report.duplicates.rows|
  {
    var detail := ProcessDataframe(detailSheet, DetailSheet).value;
    var done := ProcessDataframe(doneSheet, DoneSheet).value;
    var common := CommonIds(detail, done);
    RunFailsIff(detailSheet, doneSheet, order);
    DuplicateTagCounts(detail, done, order);
    SplitByIds(detail.rows, common);
    SplitByIds(done.rows, common);
    EnumeratedElements(order, common);
    DuplicateRows(detail, done, order);
  }

  /**
   The report's three tables partition the normalised rows: each row is in
   exactly one of them, the duplicate table taking the rows whose id is common.
   */
  lemma ReportPartitionsRows(detailSheet: Table, doneSheet: Table, order: seq<Cell>)
    requires OrderFits(detailSheet, doneSheet, order)
    requires Run(detailSheet, doneSheet, order).Success?
    ensures
      var detail := ProcessDataframe(detailSheet, DetailSheet).value;
      var done := ProcessDataframe(doneSheet, DoneSheet).value;
      var report := Run(detailSheet, doneSheet, order).value;
      && multiset(report.duplicates.rows) + multiset(report.uniqueDetail.rows) + multiset(report.uniqueDone.rows)
         == multiset(detail.rows) + multiset(done.rows)
      && (forall r :: r in report.uniqueDetail.rows ==> r in detail.rows && IdOf(r) !in CommonIds(detail, done))
      && (forall r :: r in report.uniqueDone.rows ==> r in done.rows && IdOf(r) !in CommonIds(detail, done))
      && (forall r :: r in report.duplicates.rows ==> IdOf(r) in CommonIds(detail, done))
  {
    var detail := ProcessDataframe(detailSheet, DetailSheet).value;
    var done := ProcessDataframe(doneSheet, DoneSheet).value;
    RunFailsIff(detailSheet, doneSheet, order);
    ExactPartition(detail, done, order);
    forall r | r in Run(detailSheet, doneSheet, order).value.duplicates.rows
      ensures IdOf(r) in CommonIds(detail, done)
    {
      RowPlacement(detail, done, order, r);
    }
  }

  /**
   A done row whose summary holds no id carries the text "None", which no
   detail id equals: detail ids are decimal numerals. Such a row is never a
   duplicate.
   */
  lemma NoneIsNeverCommon(detailSheet: Table, done: Table)
    requires ProcessDataframe(detailSheet, DetailSheet).Success?
    ensures Text("None") !in CommonIds(ProcessDataframe(detailSheet, DetailSheet).value, done)
  {
    var detail := ProcessDataframe(detailSheet, DetailSheet).value;
    DetailNormalisation(detailSheet, detail);
    assert ParseNumber("None") == None;
    var kept := Filter(detailSheet.rows, HasOrderId);
    forall k | 0 <= k < |detail.rows|
      ensures IdOf(detail.rows[k]) != Text("None")
    {
      assert HasOrderId(kept[k]) && kept[k] in detailSheet.rows;
      assert DetailId(Get(kept[k], OrderColumn)).Success?;
    }
  }

  /**
   With an empty done sheet there is nothing in common, so the run fails
   rather than producing empty duplicate and done tables.
   */
  lemma EmptyDoneSheetFails(detailSheet: Table, doneSheet: Table, order: seq<Cell>)
    requires OrderFits(detailSheet, doneSheet, order)
    requires |doneSheet.rows| == 0
    ensures Run(detailSheet, doneSheet, order).Failure?
  {
    RunFailsIff(detailSheet, doneSheet, order);
    var e := ProcessDataframe(doneSheet, DoneSheet);
    if e.Success? {
      assert |e.value.rows| == 0;
      assert IdSet(e.value) == {};
    }
  }
}

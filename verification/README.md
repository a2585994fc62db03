# Order deduplication between the detail sheet and the done sheet

The tool reads two sheets of one workbook. The detail sheet, "明细", lists
orders with an order-number column "订单编号". The done sheet, "已做单",
records handled orders; there, the order number is buried in the free-text
record summary "记录摘要". The tool goes through these steps:

1. It normalises both sheets (`process_dataframe`). Each row is tagged with its
   sheet in a "来源" column. A detail order number is rewritten as the decimal
   text of its integer value. A done row gets a new leading order-number column,
   taken from the summary by `extract_order_id`: the leftmost run of twelve or
   more digits.
2. It finds the order numbers present on both sheets.
3. It builds three tables:
   - the duplicate table: for each common id, its done rows, then its detail rows;
   - the detail rows whose id is not common;
   - the done rows whose id is not common.
4. It reports six counts.

Any exception aborts the whole run, and nothing is produced.

The model is a set of pure functions over immutable data:

| file | module | contents |
|---|---|---|
| `wrappers.dfy` | `Wrappers` | `Option` and `Result` |
| `digits.dfy` | `Digits` | decimal digits, `str(int)`, the numerals `int(float(s))` reads |
| `sheets.dfy` | `Sheets` | cells, rows as maps from column name to cell, tables, boolean-mask filtering, `pd.concat` |
| `order_id.dfy` | `OrderIds` | `re.search(r'\d{12,}', ...)` and `extract_order_id` |
| `normalize.dfy` | `Normalize` | `process_dataframe` for both sheets |
| `dedup.dfy` | `Dedup` | common ids, the duplicate table, the unique tables |
| `pipeline.dfy` | `Pipeline` | one run of `main` without the UI and the Excel I/O, with its summary |
| `scenarios.dfy` | `Scenarios` | concrete summaries worked through the id search |

Python's exceptions appear as `Failure` values of `Sheets.Error`:
- `KeyError` for a missing column;
- `ValueError` from `insert` of an existing column;
- `ValueError` from `float` on non-numeric text;
- `ValueError` from `pd.concat([])`.

A set has no iteration order the program can rely on. So the order in which
the duplicate groups are built is a parameter of `Pipeline.Run`: any listing
of the common ids, each exactly once.

Where the program's behaviour is not what one might expect, the model follows
`app.py`:
- When the sheets share no order id, the run does not produce an empty
  duplicate table. `pd.concat` of an empty list raises, and the whole run fails
  (`Pipeline.RunFailsIff`, `Pipeline.EmptyDoneSheetFails`).
- A done row whose summary holds no id is not dropped. `extract_order_id`
  returns `None`, and `astype(str)` turns it into the text "None" before
  `dropna` runs. Such rows are kept and are never duplicates
  (`Normalize.DoneNormalisation`, `Pipeline.NoneIsNeverCommon`).
- The "original" counts are taken after normalisation, so detail rows with a
  blank order number are already gone (`Pipeline.SummaryAddsUp`).
- Normalising a done sheet twice raises, because the order-number column
  already exists. The detail normalisation is idempotent
  (`Normalize.DoneNotRepeatable`, `Normalize.DetailIdempotent`).

## Model

| member | source | states |
|---|---|---|
| OrderIds.MatchStart | app.py:10 | the regex scan's start: the leftmost position at or after `i` where twelve digits begin, and `None` exactly when no such position exists |
| OrderIds.SearchId | app.py:10-11 | a match is at least twelve characters long and all digits |
| OrderIds.ExtractOrderId | app.py:7-11 | a missing cell gives `None`; a text or number cell gives the search over its `str()` text, so the search lemmas apply to cells; any id found is a run of at least twelve digits |
| OrderIds.FirstMatchIsIdRun | app.py:10-11 | greedy matching from the first place twelve digits begin covers a maximal digit run: no digit touches it on either side |
| OrderIds.SearchAbsentIff | app.py:10-11 | the search finds nothing exactly when the text has no run of twelve or more digits |
| OrderIds.SearchFindsLeftmostRun | app.py:10-11 | the returned text is a maximal run of at least twelve digits, and no such run starts further left |
| OrderIds.LeftmostRunIsFound | app.py:10-11 | conversely, the leftmost maximal run of at least twelve digits is exactly what the search returns |
| Digits.RunEnd | app.py:10 | the greedy `\d+` extent: every position up to the result is a digit, and the next one is not |
| Digits.IntToDecimal | app.py:17 | `str(int)` is a canonical digit string exactly for non-negative values, and '-' followed by a canonical digit string for negative ones |
| Digits.NatToDigits | app.py:17 | the digits `str` prints are canonical: nonempty, all digits, no leading zero |
| Digits.NatDigitsRoundTrip | app.py:17 | reading back the printed digits of `n` gives `n` |
| Digits.CanonicalRoundTrip | app.py:17 | every canonical digit string is what `str` prints for its value |
| Digits.DecimalRoundTrip | app.py:17 | `int(float(str(n)))` reads back `n` for every integer `n`, including negatives |
| Digits.ParseUnsigned | app.py:17 | accepts exactly the unsigned numerals (digits, optionally '.' and digits); a digit string reads as its value; with a decimal point, the value is that of the digits before it |
| Digits.ParseNumber | app.py:17 | accepts exactly the numerals: an unsigned numeral, optionally after a '-'; anything else is the `ValueError` of `float` |
| Digits.IntegerNumeralValue | app.py:17 | `int(float(d))` and `int(float("-" + d))` of a digit string `d` are its value and its negation |
| Digits.FractionNumeralValue | app.py:17 | with a decimal point at `k`, `int(float(s))` is the value of `s[..k]`, and its negation after a '-': the fraction is truncated toward zero |
| Sheets.Filter | app.py:64-65 | boolean-mask indexing: kept rows come from the input and pass the mask; every passing input row is kept; multiplicities do not grow |
| Sheets.FilterMultiplicity | app.py:64-65 | a row occurs after masking as often as before if it passes, and not at all otherwise |
| Sheets.FilterIsSubsequence | app.py:64-65 | boolean-mask indexing keeps the surviving rows in their original order |
| Sheets.FilterComplement | app.py:64-65 | a mask and its negation `~` split the rows: the two results together are the input, as a multiset |
| Sheets.UnionColumns | app.py:58-59 | the columns of a concatenation: those of the first frame first, then the second frame's columns the first lacks, in their order, none repeated from the first; nothing else |
| Sheets.ConcatTables | app.py:58-59 | `pd.concat` of two frames: the first frame's rows, then the second's |
| Sheets.ConcatAll | app.py:57-61 | `pd.concat` of a list raises exactly when the list is empty, with the no-objects error; otherwise its rows are the rows of every table, table after table |
| Normalize.WithColumn | app.py:14 | assigning a column keeps the existing columns in place and adds the new one only when absent |
| Normalize.NumericValue | app.py:17 | `float` accepts a present cell exactly when it is a number or numeral text; a number cell reads as itself, numeral text as `ParseNumber` reads it |
| Normalize.TagRow | app.py:14 | the source column is set to the sheet's tag; every other cell is unchanged |
| Normalize.DetailId | app.py:16-18 | a blank detail cell stays missing; a present cell fails exactly when it is not numeric; otherwise it becomes the decimal text of the integer `int(float(x))`: canonical digits (no leading zero, no fraction) exactly when the value is non-negative, '-' and canonical digits when it is negative, so zero is "0" and never "-0"; the text reads back as the same integer |
| Normalize.DetailRow | app.py:14-18 | a detail row fails exactly when its order-number cell does; otherwise it is tagged, its id is rewritten, and its other cells are kept |
| Normalize.DetailRows | app.py:16-18 | `apply` over the column raises exactly when some row's cell fails; otherwise every row is converted in place |
| Normalize.DoneRow | app.py:20-21 | a done row is tagged and gets as id the extracted digits, or "None" (what `Render`, the `astype(str)`, gives for a missing id) when the summary has none; its other cells are kept |
| Normalize.DoneRows | app.py:20-21 | every done row is converted, in order, none dropped |
| Normalize.ProcessDataframe | app.py:13-22 | fails exactly on a missing order column or a non-numeric id (detail sheet), or on a missing summary column or an existing order column (done sheet); never adds rows; keeps every done row; every output row is tagged and has a text id |
| Normalize.DetailNormalisation | app.py:13-22 | characterises the `dropna` mask `HasOrderId`: the normalised detail sheet is the rows with an order number, in order, each tagged with its id re-parsing to the original integer |
| Normalize.DoneNormalisation | app.py:19-22 | the normalised done sheet has the order column inserted first and every row converted by `DoneRow` |
| Normalize.DetailIdempotent | app.py:15-18 | normalising an already normalised detail sheet gives the same sheet |
| Normalize.DoneNotRepeatable | app.py:20 | normalising an already normalised done sheet raises, because the order column exists |
| Normalize.NormalisationKeepsWellFormed | app.py:13-22 | normalisation keeps the columns distinct and every cell inside a declared column |
| Dedup.CommonIdIff | app.py:52 | characterises `CommonIds`: an id is common exactly when each sheet has a row carrying it |
| Dedup.DuplicateTableFailsIff | app.py:57-61 | building the duplicate table raises exactly when no id is common, with the no-objects error |
| Dedup.DuplicateRows | app.py:57-61 | the duplicate table holds, with multiplicity, exactly the rows of both sheets whose id is enumerated |
| Dedup.DuplicateRowsOfId | app.py:57-61 | characterises `DuplicateTable`, `Groups` and `Group`: for each enumerated id, the duplicate table's rows with that id are its done rows in sheet order, then its detail rows in sheet order; no other id occurs |
| Dedup.ExactPartition | app.py:52-65 | the duplicate table and the two unique tables together hold exactly the rows of both sheets, with multiplicity |
| Dedup.UniqueTableLayout | app.py:64-65 | characterises `UniqueTable`: a unique table is an order-preserving subsequence of its sheet holding only rows whose id is not common, and its length plus the sheet's common-id row count is the sheet's length |
| Dedup.RowPlacement | app.py:57-65 | a row is in the duplicate table exactly when it is on a sheet with a common id, and in its sheet's unique table exactly when its id is not common |
| Dedup.DuplicateTagCounts | app.py:81-82 | the done-tagged and detail-tagged counts of the duplicate table equal each sheet's number of rows with a common id |
| Pipeline.Run | app.py:42-65 | a sheet that fails to normalise fails the run; the original counts never exceed the input sheets' lengths, and the done count equals its input length |
| Pipeline.RunFailsIff | app.py:42-61 | a run fails exactly when a sheet cannot be normalised or the normalised sheets share no id |
| Pipeline.SummaryAddsUp | app.py:79-84 | pins all six figures, including the two `TagCount`s: the original counts are the normalised lengths; each duplicate count is the number of that sheet's rows with a common id; each unique count is its unique table's length; so duplicate plus unique is the original count for each sheet |
| Pipeline.ReportPartitionsRows | app.py:57-65 | the three output tables partition the normalised rows; unique rows come from their own sheet and have no common id; duplicate rows have a common id |
| Pipeline.NoneIsNeverCommon | app.py:17-21 | the text "None" given to done rows without an id never equals a detail id, so such rows are never duplicates |
| Pipeline.EmptyDoneSheetFails | app.py:57-61 | an empty done sheet fails the run instead of producing empty tables |
| Scenarios.TwelveDigitsFound | app.py:10-11 | a twelve-digit number inside Chinese text is extracted as the id |
| Scenarios.ElevenDigitsNotFound | app.py:10-11 | eleven digits are too few: no id is found |
| Scenarios.LeftmostRunWins | app.py:10-11 | of two long digit runs, the leftmost is returned, and it is taken whole |
| Scenarios.FractionsTruncate | app.py:17 | "12.9" reads as 12 and "-1.5" as -1 |

## Left out

- The Streamlit interface: the title, the file uploader, the progress bar, the success message, and the download button (app.py:25-27, 35-40, 45, 54, 67, 77-78, 86-94). None of it affects the data.
- Reading the workbook and writing the three-sheet result (app.py:32-33, 70-74). The model starts from the two sheets as tables and ends with the three tables. A workbook without one of the two sheets fails inside `read_excel`, which is not part of this model.
- The text of exception messages (app.py:96-97). A failure is a `Sheets.Error` value naming its cause.
- Digits.ParseNumber: reads only an optional minus sign, digits, and an optional fraction after '.'. Other texts `float` accepts fail in the model: exponents, surrounding whitespace, a leading '+', a leading '.', underscore-separated digits ("1_000"), and non-ASCII decimal digits.
- Numeric cells are integers. Floating-point precision is left out: `int(float(x))` of a number beyond 2^53, and `str` of a float cell in a summary (".0" suffix, scientific notation).
- `\d` is read as the ASCII digits '0' to '9'. Python's `re` also matches other Unicode decimal digits.
- The iteration order of `common_order_ids` is a parameter of `Pipeline.Run`. It is not Python's hash order.
- `pd.concat` fills columns a frame lacks with NaN. The model leaves the key out of the row, which reads as blank. Column order is kept, but pandas' dtype changes and the new index are not modelled.
- Pipeline.Run: its own contract states only the failure cases and the count bounds. The content of its report is stated by `Pipeline.RunFailsIff`, `Pipeline.SummaryAddsUp` and `Pipeline.ReportPartitionsRows`.

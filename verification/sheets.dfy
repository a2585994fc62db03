/**
 Spreadsheet tables as the data-frame code sees them: cells, rows, tables,
 row filtering (boolean-mask indexing) and row-wise concatenation (`pd.concat`).
 */
module Sheets {
  import opened Wrappers

  /** One cell: empty (NaN or None), text, or an integral number. */
  datatype Cell = Blank | Text(s: string) | Number(n: int)

  /**
   A row maps column names to cells. A column the row does not mention reads
   as `Blank`, the way `pd.concat` fills columns a frame lacks with NaN.
   */
  type Row = map<string, Cell>

  /** A data frame: its column names, in display order, and its rows, in order. */
  datatype Table = Table(columns: seq<string>, rows: seq<Row>)

  /** The exceptions the modelled pipeline can raise. */
  datatype Error =
    | MissingColumn(column: string)   // KeyError from `df[column]`
    | ColumnExists(column: string)    // ValueError from `df.insert` of an existing column
    | NotANumber(text: string)        // ValueError from `float(text)`
    | NothingToConcatenate            // ValueError from `pd.concat([])`

  function Get(r: Row, c: string): Cell {
    if c in r then r[c] else Blank
  }

  /** Column names distinct, and no row holds a cell outside the table's columns. */
  predicate WellFormed(t: Table) {
    && (forall i, j :: 0 <= i < j < |t.columns| ==> t.columns[i] != t.columns[j])
    && (forall k :: 0 <= k < |t.rows| ==> t.rows[k].Keys <= set c | c in t.columns)
  }

  /** The elements of `s` satisfying `p`, in their original order. */
  function Filter<T(==)>(s: seq<T>, p: T -> bool): (r: seq<T>)
    ensures |r| <= |s|
    ensures forall k :: 0 <= k < |r| ==> r[k] in s && p(r[k])
    ensures forall k :: 0 <= k < |s| && p(s[k]) ==> s[k] in r
    ensures multiset(r) <= multiset(s)
    decreases |s|
  {
    if |s| == 0 then []
    else
      assert s == [s[0]] + s[1..];
      (if p(s[0]) then [s[0]] else []) + Filter(s[1..], p)
  }

  /** `a` is `b` with some elements removed, the rest in their original order. */
  predicate IsSubsequence<T(==)>(a: seq<T>, b: seq<T>)
    decreases |b|
  {
    || |a| == 0
    || (&& |b| > 0
        && ((a[0] == b[0] && IsSubsequence(a[1..], b[1..])) || IsSubsequence(a, b[1..])))
  }

  /** Masking keeps the surviving rows in their original order. */
  lemma {:induction false} FilterIsSubsequence<T>(s: seq<T>, p: T -> bool)
    ensures IsSubsequence(Filter(s, p), s)
    decreases |s|
  {
    if |s| > 0 {
      FilterIsSubsequence(s[1..], p);
      var r := Filter(s, p);
      if p(s[0]) {
        assert r[0] == s[0] && r[1..] == Filter(s[1..], p);
      } else {
        assert r == Filter(s[1..], p);
      }
    }
  }

  lemma {:induction false} FilterAppend<T>(a: seq<T>, b: seq<T>, p: T -> bool)
    ensures Filter(a + b, p) == Filter(a, p) + Filter(b, p)
    decreases |a|
  {
    if |a| > 0 {
      assert (a + b)[0] == a[0];
      assert (a + b)[1..] == a[1..] + b;
      FilterAppend(a[1..], b, p);
    } else {
      assert a + b == b;
    }
  }

  /** Filtering keeps every element that passes: nothing is dropped. */
  lemma {:induction false} FilterKeepsAll<T>(s: seq<T>, p: T -> bool)
    requires forall k :: 0 <= k < |s| ==> p(s[k])
    ensures Filter(s, p) == s
    decreases |s|
  {
    if |s| > 0 {
      FilterKeepsAll(s[1..], p);
    }
  }

  /** Filtering drops every element that fails: nothing is kept. */
  lemma {:induction false} FilterDropsAll<T>(s: seq<T>, p: T -> bool)
    requires forall k :: 0 <= k < |s| ==> !p(s[k])
    ensures Filter(s, p) == []
    decreases |s|
  {
    if |s| > 0 {
      FilterDropsAll(s[1..], p);
    }
  }

  /** Filters whose predicates agree on the elements present select the same elements. */
  lemma {:induction false} FilterAgrees<T>(s: seq<T>, p: T -> bool, q: T -> bool)
    requires forall k :: 0 <= k < |s| ==> p(s[k]) == q(s[k])
    ensures Filter(s, p) == Filter(s, q)
    decreases |s|
  {
    if |s| > 0 {
      FilterAgrees(s[1..], p, q);
    }
  }

  /** How often a value occurs after filtering: as often as before when it passes, never otherwise. */
  lemma {:induction false} FilterMultiplicity<T>(s: seq<T>, p: T -> bool, x: T)
    ensures multiset(Filter(s, p))[x] == if p(x) then multiset(s)[x] else 0
    decreases |s|
  {
    if |s| > 0 {
      assert s == [s[0]] + s[1..];
      FilterMultiplicity(s[1..], p, x);
    }
  }

  /** Filtering depends only on which elements occur how often, not on their order. */
  lemma FilterRespectsMultiset<T>(a: seq<T>, b: seq<T>, p: T -> bool)
    requires multiset(a) == multiset(b)
    ensures multiset(Filter(a, p)) == multiset(Filter(b, p))
    ensures |Filter(a, p)| == |Filter(b, p)|
  {
    forall x
      ensures multiset(Filter(a, p))[x] == multiset(Filter(b, p))[x]
    {
      FilterMultiplicity(a, p, x);
      FilterMultiplicity(b, p, x);
    }
    assert |Filter(a, p)| == |multiset(Filter(a, p))|;
    assert |Filter(b, p)| == |multiset(Filter(b, p))|;
  }

  /**
   Splitting by disjoint predicates: the elements passing `pq` are exactly
   those passing `p` together with those passing `q`.
   */
  lemma {:induction false} FilterDisjointUnion<T>(s: seq<T>, p: T -> bool, q: T -> bool, pq: T -> bool)
    requires forall k :: 0 <= k < |s| ==> pq(s[k]) == (p(s[k]) || q(s[k]))
    requires forall k :: 0 <= k < |s| ==> !(p(s[k]) && q(s[k]))
    ensures multiset(Filter(s, pq)) == multiset(Filter(s, p)) + multiset(Filter(s, q))
    ensures |Filter(s, pq)| == |Filter(s, p)| + |Filter(s, q)|
    decreases |s|
  {
    if |s| > 0 {
      FilterDisjointUnion(s[1..], p, q, pq);
    }
  }

  /** A predicate and its negation split a sequence: every element lands on exactly one side. */
  lemma FilterComplement<T>(s: seq<T>, p: T -> bool, q: T -> bool)
    requires forall k :: 0 <= k < |s| ==> q(s[k]) == !p(s[k])
    ensures multiset(Filter(s, p)) + multiset(Filter(s, q)) == multiset(s)
    ensures |Filter(s, p)| + |Filter(s, q)| == |s|
  {
    var all := (x: T) => true;
    FilterDisjointUnion(s, p, q, all);
    FilterKeepsAll(s, all);
  }

  /**
   Filtering two sequences that correspond element by element, with predicates
   that agree on corresponding elements, keeps corresponding elements.
   */
  lemma {:induction false} FilterPointwise<T, U>(a: seq<T>, b: seq<U>, p: T -> bool, q: U -> bool, rel: (T, U) -> bool)
    requires |a| == |b|
    requires forall k :: 0 <= k < |a| ==> p(a[k]) == q(b[k]) && rel(a[k], b[k])
    ensures |Filter(a, p)| == |Filter(b, q)|
    ensures forall k :: 0 <= k < |Filter(a, p)| ==> rel(Filter(a, p)[k], Filter(b, q)[k])
    decreases |a|
  {
    if |a| > 0 {
      FilterPointwise(a[1..], b[1..], p, q, rel);
    }
  }

  /** The columns of `pd.concat([a, b])`: those of `a`, then the new ones of `b`, in order of appearance. */
  function UnionColumns(a: seq<string>, b: seq<string>): (r: seq<string>)
    ensures |a| <= |r| && r[..|a|] == a
    ensures forall k :: 0 <= k < |b| ==> b[k] in r
    ensures forall k :: 0 <= k < |r| ==> r[k] in a || r[k] in b
    ensures forall k :: |a| <= k < |r| ==> r[k] !in a
    ensures IsSubsequence(r[|a|..], b)
  {
    var isNew := (c: string) => c !in a;
    FilterIsSubsequence(b, isNew);
    assert (a + Filter(b, isNew))[|a|..] == Filter(b, isNew);
    a + Filter(b, isNew)
  }

  /** `pd.concat([a, b])`: the rows of `a` followed by the rows of `b`. */
  function ConcatTables(a: Table, b: Table): (r: Table)
    ensures multiset(r.rows) == multiset(a.rows) + multiset(b.rows)
    ensures |r.rows| == |a.rows| + |b.rows|
    ensures r.rows[..|a.rows|] == a.rows && r.rows[|a.rows|..] == b.rows
  {
    Table(UnionColumns(a.columns, b.columns), a.rows + b.rows)
  }

  /** The rows of all tables, one table after another. */
  function FlattenRows(ts: seq<Table>): seq<Row>
    decreases |ts|
  {
    if |ts| == 0 then [] else ts[0].rows + FlattenRows(ts[1..])
  }

  /** `pd.concat(ts, ignore_index=True)`: raises on an empty list, else stacks the rows of all tables. */
  function ConcatAll(ts: seq<Table>): (r: Result<Table, Error>)
    ensures r.Failure? <==> |ts| == 0
    ensures r.Failure? ==> r.error == NothingToConcatenate
    ensures r.Success? ==> r.value.rows == FlattenRows(ts)
    decreases |ts|
  {
    if |ts| == 0 then Failure(NothingToConcatenate)
    else if |ts| == 1 then
      assert ts[0].rows + [] == ts[0].rows;
      Success(ts[0])
    else Success(ConcatTables(ts[0], ConcatAll(ts[1..]).value))
  }
}

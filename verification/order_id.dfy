/**
 `extract_order_id`: the leftmost match of the regular expression `\d{12,}`
 in a cell's text. An order id is a run of at least twelve digits; shorter
 numbers in the text (prices, dates) are not ids.
 */
module OrderIds {
  import opened Wrappers
  import opened Digits
  import opened Sheets

  /** The `{12,}` in `\d{12,}`. */
  const MinIdLength: nat := 12

  /** Twelve digits start at position `i`, so `\d{12,}` can start matching there. */
  predicate DigitsAt(s: string, i: int) {
    0 <= i && i + MinIdLength <= |s| && forall k :: i <= k < i + MinIdLength ==> IsDigit(s[k])
  }

  /** `s[i..j]` is a maximal run of at least `MinIdLength` digits: no digit touches it on either side. */
  predicate IsIdRun(s: string, i: int, j: int) {
    && 0 <= i && i + MinIdLength <= j <= |s|
    && (forall k :: i <= k < j ==> IsDigit(s[k]))
    && (i == 0 || !IsDigit(s[i - 1]))
    && (j == |s| || !IsDigit(s[j]))
  }

  /** The regex engine's scan: the first start position at or after `i` where the pattern can match. */
  function MatchStart(s: string, i: nat): (r: Option<nat>)
    requires i <= |s|
    ensures r.Some? ==> i <= r.value && DigitsAt(s, r.value)
    ensures r.Some? ==> forall k :: i <= k < r.value ==> !DigitsAt(s, k)
    ensures r.None? <==> forall k :: i <= k ==> !DigitsAt(s, k)
    decreases |s| - i
  {
    if i + MinIdLength > |s| then None
    else if DigitsAt(s, i) then Some(i)
    else MatchStart(s, i + 1)
  }

  /**
   `re.search(r'\d{12,}', s)`, its matched text or `None`. The quantifier is
   greedy, so a match runs to the end of the digit run it starts in.
   */
  function SearchId(s: string): (r: Option<string>)
    ensures r.Some? ==> |r.value| >= MinIdLength && AllDigits(r.value)
  {
    match MatchStart(s, 0)
    case None => None
    case Some(i) => Some(s[i..RunEnd(s, i)])
  }

  /** `extract_order_id`: `None` for a missing cell, else the search over the cell's `str()` text. */
  function ExtractOrderId(c: Cell): (r: Option<string>)
    ensures c.Blank? ==> r.None?
    ensures r.Some? ==> |r.value| >= MinIdLength && AllDigits(r.value)
    ensures c.Text? ==> r == SearchId(c.s)
    ensures c.Number? ==> r == SearchId(IntToDecimal(c.n))
  {
    match c
    case Blank => None
    case Text(s) => SearchId(s)
    case Number(n) => SearchId(IntToDecimal(n))
  }

  /** A maximal run ends where the digits end. */
  lemma IdRunEnd(s: string, i: int, j: int)
    requires IsIdRun(s, i, j)
    ensures RunEnd(s, i) == j
  {
  }

  /** The first place twelve digits start is the start of a maximal run of at least twelve digits. */
  lemma FirstMatchIsIdRun(s: string, i: nat)
    requires MatchStart(s, 0) == Some(i)
    ensures IsIdRun(s, i, RunEnd(s, i))
  {
    if i > 0 && IsDigit(s[i - 1]) {
      assert DigitsAt(s, i - 1);
    }
  }

  /** The search finds nothing exactly when the text holds no run of twelve or more digits. */
  lemma SearchAbsentIff(s: string)
    ensures SearchId(s).None? <==> forall i, j :: !IsIdRun(s, i, j)
  {
    match MatchStart(s, 0)
    case None =>
      forall i, j | IsIdRun(s, i, j)
        ensures false
      {
        assert DigitsAt(s, i);
      }
    case Some(i) =>
      FirstMatchIsIdRun(s, i);
  }

  /** What the search returns is the leftmost maximal run of at least twelve digits. */
  lemma SearchFindsLeftmostRun(s: string)
    requires SearchId(s).Some?
    ensures exists i, j ::
      && IsIdRun(s, i, j)
      && SearchId(s).value == s[i..j]
      && forall i', j' :: IsIdRun(s, i', j') ==> i <= i'
  {
    var i := MatchStart(s, 0).value;
    var j := RunEnd(s, i);
    FirstMatchIsIdRun(s, i);
    forall i', j' | IsIdRun(s, i', j')
      ensures i <= i'
    {
      assert DigitsAt(s, i');
    }
  }

  /** Conversely, the leftmost maximal run of at least twelve digits is what the search returns. */
  lemma LeftmostRunIsFound(s: string, i: int, j: int)
    requires IsIdRun(s, i, j)
    requires forall i', j' :: IsIdRun(s, i', j') ==> i <= i'
    ensures SearchId(s) == Some(s[i..j])
  {
    assert DigitsAt(s, i);
    var m := MatchStart(s, 0).value;
    FirstMatchIsIdRun(s, m);
    assert m == i;
    IdRunEnd(s, i, j);
  }
}

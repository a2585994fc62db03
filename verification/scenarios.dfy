/**
 Concrete cells from an order summary, worked through the id extraction.
 */
module Scenarios {
  import opened Wrappers
  import opened Digits
  import opened OrderIds

  /** A twelve-digit number inside Chinese text is found as the id. */
  lemma TwelveDigitsFound()
    ensures SearchId("单号100000000001已处理") == Some("100000000001")
  {
    var id := "100000000001";
    var s := "单号" + id + "已处理";
    assert s == "单号100000000001已处理";
    assert s[14] == '已' && !IsDigit(s[14]);
    assert forall k :: 2 <= k < 14 ==> s[k] == id[k - 2];
    assert IsIdRun(s, 2, 14);
    assert !IsDigit(s[0]) && !IsDigit(s[1]);
    LeftmostRunIsFound(s, 2, 14);
    assert s[2..14] == id;
  }

  /** Eleven digits are too few: the summary holds no id. */
  lemma ElevenDigitsNotFound()
    ensures SearchId("价格12345678901") == None
  {
    var s := "价格" + "12345678901";
    assert s == "价格12345678901";
    assert |s| == 13 && !IsDigit(s[0]) && !IsDigit(s[1]);
    SearchAbsentIff(s);
  }

  /** The leftmost long run wins over a later one, and the match takes the whole run. */
  lemma LeftmostRunWins()
    ensures SearchId("1234567890123/999999999999") == Some("1234567890123")
  {
    var first := "1234567890123";
    var s := first + "/999999999999";
    assert s == "1234567890123/999999999999";
    assert forall k :: 0 <= k < 13 ==> s[k] == first[k];
    assert s[13] == '/' && !IsDigit(s[13]);
    assert IsIdRun(s, 0, 13);
    LeftmostRunIsFound(s, 0, 13);
    assert s[0..13] == first;
  }

  /** `int(float(x))` truncates toward zero, on either side of zero. */
  lemma FractionsTruncate()
    ensures ParseNumber("12.9") == Some(12)
    ensures ParseNumber("-1.5") == Some(-1)
  {
    assert DecimalPointAt("12.9", 2) && "12.9"[..2] == "12";
    FractionNumeralValue("12.9", 2);
    assert DecimalPointAt("1.5", 1) && "1.5"[..1] == "1";
    FractionNumeralValue("1.5", 1);
    assert "-" + "1.5" == "-1.5";
  }
}

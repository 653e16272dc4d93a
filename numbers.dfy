/**
 * utils/numbers.js: `ordinalSuffix`, which writes an integer followed by
 * "st", "nd", "rd" or "th". JavaScript's `%` keeps the sign of the dividend,
 * so a negative number always gets "th".
 */
module Numbers {
  import opened Decimal

  /** JavaScript's `i % m` for a positive `m`: the remainder truncated toward zero. */
  function JsRem(i: int, m: int): (r: int)
    requires m > 0
    ensures -m < r < m
    ensures i >= 0 ==> r == i % m
    ensures i < 0 ==> r == -((-i) % m)
  {
    if i >= 0 then i % m else -((-i) % m)
  }

  /** The two-letter suffix `ordinalSuffix` picks for `i`. */
  function Suffix(i: int): (s: string)
    ensures s == "st" <==> JsRem(i, 10) == 1 && JsRem(i, 100) != 11
    ensures s == "nd" <==> JsRem(i, 10) == 2 && JsRem(i, 100) != 12
    ensures s == "rd" <==> JsRem(i, 10) == 3 && JsRem(i, 100) != 13
    ensures s == "th" <==> !(JsRem(i, 10) in {1, 2, 3} && JsRem(i, 100) !in {11, 12, 13})
  {
    var j := JsRem(i, 10);
    var k := JsRem(i, 100);
    if j == 1 && k != 11 then "st"
    else if j == 2 && k != 12 then "nd"
    else if j == 3 && k != 13 then "rd"
    else "th"
  }

  /** `ordinalSuffix(i)`: the decimal form of `i` followed by its suffix. */
  function OrdinalSuffix(i: int): (text: string)
    ensures |text| == |IntToString(i)| + 2
    ensures text[..|text| - 2] == IntToString(i) && text[|text| - 2..] == Suffix(i)
  {
    IntToString(i) + Suffix(i)
  }

  /** The teens 11, 12 and 13 (also 111, 212, ...) take "th". */
  lemma TeensTakeTh(i: int)
    requires i >= 0 && i % 100 in {11, 12, 13}
    ensures Suffix(i) == "th"
  {
    assert JsRem(i, 10) == (i % 100) % 10 by {
      assert i % 10 == (i % 100) % 10;
    }
  }

  /** Negative numbers and numbers ending in 0 or 4 to 9 take "th". */
  lemma OtherEndingsTakeTh(i: int)
    requires i < 0 || i % 10 == 0 || i % 10 >= 4
    ensures Suffix(i) == "th"
  {
  }

  /** 111 is written "111th". */
  lemma OneHundredEleventh()
    ensures OrdinalSuffix(111) == "111th"
  {
    TeensTakeTh(111);
    assert IntToString(111) == "111" by {
      assert NatToString(111) == NatToString(11) + [DigitChar(1)];
      assert NatToString(11) == NatToString(1) + [DigitChar(1)];
    }
  }
}

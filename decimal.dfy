/**
 * Decimal rendering of non-negative integers and the left-padding used by
 * the split table's distance column (`formatDistance`).
 */
module Decimal {
  import opened Wrappers

  predicate IsDigit(c: char) {
    '0' <= c <= '9'
  }

  predicate AllDigits(s: string) {
    forall i :: 0 <= i < |s| ==> IsDigit(s[i])
  }

  function DigitChar(k: nat): (c: char)
    requires k < 10
    ensures IsDigit(c) && c as int - '0' as int == k
  {
    ('0' as int + k) as char
  }

  /** `n.toString()` for a non-negative integer: its decimal digits, without leading zeros. */
  function ToDecimal(n: nat): (s: string)
    ensures 1 <= |s| && AllDigits(s)
    ensures s[0] == '0' <==> n == 0
    decreases n
  {
    if n < 10 then [DigitChar(n)] else ToDecimal(n / 10) + [DigitChar(n % 10)]
  }

  /** The value of a string of decimal digits (the empty string reads as 0). */
  function ParseDecimal(s: string): nat
    requires AllDigits(s)
  {
    if s == [] then 0 else ParseDecimal(s[..|s| - 1]) * 10 + (s[|s| - 1] as int - '0' as int)
  }

  /** Reading the digits of `n` back gives `n`. */
  lemma {:induction false} ParseToDecimal(n: nat)
    ensures ParseDecimal(ToDecimal(n)) == n
  {
    if n >= 10 {
      ParseToDecimal(n / 10);
      var s := ToDecimal(n);
      assert s[..|s| - 1] == ToDecimal(n / 10);
    }
  }

  function Pow10(k: nat): (p: nat)
    ensures p >= 1
  {
    if k == 0 then 1 else 10 * Pow10(k - 1)
  }

  /** `n` has at most `k` digits exactly when it is below 10^k. */
  lemma {:induction false} ToDecimalLength(n: nat, k: nat)
    requires k >= 1
    ensures |ToDecimal(n)| <= k <==> n < Pow10(k)
  {
    if n >= 10 && k >= 2 {
      ToDecimalLength(n / 10, k - 1);
    } else if n >= 10 {
      assert Pow10(1) == 10;
    } else if k >= 2 {
      assert Pow10(k) == 10 * Pow10(k - 1);
    } else {
      assert Pow10(1) == 10;
    }
  }

  /** `s.padStart(width, fill)` with a one-character fill string. */
  function PadStart(s: string, width: nat, fill: char): (r: string)
    ensures |r| == if |s| < width then width else |s|
    ensures r[|r| - |s|..] == s
    ensures forall i :: 0 <= i < |r| - |s| ==> r[i] == fill
  {
    if |s| < width then seq(width - |s|, _ => fill) + s else s
  }

  /** The distance cell of the split table: the distance right-aligned in five columns, then "m". */
  function FormatDistance(distance: nat): (r: string)
    ensures |r| == 1 + (if |ToDecimal(distance)| < 5 then 5 else |ToDecimal(distance)|)
    ensures r[|r| - 1] == 'm'
    ensures r[|r| - 1 - |ToDecimal(distance)|..|r| - 1] == ToDecimal(distance)
    ensures forall i :: 0 <= i < |r| - 1 - |ToDecimal(distance)| ==> r[i] == ' '
    ensures distance < 100000 ==> |r| == 6
  {
    ToDecimalLength(distance, 5);
    assert Pow10(5) == 100000;
    PadStart(ToDecimal(distance), 5, ' ') + "m"
  }

  /** Drops the leading `fill` characters of `s`. */
  function TrimStart(s: string, fill: char): (r: string)
    ensures |r| <= |s| && r == s[|s| - |r|..]
    ensures r == [] || r[0] != fill
  {
    if s != [] && s[0] == fill then TrimStart(s[1..], fill) else s
  }

  /** Reads a distance cell back: leading spaces, at least one digit, then "m". */
  function ParseDistanceCell(cell: string): Option<nat> {
    if cell == [] || cell[|cell| - 1] != 'm' then None
    else
      var digits := TrimStart(cell[..|cell| - 1], ' ');
      if digits != [] && AllDigits(digits) then Some(ParseDecimal(digits)) else None
  }

  lemma {:induction false} TrimSpacesBeforeDigits(k: nat, s: string)
    requires s != [] && AllDigits(s)
    ensures TrimStart(seq(k, _ => ' ') + s, ' ') == s
  {
    if k > 0 {
      var t := seq(k, _ => ' ') + s;
      assert t[1..] == seq(k - 1, _ => ' ') + s;
      TrimSpacesBeforeDigits(k - 1, s);
    } else {
      assert seq(k, _ => ' ') + s == s;
    }
  }

  /** A formatted distance cell reads back as the distance it was made from. */
  lemma FormatDistanceRoundTrip(distance: nat)
    ensures ParseDistanceCell(FormatDistance(distance)) == Some(distance)
  {
    var digits := ToDecimal(distance);
    var cell := FormatDistance(distance);
    var padded := PadStart(digits, 5, ' ');
    assert cell[..|cell| - 1] == padded;
    if |digits| < 5 {
      TrimSpacesBeforeDigits(5 - |digits|, digits);
    } else {
      TrimSpacesBeforeDigits(0, digits);
      assert seq(0, _ => ' ') + digits == digits;
    }
    ParseToDecimal(distance);
  }

  /** `formatDistance(200)` is "  200m". */
  lemma FormatDistanceExample()
    ensures FormatDistance(200) == "  200m"
  {
    assert ToDecimal(200) == "200";
  }
}

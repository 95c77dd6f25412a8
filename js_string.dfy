/** The string operations `getDateWithHours` uses: `indexOf`, `substring` and
    the numeric coercion `~~s`. */
module JsString {

  predicate IsDigit(c: char)
  {
    '0' <= c <= '9'
  }

  /** A non-empty string made only of the decimal digits 0-9. */
  predicate IsDigits(s: string)
  {
    |s| > 0 && forall i :: 0 <= i < |s| ==> IsDigit(s[i])
  }

  /** `s.indexOf(c)`: the position of the first occurrence of `c`, or -1. */
  function IndexOf(s: string, c: char): (r: int)
    ensures -1 <= r < |s|
    ensures r == -1 <==> c !in s
    ensures r >= 0 ==> s[r] == c && c !in s[..r]
  {
    if s == [] then -1
    else if s[0] == c then 0
    else
      var k := IndexOf(s[1..], c);
      assert s[1..][..if k < 0 then 0 else k] == s[1..if k < 0 then 1 else k + 1];
      if k < 0 then -1 else k + 1
  }

  /** Clamps a `substring` argument to the range [0, len]. */
  function Clamp(i: int, len: nat): (r: nat)
    ensures r <= len
    ensures 0 <= i <= len ==> r == i
    ensures i < 0 ==> r == 0
    ensures i > len ==> r == len
  {
    if i < 0 then 0 else if i > len then len else i
  }

  /** `s.substring(start, end)`: both arguments are clamped to [0, |s|] and
      swapped when the start lies after the end. */
  function Substring(s: string, start: int, end: int): (r: string)
    ensures 0 <= start <= end <= |s| ==> r == s[start..end]
    ensures start <= 0 && end <= 0 ==> r == ""
    ensures start <= 0 && end >= |s| ==> r == s
    ensures 0 <= end <= start <= |s| ==> r == s[end..start]
    ensures end <= 0 && 0 <= start <= |s| ==> r == s[..start]
  {
    var a, b := Clamp(start, |s|), Clamp(end, |s|);
    if a <= b then s[a..b] else s[b..a]
  }

  /** The value of a string of decimal digits. */
  function DecimalValue(s: string): (n: nat)
    requires forall i :: 0 <= i < |s| ==> IsDigit(s[i])
  {
    if s == [] then 0
    else
      assert IsDigit(s[|s| - 1]);
      10 * DecimalValue(s[..|s| - 1]) + (s[|s| - 1] as int - '0' as int)
  }

  /** `~~s`, restricted to what the portal's hour strings contain: a string of
      decimal digits converts to its value, and anything else (the empty string,
      a string holding a letter) converts to 0. */
  function ToInteger(s: string): (n: nat)
    ensures !IsDigits(s) ==> n == 0
    ensures s != [] && !IsDigit(s[0]) ==> n == 0
  {
    if IsDigits(s) then DecimalValue(s) else 0
  }

  /** The decimal digits of `n`, without leading zeros: the reference encoding
      `ToInteger` is checked against. */
  function Digits(n: nat): (s: string)
    ensures IsDigits(s)
    decreases n
  {
    if n < 10 then [('0' as int + n) as char]
    else Digits(n / 10) + [('0' as int + n % 10) as char]
  }

  /** Converting the decimal digits of `n` gives `n` back. */
  lemma {:induction false} ToIntegerDigits(n: nat)
    ensures ToInteger(Digits(n)) == n
  {
    var s := Digits(n);
    if n >= 10 {
      ToIntegerDigits(n / 10);
      assert s[..|s| - 1] == Digits(n / 10);
      assert s[|s| - 1] as int - '0' as int == n % 10;
      assert DecimalValue(s) == 10 * (n / 10) + n % 10;
    } else {
      assert s[..|s| - 1] == [];
      assert DecimalValue(s) == n;
    }
  }

  /** A digit string with zeros in front has the same value. */
  lemma {:induction false} ToIntegerLeadingZero(s: string)
    requires IsDigits(s)
    ensures ToInteger("0" + s) == ToInteger(s)
  {
    var t := "0" + s;
    assert IsDigits(t) by {
      forall i | 0 <= i < |t| ensures IsDigit(t[i]) {
        if i > 0 { assert t[i] == s[i - 1]; }
      }
    }
    LeadingZeroValue(s);
  }

  /** The induction behind `ToIntegerLeadingZero`, on the digit values. */
  lemma {:induction false} LeadingZeroValue(s: string)
    requires forall i :: 0 <= i < |s| ==> IsDigit(s[i])
    ensures DecimalValue("0" + s) == DecimalValue(s)
  {
    var t := "0" + s;
    if s == [] {
      assert t[..|t| - 1] == [];
    } else {
      var p := s[..|s| - 1];
      assert t[..|t| - 1] == "0" + p;
      assert t[|t| - 1] == s[|s| - 1];
      LeadingZeroValue(p);
    }
  }
}

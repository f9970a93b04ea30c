/** JavaScript number behaviour the core depends on: `Math.pow`, `String(n)` for
    non-negative integers, `parseInt(s, 10)` and NaN propagation through `*`. */
module Numbers {
  import Text

  /** A JavaScript number restricted to integers, with NaN. */
  datatype Num = Finite(n: int) | NaN {
    /** `this * k`: NaN stays NaN. */
    function Times(k: int): (r: Num)
      ensures r.NaN? <==> this.NaN?
      ensures r.Finite? ==> r.n == this.n * k
    {
      match this
      case Finite(n) => Finite(n * k)
      case NaN => NaN
    }
  }

  function Pow(b: nat, e: nat): (r: nat)
    ensures b > 0 ==> r > 0
  {
    if e == 0 then 1 else b * Pow(b, e - 1)
  }

  function DigitChar(d: nat): (c: char)
    requires d < 10
    ensures Text.IsDigit(c)
  {
    ('0' as int + d) as char
  }

  function DigitValue(c: char): (d: nat)
    requires Text.IsDigit(c)
    ensures d < 10
  {
    c as int - '0' as int
  }

  /** `String(n)` for a non-negative integer: its decimal digits, no leading zero. */
  function DecimalString(n: nat): (s: string)
    ensures |s| > 0
    ensures forall i :: 0 <= i < |s| ==> Text.IsDigit(s[i])
    ensures n > 0 ==> s[0] != '0'
  {
    if n < 10 then [DigitChar(n)] else DecimalString(n / 10) + [DigitChar(n % 10)]
  }

  /** The value of a string made of decimal digits only. */
  function DigitsValue(s: string): nat
    requires forall i :: 0 <= i < |s| ==> Text.IsDigit(s[i])
  {
    if |s| == 0 then 0 else DigitsValue(s[..|s| - 1]) * 10 + DigitValue(s[|s| - 1])
  }

  /** Length of the run of decimal digits at the start of `s`. */
  function DigitRun(s: string): (k: nat)
    ensures k <= |s|
    ensures forall i :: 0 <= i < k ==> Text.IsDigit(s[i])
    ensures k == |s| || !Text.IsDigit(s[k])
  {
    if |s| > 0 && Text.IsDigit(s[0]) then 1 + DigitRun(s[1..]) else 0
  }

  /** `parseInt(s, 10)`: leading white space skipped, an optional sign, then the
      longest run of digits; NaN when that run is empty. */
  function ParseInt10(s: string): (r: Num)
    ensures r.Finite? ==> exists i :: 0 <= i < |s| && Text.IsDigit(s[i])
  {
    var t := s[Text.LeadingSpace(s)..];
    var negative := |t| > 0 && t[0] == '-';
    var u := if |t| > 0 && (t[0] == '-' || t[0] == '+') then t[1..] else t;
    var k := DigitRun(u);
    if k == 0 then NaN
    else
      assert Text.IsDigit(u[0]);
      var v := DigitsValue(u[..k]);
      Finite(if negative then 0 - (v as int) else v as int)
  }

  lemma {:induction false} DecimalStringValue(n: nat)
    ensures DigitsValue(DecimalString(n)) == n
  {
    var s := DecimalString(n);
    if n >= 10 {
      DecimalStringValue(n / 10);
      assert s[..|s| - 1] == DecimalString(n / 10);
    }
  }

  lemma {:induction false} DigitRunAll(s: string)
    requires forall i :: 0 <= i < |s| ==> Text.IsDigit(s[i])
    ensures DigitRun(s) == |s|
  {
    if |s| > 0 {
      DigitRunAll(s[1..]);
    }
  }

  /** `parseInt(String(n), 10) == n`: printing then parsing a non-negative integer is the identity. */
  lemma ParseDecimalRoundTrip(n: nat)
    ensures ParseInt10(DecimalString(n)) == Finite(n)
  {
    var s := DecimalString(n);
    assert !Text.IsJsSpace(s[0]);
    assert Text.LeadingSpace(s) == 0;
    assert s[0..] == s;
    DigitRunAll(s);
    assert s[..|s|] == s;
    DecimalStringValue(n);
  }

  /** A number in [10^(k-1), 10^k) prints with exactly k digits. */
  lemma {:induction false} DecimalStringLength(n: nat, k: nat)
    requires k >= 1 && Pow(10, k - 1) <= n < Pow(10, k)
    ensures |DecimalString(n)| == k
  {
    if k > 1 {
      assert Pow(10, k - 1) == 10 * Pow(10, k - 2);
      assert Pow(10, k) == 10 * Pow(10, k - 1);
      DecimalStringLength(n / 10, k - 1);
    }
  }
}

/** Decimal numerals: what Python's `str(n)`, `int(s)` and `f"{n:02d}"` do on non-negative numbers. */
module Decimal {

  predicate IsDigit(c: char) {
    '0' <= c <= '9'
  }

  predicate AllDigits(s: string) {
    forall i | 0 <= i < |s| :: IsDigit(s[i])
  }

  function DigitChar(d: nat): (c: char)
    requires d < 10
    ensures IsDigit(c) && DigitValue(c) == d
  {
    "0123456789"[d]
  }

  function DigitValue(c: char): nat
    requires IsDigit(c)
  {
    c as int - '0' as int
  }

  /** `int(s)` on a string of digits, leading zeros allowed. */
  function Value(s: string): nat
    requires AllDigits(s)
  {
    if s == "" then 0 else 10 * Value(s[..|s| - 1]) + DigitValue(s[|s| - 1])
  }

  /** `str(n)`. */
  function Show(n: nat): (s: string)
    ensures AllDigits(s) && |s| >= 1 && Value(s) == n
    ensures n < 10 ==> |s| == 1
    ensures n < 100 ==> |s| <= 2
    ensures n < 1000 ==> |s| <= 3
    ensures n >= 10 ==> |s| >= 2
    ensures n >= 100 ==> |s| >= 3
  {
    if n < 10 then
      var s := [DigitChar(n)];
      assert s[..0] == "";
      s
    else
      var s := Show(n / 10) + [DigitChar(n % 10)];
      assert s[..|s| - 1] == Show(n / 10);
      s
  }

  function Zeros(n: nat): (s: string)
    ensures |s| == n && forall i | 0 <= i < n :: s[i] == '0'
  {
    seq(n, _ => '0')
  }

  /** `f"{n:0{width}d}"`. */
  function Padded(n: nat, width: nat): (s: string)
    ensures AllDigits(s) && Value(s) == n
    ensures |s| == if |Show(n)| < width then width else |Show(n)|
  {
    var s := Show(n);
    if |s| < width then
      ZerosDoNotCount(width - |s|, s);
      Zeros(width - |s|) + s
    else s
  }

  lemma {:induction false} ZerosDoNotCount(k: nat, s: string)
    requires AllDigits(s)
    ensures AllDigits(Zeros(k) + s) && Value(Zeros(k) + s) == Value(s)
    decreases k + |s|
  {
    var z := Zeros(k) + s;
    if s != "" {
      assert z[..|z| - 1] == Zeros(k) + s[..|s| - 1];
      ZerosDoNotCount(k, s[..|s| - 1]);
    } else if k > 0 {
      assert z[..|z| - 1] == Zeros(k - 1) + "";
      ZerosDoNotCount(k - 1, "");
    }
  }

  /** Different numbers have different numerals. */
  lemma ShowInjective(m: nat, n: nat)
    requires Show(m) == Show(n)
    ensures m == n
  {
    assert Value(Show(m)) == Value(Show(n));
  }
}

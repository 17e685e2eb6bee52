/** Decimal text of numbers, as the f-strings of the source render it, and how to read it back. */
module Decimals {

  function Digit(d: nat): char
    requires d < 10
  {
    ("0123456789")[d]
  }

  predicate IsNumeral(s: string) {
    forall i | 0 <= i < |s| :: '0' <= s[i] <= '9'
  }

  /** `f"{n}"` for a non-negative number. */
  function Digits(n: nat): (s: string)
    ensures |s| > 0 && IsNumeral(s)
  {
    if n < 10 then [Digit(n)] else Digits(n / 10) + [Digit(n % 10)]
  }

  /** `f"{n}"`. */
  function Text(n: int): string {
    if n < 0 then "-" + Digits(-n) else Digits(n)
  }

  /** `f"{n:0{width}d}"` for a non-negative number: zeros in front up to `width`. */
  function Padded(n: nat, width: nat): (s: string)
    ensures |s| > 0 && IsNumeral(s) && |s| >= width
  {
    var s := Digits(n);
    Zeros(width - |s|) + s
  }

  function Zeros(n: int): (s: string)
    ensures |s| == if n < 0 then 0 else n
    ensures forall i | 0 <= i < |s| :: s[i] == '0'
  {
    if n <= 0 then "" else "0" + Zeros(n - 1)
  }

  /** The number a numeral stands for. */
  function Value(s: string): nat
    requires IsNumeral(s)
  {
    if s == "" then 0
    else Value(s[..|s| - 1]) * 10 + (s[|s| - 1] - '0') as nat
  }

  lemma {:induction false} ValueOfDigits(n: nat)
    ensures Value(Digits(n)) == n
  {
    if n >= 10 {
      ValueOfDigits(n / 10);
      var s := Digits(n);
      assert s[..|s| - 1] == Digits(n / 10);
    } else {
      assert Digits(n)[..0] == "";
    }
  }

  lemma {:induction false} ZerosInFront(n: int, s: string)
    requires IsNumeral(s)
    ensures Value(Zeros(n) + s) == Value(s)
    decreases |s|, n
  {
    var t := Zeros(n) + s;
    if s == "" {
      if n > 0 {
        ZerosInFront(n - 1, "");
        assert t[..|t| - 1] == Zeros(n - 1) + "";
      }
    } else {
      ZerosInFront(n, s[..|s| - 1]);
      assert t[..|t| - 1] == Zeros(n) + s[..|s| - 1];
    }
  }

  /** Padding never changes the number, whether or not it still has room to pad. */
  lemma ValueOfPadded(n: nat, width: nat)
    ensures Value(Padded(n, width)) == n
  {
    ValueOfDigits(n);
    ZerosInFront(width - |Digits(n)|, Digits(n));
  }

  lemma SignOfText(n: int)
    ensures |Text(n)| > 0 && (Text(n)[0] == '-') == (n < 0)
    ensures n < 0 ==> Text(n)[1..] == Digits(-n)
  {}

  lemma DigitsInjective(m: nat, n: nat)
    requires Digits(m) == Digits(n)
    ensures m == n
  {
    ValueOfDigits(m);
    ValueOfDigits(n);
  }

  lemma TextInjective(m: int, n: int)
    requires Text(m) == Text(n)
    ensures m == n
  {
    SignOfText(m);
    SignOfText(n);
    if m < 0 {
      DigitsInjective(-m, -n);
    } else {
      DigitsInjective(m, n);
    }
  }

  /** Position of the first `c`, or the length when there is none. */
  function IndexOf(s: string, c: char): (i: nat)
    ensures i <= |s|
    ensures i < |s| ==> s[i] == c
    ensures c !in s[..i]
  {
    if s == "" || s[0] == c then 0
    else
      var i := 1 + IndexOf(s[1..], c);
      assert s[..i] == [s[0]] + s[1..][..i - 1];
      i
  }

  /** Cutting at a separator that does not occur in the first part gives both parts back. */
  lemma SplitAtSeparator(a: string, c: char, b: string)
    requires c !in a
    ensures IndexOf(a + [c] + b, c) == |a|
    ensures (a + [c] + b)[..|a|] == a && (a + [c] + b)[|a| + 1..] == b
  {
    var s := a + [c] + b;
    var i := IndexOf(s, c);
    assert s[|a|] == c;
    assert forall k | 0 <= k < |a| :: s[k] == a[k];
    assert forall k | 0 <= k < i :: s[..i][k] != c;
    assert i == |a|;
  }
}

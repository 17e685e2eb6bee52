/** The text of invoice numbers (app/invoice/service.py). */
module InvoiceNumbers {
  import opened Options
  import opened Decimals

  /** `f"INV-{year}-{seq:04d}"` */
  function InvoiceNumber(year: nat, sequence: nat): string {
    "INV-" + Digits(year) + "-" + Padded(sequence, 4)
  }

  lemma DigitsOf(n: nat, d: nat)
    requires n > 0 && d < 10
    ensures Digits(10 * n + d) == Digits(n) + [Digit(d)]
  {}

  lemma DigitsInPrint()
    ensures Digits(2026) == "2026" && Digits(12345) == "12345"
  {
    DigitsOf(2, 0);
    DigitsOf(20, 2);
    DigitsOf(202, 6);
    DigitsOf(1, 2);
    DigitsOf(12, 3);
    DigitsOf(123, 4);
    DigitsOf(1234, 5);
    hide Digits;
    assert Digits(2) == "2" && Digits(1) == "1" by {
      OneDigit(2);
      OneDigit(1);
    }
    assert Digits(20) == "20" && Digits(202) == "202" && Digits(2026) == "2026";
    assert Digits(12) == "12" && Digits(123) == "123" && Digits(1234) == "1234" && Digits(12345) == "12345";
  }

  lemma OneDigit(d: nat)
    requires d < 10
    ensures Digits(d) == [Digit(d)]
  {}

  /** The numbers a merchant sees: four digits at least, and as many as it takes. */
  lemma NumbersInPrint()
    ensures InvoiceNumber(2026, 7) == "INV-2026-0007"
    ensures InvoiceNumber(2026, 12345) == "INV-2026-12345"
  {
    DigitsInPrint();
    OneDigit(7);
    hide Digits;
    assert Zeros(0) == "" && Zeros(1) == "0" + Zeros(0) && Zeros(2) == "0" + Zeros(1) && Zeros(3) == "0" + Zeros(2);
    assert Padded(7, 4) == "0007" && Padded(12345, 4) == "12345";
    hide Padded;
    assert "INV-" + "2026" + "-" + "0007" == "INV-2026-0007";
    assert "INV-" + "2026" + "-" + "12345" == "INV-2026-12345";
  }

  function Parse(number: string): Option<(nat, nat)> {
    if |number| < 4 || number[..4] != "INV-" then None
    else
      var rest := number[4..];
      var cut := IndexOf(rest, '-');
      if cut == |rest| then None
      else
        var year, sequence := rest[..cut], rest[cut + 1..];
        if IsNumeral(year) && IsNumeral(sequence) && year != "" && sequence != ""
        then Some((Value(year), Value(sequence)))
        else None
  }

  /** Every number reads back as its (year, sequence), also past 9999. */
  lemma ParseRoundTrip(year: nat, sequence: nat)
    ensures Parse(InvoiceNumber(year, sequence)) == Some((year, sequence))
  {
    var y, s := Digits(year), Padded(sequence, 4);
    var number := InvoiceNumber(year, sequence);
    assert number[..4] == "INV-";
    assert number[4..] == y + ['-'] + s;
    SplitAtSeparator(y, '-', s);
    ValueOfDigits(year);
    ValueOfPadded(sequence, 4);
  }

  lemma NumberInjective(y: nat, s: nat, y': nat, s': nat)
    ensures InvoiceNumber(y, s) == InvoiceNumber(y', s') <==> y == y' && s == s'
  {
    ParseRoundTrip(y, s);
    ParseRoundTrip(y', s');
  }

  /** Four digits as long as they suffice, then as many as the number needs. */
  lemma PaddingWidth(s: nat)
    ensures s < 10000 ==> |Padded(s, 4)| == 4
    ensures s >= 10000 ==> Padded(s, 4) == Digits(s) && |Digits(s)| > 4
  {
    if s < 10000 {
      DigitsShort(s, 4);
    } else {
      DigitsLong(s);
    }
  }

  function Pow10(k: nat): nat {
    if k == 0 then 1 else 10 * Pow10(k - 1)
  }

  lemma {:induction false} DigitsShort(n: nat, k: nat)
    requires k > 0 && n < Pow10(k)
    ensures |Digits(n)| <= k
  {
    if n >= 10 {
      DigitsShort(n / 10, k - 1);
    }
  }

  lemma DigitsLong(n: nat)
    requires n >= 10000
    ensures |Digits(n)| > 4
  {
    var a := n / 10;
    var b := a / 10;
    var c := b / 10;
    assert |Digits(n)| == |Digits(a)| + 1;
    assert |Digits(a)| == |Digits(b)| + 1;
    assert |Digits(b)| == |Digits(c)| + 1;
    assert |Digits(c)| == |Digits(c / 10)| + 1;
  }
}

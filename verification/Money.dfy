/** The `Money` value object (app/common/money.py) and the order totals built on it
    (app/order/service.py). Decimals are exact rationals (`real`); a `Money` holds whole cents. */
module Money {
  import opened Options
  import opened Permutations

  /** `quantize(..., ROUND_HALF_UP)` in units of one cent: ties go away from zero. */
  function RoundHalfUp(x: real): int {
    if x >= 0.0 then (x + 0.5).Floor else -((-x + 0.5).Floor)
  }

  function Times(x: real, y: real): real {
    x * y
  }

  datatype Money = Money(cents: int, currency: string) {
    /** The decimal the object carries. */
    function Amount(): real {
      cents as real / 100.0
    }

    function Add(other: Money): Option<Money> {
      if currency != other.currency then None else Make(Amount() + other.Amount(), currency)
    }

    function Sub(other: Money): Option<Money> {
      if currency != other.currency then None else Make(Amount() - other.Amount(), currency)
    }

    function Mul(factor: real): Option<Money> {
      Make(Times(Amount(), factor), currency)
    }
  }

  /** `Money(amount, currency)`: quantised at construction, refused for a malformed currency. */
  function Make(amount: real, currency: string): Option<Money> {
    if |currency| != 3 then None else Some(Money(RoundHalfUp(amount * 100.0), currency))
  }

  ghost function Distance(x: real, q: int): real {
    if x >= q as real then x - q as real else q as real - x
  }

  ghost function Magnitude(x: real): real {
    if x < 0.0 then -x else x
  }

  /** Rounding is the nearest whole number, and the one further from zero on a tie. */
  ghost predicate NearestAwayFromZero(x: real, q: int) {
    || Distance(x, q) < 0.5
    || (Distance(x, q) == 0.5 && Magnitude(q as real) >= Magnitude(x))
  }

  lemma RoundingIsNearest(x: real, q: int)
    ensures NearestAwayFromZero(x, q) <==> q == RoundHalfUp(x)
  {
    var f := if x >= 0.0 then (x + 0.5).Floor else (-x + 0.5).Floor;
    if NearestAwayFromZero(x, q) {
      if x >= 0.0 {
        assert q as real <= x + 0.5 < q as real + 1.0;
      } else {
        assert -q as real <= -x + 0.5 < -q as real + 1.0;
      }
    }
  }

  lemma RoundingWhole(n: int)
    ensures RoundHalfUp(n as real) == n
  {}

  lemma CentsOfAmount(m: Money)
    ensures m.Amount() * 100.0 == m.cents as real
  {}

  lemma Distribute(x: real, y: real)
    ensures (x + y) * 100.0 == x * 100.0 + y * 100.0
    ensures (x - y) * 100.0 == x * 100.0 - y * 100.0
  {}

  lemma TimesHundred(x: real, factor: real, c: real)
    requires x * 100.0 == c
    ensures Times(x, factor) * 100.0 == Times(c, factor)
  {
    assert x * factor * 100.0 == x * 100.0 * factor;
  }

  /** Sums and differences of amounts already in cents are not rounded again. */
  lemma ArithmeticIsExact(a: Money, b: Money)
    requires a.currency == b.currency && |a.currency| == 3
    ensures a.Add(b) == Some(Money(a.cents + b.cents, a.currency))
    ensures a.Sub(b) == Some(Money(a.cents - b.cents, a.currency))
  {
    hide RoundHalfUp, Money.Amount;
    var x, y := a.Amount(), b.Amount();
    CentsOfAmount(a);
    CentsOfAmount(b);
    Distribute(x, y);
    RoundingWhole(a.cents + b.cents);
    RoundingWhole(a.cents - b.cents);
  }

  /** Without a currency code of three characters there is no amount, and amounts of different currencies are
      never added or subtracted. */
  lemma CurrenciesGuarded(amount: real, currency: string, a: Money, b: Money)
    ensures Make(amount, currency).Some? <==> |currency| == 3
    ensures Make(amount, currency).Some? ==>
              && Make(amount, currency).value.currency == currency
              && NearestAwayFromZero(amount * 100.0, Make(amount, currency).value.cents)
    ensures a.currency != b.currency ==> a.Add(b).None? && a.Sub(b).None?
    ensures |a.currency| == 3 && a.currency == b.currency ==> a.Add(b).Some? && a.Sub(b).Some?
  {
    RoundingIsNearest(amount * 100.0, RoundHalfUp(amount * 100.0));
    hide RoundHalfUp, NearestAwayFromZero, Money.Amount;
  }

  /** A multiple of an amount, in cents. */
  function Share(cents: int, factor: real): int {
    RoundHalfUp(Times(cents as real, factor))
  }

  /** A product is rounded once. */
  lemma ProductRoundedOnce(m: Money, factor: real)
    requires |m.currency| == 3
    ensures m.Mul(factor) == Some(Money(Share(m.cents, factor), m.currency))
  {
    hide RoundHalfUp, Money.Amount, Times;
    CentsOfAmount(m);
    TimesHundred(m.Amount(), factor, m.cents as real);
  }

  lemma WholeProduct(x: int, y: int)
    ensures Times(x as real, y as real) == (x * y) as real
  {}

  lemma ScalingIsExact(a: Money, k: int)
    requires |a.currency| == 3
    ensures a.Mul(k as real) == Some(Money(a.cents * k, a.currency))
  {
    hide RoundHalfUp, Money.Mul, Times;
    ProductRoundedOnce(a, k as real);
    WholeProduct(a.cents, k);
    RoundingWhole(a.cents * k);
  }

  /** An ordered line as the totals see it: unit price and quantity. */
  datatype PricedLine = PricedLine(price: real, quantity: int)

  datatype Totals = Totals(subtotal: int, tax: int, total: int)

  function LineCents(line: PricedLine): int {
    RoundHalfUp(line.price * 100.0) * line.quantity
  }

  /** Goods value in cents: every unit price rounded once, then scaled exactly. */
  function Goods(lines: seq<PricedLine>): int {
    if lines == [] then 0
    else Goods(lines[..|lines| - 1]) + LineCents(lines[|lines| - 1])
  }

  function WithTax(goods: int, rate: real): Totals {
    var tax := Share(goods, rate);
    Totals(goods, tax, goods + tax)
  }

  /** What the totals must be, with no loop and no intermediate rounding. */
  function OrderTotals(lines: seq<PricedLine>, rate: real): Totals {
    WithTax(Goods(lines), rate)
  }

  lemma LineMoney(line: PricedLine)
    ensures Make(line.price, "INR").Some? && Make(line.price, "INR").value.currency == "INR"
    ensures Make(line.price, "INR").value.Mul(line.quantity as real) == Some(Money(LineCents(line), "INR"))
  {
    hide RoundHalfUp, Money.Mul;
    ScalingIsExact(Make(line.price, "INR").value, line.quantity);
  }

  /** `compute_order_totals`: accumulates `Money`, which quantises at every step. */
  method ComputeOrderTotals(lines: seq<PricedLine>, rate: real) returns (t: Totals)
    ensures t == OrderTotals(lines, rate)
  {
    hide RoundHalfUp, LineCents, Make, Share, Times, Money.Mul, Money.Add;
    var subtotal := Money(0, "INR");
    for i := 0 to |lines|
      invariant subtotal == Money(Goods(lines[..i]), "INR")
    {
      LineMoney(lines[i]);
      var unit := Make(lines[i].price, "INR").value;
      var line := unit.Mul(lines[i].quantity as real).value;
      ArithmeticIsExact(subtotal, line);
      assert lines[..i + 1][..i] == lines[..i];
      subtotal := subtotal.Add(line).value;
    }
    assert lines[..|lines|] == lines;
    ProductRoundedOnce(subtotal, rate);
    var tax := subtotal.Mul(rate).value;
    ArithmeticIsExact(subtotal, tax);
    var total := subtotal.Add(tax).value;
    t := Totals(subtotal.cents, tax.cents, total.cents);
  }

  ghost function ExactLine(line: PricedLine): real {
    line.price * 100.0 * (line.quantity as real)
  }

  /** The exact value of the lines, in cents. */
  ghost function ExactGoods(lines: seq<PricedLine>): real {
    if lines == [] then 0.0
    else ExactGoods(lines[..|lines| - 1]) + ExactLine(lines[|lines| - 1])
  }

  /** A price with at most two decimals. */
  ghost predicate TwoDecimals(price: real) {
    price * 100.0 == (price * 100.0).Floor as real
  }

  lemma {:induction false} GoodsAreExact(lines: seq<PricedLine>)
    requires forall l :: l in lines ==> TwoDecimals(l.price)
    ensures Goods(lines) as real == ExactGoods(lines)
  {
    if lines != [] {
      var last := lines[|lines| - 1];
      GoodsAreExact(lines[..|lines| - 1]);
      var cents := (last.price * 100.0).Floor;
      assert RoundHalfUp(last.price * 100.0) == cents;
      assert (cents as real) * (last.quantity as real) == (cents * last.quantity) as real;
    }
  }

  lemma ShareIsNearest(cents: int, exact: real, rate: real)
    requires cents as real == exact
    ensures NearestAwayFromZero(Times(exact, rate), Share(cents, rate))
  {
    hide RoundHalfUp, NearestAwayFromZero, Times;
    RoundingIsNearest(Times(exact, rate), RoundHalfUp(Times(exact, rate)));
  }

  /** For catalog prices the subtotal is the exact rational sum, and the tax is within half a
      cent of exact however many lines there are. */
  lemma TotalsWithinHalfCent(lines: seq<PricedLine>, rate: real)
    requires forall l :: l in lines ==> TwoDecimals(l.price)
    ensures var t := OrderTotals(lines, rate);
            && t.subtotal as real == ExactGoods(lines)
            && NearestAwayFromZero(Times(ExactGoods(lines), rate), t.tax)
            && t.total == t.subtotal + t.tax
  {
    hide Share, Times, NearestAwayFromZero, Goods, ExactGoods;
    GoodsAreExact(lines);
    ShareIsNearest(Goods(lines), ExactGoods(lines), rate);
  }

  lemma {:induction false} GoodsNonNegative(lines: seq<PricedLine>)
    requires forall l :: l in lines ==> l.price >= 0.0 && l.quantity >= 0
    ensures Goods(lines) >= 0
  {
    if lines != [] {
      GoodsNonNegative(lines[..|lines| - 1]);
      var last := lines[|lines| - 1];
      assert RoundHalfUp(last.price * 100.0) >= 0;
    }
  }

  /** Tax never leaves the range the rate allows. */
  lemma TaxBounded(lines: seq<PricedLine>, rate: real)
    requires forall l :: l in lines ==> l.price >= 0.0 && l.quantity >= 0
    requires 0.0 <= rate <= 1.0
    ensures var t := OrderTotals(lines, rate); 0 <= t.tax <= t.subtotal <= t.total
  {
    GoodsNonNegative(lines);
    ShareOf(Goods(lines), rate);
  }

  lemma TimesBounded(x: real, rate: real)
    requires 0.0 <= x && 0.0 <= rate <= 1.0
    ensures 0.0 <= Times(x, rate) <= x
  {
    var rest := 1.0 - rate;
    assert x * rest >= 0.0;
    assert x * rate + x * rest == x;
  }

  lemma RoundingBounded(x: real, n: nat)
    requires 0.0 <= x <= n as real
    ensures 0 <= RoundHalfUp(x) <= n
  {}

  lemma ShareOf(goods: nat, rate: real)
    requires 0.0 <= rate <= 1.0
    ensures 0 <= Share(goods, rate) <= goods
  {
    hide Times, RoundHalfUp;
    TimesBounded(goods as real, rate);
    RoundingBounded(Times(goods as real, rate), goods);
  }

  lemma {:induction false} GoodsConcat(a: seq<PricedLine>, b: seq<PricedLine>)
    ensures Goods(a + b) == Goods(a) + Goods(b)
  {
    if b == [] {
      assert a + b == a;
    } else {
      GoodsConcat(a, b[..|b| - 1]);
      assert (a + b)[..|a + b| - 1] == a + b[..|b| - 1];
    }
  }

  lemma GoodsWithout(lines: seq<PricedLine>, i: nat)
    requires i < |lines|
    ensures Goods(lines) == Goods(Without(lines, i)) + Goods([lines[i]])
  {
    hide Goods, LineCents;
    var a, b := lines[..i], lines[i + 1..];
    assert lines == a + [lines[i]] + b;
    GoodsConcat(a + [lines[i]], b);
    GoodsConcat(a, [lines[i]]);
    GoodsConcat(a, b);
  }

  lemma {:induction false} GoodsPermuted(a: seq<PricedLine>, b: seq<PricedLine>)
    requires multiset(a) == multiset(b)
    ensures Goods(a) == Goods(b)
    decreases |a|
  {
    if a == [] {
      assert |multiset(b)| == 0;
    } else {
      hide LineCents, Goods;
      var last := |a| - 1;
      assert a[last] in multiset(b);
      var i :| 0 <= i < |b| && b[i] == a[last];
      GoodsWithout(b, i);
      GoodsWithout(a, last);
      SameWithout(a, last, b, i);
      GoodsPermuted(Without(a, last), Without(b, i));
    }
  }

  /** The order of the lines does not matter, and neither does splitting a quantity over lines. */
  lemma TotalsIgnoreOrderAndSplitting(a: seq<PricedLine>, b: seq<PricedLine>, price: real, m: int, n: int,
                                      rate: real)
    requires multiset(a) == multiset(b)
    ensures OrderTotals(a, rate) == OrderTotals(b, rate)
    ensures OrderTotals(a + [PricedLine(price, m), PricedLine(price, n)], rate)
         == OrderTotals(b + [PricedLine(price, m + n)], rate)
  {
    GoodsPermuted(a, b);
    GoodsMerged(a, b, price, m, n);
  }

  lemma GoodsMerged(a: seq<PricedLine>, b: seq<PricedLine>, price: real, m: int, n: int)
    requires Goods(a) == Goods(b)
    ensures Goods(a + [PricedLine(price, m), PricedLine(price, n)]) == Goods(b + [PricedLine(price, m + n)])
  {
    var two, one := [PricedLine(price, m), PricedLine(price, n)], [PricedLine(price, m + n)];
    GoodsConcat(a, two);
    GoodsConcat(b, one);
    SplitLine(price, m, n);
  }

  lemma SplitLine(price: real, m: int, n: int)
    ensures Goods([PricedLine(price, m), PricedLine(price, n)]) == Goods([PricedLine(price, m + n)])
  {
    var two, one := [PricedLine(price, m), PricedLine(price, n)], [PricedLine(price, m + n)];
    assert two[..1] == [two[0]] && two[..1][..0] == [] && one[..0] == [];
    assert LineCents(one[0]) == LineCents(two[0]) + LineCents(two[1]);
  }
}

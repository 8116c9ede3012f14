/** The price of an order and what a payment of it is worth (core/src/endpoints/buy.ts, core/src/ledger/settle.ts),
    over exact reals. */
module Quote {
  import opened Settlement

  function Ceiling(x: real): int {
    -(-x).Floor
  }

  /** The coin amount quoted for a credit: margin included, rounded up. */
  function ExpectedAtomic(usd: real, margin: real, rate: real, scale: int): int
    requires rate > 0.0
  {
    Ceiling(usd * margin / rate * scale as real)
  }

  /** The credit locked with the order. */
  function CreditMicros(usd: real): int {
    Round(usd * 1000000.0)
  }

  lemma MulLe(a: real, b: real, c: real)
    requires a <= b && c >= 0.0
    ensures a * c <= b * c
  {
  }

  lemma MulPos(a: real, b: real)
    requires a > 0.0 && b > 0.0
    ensures a * b > 0.0
  {
  }

  lemma Cancel(a: real, b: real, c: real)
    requires a * c <= b * c && c > 0.0
    ensures a <= b
  {
    if a > b {
      MulPos(a - b, c);
    }
  }

  // ---- Proportion ----

  /** m is credit * amount / expected to the nearest whole micro-dollar, a half going up. */
  predicate Proportional(m: int, credit: int, expected: int, amount: nat) {
    2 * credit * amount - expected < 2 * m * expected <= 2 * credit * amount + expected
  }

  lemma ScaleIff(a: real, b: real, r: real)
    requires r > 0.0
    ensures a < b <==> a * r < b * r
    ensures a <= b <==> a * r <= b * r
  {
    if a < b {
      assert (b - a) * r > 0.0;
    } else if a > b {
      assert (a - b) * r > 0.0;
    }
  }

  /** Being within half a unit, after scaling. */
  lemma Scaled(x: real, m: real, s: real, t: real)
    requires s > 0.0 && t == x * s
    ensures x - 0.5 < m <= x + 0.5 <==> t - 0.5 * s < m * s <= t + 0.5 * s
  {
    var low, high := (x - 0.5) * s, (x + 0.5) * s;
    assert low == t - 0.5 * s && high == t + 0.5 * s;
    ScaleIff(x - 0.5, m, s);
    ScaleIff(m, x + 0.5, s);
    assert low < m * s <==> x - 0.5 < m;
    assert m * s <= high <==> m <= x + 0.5;
  }

  lemma Nearest(x: real, m: int)
    ensures m == Round(x) <==> x - 0.5 < m as real <= x + 0.5
  {
  }

  /** The share credited is the one in proportion, and no other amount is. */
  lemma ShareIff(credit: int, expected: int, amount: nat, m: int)
    requires expected > 0
    ensures m == ShareOf(credit, expected, amount) <==> Proportional(m, credit, expected, amount)
  {
    var ratio := amount as real / expected as real;
    assert ratio * expected as real == amount as real;
    assert credit as real * ratio * expected as real == (credit * amount) as real;
    Nearest(credit as real * ratio, m);
    Scaled(credit as real * ratio, m as real, expected as real, (credit * amount) as real);
    assert m as real * expected as real == (m * expected) as real;
    assert 2 * m * expected == 2 * (m * expected) && 2 * credit * amount == 2 * (credit * amount);
  }

  /** g is amount / scale coins at the rate, in micro-dollars, to the nearest whole one, a half going up. */
  predicate GrossFits(g: int, amount: nat, scale: int, rate: real) {
    var exact := amount as real * rate * 2000000.0;
    exact - scale as real < (2 * g * scale) as real <= exact + scale as real
  }

  lemma GrossIff(amount: nat, scale: int, rate: real, g: int)
    requires scale > 0
    ensures g == GrossOf(amount, scale, rate) <==> GrossFits(g, amount, scale, rate)
  {
    var coins, s := amount as real / scale as real, scale as real;
    assert coins * s == amount as real;
    var x := coins * rate * 1000000.0;
    assert x * s == amount as real * rate * 1000000.0 by {
      assert x * s == coins * s * rate * 1000000.0;
    }
    Nearest(x, g);
    Scaled(x, g as real, s, x * s);
    assert g as real * s == (g * scale) as real;
    assert 2 * g * scale == 2 * (g * scale);
  }

  // ---- The price ----

  /** The quote is the least whole number of atomic units that covers credit and margin at the rate. */
  lemma QuoteIff(usd: real, margin: real, rate: real, scale: int, e: int)
    requires rate > 0.0
    ensures e == ExpectedAtomic(usd, margin, rate, scale)
            <==> (e - 1) as real * rate < usd * margin * scale as real <= e as real * rate
  {
    var t, s := usd * margin / rate, scale as real;
    assert t * rate == usd * margin;
    assert t * s * rate == t * rate * s;
    assert t * rate * s == usd * margin * s;
    Between((e - 1) as real, t * s, e as real, rate, usd * margin * s);
    LeastWhole(t * s, e);
  }

  lemma Between(low: real, x: real, high: real, r: real, scaled: real)
    requires r > 0.0 && x * r == scaled
    ensures low < x <= high <==> low * r < scaled <= high * r
  {
    ScaleIff(low, x, r);
    ScaleIff(x, high, r);
  }

  lemma LeastWhole(x: real, e: int)
    ensures e == Ceiling(x) <==> (e - 1) as real < x <= e as real
  {
  }

  /** The credit is the dollars in micros to the nearest whole one, a half going up. */
  lemma CreditIff(usd: real, m: int)
    ensures m == CreditMicros(usd) <==> (2 * m - 1) as real <= usd * 2000000.0 < (2 * m + 1) as real
  {
  }

  /** The quote never comes out smaller than the margin demands. */
  lemma QuoteCoversMargin(usd: real, margin: real, rate: real, scale: int)
    requires usd > 0.0 && margin > 0.0 && rate > 0.0 && scale > 0
    ensures ExpectedAtomic(usd, margin, rate, scale) > 0
    ensures usd * margin * scale as real <= ExpectedAtomic(usd, margin, rate, scale) as real * rate
  {
    var q, e := usd * margin / rate * scale as real, ExpectedAtomic(usd, margin, rate, scale);
    MulPos(usd, margin);
    assert usd * margin / rate > 0.0;
    MulPos(usd * margin / rate, scale as real);
    assert e as real >= q;
    MulLe(q, e as real, rate);
    assert q * rate == usd * margin / rate * rate * scale as real;
  }

  /** In dollars, the proportional credit times the margin is at most the gross of the payment. */
  lemma ProportionBelowGross(usd: real, margin: real, rate: real, scale: int, amount: nat, e: int)
    requires usd > 0.0 && margin > 0.0 && rate > 0.0 && scale > 0 && e > 0
    requires usd * margin * scale as real <= e as real * rate
    ensures usd * (amount as real / e as real) * margin <= amount as real / scale as real * rate
  {
    var x, s := amount as real / e as real, scale as real;
    MulLe(usd * margin * s, e as real * rate, x);
    assert usd * margin * s * x == usd * x * margin * s;
    assert e as real * rate * x == amount as real * rate by {
      assert e as real * x == amount as real;
    }
    var left, right := usd * x * margin, amount as real / s * rate;
    assert right * s == amount as real * rate by {
      assert amount as real / s * s == amount as real;
    }
    assert left * s <= right * s;
    Cancel(left, right, s);
  }

  lemma RoundBounds(x: real)
    ensures x - 0.5 < Round(x) as real <= x + 0.5
  {
  }

  /** For every payment of an order, the issued credit times the margin exceeds the gross booked for it by no more
      than the rounding of the two figures, and of the credit itself when the order is not in whole micro-dollars. */
  lemma MarginPreserved(usd: real, margin: real, rate: real, scale: int, amount: nat)
    requires usd > 0.0 && margin > 0.0 && rate > 0.0 && scale > 0
    ensures var e := ExpectedAtomic(usd, margin, rate, scale);
            && e > 0
            && ShareOf(CreditMicros(usd), e, amount) as real * margin - GrossOf(amount, scale, rate) as real
               <= (margin + 1.0) / 2.0
                  + (CreditMicros(usd) as real - usd * 1000000.0) * (amount as real / e as real) * margin
  {
    var e, c, m := ExpectedAtomic(usd, margin, rate, scale), CreditMicros(usd) as real, 1000000.0;
    QuoteCoversMargin(usd, margin, rate, scale);
    ProportionBelowGross(usd, margin, rate, scale, amount, e);
    var x, g := amount as real / e as real, amount as real / scale as real * rate;
    var share, gross := ShareOf(CreditMicros(usd), e, amount) as real, GrossOf(amount, scale, rate) as real;
    RoundBounds(c * x);
    RoundBounds(g * m);
    Excess(share, gross, c, usd, x, g, margin);
  }

  lemma Excess(share: real, gross: real, c: real, u: real, x: real, g: real, margin: real)
    requires share <= c * x + 0.5 && gross >= g * 1000000.0 - 0.5
    requires u * x * margin <= g && margin > 0.0
    ensures share * margin - gross <= (margin + 1.0) / 2.0 + (c - u * 1000000.0) * x * margin
  {
    var cx, ux, d := c * x, u * x, (c - u * 1000000.0) * x;
    assert d == cx - ux * 1000000.0;
    MulLe(share, cx + 0.5, margin);
    assert (cx + 0.5) * margin == cx * margin + margin / 2.0;
    assert d * margin == cx * margin - ux * margin * 1000000.0;
  }

  /** For a credit in whole micro-dollars the excess is at most (margin + 1) / 2 micros, whatever is paid. */
  lemma MarginPreservedWhole(micros: nat, margin: real, rate: real, scale: int, amount: nat)
    requires micros > 0 && margin > 0.0 && rate > 0.0 && scale > 0
    ensures var usd := micros as real / 1000000.0;
            var e := ExpectedAtomic(usd, margin, rate, scale);
            && CreditMicros(usd) == micros && e > 0
            && ShareOf(micros, e, amount) as real * margin - GrossOf(amount, scale, rate) as real
               <= (margin + 1.0) / 2.0
  {
    var usd := micros as real / 1000000.0;
    assert usd * 1000000.0 == micros as real;
    assert CreditMicros(usd) == micros;
    MarginPreserved(usd, margin, rate, scale, amount);
  }

  lemma RoundMonotone(x: real, y: real)
    requires x <= y
    ensures Round(x) <= Round(y)
  {
  }

  /** Paying more never credits less. */
  lemma ShareMonotone(credit: nat, e: int, a: nat, b: nat)
    requires e > 0 && a <= b
    ensures ShareOf(credit, e, a) <= ShareOf(credit, e, b)
    ensures ShareOf(credit, e, 0) == 0
  {
    var x, y := a as real / e as real, b as real / e as real;
    assert x * e as real <= y * e as real;
    assert x <= y;
    MulLe(x, y, credit as real);
    RoundMonotone(credit as real * x, credit as real * y);
  }

  /** Paying the quote in full credits at least the full amount, and exactly it when nothing is overpaid. */
  lemma FullPaymentCreditsInFull(credit: nat, e: int, amount: nat)
    requires e > 0 && amount >= e
    ensures ShareOf(credit, e, amount) >= credit
    ensures amount == e ==> ShareOf(credit, e, amount) == credit
  {
    ShareMonotone(credit, e, e, amount);
    assert e as real / e as real == 1.0;
    assert Round(credit as real) == credit;
  }
}

/** Exact decimal money: rounding half away from zero to cents, and line amounts. */
module Money {
  import opened Sums

  /** An exact decimal. Every decimal is a real; what is proved holds of all of them. */
  type Decimal = real

  /** The whole number of cents nearest to x, ties away from zero. */
  function Cents(x: Decimal): int {
    if x < 0.0 then -((0.5 - 100.0 * x).Floor) else (100.0 * x + 0.5).Floor
  }

  /** decimal.Round(2), and the value StringFixed(2) prints. */
  function Round2(x: Decimal): Decimal {
    Cents(x) as real / 100.0
  }

  /** x is a whole number of cents. */
  predicate CentExact(x: Decimal) {
    (100.0 * x).Floor as real == 100.0 * x
  }

  function Abs(x: Decimal): Decimal {
    if x < 0.0 then -x else x
  }

  /** unit price times quantity, rounded to cents (RecalculateSubtotal). */
  function Line(price: Decimal, quantity: int): Decimal {
    Round2(price * quantity as real)
  }

  lemma CentsOfWhole(n: int)
    ensures Cents(n as real / 100.0) == n
    ensures CentExact(n as real / 100.0)
  {
    var x := n as real / 100.0;
    assert 100.0 * x == n as real;
    if n < 0 {
      assert (0.5 - 100.0 * x).Floor == -n;
    }
  }

  /** Round2 is determined by what half-away-from-zero rounding promises. */
  lemma RoundingCharacterised(x: Decimal, y: Decimal)
    ensures y == Round2(x) <==>
            CentExact(y) && Abs(y - x) <= 0.005 && (Abs(y - x) == 0.005 ==> Abs(y) >= Abs(x))
  {
    CentsOfWhole(Cents(x));
    if CentExact(y) && Abs(y - x) <= 0.005 && (Abs(y - x) == 0.005 ==> Abs(y) >= Abs(x)) {
      var m := (100.0 * y).Floor;
      assert y == m as real / 100.0;
      assert m == Cents(x);
    }
  }

  lemma RoundFixesExactly(x: Decimal)
    ensures CentExact(Round2(x))
    ensures Round2(x) == x <==> CentExact(x)
  {
    CentsOfWhole(Cents(x));
    if CentExact(x) {
      CentsOfWhole((100.0 * x).Floor);
      assert x == (100.0 * x).Floor as real / 100.0;
    }
  }

  /** So is a line amount by the exact one. */
  lemma LineCharacterised(price: Decimal, quantity: int, y: Decimal)
    ensures y == Line(price, quantity) <==>
            var x := price * quantity as real;
            CentExact(y) && Abs(y - x) <= 0.005 && (Abs(y - x) == 0.005 ==> Abs(y) >= Abs(x))
  {
    RoundingCharacterised(price * quantity as real, y);
  }

  lemma CentExactSum(x: Decimal, y: Decimal)
    requires CentExact(x) && CentExact(y)
    ensures CentExact(x + y)
  {
    var m, n := (100.0 * x).Floor, (100.0 * y).Floor;
    assert 100.0 * (x + y) == (m + n) as real;
  }

  lemma CentExactProduct(x: Decimal, q: int)
    requires CentExact(x)
    ensures CentExact(x * q as real)
  {
    var m := (100.0 * x).Floor;
    WholeTimesWhole(m, q);
    assert 100.0 * (x * q as real) == (100.0 * x) * q as real;
    assert (100.0 * x) * q as real == m as real * q as real;
    assert 100.0 * (x * q as real) == (m * q) as real;
    assert (100.0 * (x * q as real)).Floor == m * q;
  }

  lemma WholeTimesWhole(m: int, q: int)
    ensures m as real * q as real == (m * q) as real
    ensures (m as real * q as real).Floor == m * q
  {
  }

  /** A whole-cent price needs no rounding of its line amount. */
  lemma ExactLine(price: Decimal, quantity: int)
    requires CentExact(price)
    ensures Line(price, quantity) == price * quantity as real
  {
    CentExactProduct(price, quantity);
    RoundFixesExactly(price * quantity as real);
  }

  // The products below are named by parameters: each lemma is then linear but for one multiplication.

  lemma ScaledGap(q: real, a: real, b: real, qa: real, qb: real)
    requires 0.0 < q && qa == q * a && qb == q * b
    ensures a < b ==> qa < qb
    ensures a <= b ==> qa <= qb
  {
  }

  lemma Distribute(q: real, n: real, d: real)
    ensures q * (n + d) == q * n + q * d
  {
  }

  lemma ScaleInterval(n: real, x: real, q: real, k: real, y: real)
    requires n - 0.5 <= x < n + 0.5 && 0.0 < q
    requires k == q * n && y == q * x
    ensures k - 0.5 * q <= y < k + 0.5 * q
  {
    Distribute(q, n, 0.5);
    Distribute(q, n, -0.5);
    ScaledGap(q, n + (-0.5), x, k - 0.5 * q, y);
    ScaledGap(q, x, n + 0.5, y, k + 0.5 * q);
  }

  lemma ScaleWhole(n: int, x: real, q: int, y: real)
    requires n as real - 0.5 <= x < n as real + 0.5 && 0 < q
    requires y == q as real * x
    ensures (q * n) as real - 0.5 * q as real <= y < (q * n) as real + 0.5 * q as real
  {
    WholeTimesWhole(q, n);
    ScaleInterval(n as real, x, q as real, (q * n) as real, y);
  }

  /** Rounding after multiplying and before multiplying differ by at most half the quantity, in whole cents. */
  lemma CentsOfProduct(price: Decimal, quantity: int)
    requires 0.0 <= price && 0 < quantity
    ensures -(quantity / 2) <= Cents(price * quantity as real) - quantity * Cents(price) <= quantity / 2
  {
    var y := 100.0 * (price * quantity as real);
    ScaledGap(quantity as real, 0.0, price, 0.0, price * quantity as real);
    ScaleWhole(Cents(price), 100.0 * price, quantity, y);
    ScaledBounds(quantity, quantity * Cents(price), y);
  }

  /** Rounding a number within q / 2 of the whole number p, the upper end excluded. */
  lemma ScaledBounds(q: int, p: int, y: real)
    requires 0 < q
    requires p as real - 0.5 * q as real <= y < p as real + 0.5 * q as real
    ensures -(q / 2) <= (y + 0.5).Floor - p <= q / 2
  {
    assert q == 2 * (q / 2) + q % 2;
  }

  /** The line recomputed from the stored price against the line computed before storing. */
  lemma StoredLineClose(price: Decimal, quantity: int)
    requires 0.0 <= price && 0 < quantity
    ensures -((quantity / 2) as real / 100.0) <= Line(Round2(price), quantity) - Line(price, quantity)
              <= (quantity / 2) as real / 100.0
  {
    CentsOfProduct(price, quantity);
    LineOfStored(price, quantity);
  }

  lemma LineOfStored(price: Decimal, quantity: int)
    ensures Line(Round2(price), quantity) == (quantity * Cents(price)) as real / 100.0
  {
    RoundFixesExactly(price);
    ExactLine(Round2(price), quantity);
    WholeTimesWhole(quantity, Cents(price));
  }

  /** The bound is reached at every quantity by a price of half a cent. */
  lemma StoredLineWorstCase(quantity: int)
    requires 0 < quantity
    ensures Line(Round2(0.005), quantity) - Line(0.005, quantity) == (quantity / 2) as real / 100.0
  {
    assert Cents(0.005) == 1;
    LineOfStored(0.005, quantity);
    assert 100.0 * (0.005 * quantity as real) == quantity as real / 2.0;
    assert Cents(0.005 * quantity as real) == (quantity + 1) / 2;
  }
}

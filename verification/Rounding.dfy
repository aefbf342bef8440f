/** Python's `round(x, k)` on exact reals: the nearest multiple of 10^-k, ties going to the even multiple. */
module Rounding {

  function NearestEven(x: real): (n: int)
    ensures n as real - 0.5 <= x <= n as real + 0.5
  {
    var f := x.Floor;
    var frac := x - f as real;
    if frac < 0.5 then f else if frac > 0.5 then f + 1 else if f % 2 == 0 then f else f + 1
  }

  function Round2(x: real): real {
    NearestEven(x * 100.0) as real / 100.0
  }

  function Round3(x: real): real {
    NearestEven(x * 1000.0) as real / 1000.0
  }

  function Round4(x: real): real {
    NearestEven(x * 10000.0) as real / 10000.0
  }

  predicate IsWhole(x: real) {
    x.Floor as real == x
  }

  /** A whole number of cents: what `round(_, 2)` returns. */
  predicate OnCents(x: real) {
    IsWhole(x * 100.0)
  }

  /** Exactly half-way between two neighbouring cents. */
  predicate HalfCent(x: real) {
    x * 100.0 - (x * 100.0).Floor as real == 0.5
  }

  predicate OddCents(x: real)
  {
    (x * 100.0).Floor % 2 == 1
  }

  lemma NearestEvenMonotone(x: real, y: real)
    requires x <= y
    ensures NearestEven(x) <= NearestEven(y)
  {
    var f, g := x.Floor, y.Floor;
    assert f <= g;
    if f < g {
      assert NearestEven(x) <= f + 1 <= g;
    }
  }

  lemma WholeIsFixed(n: int)
    ensures NearestEven(n as real) == n
  {
    assert (n as real).Floor == n;
  }

  lemma WholeIsWhole(n: int)
    ensures IsWhole(n as real)
  {
  }

  lemma Round2Monotone(x: real, y: real)
    requires x <= y
    ensures Round2(x) <= Round2(y)
  {
    NearestEvenMonotone(x * 100.0, y * 100.0);
  }

  lemma Round3Monotone(x: real, y: real)
    requires x <= y
    ensures Round3(x) <= Round3(y)
  {
    NearestEvenMonotone(x * 1000.0, y * 1000.0);
  }

  lemma Round4Monotone(x: real, y: real)
    requires x <= y
    ensures Round4(x) <= Round4(y)
  {
    NearestEvenMonotone(x * 10000.0, y * 10000.0);
  }

  /** Rounding lands on the grid, and moves nothing that is already there. */
  lemma Round2OnCents(x: real)
    ensures OnCents(Round2(x))
    ensures OnCents(x) <==> Round2(x) == x
  {
    var n := NearestEven(x * 100.0);
    assert Round2(x) * 100.0 == n as real;
    assert (n as real).Floor == n;
    if OnCents(x) {
      WholeIsFixed((x * 100.0).Floor);
    }
  }

  lemma OnCentsSum(x: real, y: real)
    requires OnCents(x) && OnCents(y)
    ensures OnCents(x + y) && OnCents(x - y)
  {
    var a, b := (x * 100.0).Floor, (y * 100.0).Floor;
    WholeIsWhole(a + b);
    WholeIsWhole(a - b);
    assert (x + y) * 100.0 == (a + b) as real;
    assert (x - y) * 100.0 == (a - b) as real;
  }

  /** Shifting by a whole number commutes with rounding except at a tie shifted by an odd number. */
  lemma NearestEvenShift(x: real, m: int)
    ensures (NearestEven(m as real + x) == m + NearestEven(x))
       <==> !(x - x.Floor as real == 0.5 && m % 2 == 1)
  {
    assert (m as real + x).Floor == m + x.Floor;
  }

  /** Adding an amount to a balance and rounding is adding the rounded amount, unless the amount is
      an exact half cent and the balance an odd number of cents (then they are one cent apart). */
  lemma Round2Shift(balance: real, amount: real)
    requires OnCents(balance)
    ensures (Round2(balance + amount) == balance + Round2(amount))
       <==> !(HalfCent(amount) && OddCents(balance))
  {
    var m := (balance * 100.0).Floor;
    assert (balance + amount) * 100.0 == m as real + amount * 100.0;
    NearestEvenShift(amount * 100.0, m);
    assert Round2(balance + amount) * 100.0 == NearestEven(m as real + amount * 100.0) as real;
    assert (balance + Round2(amount)) * 100.0 == m as real + NearestEven(amount * 100.0) as real;
  }

  /** And then they are exactly one cent apart. */
  lemma Round2ShiftByCent(balance: real, amount: real)
    requires OnCents(balance)
    ensures var slip := Round2(balance + amount) - (balance + Round2(amount)); slip == -0.01 || slip == 0.0 || slip == 0.01
  {
    var m := (balance * 100.0).Floor;
    assert (balance + amount) * 100.0 == m as real + amount * 100.0;
    var whole, part := NearestEven(m as real + amount * 100.0), NearestEven(amount * 100.0);
    assert -1 <= whole - m - part <= 1;
    assert Round2(balance + amount) * 100.0 == whole as real;
    assert (balance + Round2(amount)) * 100.0 == (m + part) as real;
  }

  lemma Round2Near(x: real)
    ensures -0.005 <= Round2(x) - x <= 0.005
  {
    var n := NearestEven(x * 100.0);
    assert Round2(x) * 100.0 == n as real;
  }

  /** Half a cent goes down from an even number of cents and up from an odd one. */
  lemma HalfCentTies()
    ensures Round2(0.005) == 0.0 && Round2(0.01) == 0.01 && Round2(0.015) == 0.02
  {
    assert (0.5).Floor == 0 && (1.0).Floor == 1 && (1.5).Floor == 1;
  }

  lemma Round3Near(x: real)
    ensures -0.0005 <= Round3(x) - x <= 0.0005
    ensures IsWhole(Round3(x) * 1000.0)
  {
    var n := NearestEven(x * 1000.0);
    WholeIsWhole(n);
    assert Round3(x) * 1000.0 == n as real;
  }

  lemma Round4Near(x: real)
    ensures -0.00005 <= Round4(x) - x <= 0.00005
    ensures IsWhole(Round4(x) * 10000.0)
  {
    var n := NearestEven(x * 10000.0);
    WholeIsWhole(n);
    assert Round4(x) * 10000.0 == n as real;
  }

  lemma Round2Idempotent(x: real)
    ensures Round2(Round2(x)) == Round2(x)
  {
    Round2OnCents(x);
    Round2OnCents(Round2(x));
  }

  lemma Round4Idempotent(x: real)
    ensures Round4(Round4(x)) == Round4(x)
  {
    var n := NearestEven(x * 10000.0);
    WholeIsFixed(n);
    assert Round4(x) * 10000.0 == n as real;
  }
}

/** The Wilson interval: a closed form for inverting the score test of a proportion. */
module Wilson {
  import opened Reals

  /** What `_wilson_ci` takes the square root of. */
  function Radicand(p: real, n: real, z: real): real
    requires n > 0.0
  {
    p * (1.0 - p) / n + z * z / (4.0 * n * n)
  }

  function Center(p: real, n: real, z: real): real
    requires n > 0.0 && 1.0 + z * z / n != 0.0
  {
    (p + z * z / (2.0 * n)) / (1.0 + z * z / n)
  }

  function Margin(n: real, z: real, root: real): real
    requires n > 0.0 && 1.0 + z * z / n != 0.0
  {
    z * root / (1.0 + z * z / n)
  }

  lemma DenomPositive(n: real, z: real)
    requires n > 0.0
    ensures 1.0 + z * z / n >= 1.0
  {
    assert z * z == Square(z);
    QuotientMonotone(0.0, z * z, n);
  }

  /** `_wilson_ci(wins, n, z)`; `root` is the square root it takes when `n` is not zero. */
  function WilsonCI(wins: nat, n: nat, z: real, root: real): (real, real) {
    if n == 0 then (0.0, 1.0)
    else
      var N := n as real;
      var p := wins as real / N;
      DenomPositive(N, z);
      var center, margin := Center(p, N, z), Margin(N, z, root);
      (if center - margin >= 0.0 then center - margin else 0.0, if center + margin <= 1.0 then center + margin else 1.0)
  }

  /** The score test at level z does not reject the proportion `x` for `wins` out of `n`. */
  ghost predicate Accepts(p: real, n: real, z: real, x: real) {
    n * Square(p - x) <= Square(z) * (x * (1.0 - x))
  }

  /** The inputs for which the interval is computed, with the root the code takes. */
  ghost predicate Sample(wins: nat, n: nat, z: real, root: real) {
    && n > 0 && wins <= n && z > 0.0
    && IsRoot(root, Radicand(wins as real / n as real, n as real, z))
  }

  /** Without a sample no proportion is excluded. */
  lemma EmptySampleExcludesNothing(wins: nat, z: real, root: real, x: real)
    ensures var (lo, hi) := WilsonCI(wins, 0, z, root); lo <= x <= hi <==> 0.0 <= x <= 1.0
  {
  }

  // ---------------------------------------------------------------- the quadratic

  /** The part of c^2 - m^2 without x. */
  lemma ConstantPart(p: real, a: real, d: real, c: real, m: real)
    requires Square(m) == a * (p * (1.0 - p)) + a * a / 4.0 && d == 1.0 + a && c == p + a / 2.0
    ensures c * c - Square(m) == d * (p * p)
  {
    assert c * c == p * p + a * p + a * a / 4.0;
    assert a * (p * (1.0 - p)) == a * p - a * (p * p);
  }

  /** d times the quadratic of the score test, multiplied out. */
  lemma ScaledQuadratic(p: real, a: real, d: real, x: real, g: real)
    requires d == 1.0 + a && g == Square(p - x) - a * (x * (1.0 - x))
    ensures d * g == d * (p * p) - 2.0 * (d * (p * x)) + d * (d * (x * x)) - d * (a * x)
  {
    assert Square(p - x) == p * p - 2.0 * (p * x) + x * x;
    assert a * (x * (1.0 - x)) == a * x - a * (x * x);
    assert g == p * p - 2.0 * (p * x) + d * (x * x) - a * x;
    Distribute(d, p * p, p * x, d * (x * x), a * x);
  }

  lemma Distribute(d: real, u: real, v: real, w: real, y: real)
    ensures d * (u - 2.0 * v + w - y) == d * u - 2.0 * (d * v) + d * w - d * y
  {
  }

  /** The square of d x - c, multiplied out. */
  lemma SquareOfDistance(p: real, a: real, d: real, c: real, x: real)
    requires c == p + a / 2.0
    ensures Square(d * x - c) == d * (d * (x * x)) - 2.0 * (d * (p * x)) - d * (a * x) + c * c
  {
    var w := d * x;
    assert Square(w - c) == w * w - 2.0 * (w * c) + c * c;
    assert w * w == d * (d * (x * x));
    assert w * c == d * (x * p) + d * (a * x) / 2.0;
  }

  /** Completing the square: with d = 1 + a, c = p + a/2 and m^2 = a p (1 - p) + a^2/4. */
  lemma CompletedSquare(p: real, a: real, d: real, c: real, m: real, x: real, y: real, g: real)
    requires Square(m) == a * (p * (1.0 - p)) + a * a / 4.0
    requires d == 1.0 + a && c == p + a / 2.0 && y == d * x - c && g == Square(p - x) - a * (x * (1.0 - x))
    ensures Square(y) - Square(m) == d * g
  {
    ConstantPart(p, a, d, c, m);
    ScaledQuadratic(p, a, d, x, g);
    SquareOfDistance(p, a, d, c, x);
  }

  lemma SquareOrder(y: real, m: real)
    requires m >= 0.0
    ensures -m <= y <= m <==> Square(y) <= Square(m)
  {
    SquareNegated(y);
    var b := if y >= 0.0 then y else -y;
    if b < m {
      SquareStrict(b, m);
    } else if m < b {
      SquareStrict(m, b);
    }
  }

  /** The numerators of center and margin. */
  lemma Numerators(p: real, n: real, z: real, root: real)
    requires n > 0.0 && IsRoot(root, Radicand(p, n, z))
    ensures var a := z * z / n;
            && z * z / (2.0 * n) == a / 2.0
            && Square(z * root) == a * (p * (1.0 - p)) + a * a / 4.0
  {
    var a := z * z / n;
    assert a * n == z * z;
    assert z * z / (2.0 * n) == a / 2.0;
    HalfSquare(z, n, a);
    var q := p * (1.0 - p) / n;
    assert q * n == p * (1.0 - p);
    assert Square(z * root) == z * z * Square(root) == z * z * (q + z * z / (4.0 * n * n));
    assert z * z * q == a * n * q == a * (p * (1.0 - p));
  }

  lemma HalfSquare(z: real, n: real, a: real)
    requires n > 0.0 && a * n == z * z
    ensures z * z * (z * z / (4.0 * n * n)) == a * a / 4.0
  {
    var b := z * z / (4.0 * n * n);
    assert 4.0 * n * n > 0.0;
    assert b * (4.0 * n * n) == z * z;
    assert b * 4.0 * n * n == a * n;
    CancelFactor(b * 4.0 * n, a, n);
    assert z * z * b == a * n * b;
    assert a * n * b == a * (n * b);
  }

  lemma CancelFactor(x: real, y: real, n: real)
    requires x * n == y * n && n > 0.0
    ensures x == y
  {
    if x < y {
      MulStrict(x, y, n);
    } else if y < x {
      MulStrict(y, x, n);
    }
  }

  /** Between center - margin and center + margin is where the test accepts. */
  lemma UnclampedIsScoreTest(p: real, n: real, z: real, root: real, x: real)
    requires n > 0.0 && z > 0.0 && IsRoot(root, Radicand(p, n, z)) && 1.0 + z * z / n >= 1.0
    ensures Center(p, n, z) - Margin(n, z, root) <= x <= Center(p, n, z) + Margin(n, z, root) <==> Accepts(p, n, z, x)
  {
    var a, m := z * z / n, z * root;
    var d, c := 1.0 + a, p + a / 2.0;
    var y, g := d * x - c, Square(p - x) - a * (x * (1.0 - x));
    Numerators(p, n, z, root);
    assert m >= 0.0;
    Scaled(Center(p, n, z), Margin(n, z, root), d, c, m, x, y);
    SquareOrder(y, m);
    CompletedSquare(p, a, d, c, m, x, y, g);
    SignOfProduct(d, g);
    assert a * n == Square(z);
    AcceptsWhenNonPositive(p, n, z, a, x, g);
  }

  lemma AcceptsWhenNonPositive(p: real, n: real, z: real, a: real, x: real, g: real)
    requires n > 0.0 && a * n == Square(z) && g == Square(p - x) - a * (x * (1.0 - x))
    ensures Accepts(p, n, z, x) <==> g <= 0.0
  {
    var u, s := x * (1.0 - x), Square(p - x);
    SignOfProduct(n, s - a * u);
    assert n * (s - a * u) == n * s - (a * n) * u;
  }

  lemma Scaled(center: real, margin: real, d: real, c: real, m: real, x: real, scaled: real)
    requires d > 0.0 && center == c / d && margin == m / d && scaled == d * x - c
    ensures center - margin <= x <= center + margin <==> -m <= scaled <= m
  {
    var y := x - center;
    assert center * d == c && margin * d == m;
    assert scaled == y * d;
    assert -m == (-margin) * d;
    if y < -margin {
      MulStrict(y, -margin, d);
    } else {
      MulMonotone(-margin, y, d);
    }
    if margin < y {
      MulStrict(margin, y, d);
    } else {
      MulMonotone(y, margin, d);
    }
  }

  lemma SignOfProduct(d: real, g: real)
    requires d > 0.0
    ensures d * g <= 0.0 <==> g <= 0.0
  {
    if g > 0.0 {
      MulStrict(0.0, g, d);
    } else {
      MulMonotone(g, 0.0, d);
    }
  }

  /** A proportion the test accepts is one: the right-hand side is negative outside [0, 1]. */
  lemma AcceptedIsProportion(p: real, n: real, z: real, x: real)
    requires n > 0.0 && z > 0.0 && Accepts(p, n, z, x)
    ensures 0.0 <= x <= 1.0
  {
    SquareStrict(0.0, z);
    MulMonotone(0.0, Square(p - x), n);
    PositiveFactor(Square(z), x * (1.0 - x));
    if x < 0.0 {
      MulStrict(x, 0.0, 1.0 - x);
    } else if x > 1.0 {
      MulStrict(1.0 - x, 0.0, x);
    }
  }

  /** The clamps never act: both ends of the unclamped interval are proportions. */
  lemma ClampsNeverAct(wins: nat, n: nat, z: real, root: real)
    requires Sample(wins, n, z, root)
    ensures var p, N := wins as real / n as real, n as real;
            && 1.0 + z * z / N >= 1.0
            && WilsonCI(wins, n, z, root) == (Center(p, N, z) - Margin(N, z, root), Center(p, N, z) + Margin(N, z, root))
  {
    var p, N := wins as real / n as real, n as real;
    DenomPositive(N, z);
    var low, high := Center(p, N, z) - Margin(N, z, root), Center(p, N, z) + Margin(N, z, root);
    assert z * root >= 0.0;
    QuotientMonotone(0.0, z * root, 1.0 + z * z / N);
    UnclampedIsScoreTest(p, N, z, root, low);
    UnclampedIsScoreTest(p, N, z, root, high);
    AcceptedIsProportion(p, N, z, low);
    AcceptedIsProportion(p, N, z, high);
  }

  /** The interval is the set of proportions the score test does not reject. */
  lemma WilsonIsScoreTest(wins: nat, n: nat, z: real, root: real, x: real)
    requires Sample(wins, n, z, root)
    ensures WilsonCI(wins, n, z, root).0 <= x <= WilsonCI(wins, n, z, root).1 <==> Accepts(wins as real / n as real, n as real, z, x)
  {
    ClampsNeverAct(wins, n, z, root);
    UnclampedIsScoreTest(wins as real / n as real, n as real, z, root, x);
  }

  lemma ProportionRange(wins: nat, n: nat)
    requires n > 0 && wins <= n
    ensures 0.0 <= wins as real / n as real <= 1.0
  {
    QuotientMonotone(0.0, wins as real, n as real);
    QuotientMonotone(wins as real, n as real, n as real);
    QuotientSelf(n as real);
  }

  /** The interval contains the observed proportion. */
  lemma ContainsEstimate(wins: nat, n: nat, z: real, root: real)
    requires Sample(wins, n, z, root)
    ensures WilsonCI(wins, n, z, root).0 <= wins as real / n as real <= WilsonCI(wins, n, z, root).1
  {
    var p := wins as real / n as real;
    ProportionRange(wins, n);
    assert Square(p - p) == 0.0;
    assert p * (1.0 - p) >= 0.0;
    ProductMonotone(0.0, Square(z), 0.0, p * (1.0 - p));
    WilsonIsScoreTest(wins, n, z, root, p);
  }

  /** If the test accepts `x` for one estimate, it accepts it for every estimate closer to it. */
  lemma CloserAccepts(p: real, p': real, n: real, z: real, x: real)
    requires n > 0.0 && Accepts(p, n, z, x)
    requires x <= p' <= p || p <= p' <= x
    ensures Accepts(p', n, z, x)
  {
    SquareNegated(p - x);
    SquareNegated(p' - x);
    var far, near := if p >= x then p - x else x - p, if p' >= x then p' - x else x - p';
    if near < far {
      SquareStrict(near, far);
    }
    MulMonotone(Square(p' - x), Square(p - x), n);
  }

  /** More wins move both ends up. */
  lemma MonotoneInWins(wins: nat, more: nat, n: nat, z: real, root: real, root': real)
    requires wins <= more && Sample(wins, n, z, root) && Sample(more, n, z, root')
    ensures WilsonCI(wins, n, z, root).0 <= WilsonCI(more, n, z, root').0
    ensures WilsonCI(wins, n, z, root).1 <= WilsonCI(more, n, z, root').1
  {
    var N := n as real;
    var p, p' := wins as real / N, more as real / N;
    QuotientMonotone(wins as real, more as real, N);
    ContainsEstimate(wins, n, z, root);
    ContainsEstimate(more, n, z, root');
    var high, low' := WilsonCI(wins, n, z, root).1, WilsonCI(more, n, z, root').0;
    if high > p' {
      WilsonIsScoreTest(wins, n, z, root, high);
      CloserAccepts(p, p', N, z, high);
      WilsonIsScoreTest(more, n, z, root', high);
    }
    if low' < p {
      WilsonIsScoreTest(more, n, z, root', low');
      CloserAccepts(p', p, N, z, low');
      WilsonIsScoreTest(wins, n, z, root, low');
    }
  }

  /** Swapping wins and losses mirrors the interval; the same root serves both. */
  lemma MirrorsLosses(wins: nat, n: nat, z: real, root: real)
    requires Sample(wins, n, z, root)
    ensures Sample(n - wins, n, z, root)
    ensures WilsonCI(n - wins, n, z, root) == (1.0 - WilsonCI(wins, n, z, root).1, 1.0 - WilsonCI(wins, n, z, root).0)
  {
    ComplementaryEstimate(wins, n);
    SameRadicand(wins as real / n as real, n as real, z);
    ClampsNeverAct(wins, n, z, root);
    ClampsNeverAct(n - wins, n, z, root);
    CenterMirrors(wins as real / n as real, n as real, z);
  }

  lemma ComplementaryEstimate(wins: nat, n: nat)
    requires n > 0 && wins <= n
    ensures (n - wins) as real / n as real == 1.0 - wins as real / n as real
  {
    var N := n as real;
    assert (n - wins) as real == N - wins as real;
    QuotientDifference(N, wins as real, N);
    QuotientSelf(N);
  }

  lemma SameRadicand(p: real, n: real, z: real)
    requires n > 0.0
    ensures Radicand(1.0 - p, n, z) == Radicand(p, n, z)
  {
    assert (1.0 - p) * (1.0 - (1.0 - p)) == p * (1.0 - p);
  }

  lemma CenterMirrors(p: real, n: real, z: real)
    requires n > 0.0 && 1.0 + z * z / n >= 1.0
    ensures Center(1.0 - p, n, z) == 1.0 - Center(p, n, z)
  {
    var a := z * z / n;
    var d := 1.0 + a;
    assert a * n == z * z;
    assert z * z / (2.0 * n) == a / 2.0;
    QuotientDifference(d, p + a / 2.0, d);
    QuotientSelf(d);
  }
}

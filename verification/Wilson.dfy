/** The lower confidence bound that ranks recommendations (src/backtest.py, `wilson_lower`), over
    exact reals. The square root is passed in as a non-negative number with the given square. */
module Wilson {

  /** The library square root: the non-negative number whose square is x. */
  ghost predicate IsSqrt(root: real, x: real) {
    root >= 0.0 && root * root == x
  }

  /** The number under the root, for hit ratio p over n trials. */
  function Radicand(p: real, n: real, z: real): real
    requires n > 0.0
  {
    (p * (1.0 - p) + z * z / (4.0 * n)) / n
  }

  function Ratio(hits: nat, n: nat): real
    requires n > 0
  {
    hits as real / n as real
  }

  lemma DenomPositive(n: real, z: real)
    requires n > 0.0
    ensures 1.0 + z * z / n > 0.0
  {
    assert z * z / n >= 0.0;
  }

  /** The fraction inside the final `max`. */
  function Bound(p: real, n: real, z: real, root: real): real
    requires n > 0.0
  {
    var denom := 1.0 + z * z / n;
    var centre := p + z * z / (2.0 * n);
    var margin := z * root;
    DenomPositive(n, z);
    (centre - margin) / denom
  }

  /** `wilson_lower`. */
  function WilsonLower(hits: nat, n: nat, z: real, root: real): real {
    if n == 0 then 0.0 else
    var bound := Bound(Ratio(hits, n), n as real, z, root);
    if bound > 0.0 then bound else 0.0
  }

  // ---- the score quadratic -----------------------------------------------------------------

  /** The score test: a true ratio x is compatible with the observed p exactly when this is at
      most zero. Here a = z * z / n. */
  function Score(p: real, a: real, x: real): real {
    (p - x) * (p - x) - a * (x * (1.0 - x))
  }

  /** The two roots, by the numbers the code computes: centre p + a/2, margin m. */
  ghost predicate Roots(p: real, a: real, m: real, w: real, v: real) {
    && 0.0 <= p <= 1.0 && a > 0.0
    && m >= 0.0 && m * m == a * (p * (1.0 - p)) + a * a / 4.0
    && w * (1.0 + a) == p + a / 2.0 - m
    && v * (1.0 + a) == p + a / 2.0 + m
  }

  lemma Product(x: real, y: real)
    ensures x > 0.0 && y > 0.0 ==> x * y > 0.0
    ensures x >= 0.0 && y >= 0.0 ==> x * y >= 0.0
    ensures x < 0.0 && y < 0.0 ==> x * y > 0.0
    ensures x <= 0.0 && y >= 0.0 ==> x * y <= 0.0
    ensures x > 0.0 && x * y <= 0.0 ==> y <= 0.0
    ensures x > 0.0 && x * y == 0.0 ==> y == 0.0
  {
  }

  lemma SquaresOrder(x: real, y: real)
    requires x >= 0.0 && y >= 0.0
    ensures x * x <= y * y <==> x <= y
  {
    assert (x - y) * (x + y) == x * x - y * y;
    Product(x - y, x + y);
    Product(y - x, x + y);
  }

  lemma SameFactor(d: real, x: real, y: real)
    requires d > 0.0 && d * x == d * y
    ensures x == y
  {
    assert d * (x - y) == 0.0;
    Product(d, x - y);
  }

  /** The score is the product over its roots. */
  lemma Factored(p: real, a: real, m: real, w: real, v: real, x: real)
    requires Roots(p, a, m, w, v)
    ensures Score(p, a, x) == (1.0 + a) * ((x - w) * (x - v))
  {
    var d, c := 1.0 + a, p + a / 2.0;
    assert d * ((1.0 + a) * ((x - w) * (x - v))) == (d * x - w * d) * (d * x - v * d);
    assert (d * x - (c - m)) * (d * x - (c + m)) == (d * x - c) * (d * x - c) - m * m;
    assert Score(p, a, x) == d * (x * x) - 2.0 * (c * x) + p * p;
    assert d * Score(p, a, x) == (d * x) * (d * x) - 2.0 * (c * (d * x)) + d * (p * p);
    assert c * c - m * m == d * (p * p);
    assert (d * x - c) * (d * x - c) == (d * x) * (d * x) - 2.0 * (c * (d * x)) + c * c;
    SameFactor(d, Score(p, a, x), (1.0 + a) * ((x - w) * (x - v)));
  }

  lemma MarginIsPositive(p: real, a: real, m: real)
    requires 0.0 <= p <= 1.0 && a > 0.0 && m >= 0.0 && m * m == a * (p * (1.0 - p)) + a * a / 4.0
    ensures m > 0.0
  {
    Product(p, 1.0 - p);
    Product(a, p * (1.0 - p));
    Product(a, a);
    assert m * m > 0.0;
  }

  lemma MarginBelowCentre(p: real, a: real, m: real)
    requires 0.0 <= p <= 1.0 && a > 0.0 && m >= 0.0 && m * m == a * (p * (1.0 - p)) + a * a / 4.0
    ensures m <= p + a / 2.0
  {
    var c := p + a / 2.0;
    assert c * c == p * p + a * p + a * a / 4.0;
    assert a * (p * (1.0 - p)) == a * p - a * (p * p);
    Product(p, p);
    Product(a, p * p);
    SquaresOrder(m, c);
  }

  lemma LowerBelowOne(a: real, m: real, w: real)
    requires a > 0.0 && m >= 0.0 && m * m == a * a / 4.0 && w * (1.0 + a) == 1.0 + a / 2.0 - m
    ensures m == a / 2.0 && w * (1.0 + a) == 1.0 && w < 1.0
  {
    SquaresOrder(m, a / 2.0);
    SquaresOrder(a / 2.0, m);
    assert (1.0 + a) * (w - 1.0) == -a;
    Product(1.0 + a, w - 1.0);
    assert w - 1.0 <= 0.0;
  }

  lemma ScoreAtObserved(p: real, a: real)
    requires 0.0 <= p <= 1.0 && a > 0.0
    ensures Score(p, a, p) <= 0.0
  {
    Product(p, 1.0 - p);
    Product(a, p * (1.0 - p));
  }

  /** The roots enclose the observed ratio, and the lower one lies in [0, 1). */
  lemma RootsEnclose(p: real, a: real, m: real, w: real, v: real)
    requires Roots(p, a, m, w, v)
    ensures 0.0 <= w <= p <= v && w < 1.0 && w < v
  {
    hide Score, Roots;
    RootsOrder(p, a, m, w, v);
    Factored(p, a, m, w, v, p);
    ScoreAtObserved(p, a);
    Sign(1.0 + a, (p - w) * (p - v));
    Between(p, w, v);
  }

  lemma RootsOrder(p: real, a: real, m: real, w: real, v: real)
    requires Roots(p, a, m, w, v)
    ensures 0.0 <= p <= 1.0 && a > 0.0 && 0.0 <= w < v && (p == 1.0 ==> w < 1.0)
  {
    MarginIsPositive(p, a, m);
    MarginBelowCentre(p, a, m);
    Ordered(1.0 + a, w, v, p + a / 2.0, m);
    if p == 1.0 {
      LowerBelowOne(a, m, w);
    }
  }

  lemma Sign(d: real, x: real)
    requires d > 0.0 && d * x <= 0.0
    ensures x <= 0.0
  {
    Product(d, x);
  }

  lemma Ordered(d: real, w: real, v: real, c: real, m: real)
    requires d > 0.0 && 0.0 < m <= c && w * d == c - m && v * d == c + m
    ensures 0.0 <= w < v
  {
    Product(d, -w);
    assert d * (-w) == m - c;
    Product(d, w - v);
    assert d * (w - v) == -2.0 * m;
    Product(d, v - w);
  }

  lemma Between(p: real, w: real, v: real)
    requires w < v && (p - w) * (p - v) <= 0.0
    ensures w <= p <= v
  {
    Product(p - w, p - v);
    Product(w - p, v - p);
    assert (w - p) * (v - p) == (p - w) * (p - v);
  }

  /** The bound inverts the score test: up to the observed ratio, exactly the ratios at or above
      the bound are compatible with the observation. */
  lemma InvertsScoreTest(p: real, a: real, m: real, w: real, v: real, x: real)
    requires Roots(p, a, m, w, v) && 0.0 <= x <= p
    ensures Score(p, a, x) <= 0.0 <==> w <= x
    ensures Score(p, a, x) == 0.0 && x < v ==> x == w
  {
    RootsEnclose(p, a, m, w, v);
    Factored(p, a, m, w, v, x);
    var d := 1.0 + a;
    Product(x - w, v - x);
    Product(w - x, v - x);
    assert (x - w) * (x - v) == -((x - w) * (v - x));
    assert (w - x) * (v - x) == (x - w) * (x - v);
    Product(d, (x - w) * (x - v));
    Product(d, (x - w) * (v - x));
    assert d * ((x - w) * (v - x)) == -(d * ((x - w) * (x - v)));
  }

  // ---- from the code's numbers to the roots ------------------------------------------------

  ghost predicate Trial(hits: nat, n: nat, z: real, root: real) {
    && 0 < n && hits <= n && z > 0.0
    && IsSqrt(root, Radicand(Ratio(hits, n), n as real, z))
  }

  lemma RatioBounds(hits: nat, n: nat)
    requires 0 < n && hits <= n
    ensures 0.0 <= Ratio(hits, n) <= 1.0
    ensures Ratio(hits, n) == 1.0 <==> hits == n
    ensures Ratio(hits, n) == 0.0 <==> hits == 0
  {
    var p := Ratio(hits, n);
    assert p * n as real == hits as real;
    Product(n as real, p);
    Product(n as real, 1.0 - p);
    Product(n as real, p - 1.0);
    assert n as real * (1.0 - p) == n as real - hits as real;
  }

  function Level(n: nat, z: real): real
    requires n > 0
  {
    z * z / n as real
  }

  lemma LevelIs(n: nat, z: real)
    requires n > 0 && z > 0.0
    ensures Level(n, z) > 0.0 && Level(n, z) * n as real == z * z
  {
    Product(z, z);
    var a := Level(n, z);
    assert a * n as real == z * z;
  }

  /** What `wilson_lower` computes is the lower root; the `max` with zero never binds. */
  lemma WilsonIsLowerRoot(hits: nat, n: nat, z: real, root: real)
    requires Trial(hits, n, z, root)
    ensures var w, p, a := WilsonLower(hits, n, z, root), Ratio(hits, n), Level(n, z);
            && Roots(p, a, z * root, w, (p + a / 2.0 + z * root) / (1.0 + a))
            && w == Bound(p, n as real, z, root)
  {
    hide Ratio, Level, Bound, Radicand;
    var p, a, k, m := Ratio(hits, n), Level(n, z), n as real, z * root;
    RatioBounds(hits, n);
    LevelIs(n, z);
    RootTimes(p, k, z, root, a);
    MarginSquared(z, root, k, a, p);
    Product(z, root);
    BoundTimes(p, n, z, root);
    var w, v := Bound(p, k, z, root), (p + a / 2.0 + m) / (1.0 + a);
    Quotient(p + a / 2.0 + m, 1.0 + a);
    RootsEnclose(p, a, m, w, v);
  }

  lemma Quotient(x: real, y: real)
    requires y > 0.0
    ensures x / y * y == x
  {
  }

  lemma RootTimes(p: real, k: real, z: real, root: real, a: real)
    requires k > 0.0 && a * k == z * z && IsSqrt(root, Radicand(p, k, z))
    ensures root * root * k == p * (1.0 - p) + a / 4.0
  {
    var q := z * z / (4.0 * k);
    assert q * (4.0 * k) == z * z;
    SameFactor(4.0 * k, q, a / 4.0);
    Quotient(p * (1.0 - p) + q, k);
  }

  lemma BoundTimes(p: real, n: nat, z: real, root: real)
    requires n > 0
    ensures Bound(p, n as real, z, root) * (1.0 + Level(n, z)) == p + Level(n, z) / 2.0 - z * root
  {
    var k := n as real;
    var half := z * z / (2.0 * k);
    assert half * (2.0 * k) == z * z && Level(n, z) * k == z * z;
    SameFactor(2.0 * k, half, Level(n, z) / 2.0);
    DenomPositive(k, z);
    Quotient(p + half - z * root, 1.0 + Level(n, z));
  }

  lemma MarginSquared(z: real, root: real, k: real, a: real, p: real)
    requires k > 0.0 && a * k == z * z && root * root * k == p * (1.0 - p) + a / 4.0
    ensures (z * root) * (z * root) == a * (p * (1.0 - p)) + a * a / 4.0
  {
    assert (z * root) * (z * root) == (z * z) * (root * root);
    assert (a * k) * (root * root) == a * (root * root * k);
    assert a * (p * (1.0 - p) + a / 4.0) == a * (p * (1.0 - p)) + a * a / 4.0;
  }

  // ---- order theory of the bound -------------------------------------------------------------

  /** The bound lies between zero and the observed ratio and never reaches one. */
  lemma BoundInRange(hits: nat, n: nat, z: real, root: real)
    requires Trial(hits, n, z, root)
    ensures 0.0 <= WilsonLower(hits, n, z, root) <= Ratio(hits, n)
    ensures WilsonLower(hits, n, z, root) < 1.0
    ensures WilsonLower(hits, n, z, root) == Bound(Ratio(hits, n), n as real, z, root)
  {
    hide WilsonLower, Ratio, Level, Bound, Radicand, Roots;
    var p, a, m := Ratio(hits, n), Level(n, z), z * root;
    LevelIs(n, z);
    WilsonIsLowerRoot(hits, n, z, root);
    RootsEnclose(p, a, m, WilsonLower(hits, n, z, root), (p + a / 2.0 + m) / (1.0 + a));
  }

  /** It is the least ratio the score test at level z accepts. */
  lemma LeastCompatibleRatio(hits: nat, n: nat, z: real, root: real, x: real)
    requires Trial(hits, n, z, root) && 0.0 <= x <= Ratio(hits, n)
    ensures Score(Ratio(hits, n), Level(n, z), x) <= 0.0 <==> WilsonLower(hits, n, z, root) <= x
  {
    hide WilsonLower, Ratio, Level, Bound, Radicand, Roots, Score;
    var p, a, m := Ratio(hits, n), Level(n, z), z * root;
    LevelIs(n, z);
    WilsonIsLowerRoot(hits, n, z, root);
    InvertsScoreTest(p, a, m, WilsonLower(hits, n, z, root), (p + a / 2.0 + m) / (1.0 + a), x);
  }

  /** A perfect record scores n / (n + z * z). */
  lemma PerfectRecord(n: nat, z: real, root: real)
    requires Trial(n, n, z, root)
    ensures WilsonLower(n, n, z, root) == n as real / (n as real + z * z) < 1.0
  {
    hide WilsonLower, Ratio, Level, Bound, Radicand;
    var w, a, k := WilsonLower(n, n, z, root), Level(n, z), n as real;
    RatioBounds(n, n);
    WilsonIsLowerRoot(n, n, z, root);
    LevelIs(n, z);
    LowerBelowOne(a, z * root, w);
    PerfectQuotient(w, a, k, z);
  }

  lemma PerfectQuotient(w: real, a: real, k: real, z: real)
    requires k > 0.0 && a > 0.0 && a * k == z * z && w * (1.0 + a) == 1.0
    ensures k + z * z > 0.0 && w == k / (k + z * z)
  {
    Product(a, k);
    assert w * (1.0 + a) * k == w * (k + a * k);
    Quotient(k, k + z * z);
    SameFactor(k + z * z, w, k / (k + z * z));
  }

  /** Two observations at the same level: the larger ratio has the strictly larger bound. */
  lemma HigherRatioHigherRoot(p: real, q: real, a: real, m: real, w: real, v: real, m': real, w': real, v': real)
    requires Roots(p, a, m, w, v) && Roots(q, a, m', w', v') && p < q
    ensures w < w'
  {
    hide Roots, Score;
    RootsAre(p, a, m, w, v);
    RootsAre(q, a, m', w', v');
    RootsEnclose(p, a, m, w, v);
    InvertsScoreTest(p, a, m, w, v, w);
    ScoreShift(p, q, a, w);
    InvertsScoreTest(q, a, m', w', v', w);
    ScoreAtRoot(p, a, m, w, v);
  }

  lemma RootsAre(p: real, a: real, m: real, w: real, v: real)
    requires Roots(p, a, m, w, v)
    ensures 0.0 <= p <= 1.0 && a > 0.0
  {
  }

  lemma ScoreAtRoot(p: real, a: real, m: real, w: real, v: real)
    requires Roots(p, a, m, w, v)
    ensures Score(p, a, w) == 0.0
  {
    hide Score;
    Factored(p, a, m, w, v, w);
  }

  lemma ScoreShift(p: real, q: real, a: real, x: real)
    requires x <= p < q
    ensures Score(q, a, x) > Score(p, a, x)
  {
    assert (q - x) * (q - x) - (p - x) * (p - x) == (q - p) * (q + p - 2.0 * x);
    Product(q - p, q + p - 2.0 * x);
  }

  /** More hits in the same number of trials: strictly larger bound. */
  lemma MonotoneInHits(fewer: nat, more: nat, n: nat, z: real, root: real, root': real)
    requires Trial(fewer, n, z, root) && Trial(more, n, z, root') && fewer < more
    ensures WilsonLower(fewer, n, z, root) < WilsonLower(more, n, z, root')
  {
    hide WilsonLower, Level, Bound, Radicand, Roots, Ratio;
    WilsonIsLowerRoot(fewer, n, z, root);
    WilsonIsLowerRoot(more, n, z, root');
    RatioAscends(fewer, more, n);
    LevelIs(n, z);
    var p, q, a := Ratio(fewer, n), Ratio(more, n), Level(n, z);
    HigherRatioHigherRoot(p, q, a, z * root, WilsonLower(fewer, n, z, root), (p + a / 2.0 + z * root) / (1.0 + a),
                          z * root', WilsonLower(more, n, z, root'), (q + a / 2.0 + z * root') / (1.0 + a));
  }

  lemma RatioAscends(fewer: nat, more: nat, n: nat)
    requires n > 0 && fewer < more
    ensures Ratio(fewer, n) < Ratio(more, n)
  {
    var k := n as real;
    Quotient(fewer as real, k);
    Quotient(more as real, k);
    assert (Ratio(more, n) - Ratio(fewer, n)) * k == more as real - fewer as real;
    Product(k, Ratio(fewer, n) - Ratio(more, n));
    Product(k, Ratio(more, n) - Ratio(fewer, n));
  }

  /** The same ratio at a stricter level (smaller a): the bound is not lower, and it is strictly
      higher unless it is zero. */
  lemma SmallerLevelHigherRoot(p: real, a: real, b: real, m: real, w: real, v: real, m': real, w': real, v': real)
    requires Roots(p, a, m, w, v) && Roots(p, b, m', w', v') && b < a
    ensures w <= w' && (w > 0.0 ==> w < w')
  {
    hide Roots, Score;
    RootsEnclose(p, a, m, w, v);
    RootsEnclose(p, b, m', w', v');
    ScoreAtRoot(p, a, m, w, v);
    LevelShift(p, a, b, w);
    InvertsScoreTest(p, b, m', w', v', w);
  }

  lemma LevelDifference(p: real, a: real, b: real, x: real)
    ensures Score(p, b, x) - Score(p, a, x) == (a - b) * (x * (1.0 - x))
  {
    Distribute(a, b, x * (1.0 - x));
  }

  lemma Distribute(a: real, b: real, y: real)
    ensures a * y - b * y == (a - b) * y
  {
  }

  lemma LevelShift(p: real, a: real, b: real, x: real)
    requires b < a && 0.0 <= x < 1.0
    ensures x > 0.0 ==> Score(p, b, x) > Score(p, a, x)
  {
    hide Score;
    Product(x, 1.0 - x);
    Product(a - b, x * (1.0 - x));
    LevelDifference(p, a, b, x);
  }

  /** The bound is zero exactly when nothing was hit. */
  lemma ZeroIffNoHit(hits: nat, n: nat, z: real, root: real)
    requires Trial(hits, n, z, root)
    ensures WilsonLower(hits, n, z, root) == 0.0 <==> hits == 0
  {
    hide WilsonLower, Ratio, Level, Bound, Radicand, Roots, Score;
    var p, a, w := Ratio(hits, n), Level(n, z), WilsonLower(hits, n, z, root);
    BoundInRange(hits, n, z, root);
    NoRatio(n);
    LevelIs(n, z);
    if hits > 0 {
      RatioAscends(0, hits, n);
      WilsonIsLowerRoot(hits, n, z, root);
      ScoreAtRoot(p, a, z * root, w, (p + a / 2.0 + z * root) / (1.0 + a));
      ScoreAtZero(p, a);
    }
  }

  lemma NoRatio(n: nat)
    requires n > 0
    ensures Ratio(0, n) == 0.0
  {
  }

  lemma ScoreAtZero(p: real, a: real)
    ensures p > 0.0 ==> Score(p, a, 0.0) > 0.0
  {
    assert Score(p, a, 0.0) == p * p;
    Product(p, p);
  }

  /** Scaling hits and trials up by the same factor never lowers the bound: the same ratio over
      more trials scores at least as high, and strictly higher once anything was hit. */
  lemma MoreTrialsSameRatio(hits: nat, n: nat, hits': nat, n': nat, z: real, root: real, root': real)
    requires Trial(hits, n, z, root) && Trial(hits', n', z, root')
    requires hits * n' == hits' * n && n < n'
    ensures WilsonLower(hits, n, z, root) <= WilsonLower(hits', n', z, root')
    ensures hits > 0 ==> WilsonLower(hits, n, z, root) < WilsonLower(hits', n', z, root')
  {
    hide WilsonLower, Level, Bound, Radicand, Roots, Ratio;
    ZeroIffNoHit(hits, n, z, root);
    BoundInRange(hits, n, z, root);
    WilsonIsLowerRoot(hits, n, z, root);
    WilsonIsLowerRoot(hits', n', z, root');
    SameRatio(hits, n, hits', n');
    LevelFalls(n, n', z);
    var p, a, b := Ratio(hits, n), Level(n, z), Level(n', z);
    SmallerLevelHigherRoot(p, a, b, z * root, WilsonLower(hits, n, z, root), (p + a / 2.0 + z * root) / (1.0 + a),
                           z * root', WilsonLower(hits', n', z, root'), (p + b / 2.0 + z * root') / (1.0 + b));
  }

  lemma SameRatio(hits: nat, n: nat, hits': nat, n': nat)
    requires 0 < n && 0 < n' && hits * n' == hits' * n
    ensures Ratio(hits, n) == Ratio(hits', n')
  {
    var p, q, k, k' := Ratio(hits, n), Ratio(hits', n'), n as real, n' as real;
    Quotient(hits as real, k);
    Quotient(hits' as real, k');
    assert hits as real * k' == (hits * n') as real && hits' as real * k == (hits' * n) as real;
    assert p * k * k' == q * k' * k;
    Product(k, k');
    SameFactor(k * k', p, q);
  }

  lemma LevelFalls(n: nat, n': nat, z: real)
    requires 0 < n < n' && z > 0.0
    ensures 0.0 < Level(n', z) < Level(n, z)
  {
    LevelIs(n, z);
    LevelIs(n', z);
    var a, b, k, k' := Level(n, z), Level(n', z), n as real, n' as real;
    Product(b, k' - k);
    assert b * k < b * k' == a * k;
    Product(k, b - a);
    assert k * (b - a) < 0.0;
  }
}

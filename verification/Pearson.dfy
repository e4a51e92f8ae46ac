/**
 The Pearson correlation of the scoring benchmark (benchmarks/scoring-quality/run.py) over exact reals.

 The square root is the foreign operation: `den` stands for the non-negative real whose square is the product of the
 two sums of squares. Rounding to four digits is a separate monotone step.
 */
module Pearson {
  import opened Rounding
  import opened Fractions

  function Sum(xs: seq<real>): real {
    if xs == [] then 0.0 else xs[0] + Sum(xs[1..])
  }

  function Mean(xs: seq<real>, n: nat): real
    requires n > 0
  {
    Sum(xs) / n as real
  }

  /** Sum of (x - mx) * (y - my) over the zipped lists, which stops at the end of the shorter. */
  function Products(xs: seq<real>, ys: seq<real>, mx: real, my: real): real {
    if xs == [] || ys == [] then 0.0
    else (xs[0] - mx) * (ys[0] - my) + Products(xs[1..], ys[1..], mx, my)
  }

  /** Sum of (x - m) ** 2. */
  function Squares(xs: seq<real>, m: real): real {
    Products(xs, xs, m, m)
  }

  function Num(xs: seq<real>, ys: seq<real>): real
    requires |xs| > 0
  {
    Products(xs, ys, Mean(xs, |xs|), Mean(ys, |xs|))
  }

  function Sxx(xs: seq<real>, ys: seq<real>): real
    requires |xs| > 0
  {
    Squares(xs, Mean(xs, |xs|))
  }

  function Syy(xs: seq<real>, ys: seq<real>): real
    requires |xs| > 0
  {
    Squares(ys, Mean(ys, |xs|))
  }

  /** `den` is the square root the source takes. */
  predicate IsDenominator(xs: seq<real>, ys: seq<real>, den: real)
    requires |xs| > 0
  {
    IsRoot(den, Sxx(xs, ys), Syy(xs, ys))
  }

  predicate IsRoot(den: real, sxx: real, syy: real) {
    den >= 0.0 && den * den == sxx * syy
  }

  /** _pearson_r before rounding. */
  function PearsonR(xs: seq<real>, ys: seq<real>, den: real): real {
    if |xs| < 2 then 0.0 else Ratio(Num(xs, ys), den)
  }

  function Ratio(num: real, den: real): real {
    if den > 0.0 then num / den else 0.0
  }

  // ---------- Cauchy-Schwarz ----------

  /** (t * b - u * a) ** 2, expanded. */
  function Square(t: real, u: real, a: real, b: real): (r: real)
    ensures r >= 0.0
  {
    var d := t * b - u * a;
    d * d
  }

  /** t ** 2 * syy - 2 * t * u * sxy + u ** 2 * sxx */
  function Quadratic(t: real, u: real, sxx: real, sxy: real, syy: real): real {
    t * t * syy - 2.0 * t * u * sxy + u * u * sxx
  }

  lemma QuadraticAdds(t: real, u: real, a: real, b: real, sxx: real, sxy: real, syy: real, sxx': real, sxy': real, syy': real)
    requires sxx' == a * a + sxx && sxy' == a * b + sxy && syy' == b * b + syy
    ensures Square(t, u, a, b) + Quadratic(t, u, sxx, sxy, syy) == Quadratic(t, u, sxx', sxy', syy')
  {
    assert Square(t, u, a, b) == t * t * (b * b) - 2.0 * t * u * (a * b) + u * u * (a * a);
    assert t * t * (b * b + syy) == t * t * (b * b) + t * t * syy;
    assert 2.0 * t * u * (a * b + sxy) == 2.0 * t * u * (a * b) + 2.0 * t * u * sxy;
    assert u * u * (a * a + sxx) == u * u * (a * a) + u * u * sxx;
  }

  lemma ProductsUnfold(xs: seq<real>, ys: seq<real>, mx: real, my: real, a: real, b: real)
    requires xs != [] && ys != [] && a == xs[0] - mx && b == ys[0] - my
    ensures Products(xs, ys, mx, my) == a * b + Products(xs[1..], ys[1..], mx, my)
  {
  }

  /** Sum of (t * (y - my) - u * (x - mx)) ** 2. */
  function Residuals(xs: seq<real>, ys: seq<real>, mx: real, my: real, t: real, u: real): (r: real)
    requires |xs| == |ys|
    ensures r >= 0.0
  {
    if xs == [] then 0.0
    else Square(t, u, xs[0] - mx, ys[0] - my) + Residuals(xs[1..], ys[1..], mx, my, t, u)
  }

  lemma {:induction false} ResidualsExpand(xs: seq<real>, ys: seq<real>, mx: real, my: real, t: real, u: real)
    requires |xs| == |ys|
    ensures Residuals(xs, ys, mx, my, t, u)
            == Quadratic(t, u, Squares(xs, mx), Products(xs, ys, mx, my), Squares(ys, my))
  {
    if xs == [] {
      assert Quadratic(t, u, 0.0, 0.0, 0.0) == 0.0;
    } else {
      var a, b := xs[0] - mx, ys[0] - my;
      ProductsUnfold(xs, xs, mx, mx, a, a);
      ProductsUnfold(xs, ys, mx, my, a, b);
      ProductsUnfold(ys, ys, my, my, b, b);
      QuadraticAdds(t, u, a, b,
                    Squares(xs[1..], mx), Products(xs[1..], ys[1..], mx, my), Squares(ys[1..], my),
                    Squares(xs, mx), Products(xs, ys, mx, my), Squares(ys, my));
      ResidualsExpand(xs[1..], ys[1..], mx, my, t, u);
    }
  }

  lemma {:induction false} SquaresNonNegative(xs: seq<real>, m: real)
    ensures Squares(xs, m) >= 0.0
  {
    if xs != [] {
      SquaresNonNegative(xs[1..], m);
      assert (xs[0] - m) * (xs[0] - m) >= 0.0;
    }
  }

  /** A quadratic form that is never negative has a non-negative discriminant. */
  lemma Discriminant(sxx: real, sxy: real, syy: real)
    requires sxx >= 0.0 && syy >= 0.0
    requires Quadratic(sxx, sxy, sxx, sxy, syy) >= 0.0
    requires Quadratic(sxy, syy, sxx, sxy, syy) >= 0.0
    requires Quadratic(1.0, sxy, sxx, sxy, syy) >= 0.0
    ensures sxy * sxy <= sxx * syy
  {
    if sxx > 0.0 {
      assert Quadratic(sxx, sxy, sxx, sxy, syy) == sxx * (sxx * syy - sxy * sxy);
      ProductSign(sxx, sxx * syy - sxy * sxy);
    } else if syy > 0.0 {
      assert Quadratic(sxy, syy, 0.0, sxy, syy) == syy * (0.0 - sxy * sxy);
      ProductSign(syy, 0.0 - sxy * sxy);
      assert sxx * syy == 0.0;
    } else {
      assert Quadratic(1.0, sxy, 0.0, sxy, 0.0) == -2.0 * (sxy * sxy);
    }
  }

  lemma ProductSign(a: real, b: real)
    requires a > 0.0 && a * b >= 0.0
    ensures b >= 0.0
  {
    assert b < 0.0 ==> a * b < 0.0;
  }

  lemma CauchySchwarz(xs: seq<real>, ys: seq<real>, mx: real, my: real)
    requires |xs| == |ys|
    ensures Products(xs, ys, mx, my) * Products(xs, ys, mx, my) <= Squares(xs, mx) * Squares(ys, my)
  {
    hide Products, Residuals, Quadratic;
    var sxx, sxy, syy := Squares(xs, mx), Products(xs, ys, mx, my), Squares(ys, my);
    SquaresNonNegative(xs, mx);
    SquaresNonNegative(ys, my);
    ResidualsExpand(xs, ys, mx, my, sxx, sxy);
    ResidualsExpand(xs, ys, mx, my, sxy, syy);
    ResidualsExpand(xs, ys, mx, my, 1.0, sxy);
    Discriminant(sxx, sxy, syy);
  }

  /** Cutting both lists to the shorter length keeps the products and does not add to the squares. */
  lemma {:induction false} Truncate(xs: seq<real>, ys: seq<real>, mx: real, my: real, n: nat)
    requires n <= |xs| && n <= |ys| && (n == |xs| || n == |ys|)
    ensures Products(xs, ys, mx, my) == Products(xs[..n], ys[..n], mx, my)
    ensures Squares(xs[..n], mx) <= Squares(xs, mx)
    decreases n
  {
    if n == 0 {
      SquaresNonNegative(xs, mx);
    } else {
      Truncate(xs[1..], ys[1..], mx, my, n - 1);
      assert xs[..n][1..] == xs[1..][..n - 1] && ys[..n][1..] == ys[1..][..n - 1];
    }
  }

  lemma ProductsMonotone(a: real, b: real, c: real, d: real, square: real)
    requires 0.0 <= a <= c && 0.0 <= b <= d && square <= a * b
    ensures square <= c * d
  {
    assert (c - a) * b >= 0.0 && c * (d - b) >= 0.0;
  }

  lemma ProductsBound(xs: seq<real>, ys: seq<real>, mx: real, my: real)
    ensures Products(xs, ys, mx, my) * Products(xs, ys, mx, my) <= Squares(xs, mx) * Squares(ys, my)
  {
    hide Products;
    var n := if |xs| <= |ys| then |xs| else |ys|;
    var p := Products(xs, ys, mx, my);
    Truncate(xs, ys, mx, my, n);
    Truncate(ys, xs, my, mx, n);
    CauchySchwarz(xs[..n], ys[..n], mx, my);
    SquaresNonNegative(xs[..n], mx);
    SquaresNonNegative(ys[..n], my);
    ProductsMonotone(Squares(xs[..n], mx), Squares(ys[..n], my), Squares(xs, mx), Squares(ys, my), p * p);
  }

  lemma SquareRootBound(num: real, den: real)
    requires den > 0.0 && num * num <= den * den
    ensures -den <= num <= den && -1.0 <= num / den <= 1.0
  {
    if num > den {
      LargerSquare(num, den);
    }
    if -num > den {
      LargerSquare(-num, den);
    }
  }

  lemma LargerSquare(a: real, b: real)
    requires a > b >= 0.0
    ensures a * a > b * b
  {
    Positive(a - b, a + b, (a - b) * (a + b));
    assert (a - b) * (a + b) == a * a - b * b;
  }

  /** The coefficient is always between -1 and 1, for lists of any two lengths. */
  lemma PearsonBounded(xs: seq<real>, ys: seq<real>, den: real)
    requires |xs| > 0 && IsDenominator(xs, ys, den)
    ensures -1.0 <= PearsonR(xs, ys, den) <= 1.0
  {
    hide Products, Mean;
    if |xs| >= 2 && den > 0.0 {
      ProductsBound(xs, ys, Mean(xs, |xs|), Mean(ys, |xs|));
      SquareRootBound(Num(xs, ys), den);
    }
  }

  /** What is reported: rounded to four digits. */
  function Reported(r: real): real {
    Round(r * 10000.0) as real / 10000.0
  }

  /** Rounding does not take it out of the interval. */
  lemma ReportedBounded(xs: seq<real>, ys: seq<real>, den: real)
    requires |xs| > 0 && IsDenominator(xs, ys, den)
    ensures -1.0 <= Reported(PearsonR(xs, ys, den)) <= 1.0
  {
    hide Products, Mean, PearsonR;
    PearsonBounded(xs, ys, den);
    var r := PearsonR(xs, ys, den);
    RoundIsMonotone(-10000.0, r * 10000.0);
    RoundIsMonotone(r * 10000.0, 10000.0);
    RoundKeepsWhole(10000);
    RoundKeepsWhole(-10000);
  }

  /** What is reported is the value to four digits. */
  lemma ReportedIsNear(r: real)
    ensures r - 0.00005 <= Reported(r) <= r + 0.00005
  {
  }

  // ---------- Explained variance ----------

  /** The sum of the squared errors when every y is predicted by the line a * x + b. */
  function SquaredErrors(xs: seq<real>, ys: seq<real>, a: real, b: real): real
    requires |xs| == |ys|
  {
    if xs == [] then 0.0
    else
      var error := ys[0] - (a * xs[0] + b);
      error * error + SquaredErrors(xs[1..], ys[1..], a, b)
  }

  lemma {:induction false} ErrorsAreResiduals(xs: seq<real>, ys: seq<real>, a: real, b: real)
    requires |xs| == |ys|
    ensures SquaredErrors(xs, ys, a, b) == Residuals(xs, ys, 0.0, b, 1.0, a)
  {
    if xs != [] {
      ErrorsAreResiduals(xs[1..], ys[1..], a, b);
      var error := ys[0] - (a * xs[0] + b);
      assert 1.0 * (ys[0] - b) - a * (xs[0] - 0.0) == error;
    }
  }

  lemma ShiftOne(x: real, y: real, mx: real, my: real, dp: real, dq: real)
    ensures (x - mx + dp) * (y - my + dq) == (x - mx) * (y - my) + dq * (x - mx) + dp * (y - my) + dp * dq
  {
    assert (x - mx + dp) * (y - my + dq) == (x - mx) * (y - my + dq) + dp * (y - my + dq);
  }

  /** How a sum of products changes when it is taken around mx - dp and my - dq instead of mx and my. */
  predicate Shifted(p: real, p': real, sx: real, sy: real, n: real, mx: real, my: real, dp: real, dq: real) {
    p' == p + dq * (sx - n * mx) + dp * (sy - n * my) + n * (dp * dq)
  }

  predicate Apart(m: real, m': real, d: real) {
    m' == m - d
  }

  lemma {:induction false} ShiftProducts(xs: seq<real>, ys: seq<real>, mx: real, my: real, dp: real, dq: real,
                                         mx': real, my': real)
    requires |xs| == |ys| && Apart(mx, mx', dp) && Apart(my, my', dq)
    ensures Shifted(Products(xs, ys, mx, my), Products(xs, ys, mx', my'), Sum(xs), Sum(ys), |xs| as real, mx, my, dp, dq)
  {
    if xs == [] {
      ShiftNothing(mx, my, dp, dq);
    } else {
      hide Shifted, Products, Sum, Apart;
      var n, a, b, a', b' := |xs| as real, xs[0] - mx, ys[0] - my, xs[0] - mx', ys[0] - my';
      ShiftProducts(xs[1..], ys[1..], mx, my, dp, dq, mx', my');
      var p, p' := Products(xs[1..], ys[1..], mx, my), Products(xs[1..], ys[1..], mx', my');
      assert |xs[1..]| as real == n - 1.0;
      ProductsUnfold(xs, ys, mx, my, a, b);
      ProductsUnfold(xs, ys, mx', my', a', b');
      SumUnfold(xs);
      SumUnfold(ys);
      ShiftStep(xs[0], ys[0], mx, my, dp, dq, mx', my', n, Sum(xs[1..]), Sum(ys[1..]), p, p', a * b + p, a' * b' + p');
    }
  }

  lemma SumUnfold(xs: seq<real>)
    requires xs != []
    ensures Sum(xs) == xs[0] + Sum(xs[1..])
  {
  }

  lemma ShiftNothing(mx: real, my: real, dp: real, dq: real)
    ensures Shifted(0.0, 0.0, 0.0, 0.0, 0.0, mx, my, dp, dq)
  {
  }

  lemma ShiftStep(x: real, y: real, mx: real, my: real, dp: real, dq: real, mx': real, my': real, n: real,
                  sx: real, sy: real, p: real, p': real, next: real, next': real)
    requires Apart(mx, mx', dp) && Apart(my, my', dq) && Shifted(p, p', sx, sy, n - 1.0, mx, my, dp, dq)
    requires next == (x - mx) * (y - my) + p && next' == (x - mx') * (y - my') + p'
    ensures Shifted(next, next', x + sx, y + sy, n, mx, my, dp, dq)
  {
    ShiftOne(x, y, mx, my, dp, dq);
    assert x - mx' == x - mx + dp && y - my' == y - my + dq;
    ShiftSum(dq, x, sx, n, mx);
    ShiftSum(dp, y, sy, n, my);
    Times(n, dp * dq);
  }

  lemma Times(n: real, d: real)
    ensures n * d == (n - 1.0) * d + d
  {
  }

  lemma ShiftSum(d: real, x: real, rest: real, n: real, m: real)
    ensures d * (x + rest - n * m) == d * (x - m) + d * (rest - (n - 1.0) * m)
  {
    assert x + rest - n * m == (x - m) + (rest - (n - 1.0) * m);
  }

  lemma AroundMeans(xs: seq<real>, ys: seq<real>, dp: real, dq: real)
    requires |xs| == |ys| > 0
    ensures Products(xs, ys, Mean(xs, |xs|) - dp, Mean(ys, |ys|) - dq) == Num(xs, ys) + |xs| as real * (dp * dq)
  {
    hide Products, Mean, Sum;
    var n := |xs| as real;
    var mx, my := Mean(xs, |xs|), Mean(ys, |ys|);
    ShiftProducts(xs, ys, mx, my, dp, dq, mx - dp, my - dq);
    SumIsMean(xs, n);
    SumIsMean(ys, n);
    assert dq * 0.0 == 0.0 && dp * 0.0 == 0.0;
  }

  lemma SumIsMean(xs: seq<real>, n: real)
    requires |xs| > 0 && n == |xs| as real
    ensures Sum(xs) - n * Mean(xs, |xs|) == 0.0
  {
    var m := Mean(xs, |xs|);
    assert m * n == Sum(xs);
  }

  lemma QuadraticShift(a: real, sxx: real, sxy: real, syy: real, n: real, dx: real, dy: real)
    ensures Quadratic(1.0, a, sxx + n * (dx * dx), sxy + n * (dx * dy), syy + n * (dy * dy)) ==
      Quadratic(1.0, a, sxx, sxy, syy) + n * ((dy - a * dx) * (dy - a * dx))
  {
    var c := dy - a * dx;
    assert c * c == dy * dy - 2.0 * a * (dx * dy) + a * a * (dx * dx);
    assert n * (c * c) == n * (dy * dy) - 2.0 * a * (n * (dx * dy)) + a * a * (n * (dx * dx));
    assert 2.0 * 1.0 * a * (sxy + n * (dx * dy)) == 2.0 * a * sxy + 2.0 * a * (n * (dx * dy));
    assert a * a * (sxx + n * (dx * dx)) == a * a * sxx + a * a * (n * (dx * dx));
  }

  /** The squared errors of any line: those of its slope through the means, and how far it misses the means. */
  lemma ErrorsExpand(xs: seq<real>, ys: seq<real>, a: real, b: real)
    requires |xs| == |ys| > 0
    ensures var miss := Mean(ys, |ys|) - b - a * Mean(xs, |xs|);
      SquaredErrors(xs, ys, a, b) ==
        Quadratic(1.0, a, Sxx(xs, ys), Num(xs, ys), Syy(xs, ys)) + |xs| as real * (miss * miss)
  {
    hide Products, Mean, Quadratic, SquaredErrors, Residuals;
    var n, mx, my := |xs| as real, Mean(xs, |xs|), Mean(ys, |ys|);
    var dy := my - b;
    ErrorsAreResiduals(xs, ys, a, b);
    ResidualsExpand(xs, ys, 0.0, b, 1.0, a);
    AroundMeans(xs, xs, mx, mx);
    AroundMeans(xs, ys, mx, dy);
    AroundMeans(ys, ys, dy, dy);
    assert mx - mx == 0.0 && my - dy == b;
    assert Squares(xs, 0.0) == Sxx(xs, ys) + n * (mx * mx);
    assert Products(xs, ys, 0.0, b) == Num(xs, ys) + n * (mx * dy);
    assert Squares(ys, b) == Syy(xs, ys) + n * (dy * dy);
    QuadraticShift(a, Sxx(xs, ys), Num(xs, ys), Syy(xs, ys), n, mx, dy);
  }

  /** `m` is the best slope. */
  lemma CompleteSquare(a: real, m: real, sxx: real, sxy: real, syy: real)
    requires m * sxx == sxy
    ensures Quadratic(1.0, a, sxx, sxy, syy) == syy - m * sxy + sxx * ((a - m) * (a - m))
  {
    var d := a - m;
    assert d * d == a * a - 2.0 * a * m + m * m;
    assert sxx * (d * d) == a * a * sxx - 2.0 * a * (m * sxx) + m * (m * sxx);
  }

  /** The share of the variation that the best slope leaves unexplained. */
  lemma Unexplained(m: real, r: real, den: real, sxx: real, sxy: real, syy: real)
    requires sxx > 0.0 && den > 0.0 && den * den == sxx * syy && m * sxx == sxy && r * den == sxy
    ensures (1.0 - r * r) * syy == syy - m * sxy
    ensures (m > 0.0 <==> r > 0.0) && (m < 0.0 <==> r < 0.0)
  {
    assert (r * r) * (den * den) == sxy * sxy;
    assert (r * r) * (sxx * syy) == (r * r * syy) * sxx;
    assert sxy * sxy == (m * sxy) * sxx;
    EqualFactors(r * r * syy, m * sxy, sxx);
    SameSigns(m, sxx, sxy);
    SameSigns(r, den, sxy);
  }

  lemma EqualFactors(u: real, v: real, w: real)
    requires w > 0.0 && u * w == v * w
    ensures u == v
  {
    var d := u - v;
    if d > 0.0 {
      Positive(d, w, d * w);
    } else if d < 0.0 {
      Positive(-d, w, -(d * w));
    }
  }

  lemma SameSigns(a: real, s: real, p: real)
    requires s > 0.0 && a * s == p
    ensures (a > 0.0 <==> p > 0.0) && (a < 0.0 <==> p < 0.0)
  {
    if p != 0.0 {
      SameSign(a, s, p);
    } else {
      EqualFactors(a, 0.0, s);
    }
  }

  /** The slope of the best line, and what it leaves. */
  lemma BestSlope(xs: seq<real>, ys: seq<real>, den: real) returns (m: real)
    requires |xs| == |ys| >= 2 && IsDenominator(xs, ys, den) && den > 0.0
    ensures var r := PearsonR(xs, ys, den);
      && m * Sxx(xs, ys) == Num(xs, ys) && Sxx(xs, ys) > 0.0
      && (1.0 - r * r) * Syy(xs, ys) == Syy(xs, ys) - m * Num(xs, ys)
      && (m > 0.0 <==> r > 0.0) && (m < 0.0 <==> r < 0.0)
  {
    hide Products, Mean;
    SquaresNonNegative(xs, Mean(xs, |xs|));
    Spread(den, Sxx(xs, ys), Syy(xs, ys));
    var r := PearsonR(xs, ys, den);
    m := Num(xs, ys) / Sxx(xs, ys);
    assert r * den == Num(xs, ys);
    Unexplained(m, r, den, Sxx(xs, ys), Num(xs, ys), Syy(xs, ys));
  }

  /** What is to be explained: the squared errors of the best constant, which is the mean. */
  lemma VariationIsLeast(xs: seq<real>, ys: seq<real>, b: real)
    requires |xs| == |ys| > 0
    ensures SquaredErrors(xs, ys, 0.0, Mean(ys, |ys|)) == Syy(xs, ys) <= SquaredErrors(xs, ys, 0.0, b)
  {
    hide Products, Mean, SquaredErrors;
    ErrorsExpand(xs, ys, 0.0, b);
    ErrorsExpand(xs, ys, 0.0, Mean(ys, |ys|));
    FlatQuadratic(Sxx(xs, ys), Num(xs, ys), Syy(xs, ys));
    var miss := Mean(ys, |ys|) - b - 0.0 * Mean(xs, |xs|);
    SquareTimes(|xs| as real, miss);
    assert 0.0 * Mean(xs, |xs|) == 0.0;
  }

  lemma FlatQuadratic(sxx: real, sxy: real, syy: real)
    ensures Quadratic(1.0, 0.0, sxx, sxy, syy) == syy
  {
  }

  lemma SquareTimes(w: real, d: real)
    requires w >= 0.0
    ensures w * (d * d) >= 0.0
  {
    var q := d * d;
    assert q >= 0.0;
    assert w * q >= 0.0;
  }

  /**
   The square of the coefficient is the share of the variation of the second list that a line over the first explains: no
   line leaves less than the rest of it as squared errors.
   */
  lemma ExplainedVariance(xs: seq<real>, ys: seq<real>, den: real, a: real, b: real)
    requires |xs| == |ys| >= 2 && IsDenominator(xs, ys, den) && den > 0.0
    ensures var r := PearsonR(xs, ys, den);
      SquaredErrors(xs, ys, a, b) >= (1.0 - r * r) * Syy(xs, ys)
  {
    hide Products, Mean, SquaredErrors, Quadratic, PearsonR;
    var m := BestSlope(xs, ys, den);
    ErrorsExpand(xs, ys, a, b);
    CompleteSquare(a, m, Sxx(xs, ys), Num(xs, ys), Syy(xs, ys));
    SquareTimes(Sxx(xs, ys), a - m);
    SquareTimes(|xs| as real, Mean(ys, |ys|) - b - a * Mean(xs, |xs|));
  }

  /** And the best line leaves exactly that; it rises (falls) exactly when the coefficient is positive (negative). */
  lemma BestLine(xs: seq<real>, ys: seq<real>, den: real) returns (a: real, b: real)
    requires |xs| == |ys| >= 2 && IsDenominator(xs, ys, den) && den > 0.0
    ensures var r := PearsonR(xs, ys, den);
      && SquaredErrors(xs, ys, a, b) == (1.0 - r * r) * Syy(xs, ys)
      && (a > 0.0 <==> r > 0.0) && (a < 0.0 <==> r < 0.0)
  {
    hide Products, Mean, SquaredErrors, Quadratic, PearsonR;
    a := BestSlope(xs, ys, den);
    b := Mean(ys, |ys|) - a * Mean(xs, |xs|);
    ErrorsExpand(xs, ys, a, b);
    CompleteSquare(a, a, Sxx(xs, ys), Num(xs, ys), Syy(xs, ys));
    assert a - a == 0.0 && Mean(ys, |ys|) - b - a * Mean(xs, |xs|) == 0.0;
  }

  // ---------- Symmetry and affine maps ----------

  lemma {:induction false} ProductsSymmetric(xs: seq<real>, ys: seq<real>, mx: real, my: real)
    ensures Products(xs, ys, mx, my) == Products(ys, xs, my, mx)
  {
    if xs != [] && ys != [] {
      ProductsSymmetric(xs[1..], ys[1..], mx, my);
    }
  }

  lemma PearsonSymmetric(xs: seq<real>, ys: seq<real>, den: real)
    requires |xs| == |ys| > 0 && IsDenominator(xs, ys, den)
    ensures IsDenominator(ys, xs, den) && PearsonR(ys, xs, den) == PearsonR(xs, ys, den)
  {
    hide Products, Mean, Ratio;
    ProductsSymmetric(xs, ys, Mean(xs, |xs|), Mean(ys, |xs|));
  }

  /** Every element mapped to a * x + b. */
  function Affine(xs: seq<real>, a: real, b: real): (ys: seq<real>)
    ensures |ys| == |xs|
  {
    if xs == [] then [] else [a * xs[0] + b] + Affine(xs[1..], a, b)
  }

  lemma {:induction false} SumAffine(xs: seq<real>, a: real, b: real)
    ensures Sum(Affine(xs, a, b)) == a * Sum(xs) + b * |xs| as real
  {
    if xs != [] {
      SumAffine(xs[1..], a, b);
      var s, n := Sum(xs[1..]), |xs[1..]| as real;
      assert a * (xs[0] + s) == a * xs[0] + a * s;
      assert b * (n + 1.0) == b * n + b;
    }
  }

  lemma MeanAffine(xs: seq<real>, a: real, b: real)
    requires |xs| > 0
    ensures Mean(Affine(xs, a, b), |xs|) == a * Mean(xs, |xs|) + b
  {
    SumAffine(xs, a, b);
    DivideAffine(Sum(xs), Sum(Affine(xs, a, b)), |xs| as real, a, b);
  }

  lemma DivideAffine(s: real, s': real, n: real, a: real, b: real)
    requires n > 0.0 && s' == a * s + b * n
    ensures s' / n == a * (s / n) + b
  {
    var q := s / n;
    assert s == q * n;
    assert s' == (a * q + b) * n;
  }

  lemma {:induction false} ProductsAffine(xs: seq<real>, ys: seq<real>, mx: real, my: real, my': real, a: real, b: real)
    requires my' == a * my + b
    ensures Products(xs, Affine(ys, a, b), mx, my') == a * Products(xs, ys, mx, my)
  {
    if xs != [] && ys != [] {
      var ys' := Affine(ys, a, b);
      assert ys'[0] == a * ys[0] + b && ys'[1..] == Affine(ys[1..], a, b);
      hide Products, Affine;
      var x, y := xs[0] - mx, ys[0] - my;
      ScaledDifference(a, b, ys[0], my);
      ProductsUnfold(xs, ys, mx, my, x, y);
      ProductsUnfold(xs, ys', mx, my', x, a * y);
      ProductsAffine(xs[1..], ys[1..], mx, my, my', a, b);
      FactorOut(a, x, y, Products(xs[1..], ys[1..], mx, my));
    }
  }

  lemma ScaledDifference(a: real, b: real, u: real, v: real)
    ensures a * u + b - (a * v + b) == a * (u - v)
  {
  }

  lemma FactorOut(a: real, x: real, y: real, p: real)
    ensures x * (a * y) + a * p == a * (x * y + p)
  {
    assert x * (a * y) == a * (x * y);
    assert a * (x * y + p) == a * (x * y) + a * p;
  }

  function Abs(a: real): real {
    if a < 0.0 then -a else a
  }

  lemma AffineParts(xs: seq<real>, ys: seq<real>, a: real, b: real)
    requires |xs| == |ys| > 0
    ensures Num(xs, Affine(ys, a, b)) == a * Num(xs, ys)
    ensures Sxx(xs, Affine(ys, a, b)) == Sxx(xs, ys)
    ensures Syy(xs, Affine(ys, a, b)) == a * (a * Syy(xs, ys))
  {
    hide Products, Mean;
    var mx, my, ys' := Mean(xs, |xs|), Mean(ys, |xs|), Affine(ys, a, b);
    var my' := a * my + b;
    MeanAffine(ys, a, b);
    assert Mean(ys', |xs|) == my';
    ProductsAffine(xs, ys, mx, my, my', a, b);
    ProductsAffine(ys', ys, my', my, my', a, b);
    ProductsSymmetric(ys', ys, my', my);
    ProductsAffine(ys, ys, my, my, my', a, b);
    assert Products(ys', ys', my', my') == a * (a * Products(ys, ys, my, my));
  }

  /** The non-negative square root is unique. */
  lemma RootIsUnique(u: real, v: real)
    requires u >= 0.0 && v >= 0.0 && u * u == v * v
    ensures u == v
  {
    if u > v {
      LargerSquare(u, v);
    }
    if v > u {
      LargerSquare(v, u);
    }
  }

  lemma ScaledRoot(a: real, sxx: real, syy: real, syy': real, den: real, den': real)
    requires den >= 0.0 && den * den == sxx * syy
    requires den' >= 0.0 && den' * den' == sxx * syy' && syy' == a * (a * syy)
    ensures den' == Abs(a) * den
  {
    var c := Abs(a);
    assert c * c == a * a;
    assert sxx * (a * (a * syy)) == (a * a) * (sxx * syy);
    assert (c * den) * (c * den) == (c * c) * (den * den);
    RootIsUnique(den', c * den);
  }

  lemma ScaledRatio(a: real, num: real, num': real, den: real, den': real)
    requires den > 0.0 && a != 0.0 && num' == a * num && den' == Abs(a) * den
    ensures den' > 0.0 && num' / den' == if a > 0.0 then num / den else -(num / den)
  {
    var c := Abs(a);
    Positive(c, den, c * den);
    assert (c * num) / (c * den) == num / den;
    if a < 0.0 {
      assert num' == -(c * num);
      assert (-(c * num)) / (c * den) == -((c * num) / (c * den));
    }
  }

  lemma RatioAffine(a: real, num: real, num': real, sxx: real, sxx': real, syy: real, syy': real, den: real, den': real)
    requires a != 0.0 && num' == a * num && sxx' == sxx && syy' == a * (a * syy)
    requires IsRoot(den, sxx, syy) && IsRoot(den', sxx', syy')
    ensures Ratio(num', den') == if a > 0.0 then Ratio(num, den) else -Ratio(num, den)
  {
    ScaledRoot(a, sxx, syy, syy', den, den');
    if den > 0.0 {
      ScaledRatio(a, num, num', den, den');
    }
  }

  /** A positive affine map of the second list leaves the coefficient as it was; a negative one flips its sign. */
  lemma PearsonAffine(xs: seq<real>, ys: seq<real>, a: real, b: real, den: real, den': real)
    requires |xs| == |ys| > 0 && a != 0.0
    requires IsDenominator(xs, ys, den) && IsDenominator(xs, Affine(ys, a, b), den')
    ensures PearsonR(xs, Affine(ys, a, b), den') == if a > 0.0 then PearsonR(xs, ys, den) else -PearsonR(xs, ys, den)
  {
    hide Products, Mean, Affine;
    var ys' := Affine(ys, a, b);
    AffineParts(xs, ys, a, b);
    RatioAffine(a, Num(xs, ys), Num(xs, ys'), Sxx(xs, ys), Sxx(xs, ys'), Syy(xs, ys), Syy(xs, ys'), den, den');
  }

  // ---------- The extreme values ----------

  lemma {:induction false} NoResiduals(xs: seq<real>, ys: seq<real>, mx: real, my: real, t: real, u: real)
    requires |xs| == |ys| && Residuals(xs, ys, mx, my, t, u) <= 0.0
    ensures forall i :: 0 <= i < |xs| ==> Square(t, u, xs[i] - mx, ys[i] - my) <= 0.0
  {
    hide Square;
    if xs != [] {
      NoResiduals(xs[1..], ys[1..], mx, my, t, u);
      forall i | 0 < i < |xs|
        ensures Square(t, u, xs[i] - mx, ys[i] - my) <= 0.0
      {
        assert xs[i] == xs[1..][i - 1] && ys[i] == ys[1..][i - 1];
      }
    }
  }

  lemma NoSquare(t: real, u: real, a: real, b: real)
    requires Square(t, u, a, b) <= 0.0
    ensures t * b == u * a
  {
    var d := t * b - u * a;
    if d != 0.0 {
      SquareIsPositive(d, Square(t, u, a, b));
    }
  }

  lemma SquareIsPositive(d: real, p: real)
    requires p == d * d && d != 0.0
    ensures p > 0.0
  {
    if d > 0.0 {
      Positive(d, d, p);
    } else {
      Positive(-d, -d, p);
    }
  }

  lemma {:induction false} IsAffine(xs: seq<real>, ys: seq<real>, a: real, b: real)
    requires |xs| == |ys| && forall i :: 0 <= i < |xs| ==> ys[i] == a * xs[i] + b
    ensures ys == Affine(xs, a, b)
  {
    if xs != [] {
      forall i | 0 <= i < |xs[1..]|
        ensures ys[1..][i] == a * xs[1..][i] + b
      {
        assert ys[i + 1] == a * xs[i + 1] + b;
      }
      IsAffine(xs[1..], ys[1..], a, b);
      assert ys[0] == a * xs[0] + b;
      assert Affine(xs, a, b) == [a * xs[0] + b] + ys[1..];
    }
  }

  lemma SolveFor(y: real, t: real, u: real, x: real, mx: real, my: real)
    requires t != 0.0 && t * (y - my) == u * (x - mx)
    ensures y == (u / t) * x + (my - (u / t) * mx)
  {
    var a := u / t;
    assert u == a * t;
    assert t * (y - my) == t * (a * (x - mx));
    assert y - my == a * (x - mx);
  }

  lemma DegenerateForm(sxx: real, num: real, syy: real)
    requires num * num == sxx * syy
    ensures Quadratic(sxx, num, sxx, num, syy) == 0.0
  {
    assert Quadratic(sxx, num, sxx, num, syy) == sxx * (sxx * syy - num * num);
  }

  lemma ResidualFree(xs: seq<real>, ys: seq<real>, mx: real, my: real, t: real, u: real)
    requires |xs| == |ys| && t != 0.0 && Residuals(xs, ys, mx, my, t, u) <= 0.0
    ensures ys == Affine(xs, u / t, my - (u / t) * mx)
  {
    hide Residuals, Affine;
    NoResiduals(xs, ys, mx, my, t, u);
    var a, b := u / t, my - (u / t) * mx;
    forall i | 0 <= i < |xs|
      ensures ys[i] == a * xs[i] + b
    {
      NoSquare(t, u, xs[i] - mx, ys[i] - my);
      SolveFor(ys[i], t, u, xs[i], mx, my);
    }
    IsAffine(xs, ys, a, b);
  }

  /** If the coefficient has reached 1 or -1, the second list is an affine image of the first. */
  lemma ExtremeIsAffine(xs: seq<real>, ys: seq<real>) returns (a: real, b: real)
    requires |xs| == |ys| > 0 && Sxx(xs, ys) > 0.0
    requires Num(xs, ys) * Num(xs, ys) == Sxx(xs, ys) * Syy(xs, ys)
    ensures ys == Affine(xs, a, b) && a == Num(xs, ys) / Sxx(xs, ys)
  {
    hide Products, Mean, Affine, Quadratic, Residuals;
    var mx, my, t, u := Mean(xs, |xs|), Mean(ys, |xs|), Sxx(xs, ys), Num(xs, ys);
    DegenerateForm(t, u, Syy(xs, ys));
    ResidualsExpand(xs, ys, mx, my, t, u);
    ResidualFree(xs, ys, mx, my, t, u);
    a, b := u / t, my - (u / t) * mx;
  }

  lemma ZeroFactor(a: real, b: real, p: real)
    requires a == 0.0 && p == a * b
    ensures p == 0.0
  {
    assert p == 0.0 * b;
  }

  lemma Spread(den: real, sxx: real, syy: real)
    requires den > 0.0 && IsRoot(den, sxx, syy) && sxx >= 0.0
    ensures sxx > 0.0
  {
    SquareIsPositive(den, sxx * syy);
    if sxx == 0.0 {
      ZeroFactor(sxx, syy, sxx * syy);
    }
  }

  lemma UnitRatio(num: real, den: real, sxx: real, syy: real)
    requires den > 0.0 && IsRoot(den, sxx, syy) && sxx >= 0.0
    requires Ratio(num, den) == 1.0 || Ratio(num, den) == -1.0
    ensures sxx > 0.0 && num * num == sxx * syy && (num / sxx > 0.0 <==> Ratio(num, den) == 1.0) && num / sxx != 0.0
  {
    Spread(den, sxx, syy);
    assert num == Ratio(num, den) * den;
    assert num * num == den * den;
    assert (num / sxx) * sxx == num;
    SameSign(num / sxx, sxx, num);
  }

  lemma SameSign(a: real, s: real, p: real)
    requires s > 0.0 && a * s == p && p != 0.0
    ensures a != 0.0 && (a > 0.0 <==> p > 0.0)
  {
    if a > 0.0 {
      Positive(a, s, a * s);
    } else if a < 0.0 {
      Positive(-a, s, (-a) * s);
      assert (-a) * s == -p;
    }
  }

  lemma SelfCorrelation(xs: seq<real>)
    requires |xs| >= 2 && Sxx(xs, xs) > 0.0
    ensures IsDenominator(xs, xs, Sxx(xs, xs)) && PearsonR(xs, xs, Sxx(xs, xs)) == 1.0
  {
    SelfRatio(Sxx(xs, xs));
  }

  lemma SelfRatio(den: real)
    requires den > 0.0
    ensures Ratio(den, den) == 1.0
  {
    assert den / den == 1.0;
  }

  lemma AffineIsExtreme(xs: seq<real>, a: real, b: real, den: real)
    requires |xs| >= 2 && a != 0.0 && den > 0.0 && IsDenominator(xs, Affine(xs, a, b), den)
    ensures PearsonR(xs, Affine(xs, a, b), den) == if a > 0.0 then 1.0 else -1.0
  {
    hide Products, Mean, Affine;
    SquaresNonNegative(xs, Mean(xs, |xs|));
    Spread(den, Sxx(xs, Affine(xs, a, b)), Syy(xs, Affine(xs, a, b)));
    SelfCorrelation(xs);
    PearsonAffine(xs, xs, a, b, Sxx(xs, xs), den);
  }

  lemma PerfectIsAffine(xs: seq<real>, ys: seq<real>, den: real) returns (a: real, b: real)
    requires |xs| == |ys| >= 2 && IsDenominator(xs, ys, den) && den > 0.0
    requires PearsonR(xs, ys, den) == 1.0 || PearsonR(xs, ys, den) == -1.0
    ensures ys == Affine(xs, a, b) && a != 0.0 && (a > 0.0 <==> PearsonR(xs, ys, den) == 1.0)
  {
    hide Products, Mean, Affine;
    SquaresNonNegative(xs, Mean(xs, |xs|));
    UnitRatio(Num(xs, ys), den, Sxx(xs, ys), Syy(xs, ys));
    a, b := ExtremeIsAffine(xs, ys);
  }

  /** Lists that are not constant correlate perfectly exactly when one is a rising (falling) affine image of the other. */
  lemma PerfectIff(xs: seq<real>, ys: seq<real>, den: real)
    requires |xs| == |ys| >= 2 && IsDenominator(xs, ys, den) && den > 0.0
    ensures PearsonR(xs, ys, den) == 1.0 <==> exists a, b :: a > 0.0 && ys == Affine(xs, a, b)
    ensures PearsonR(xs, ys, den) == -1.0 <==> exists a, b :: a < 0.0 && ys == Affine(xs, a, b)
  {
    hide Products, Mean, Affine;
    if PearsonR(xs, ys, den) == 1.0 || PearsonR(xs, ys, den) == -1.0 {
      var a, b := PerfectIsAffine(xs, ys, den);
    }
    forall a, b | a != 0.0 && ys == Affine(xs, a, b)
      ensures PearsonR(xs, ys, den) == if a > 0.0 then 1.0 else -1.0
    {
      AffineIsExtreme(xs, a, b, den);
    }
  }

  // ---------- Constant lists ----------

  predicate Constant(xs: seq<real>) {
    forall i :: 0 <= i < |xs| ==> xs[i] == xs[0]
  }

  lemma {:induction false} ZeroSquaresIff(xs: seq<real>, m: real)
    ensures Squares(xs, m) == 0.0 <==> forall i :: 0 <= i < |xs| ==> xs[i] == m
  {
    if xs != [] {
      var d := xs[0] - m;
      ZeroSquaresIff(xs[1..], m);
      SquaresNonNegative(xs[1..], m);
      assert d * d >= 0.0;
      if d != 0.0 {
        SquareIsPositive(d, d * d);
      }
      assert forall i :: 0 < i < |xs| ==> xs[i] == xs[1..][i - 1];
      assert forall i :: 0 <= i < |xs[1..]| ==> xs[1..][i] == xs[i + 1];
    }
  }

  lemma {:induction false} ConstantSum(xs: seq<real>, c: real)
    requires forall i :: 0 <= i < |xs| ==> xs[i] == c
    ensures Sum(xs) == c * |xs| as real
  {
    if xs != [] {
      ConstantSum(xs[1..], c);
      assert c * (|xs[1..]| as real + 1.0) == c * |xs[1..]| as real + c;
    }
  }

  lemma ConstantIff(xs: seq<real>)
    requires |xs| > 0
    ensures Squares(xs, Mean(xs, |xs|)) == 0.0 <==> Constant(xs)
  {
    ZeroSquaresIff(xs, Mean(xs, |xs|));
    if Constant(xs) {
      ConstantSum(xs, xs[0]);
      assert xs[0] * |xs| as real / |xs| as real == xs[0];
    }
  }

  lemma ZeroProduct(a: real, b: real, p: real)
    requires p == a * b && a >= 0.0 && b >= 0.0
    ensures p == 0.0 <==> a == 0.0 || b == 0.0
  {
    if a > 0.0 && b > 0.0 {
      Positive(a, b, p);
    } else if a == 0.0 {
      ZeroFactor(a, b, p);
    } else {
      ZeroFactor(b, a, p);
    }
  }

  /** The guard on the denominator catches exactly the constant lists, and gives 0 for them. */
  lemma ZeroDenominatorIff(xs: seq<real>, ys: seq<real>, den: real)
    requires |xs| == |ys| > 0 && IsDenominator(xs, ys, den)
    ensures den == 0.0 <==> Constant(xs) || Constant(ys)
    ensures Constant(xs) || Constant(ys) ==> PearsonR(xs, ys, den) == 0.0
  {
    hide Products, Mean;
    ConstantIff(xs);
    ConstantIff(ys);
    SquaresNonNegative(xs, Mean(xs, |xs|));
    SquaresNonNegative(ys, Mean(ys, |ys|));
    ZeroProduct(Sxx(xs, ys), Syy(xs, ys), den * den);
    ZeroProduct(den, den, den * den);
  }
}

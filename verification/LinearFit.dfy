/** The dashboard's least-squares line, over exact reals. */
module LinearFit {
  import opened Arith

  datatype Fit = Fit(slope: real, intercept: real, r2: real)

  // ---------------------------------------------------------------- vectors

  // The sum of the first n values.
  function Total(v: seq<real>, n: nat): real
    requires n <= |v|
  {
    if n == 0 then 0.0 else Total(v, n - 1) + v[n - 1]
  }

  // The inner product of the first n places.
  function Dot(v: seq<real>, w: seq<real>, n: nat): real
    requires n <= |v| && n <= |w|
  {
    if n == 0 then 0.0 else Dot(v, w, n - 1) + v[n - 1] * w[n - 1]
  }

  lemma SwapFactors(x: real, y: real)
    ensures x * y == y * x
  {
  }

  lemma {:induction false} DotCommutes(v: seq<real>, w: seq<real>, n: nat)
    requires n <= |v| && n <= |w|
    ensures Dot(v, w, n) == Dot(w, v, n)
  {
    if n > 0 {
      DotCommutes(v, w, n - 1);
      SwapFactors(v[n - 1], w[n - 1]);
    }
  }

  lemma {:induction false} DotNonNegative(v: seq<real>, n: nat)
    requires n <= |v|
    ensures Dot(v, v, n) >= 0.0
  {
    if n > 0 {
      DotNonNegative(v, n - 1);
      assert Dot(v, v, n) == Dot(v, v, n - 1) + Square(v[n - 1]);
    }
  }

  // A sum of squares is zero only if every term is.
  lemma {:induction false} DotOfSelf(v: seq<real>, n: nat)
    requires n <= |v|
    ensures Dot(v, v, n) >= 0.0
    ensures Dot(v, v, n) == 0.0 ==> forall i :: 0 <= i < n ==> v[i] == 0.0
  {
    DotNonNegative(v, n);
    if n > 0 && Dot(v, v, n) == 0.0 {
      DotNonNegative(v, n - 1);
      assert Dot(v, v, n) == Dot(v, v, n - 1) + Square(v[n - 1]);
      DotOfSelf(v, n - 1);
    }
  }

  lemma {:induction false} DotOfZeros(v: seq<real>, w: seq<real>, n: nat)
    requires n <= |v| && n <= |w| && forall i :: 0 <= i < n ==> v[i] == 0.0
    ensures Dot(v, w, n) == 0.0
  {
    if n > 0 {
      DotOfZeros(v, w, n - 1);
      assert 0.0 * w[n - 1] == 0.0;
    }
  }

  // z is u + a * v in its first n places.
  ghost predicate Combines(z: seq<real>, u: seq<real>, a: real, v: seq<real>, n: nat) {
    n <= |z| && n <= |u| && n <= |v| && forall i :: 0 <= i < n ==> z[i] == u[i] + a * v[i]
  }

  lemma CombinedTerm(d: real, u: real, e: real, v: real, a: real, w: real)
    ensures (d + a * e) + (u + a * v) * w == (d + u * w) + a * (e + v * w)
  {
  }

  lemma {:induction false} DotCombines(z: seq<real>, u: seq<real>, a: real, v: seq<real>, w: seq<real>, n: nat)
    requires Combines(z, u, a, v, n) && n <= |w|
    ensures Dot(z, w, n) == Dot(u, w, n) + a * Dot(v, w, n)
  {
    if n == 0 {
      assert a * 0.0 == 0.0;
    } else {
      DotCombines(z, u, a, v, w, n - 1);
      CombinedTerm(Dot(u, w, n - 1), u[n - 1], Dot(v, w, n - 1), v[n - 1], a, w[n - 1]);
    }
  }

  lemma {:induction false} TotalCombines(z: seq<real>, u: seq<real>, a: real, v: seq<real>, n: nat)
    requires Combines(z, u, a, v, n)
    ensures Total(z, n) == Total(u, n) + a * Total(v, n)
  {
    if n == 0 {
      assert a * 0.0 == 0.0;
    } else {
      TotalCombines(z, u, a, v, n - 1);
      assert a * (Total(v, n - 1) + v[n - 1]) == a * Total(v, n - 1) + a * v[n - 1];
    }
  }

  lemma {:induction false} DotExtends(v: seq<real>, w: seq<real>, v': seq<real>, w': seq<real>, n: nat)
    requires n <= |v| && n <= |w| && n <= |v'| && n <= |w'|
    requires forall i :: 0 <= i < n ==> v[i] == v'[i] && w[i] == w'[i]
    ensures Dot(v, w, n) == Dot(v', w', n)
  {
    if n > 0 {
      DotExtends(v, w, v', w', n - 1);
    }
  }

  // A vector that is orthogonal to the difference keeps its square apart.
  lemma {:induction false} Pythagoras(z: seq<real>, u: seq<real>, e: seq<real>, n: nat)
    requires Combines(z, u, 1.0, e, n) && Dot(u, e, n) == 0.0
    ensures Dot(z, z, n) == Dot(u, u, n) + Dot(e, e, n)
  {
    DotCombines(z, u, 1.0, e, z, n);
    DotCombines(z, u, 1.0, e, u, n);
    DotCombines(z, u, 1.0, e, e, n);
    DotCommutes(u, z, n);
    DotCommutes(e, z, n);
    DotCommutes(e, u, n);
  }

  // ------------------------------------------------------------- the best line

  function Mean(v: seq<real>): real
    requires v != []
  {
    Total(v, |v|) / |v| as real
  }

  function Centered(v: seq<real>): (d: seq<real>)
    requires v != []
    ensures |d| == |v|
  {
    seq(|v|, i requires 0 <= i < |v| => v[i] - Mean(v))
  }

  // How far the points lie above a line.
  function Residuals(xs: seq<real>, ys: seq<real>, slope: real, intercept: real): (r: seq<real>)
    requires |xs| == |ys|
    ensures |r| == |xs|
  {
    seq(|xs|, i requires 0 <= i < |xs| => ys[i] - (intercept + slope * xs[i]))
  }

  function SquaredError(xs: seq<real>, ys: seq<real>, slope: real, intercept: real): real
    requires |xs| == |ys|
  {
    var r := Residuals(xs, ys, slope, intercept);
    Dot(r, r, |r|)
  }

  // The squared deviation of the values from their mean.
  function Spread(v: seq<real>): real {
    if v == [] then 0.0 else Dot(Centered(v), Centered(v), |v|)
  }

  function Solve(mx: real, my: real, sxx: real, sxy: real, syy: real): Fit {
    var slope := if sxx == 0.0 then 0.0 else sxy / sxx;
    Fit(slope, my - slope * mx, if sxx == 0.0 || syy == 0.0 then 0.0 else (sxy * sxy) / (sxx * syy))
  }

  function Best(xs: seq<real>, ys: seq<real>): Fit
    requires |xs| == |ys|
  {
    if xs == [] then Fit(0.0, 0.0, 0.0)
    else
      var dx, dy, n := Centered(xs), Centered(ys), |xs|;
      Solve(Mean(xs), Mean(ys), Dot(dx, dx, n), Dot(dx, dy, n), Dot(dy, dy, n))
  }

  /** forecast.ts linearFit: the means, then the moments about them. */
  method Compute(xs: seq<real>, ys: seq<real>) returns (fit: Fit)
    requires |xs| == |ys|
    ensures fit == Best(xs, ys)
    ensures xs == [] ==> fit == Fit(0.0, 0.0, 0.0)
  {
    var n := |xs|;
    if n == 0 {
      return Fit(0.0, 0.0, 0.0);
    }
    var meanX, meanY := Mean(xs), Mean(ys);
    ghost var u, w := Centered(xs), Centered(ys);
    var sxy, sxx, syy := 0.0, 0.0, 0.0;
    for i := 0 to n
      invariant sxy == Dot(u, w, i)
      invariant sxx == Dot(u, u, i)
      invariant syy == Dot(w, w, i)
    {
      var dx, dy := xs[i] - meanX, ys[i] - meanY;
      assert u[i] == dx && w[i] == dy;
      sxy := sxy + dx * dy;
      sxx := sxx + dx * dx;
      syy := syy + dy * dy;
    }
    fit := Solve(meanX, meanY, sxx, sxy, syy);
  }

  // -------------------------------------------------------- normal equations

  lemma {:induction false} ShiftTotal(v: seq<real>, d: seq<real>, m: real, n: nat)
    requires n <= |v| == |d| && forall i :: 0 <= i < n ==> d[i] == v[i] - m
    ensures Total(d, n) == Total(v, n) - n as real * m
  {
    if n > 0 {
      ShiftTotal(v, d, m, n - 1);
      assert n as real * m == (n - 1) as real * m + m;
    }
  }

  lemma {:induction false} MeanBalances(v: seq<real>)
    requires v != []
    ensures Total(Centered(v), |v|) == 0.0
  {
    ShiftTotal(v, Centered(v), Mean(v), |v|);
    QuotientTimes(Total(v, |v|), |v| as real);
  }

  lemma {:induction false} FlatCross(v: seq<real>, w: seq<real>, n: nat)
    requires n <= |v| && n <= |w| && Dot(v, v, n) == 0.0
    ensures Dot(v, w, n) == 0.0
  {
    DotOfSelf(v, n);
    DotOfZeros(v, w, n);
  }

  lemma MomentSlope(mx: real, my: real, sxx: real, sxy: real, syy: real)
    requires sxx == 0.0 ==> sxy == 0.0
    ensures sxy == Solve(mx, my, sxx, sxy, syy).slope * sxx
  {
  }

  lemma SlopeSolves(xs: seq<real>, ys: seq<real>)
    requires 0 < |xs| == |ys|
    ensures var dx, dy, n := Centered(xs), Centered(ys), |xs|;
            Dot(dx, dy, n) == Best(xs, ys).slope * Dot(dx, dx, n)
  {
    var dx, dy, n := Centered(xs), Centered(ys), |xs|;
    if Dot(dx, dx, n) == 0.0 {
      FlatCross(dx, dy, n);
    }
    MomentSlope(Mean(xs), Mean(ys), Dot(dx, dx, n), Dot(dx, dy, n), Dot(dy, dy, n));
  }

  // About the means, the residuals of the best line are dy - slope * dx.
  lemma ResidualsCombine(xs: seq<real>, ys: seq<real>)
    requires 0 < |xs| == |ys|
    ensures var fit := Best(xs, ys);
            Combines(Residuals(xs, ys, fit.slope, fit.intercept), Centered(ys), -fit.slope, Centered(xs), |xs|)
  {
  }

  /** The residuals of the best line sum to zero. */
  lemma {:induction false} ResidualsBalance(xs: seq<real>, ys: seq<real>)
    requires 0 < |xs| == |ys|
    ensures var fit := Best(xs, ys);
            Total(Residuals(xs, ys, fit.slope, fit.intercept), |xs|) == 0.0
  {
    var fit := Best(xs, ys);
    ResidualsCombine(xs, ys);
    TotalCombines(Residuals(xs, ys, fit.slope, fit.intercept), Centered(ys), -fit.slope, Centered(xs), |xs|);
    MeanBalances(xs);
    MeanBalances(ys);
  }

  // The best slope is the one that leaves nothing along the abscissas.
  lemma {:induction false} Projection(r: seq<real>, dy: seq<real>, s: real, dx: seq<real>, n: nat)
    requires Combines(r, dy, -s, dx, n) && Dot(dx, dy, n) == s * Dot(dx, dx, n)
    ensures Dot(r, dx, n) == 0.0
  {
    DotCombines(r, dy, -s, dx, dx, n);
    DotCommutes(dy, dx, n);
    Negate(s, Dot(dx, dx, n));
  }

  // They are orthogonal to the centred abscissas.
  lemma {:induction false} OrthogonalToCentered(xs: seq<real>, ys: seq<real>)
    requires 0 < |xs| == |ys|
    ensures var fit := Best(xs, ys);
            Dot(Residuals(xs, ys, fit.slope, fit.intercept), Centered(xs), |xs|) == 0.0
  {
    var fit := Best(xs, ys);
    ResidualsCombine(xs, ys);
    SlopeSolves(xs, ys);
    Projection(Residuals(xs, ys, fit.slope, fit.intercept), Centered(ys), fit.slope, Centered(xs), |xs|);
  }

  lemma Negate(a: real, b: real)
    ensures (-a) * b == -(a * b)
  {
  }

  // A vector whose sum is zero is orthogonal to constants.
  lemma {:induction false} DotOfConstant(r: seq<real>, v: seq<real>, m: real, n: nat)
    requires n <= |r| && n <= |v| && forall i :: 0 <= i < n ==> v[i] == m
    ensures Dot(r, v, n) == m * Total(r, n)
  {
    if n == 0 {
      assert m * 0.0 == 0.0;
    } else {
      DotOfConstant(r, v, m, n - 1);
      assert m * (Total(r, n - 1) + r[n - 1]) == m * Total(r, n - 1) + m * r[n - 1];
    }
  }

  // So the residuals are orthogonal to every straight line over the abscissas.
  lemma {:induction false} OrthogonalToLines(xs: seq<real>, ys: seq<real>, e: seq<real>, a: real, c: real)
    requires 0 < |xs| == |ys| == |e| && forall i :: 0 <= i < |xs| ==> e[i] == c + a * Centered(xs)[i]
    ensures var fit := Best(xs, ys);
            Dot(Residuals(xs, ys, fit.slope, fit.intercept), e, |xs|) == 0.0
  {
    var fit, n := Best(xs, ys), |xs|;
    var r := Residuals(xs, ys, fit.slope, fit.intercept);
    var flat := seq(n, _ => c);
    assert Combines(e, flat, a, Centered(xs), n);
    DotCombines(e, flat, a, Centered(xs), r, n);
    DotCommutes(r, e, n);
    DotCommutes(r, flat, n);
    DotCommutes(r, Centered(xs), n);
    DotOfConstant(r, flat, c, n);
    ResidualsBalance(xs, ys);
    OrthogonalToCentered(xs, ys);
    assert c * 0.0 == 0.0 && a * 0.0 == 0.0;
  }

  /** The residuals of the best line are orthogonal to the abscissas. */
  lemma {:induction false} ResidualsOrthogonal(xs: seq<real>, ys: seq<real>)
    requires 0 < |xs| == |ys|
    ensures var fit := Best(xs, ys);
            Dot(Residuals(xs, ys, fit.slope, fit.intercept), xs, |xs|) == 0.0
  {
    OrthogonalToLines(xs, ys, xs, 1.0, Mean(xs));
  }

  // ---------------------------------------------------------------- optimality

  // How far the best line lies above another one at the given abscissas.
  function Gap(xs: seq<real>, fit: Fit, slope: real, intercept: real): (e: seq<real>)
    ensures |e| == |xs|
  {
    seq(|xs|, i requires 0 <= i < |xs| => (fit.intercept + fit.slope * xs[i]) - (intercept + slope * xs[i]))
  }

  lemma GapTerm(x: real, mx: real, s: real, b: real, slope: real, intercept: real)
    ensures (b + s * x) - (intercept + slope * x)
         == (b - intercept + (s - slope) * mx) + (s - slope) * (x - mx)
  {
  }

  /** Any line's squared error is the best line's plus the squared distance
      between the two lines. */
  lemma {:induction false} ErrorSplits(xs: seq<real>, ys: seq<real>, slope: real, intercept: real)
    requires 0 < |xs| == |ys|
    ensures var fit := Best(xs, ys);
            var e := Gap(xs, fit, slope, intercept);
            SquaredError(xs, ys, slope, intercept)
            == SquaredError(xs, ys, fit.slope, fit.intercept) + Dot(e, e, |xs|)
  {
    var fit, n := Best(xs, ys), |xs|;
    var e := Gap(xs, fit, slope, intercept);
    var mx := Mean(xs);
    forall i | 0 <= i < n
      ensures e[i] == (fit.intercept - intercept + (fit.slope - slope) * mx) + (fit.slope - slope) * Centered(xs)[i]
    {
      GapTerm(xs[i], mx, fit.slope, fit.intercept, slope, intercept);
    }
    OrthogonalToLines(xs, ys, e, fit.slope - slope, fit.intercept - intercept + (fit.slope - slope) * mx);
    Pythagoras(Residuals(xs, ys, slope, intercept), Residuals(xs, ys, fit.slope, fit.intercept), e, n);
  }

  /** No line has a smaller squared error than the computed one. */
  lemma FitIsOptimal(xs: seq<real>, ys: seq<real>, slope: real, intercept: real)
    requires |xs| == |ys|
    ensures var fit := Best(xs, ys);
            SquaredError(xs, ys, fit.slope, fit.intercept) <= SquaredError(xs, ys, slope, intercept)
  {
    if xs != [] {
      ErrorSplits(xs, ys, slope, intercept);
      DotOfSelf(Gap(xs, Best(xs, ys), slope, intercept), |xs|);
    }
  }

  lemma TwoPointsFixLine(s: real, b: real, t: real, c: real, x: real, y: real)
    requires x != y && b + s * x == c + t * x && b + s * y == c + t * y
    ensures s == t && b == c
  {
  }

  /** With two different abscissas, only the computed line is that good. */
  lemma FitIsUnique(xs: seq<real>, ys: seq<real>, slope: real, intercept: real, i: nat, j: nat)
    requires |xs| == |ys| && i < |xs| && j < |xs| && xs[i] != xs[j]
    requires var fit := Best(xs, ys);
             SquaredError(xs, ys, slope, intercept) <= SquaredError(xs, ys, fit.slope, fit.intercept)
    ensures slope == Best(xs, ys).slope && intercept == Best(xs, ys).intercept
  {
    var fit := Best(xs, ys);
    var e := Gap(xs, fit, slope, intercept);
    ErrorSplits(xs, ys, slope, intercept);
    DotOfSelf(e, |xs|);
    assert e[i] == 0.0 && e[j] == 0.0;
    TwoPointsFixLine(fit.slope, fit.intercept, slope, intercept, xs[i], xs[j]);
  }

  /** Points on a straight line give back that line. */
  lemma LinesAreRecovered(xs: seq<real>, ys: seq<real>, slope: real, intercept: real, i: nat, j: nat)
    requires |xs| == |ys| && i < |xs| && j < |xs| && xs[i] != xs[j]
    requires forall k :: 0 <= k < |xs| ==> ys[k] == intercept + slope * xs[k]
    ensures Best(xs, ys).slope == slope && Best(xs, ys).intercept == intercept
  {
    var r := Residuals(xs, ys, slope, intercept);
    var fit := Best(xs, ys);
    DotOfZeros(r, r, |xs|);
    var r' := Residuals(xs, ys, fit.slope, fit.intercept);
    DotOfSelf(r', |xs|);
    FitIsUnique(xs, ys, slope, intercept, i, j);
  }

  // ------------------------------------------------------------------------ r2

  // What the best line leaves of the spread of the ordinates.
  lemma {:induction false} ErrorLeft(xs: seq<real>, ys: seq<real>)
    requires 0 < |xs| == |ys|
    ensures var fit := Best(xs, ys);
            SquaredError(xs, ys, fit.slope, fit.intercept)
            == Spread(ys) - fit.slope * Dot(Centered(xs), Centered(ys), |xs|)
  {
    var fit := Best(xs, ys);
    var r := Residuals(xs, ys, fit.slope, fit.intercept);
    var dx, dy, n := Centered(xs), Centered(ys), |xs|;
    ResidualsCombine(xs, ys);
    DotCombines(r, dy, -fit.slope, dx, r, n);
    DotCombines(r, dy, -fit.slope, dx, dy, n);
    OrthogonalToCentered(xs, ys);
    DotCommutes(r, dx, n);
    DotCommutes(r, dy, n);
    assert (-fit.slope) * 0.0 == 0.0;
    Negate(fit.slope, Dot(dx, dy, n));
  }

  lemma QuotientIs(p: real, q: real, t: real)
    requires q != 0.0 && p == t * q
    ensures p / q == t
  {
  }

  // With s the slope: the product of the two squares, over s * sxy.
  lemma RatioOfSquares(s: real, sxx: real, sxy: real, syy: real, error: real)
    requires sxx != 0.0 && syy != 0.0 && sxy == s * sxx && error == syy - s * sxy
    ensures sxx * syy != 0.0
    ensures (sxy * sxy) / (sxx * syy) == 1.0 - error / syy
  {
    ProductNonZero(sxx, syy);
    var e := s * sxy;
    var t := e / syy;
    QuotientTimes(e, syy);
    assert sxy * sxy == e * sxx;
    assert e * sxx == (t * syy) * sxx == t * (sxx * syy);
    QuotientIs(sxy * sxy, sxx * syy, t);
    DivideDifference(syy, e, syy);
  }

  lemma DivideDifference(a: real, b: real, d: real)
    requires d != 0.0
    ensures d / d == 1.0 && (a - b) / d == a / d - b / d
  {
  }

  // What the fit leaves, in terms of the moments.
  ghost predicate Leaves(fit: Fit, sxx: real, sxy: real, syy: real, error: real) {
    sxy == fit.slope * sxx && error == syy - fit.slope * sxy
  }

  lemma FitLeaves(xs: seq<real>, ys: seq<real>)
    requires 0 < |xs| == |ys|
    ensures var fit := Best(xs, ys);
            var dx, dy, n := Centered(xs), Centered(ys), |xs|;
            Leaves(fit, Dot(dx, dx, n), Dot(dx, dy, n), Spread(ys), SquaredError(xs, ys, fit.slope, fit.intercept))
  {
    SlopeSolves(xs, ys);
    ErrorLeft(xs, ys);
  }

  lemma R2OfMoments(mx: real, my: real, sxx: real, sxy: real, syy: real, error: real)
    requires syy > 0.0 && Leaves(Solve(mx, my, sxx, sxy, syy), sxx, sxy, syy, error)
    ensures Solve(mx, my, sxx, sxy, syy).r2 == 1.0 - error / syy
  {
    var fit := Solve(mx, my, sxx, sxy, syy);
    if sxx == 0.0 {
      assert fit.slope * sxy == 0.0;
      DivideDifference(0.0, 0.0, syy);
    } else {
      RatioOfSquares(fit.slope, sxx, sxy, syy, error);
    }
  }

  /** r2 is the explained share of the spread of the ordinates. */
  lemma R2IsExplainedShare(xs: seq<real>, ys: seq<real>)
    requires |xs| == |ys| && Spread(ys) > 0.0
    ensures var fit := Best(xs, ys);
            fit.r2 == 1.0 - SquaredError(xs, ys, fit.slope, fit.intercept) / Spread(ys)
  {
    var dx, dy, n := Centered(xs), Centered(ys), |xs|;
    var fit := Best(xs, ys);
    FitLeaves(xs, ys);
    R2OfMoments(Mean(xs), Mean(ys), Dot(dx, dx, n), Dot(dx, dy, n), Spread(ys),
                SquaredError(xs, ys, fit.slope, fit.intercept));
  }

  lemma QuotientBounds(a: real, d: real)
    requires 0.0 <= a <= d && d > 0.0
    ensures 0.0 <= a / d <= 1.0
  {
  }

  lemma ShareOfSlope(s: real, sxx: real, sxy: real)
    requires sxy == s * sxx && sxx >= 0.0
    ensures s * sxy >= 0.0
    ensures s * sxy * sxx == sxy * sxy
  {
    assert s * sxy == Square(s) * sxx;
    ProductNonNegative(Square(s), sxx);
  }

  lemma ProductNonNegative(a: real, b: real)
    requires a >= 0.0 && b >= 0.0
    ensures a * b >= 0.0
  {
  }

  /** r2 lies between 0 and 1. */
  lemma R2InUnitInterval(xs: seq<real>, ys: seq<real>)
    requires |xs| == |ys|
    ensures 0.0 <= Best(xs, ys).r2 <= 1.0
  {
    if xs != [] {
      var fit := Best(xs, ys);
      var dx, dy, n := Centered(xs), Centered(ys), |xs|;
      DotOfSelf(dy, n);
      if Spread(ys) > 0.0 {
        var r := Residuals(xs, ys, fit.slope, fit.intercept);
        DotOfSelf(r, n);
        DotOfSelf(dx, n);
        ErrorLeft(xs, ys);
        SlopeSolves(xs, ys);
        ShareOfSlope(fit.slope, Dot(dx, dx, n), Dot(dx, dy, n));
        R2IsExplainedShare(xs, ys);
        QuotientBounds(SquaredError(xs, ys, fit.slope, fit.intercept), Spread(ys));
      }
    }
  }

  /** Cauchy-Schwarz, as a consequence of the error being a sum of squares. */
  lemma CauchySchwarz(xs: seq<real>, ys: seq<real>)
    requires 0 < |xs| == |ys|
    ensures var dx, dy, n := Centered(xs), Centered(ys), |xs|;
            Dot(dx, dy, n) * Dot(dx, dy, n) <= Dot(dx, dx, n) * Dot(dy, dy, n)
  {
    var fit := Best(xs, ys);
    var dx, dy, n := Centered(xs), Centered(ys), |xs|;
    var r := Residuals(xs, ys, fit.slope, fit.intercept);
    DotOfSelf(r, n);
    DotOfSelf(dx, n);
    ErrorLeft(xs, ys);
    SlopeSolves(xs, ys);
    ShareOfSlope(fit.slope, Dot(dx, dx, n), Dot(dx, dy, n));
    ProductNonNegative(Dot(dy, dy, n) - fit.slope * Dot(dx, dy, n), Dot(dx, dx, n));
    assert (Dot(dy, dy, n) - fit.slope * Dot(dx, dy, n)) * Dot(dx, dx, n)
        == Dot(dx, dx, n) * Dot(dy, dy, n) - fit.slope * Dot(dx, dy, n) * Dot(dx, dx, n);
  }

  /** Points with a single abscissa are fitted by the flat line through their mean. */
  lemma FlatWithoutSpread(xs: seq<real>, ys: seq<real>)
    requires |xs| == |ys| > 0 && forall i :: 0 <= i < |xs| ==> xs[i] == xs[0]
    ensures Best(xs, ys) == Fit(0.0, Mean(ys), 0.0)
  {
    SumOfOneValue(xs, xs[0], |xs|);
    assert Mean(xs) == xs[0];
    NothingToProject(Centered(xs), |xs|);
  }

  lemma {:induction false} SumOfOneValue(v: seq<real>, x: real, n: nat)
    requires n <= |v| && forall i :: 0 <= i < n ==> v[i] == x
    ensures Total(v, n) == n as real * x
  {
    if n > 0 {
      SumOfOneValue(v, x, n - 1);
    }
  }

  lemma {:induction false} NothingToProject(v: seq<real>, n: nat)
    requires n <= |v| && forall i :: 0 <= i < n ==> v[i] == 0.0
    ensures Dot(v, v, n) == 0.0
  {
    if n > 0 {
      NothingToProject(v, n - 1);
    }
  }
}

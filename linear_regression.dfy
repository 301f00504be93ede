/**
 * `linear_regression_compute`: the least-squares line through the points
 * (0, y[0]), (1, y[1]), ..., (len - 1, y[len - 1]), computed from five
 * running sums, with slope and intercept left at 0 when there are no points
 * or the denominator is 0.
 *
 * Floating point is modelled by `real`, so the zero test on the denominator
 * is exact.
 */
module LinearRegression {
  import opened Dsp

  /** The accumulators `xsum`, `ysum`, `xysum`, `xxsum`, `yysum`. */
  datatype Sums = Sums(x: real, y: real, xy: real, xx: real, yy: real)

  /** One loop iteration: the point (i, y) added to the accumulators. */
  function Accumulate(s: Sums, i: real, y: real): Sums
  {
    Sums(s.x + i, s.y + y, s.xy + i * y, s.xx + i * i, s.yy + y * y)
  }

  /** The accumulators after the points of `ys`, whose x values are their indices. */
  function SumsOf(ys: seq<real>): Sums
  {
    if |ys| == 0 then Sums(0.0, 0.0, 0.0, 0.0, 0.0)
    else Accumulate(SumsOf(ys[..|ys| - 1]), (|ys| - 1) as real, ys[|ys| - 1])
  }

  /** The fitted line. */
  datatype Line = Line(slope: real, intercept: real)

  /** `count * xxsum - xsum * xsum`. */
  function Denominator(count: real, x: real, xx: real): real
  {
    count * xx - x * x
  }

  /** Slope and intercept from the sums of `count` points; 0 and 0 when the denominator is 0. */
  function LineFrom(count: real, x: real, y: real, xy: real, xx: real): Line
    requires count != 0.0
  {
    var den := count * xx - x * x;
    if den == 0.0 then Line(0.0, 0.0)
    else
      var slope := (count * xy - x * y) / den;
      Line(slope, (y - slope * x) / count)
  }

  /** What `linear_regression_compute` writes through `slope` and `intercept` for the points `ys`. */
  function Fit(ys: seq<real>): Line
  {
    if |ys| == 0 then Line(0.0, 0.0)
    else
      var s := SumsOf(ys);
      LineFrom(|ys| as real, s.x, s.y, s.xy, s.xx)
  }

  /**
   * `linear_regression_compute(y, len, &slope, &intercept)`: `y` is only
   * read, and the outputs are the fit of its first `len` entries.
   */
  method LinearRegressionCompute(y: array<real>, len: U16) returns (slope: real, intercept: real)
    requires len <= y.Length
    ensures Line(slope, intercept) == Fit(y[..len])
  {
    var xsum, ysum, xysum, xxsum, yysum := 0.0, 0.0, 0.0, 0.0, 0.0;
    var count := len as real;

    slope, intercept := 0.0, 0.0;
    if len == 0 {
      return;
    }

    var i: U16 := 0;
    while i < len
      invariant i <= len
      invariant Sums(xsum, ysum, xysum, xxsum, yysum) == SumsOf(y[..i])
    {
      assert y[..i + 1][..i] == y[..i];
      assert SumsOf(y[..i + 1]) == Accumulate(SumsOf(y[..i]), i as real, y[i]);
      xsum := xsum + i as real;
      ysum := ysum + y[i];
      xysum := xysum + (i as real) * y[i];
      xxsum := xxsum + (i as real) * (i as real);
      yysum := yysum + y[i] * y[i];
      i := i + 1;
    }

    assert y[..i] == y[..len];
    assert Fit(y[..len]) == LineFrom(count, xsum, ysum, xysum, xxsum);
    var den := count * xxsum - xsum * xsum;
    if den == 0.0 {
      LineFromComputed(count, xsum, ysum, xysum, xxsum, slope, intercept);
      return;
    }
    slope := (count * xysum - xsum * ysum) / den;
    intercept := (ysum - slope * xsum) / count;
    LineFromComputed(count, xsum, ysum, xysum, xxsum, slope, intercept);
  }

  lemma LineFromComputed(count: real, x: real, y: real, xy: real, xx: real, slope: real, intercept: real)
    requires count != 0.0
    requires count * xx - x * x == 0.0 ==> slope == 0.0 && intercept == 0.0
    requires count * xx - x * x != 0.0 ==> slope == (count * xy - x * y) / (count * xx - x * x) && intercept == (y - slope * x) / count
    ensures LineFrom(count, x, y, xy, xx) == Line(slope, intercept)
  {
  }

  /** `x` and `xx` are the closed forms of 0 + 1 + ... + (n - 1) and of the sum of their squares. */
  ghost predicate IndexForms(n: real, x: real, xx: real)
  {
    2.0 * x == n * (n - 1.0) && 6.0 * xx == (n - 1.0) * n * (2.0 * n - 1.0)
  }

  /** One more index keeps the closed forms. */
  lemma {:induction false} IndexStep(prev: Sums, pn: real, y: real, next: Sums, n: real)
    requires IndexForms(pn, prev.x, prev.xx)
    requires n == pn + 1.0 && next == Accumulate(prev, pn, y)
    ensures IndexForms(n, next.x, next.xx)
  {
  }

  /** The x sums of the points are the closed forms in their number. */
  lemma {:induction false} IndexSums(ys: seq<real>)
    ensures IndexForms(|ys| as real, SumsOf(ys).x, SumsOf(ys).xx)
  {
    if |ys| > 0 {
      var init := ys[..|ys| - 1];
      IndexSums(init);
      assert SumsOf(ys) == Accumulate(SumsOf(init), |init| as real, ys[|ys| - 1]);
      IndexStep(SumsOf(init), |init| as real, ys[|ys| - 1], SumsOf(ys), |ys| as real);
    }
  }

  /** With fewer than two points the outputs stay at their defaults: for one point the denominator is 1 * 0 - 0 * 0. */
  lemma {:induction false} FitDegenerate(ys: seq<real>)
    requires |ys| <= 1
    ensures Fit(ys) == Line(0.0, 0.0)
  {
    if |ys| == 1 {
      assert ys[..0] == [];
      assert SumsOf(ys).x == 0.0 && SumsOf(ys).xx == 0.0;
    }
  }

  lemma {:induction false} ClosedFormDenominator(n: real, x: real, xx: real)
    requires n >= 2.0 && IndexForms(n, x, xx)
    ensures Denominator(n, x, xx) > 0.0
  {
    var a := n * (n - 1.0);
    assert x == a / 2.0;
    assert xx == a * (2.0 * n - 1.0) / 6.0;
    assert Denominator(n, x, xx) == a * (n * (n + 1.0)) / 12.0;
    assert a > 0.0;
    assert n * (n + 1.0) > 0.0;
  }

  /** With two points or more the denominator is n^2 (n - 1)(n + 1) / 12, so the division is always taken. */
  lemma {:induction false} DenominatorPositive(ys: seq<real>)
    requires |ys| >= 2
    ensures Denominator(|ys| as real, SumsOf(ys).x, SumsOf(ys).xx) > 0.0
  {
    IndexSums(ys);
    ClosedFormDenominator(|ys| as real, SumsOf(ys).x, SumsOf(ys).xx);
  }

  /**
   * The least-squares normal equations of `n` points with the given sums:
   * the residuals of `l` sum to 0 (the line passes through the mean point)
   * and are uncorrelated with x.
   */
  ghost predicate SolvesNormalEquations(l: Line, n: real, x: real, y: real, xy: real, xx: real)
  {
    l.intercept * n + l.slope * x == y && l.intercept * x + l.slope * xx == xy
  }

  /** Whenever the division is taken, the computed line solves the normal equations. */
  lemma {:induction false} LineSolvesNormalEquations(n: real, x: real, y: real, xy: real, xx: real)
    requires n != 0.0 && Denominator(n, x, xx) != 0.0
    ensures SolvesNormalEquations(LineFrom(n, x, y, xy, xx), n, x, y, xy, xx)
  {
    var den := Denominator(n, x, xx);
    var m := LineFrom(n, x, y, xy, xx).slope;
    var b := LineFrom(n, x, y, xy, xx).intercept;
    assert m * den == n * xy - x * y;
    assert b * n == y - m * x;
    assert n * (b * x + m * xx) == (b * n) * x + m * (n * xx);
    assert (y - m * x) * x + m * (n * xx) == x * y + m * den;
    assert n * (b * x + m * xx) == n * xy;
  }

  /** With two points or more, the fit is the least-squares line of the points. */
  lemma FitSolvesNormalEquations(ys: seq<real>)
    requires |ys| >= 2
    ensures var s := SumsOf(ys); SolvesNormalEquations(Fit(ys), |ys| as real, s.x, s.y, s.xy, s.xx)
  {
    DenominatorPositive(ys);
    var s := SumsOf(ys);
    LineSolvesNormalEquations(|ys| as real, s.x, s.y, s.xy, s.xx);
  }

  /** Sums of points on the line y = m x + b, `n` of them: their y sums are the line applied to their x sums. */
  ghost predicate OnLine(m: real, b: real, s: Sums, n: real)
  {
    s.y == m * s.x + b * n && s.xy == m * s.xx + b * s.x
  }

  /** One more point on the line keeps the sums on it. */
  lemma {:induction false} LineStep(m: real, b: real, prev: Sums, pn: real, i: real, y: real, next: Sums, n: real)
    requires OnLine(m, b, prev, pn)
    requires i == pn && n == pn + 1.0 && y == m * i + b
    requires next == Accumulate(prev, i, y)
    ensures OnLine(m, b, next, n)
  {
  }

  /** The sums over points that lie on the line y = m x + b. */
  lemma {:induction false} SumsOfLine(ys: seq<real>, m: real, b: real)
    requires forall i :: 0 <= i < |ys| ==> ys[i] == m * (i as real) + b
    ensures OnLine(m, b, SumsOf(ys), |ys| as real)
  {
    if |ys| > 0 {
      var init := ys[..|ys| - 1];
      SumsOfLine(init, m, b);
      assert SumsOf(ys) == Accumulate(SumsOf(init), |init| as real, ys[|ys| - 1]);
      LineStep(m, b, SumsOf(init), |init| as real, (|ys| - 1) as real, ys[|ys| - 1], SumsOf(ys), |ys| as real);
    }
  }

  /** Sums of points on a line give back that line. */
  lemma {:induction false} LineFromLine(n: real, s: Sums, m: real, b: real)
    requires n != 0.0 && Denominator(n, s.x, s.xx) != 0.0
    requires OnLine(m, b, s, n)
    ensures LineFrom(n, s.x, s.y, s.xy, s.xx) == Line(m, b)
  {
    var x, y, xy, xx := s.x, s.y, s.xy, s.xx;
    assert y == m * x + b * n && xy == m * xx + b * x;
    assert n * xy - x * y == m * Denominator(n, x, xx);
  }

  /** Points that lie exactly on a line, two or more of them, give back that line. */
  lemma {:induction false} FitRecoversLine(ys: seq<real>, m: real, b: real)
    requires |ys| >= 2
    requires forall i :: 0 <= i < |ys| ==> ys[i] == m * (i as real) + b
    ensures Fit(ys) == Line(m, b)
  {
    DenominatorPositive(ys);
    SumsOfLine(ys, m, b);
    LineFromLine(|ys| as real, SumsOf(ys), m, b);
  }
}

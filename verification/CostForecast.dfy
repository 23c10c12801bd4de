/**
 The linear trend behind the cost forecast (internal/costintel/costintel.go, ForecastCost),
 over real numbers.  The input is one total per day, in date order.
 */
module CostForecast {

  datatype Trend = Stable | Increasing | Decreasing

  datatype Forecast = Forecast(predicted: real, trendPercent: real, trend: Trend, confidence: real)

  function R(n: nat): real {
    n as real
  }

  function Times(x: real, y: real): real {
    x * y
  }

  // The four sums of the regression

  function SumX(n: nat): real {
    if n == 0 then 0.0 else SumX(n - 1) + R(n - 1)
  }

  function SumX2(n: nat): real {
    if n == 0 then 0.0 else SumX2(n - 1) + Times(R(n - 1), R(n - 1))
  }

  function SumY(cs: seq<real>): real {
    if cs == [] then 0.0 else SumY(cs[..|cs| - 1]) + cs[|cs| - 1]
  }

  function SumXY(cs: seq<real>): real {
    if cs == [] then 0.0 else SumXY(cs[..|cs| - 1]) + Times(R(|cs| - 1), cs[|cs| - 1])
  }

  /** The sums, as the code holds them when its loop is done. */
  datatype Sums = Sums(n: real, x: real, x2: real, y: real, xy: real)

  function SumsOf(cs: seq<real>): Sums {
    Sums(R(|cs|), SumX(|cs|), SumX2(|cs|), SumY(cs), SumXY(cs))
  }

  function Denominator(s: Sums): real {
    s.n * s.x2 - s.x * s.x
  }

  function Numerator(s: Sums): real {
    s.n * s.xy - s.x * s.y
  }

  function SlopeOf(s: Sums): real {
    if Denominator(s) != 0.0 then Numerator(s) / Denominator(s) else 0.0
  }

  function MeanOf(s: Sums): real {
    if Denominator(s) != 0.0 && s.n != 0.0 then s.y / s.n else 0.0
  }

  function Slope(cs: seq<real>): real {
    SlopeOf(SumsOf(cs))
  }

  function Mean(cs: seq<real>): real {
    MeanOf(SumsOf(cs))
  }

  /** The predicted spend before it is clamped at zero. */
  function Predicted(slope: real, mean: real, several: bool, days: int): real {
    var d := days as real;
    mean * d + if several then slope * d * (days - 1) as real / 2.0 else 0.0
  }

  function Percent(slope: real, mean: real): real
    requires mean > 0.0
  {
    slope / mean * 100.0
  }

  function Conclude(s: Sums, several: bool, days: int): Forecast {
    var slope, mean := SlopeOf(s), MeanOf(s);
    var predicted := Predicted(slope, mean, several, days);
    var pct := if mean > 0.0 then Percent(slope, mean) else 0.0;
    Forecast(
      if predicted < 0.0 then 0.0 else predicted,
      pct,
      if pct > 5.0 then Increasing else if pct < -5.0 then Decreasing else Stable,
      if s.n / 30.0 < 1.0 then s.n / 30.0 else 1.0)
  }

  function ForecastOf(cs: seq<real>, days: int): Forecast {
    Conclude(SumsOf(cs), |cs| > 1, days)
  }

  method ConcludeForecast(s: Sums, several: bool, days: int) returns (f: Forecast)
    requires s.n > 0.0
    ensures f == Conclude(s, several, days)
  {
    hide Denominator, Numerator, Predicted, Percent;
    var slope, mean := 0.0, 0.0;
    if Denominator(s) != 0.0 {
      slope := Numerator(s) / Denominator(s);
      mean := s.y / s.n;
    }
    var pct, trend := 0.0, Stable;
    if mean > 0.0 {
      pct := Percent(slope, mean);
      if pct > 5.0 {
        trend := Increasing;
      } else if pct < -5.0 {
        trend := Decreasing;
      }
    }
    var predicted := Predicted(slope, mean, several, days);
    f := Forecast(
      if predicted < 0.0 then 0.0 else predicted, pct, trend,
      if s.n / 30.0 < 1.0 then s.n / 30.0 else 1.0);
  }

  method ForecastCost(cs: seq<real>, days: int) returns (f: Forecast)
    requires cs != []
    ensures f == ForecastOf(cs, days)
  {
    hide Conclude;
    var sumX, sumY, sumXY, sumX2 := 0.0, 0.0, 0.0, 0.0;
    for i := 0 to |cs|
      invariant sumX == SumX(i) && sumX2 == SumX2(i)
      invariant sumY == SumY(cs[..i]) && sumXY == SumXY(cs[..i])
    {
      assert cs[..i + 1][..i] == cs[..i];
      var x := i as real;
      sumX := sumX + x;
      sumY := sumY + cs[i];
      sumXY := sumXY + x * cs[i];
      sumX2 := sumX2 + x * x;
    }
    assert cs[..|cs|] == cs;
    f := ConcludeForecast(Sums(|cs| as real, sumX, sumX2, sumY, sumXY), |cs| > 1, days);
  }

  // ---------------------------------------------------------------------------------------
  // The denominator
  // ---------------------------------------------------------------------------------------

  function Twice(n: real): real {
    n * (n - 1.0)
  }

  function SixFold(n: real): real {
    n * (n - 1.0) * (2.0 * n - 1.0)
  }

  lemma ClosedStep(m: real)
    ensures Twice(m) + 2.0 * m == Twice(m + 1.0)
    ensures SixFold(m) + 6.0 * Times(m, m) == SixFold(m + 1.0)
  {
  }

  lemma {:induction false} SumsClosed(n: nat)
    ensures 2.0 * SumX(n) == Twice(R(n))
    ensures 6.0 * SumX2(n) == SixFold(R(n))
  {
    if n > 0 {
      SumsClosed(n - 1);
      ClosedStep(R(n - 1));
      hide Twice, SixFold, Times;
      assert R(n) == R(n - 1) + 1.0;
    }
  }

  lemma DenominatorAlgebra(n: real, x: real, q: real)
    requires 2.0 * x == Twice(n) && 6.0 * q == SixFold(n)
    ensures 12.0 * (n * q - x * x) == (n * n) * (n * n - 1.0)
  {
  }

  lemma PositiveAbove(r: real, d: real)
    requires r >= 2.0 && 12.0 * d == (r * r) * (r * r - 1.0)
    ensures d > 0.0
  {
  }

  /** For n days the denominator is n^2 (n^2 - 1) / 12, so it vanishes exactly below two days. */
  lemma DenominatorClosed(cs: seq<real>)
    ensures var n, d := R(|cs|), Denominator(SumsOf(cs));
      && 12.0 * d == (n * n) * (n * n - 1.0)
      && (d != 0.0 <==> |cs| >= 2)
      && (|cs| >= 2 ==> d > 0.0)
  {
    SumsClosed(|cs|);
    var n, x, q := R(|cs|), SumX(|cs|), SumX2(|cs|);
    hide SumX, SumX2, SumY, SumXY, Twice, SixFold;
    DenominatorAlgebra(n, x, q);
    if |cs| >= 2 {
      PositiveAbove(n, n * q - x * x);
    }
  }

  lemma DenominatorPositive(cs: seq<real>)
    requires |cs| >= 2
    ensures Denominator(SumsOf(cs)) > 0.0
  {
    DenominatorClosed(cs);
  }

  /** One day of history always forecasts zero spend, whatever was spent. */
  lemma OneDayForecastsNothing(c: real, days: int)
    ensures ForecastOf([c], days).predicted == 0.0 && ForecastOf([c], days).trend == Stable
  {
    hide SumX, SumX2, SumY, SumXY;
    DenominatorClosed([c]);
    assert Slope([c]) == 0.0 && Mean([c]) == 0.0;
    assert Predicted(0.0, 0.0, false, days) == 0.0;
  }

  /** The mean that the forecast starts from is the average of the history if and only if
      there are two days or more, or nothing was spent on the one there is. */
  lemma MeanIsAverageIff(cs: seq<real>)
    requires cs != []
    ensures R(|cs|) * Mean(cs) == SumY(cs) <==> |cs| >= 2 || cs[0] == 0.0
  {
    DenominatorClosed(cs);
    hide SumX, SumX2, SumXY, Denominator;
    if |cs| == 1 {
      assert cs[..0] == [];
    }
  }

  // ---------------------------------------------------------------------------------------
  // The slope
  // ---------------------------------------------------------------------------------------

  function Line(a: real, b: real, x: real): real {
    a + b * x
  }

  ghost predicate Linear(cs: seq<real>, a: real, b: real) {
    forall i :: 0 <= i < |cs| ==> cs[i] == Line(a, b, R(i))
  }

  function LineY(n: real, x: real, a: real, b: real): real {
    n * a + b * x
  }

  function LineXY(x: real, q: real, a: real, b: real): real {
    a * x + b * q
  }

  lemma LineStep(n: real, x: real, q: real, a: real, b: real, k: real)
    ensures LineY(n + 1.0, x + k, a, b) == LineY(n, x, a, b) + Line(a, b, k)
    ensures LineXY(x + k, q + Times(k, k), a, b) == LineXY(x, q, a, b) + Times(k, Line(a, b, k))
  {
  }

  lemma {:induction false} LinearSums(cs: seq<real>, a: real, b: real)
    requires Linear(cs, a, b)
    ensures SumY(cs) == LineY(R(|cs|), SumX(|cs|), a, b)
    ensures SumXY(cs) == LineXY(SumX(|cs|), SumX2(|cs|), a, b)
  {
    if cs != [] {
      hide Line, LineY, LineXY, Times;
      var n := |cs| - 1;
      LinearSums(cs[..n], a, b);
      assert R(|cs|) == R(n) + 1.0;
      LineStep(R(n), SumX(n), SumX2(n), a, b, R(n));
    }
  }

  lemma NumeratorOfLinear(s: Sums, a: real, b: real)
    requires s.y == LineY(s.n, s.x, a, b) && s.xy == LineXY(s.x, s.x2, a, b)
    ensures Numerator(s) == b * Denominator(s)
  {
  }

  lemma SlopeSolves(s: Sums, b: real)
    requires Denominator(s) > 0.0 && Numerator(s) == b * Denominator(s)
    ensures SlopeOf(s) == b
  {
  }

  /** On costs that grow linearly the computed slope is exactly the growth per day. */
  lemma SlopeOfLinearCosts(cs: seq<real>, a: real, b: real)
    requires |cs| >= 2 && Linear(cs, a, b)
    ensures Slope(cs) == b
  {
    hide SumX, SumX2, SumY, SumXY, Line, LineY, LineXY, Numerator, Denominator, SlopeOf;
    LinearSums(cs, a, b);
    DenominatorPositive(cs);
    NumeratorOfLinear(SumsOf(cs), a, b);
    SlopeSolves(SumsOf(cs), b);
  }

  // Least squares, for arbitrary costs

  function Residual(c: real, alpha: real, beta: real, x: real): real {
    c - alpha - beta * x
  }

  /** The squared error of the line alpha + beta * day over the history. */
  function SquaredError(cs: seq<real>, alpha: real, beta: real): real {
    if cs == [] then 0.0
    else
      var n := |cs| - 1;
      var e := Residual(cs[n], alpha, beta, R(n));
      SquaredError(cs[..n], alpha, beta) + Times(e, e)
  }

  function SumY2(cs: seq<real>): real {
    if cs == [] then 0.0 else SumY2(cs[..|cs| - 1]) + Times(cs[|cs| - 1], cs[|cs| - 1])
  }

  /** The squared error in terms of the sums. */
  function ErrorForm(s: Sums, y2: real, a: real, b: real): real {
    y2 - 2.0 * (a * s.y) - 2.0 * (b * s.xy) + s.n * (a * a) + 2.0 * ((a * b) * s.x) + (b * b) * s.x2
  }

  lemma ErrorStep(s: Sums, y2: real, a: real, b: real, k: real, c: real)
    ensures var e := Residual(c, a, b, k);
      ErrorForm(s, y2, a, b) + Times(e, e) ==
      ErrorForm(Sums(s.n + 1.0, s.x + k, s.x2 + Times(k, k), s.y + c, s.xy + Times(k, c)), y2 + Times(c, c), a, b)
  {
  }

  lemma {:induction false} ErrorExpands(cs: seq<real>, a: real, b: real)
    ensures SquaredError(cs, a, b) == ErrorForm(SumsOf(cs), SumY2(cs), a, b)
  {
    if cs != [] {
      hide ErrorForm, Residual, Times;
      var n := |cs| - 1;
      ErrorExpands(cs[..n], a, b);
      assert R(|cs|) == R(n) + 1.0;
      ErrorStep(SumsOf(cs[..n]), SumY2(cs[..n]), a, b, R(n), cs[n]);
    }
  }

  /** What moving the line by (u, v) adds to the error at the minimum. */
  function Excess(s: Sums, u: real, v: real): real {
    s.n * (u * u) + 2.0 * ((u * v) * s.x) + (v * v) * s.x2
  }

  lemma CompleteTheSquare(n: real, x: real, q: real, u: real, v: real)
    ensures n * (n * (u * u) + 2.0 * ((u * v) * x) + (v * v) * q) ==
      (n * u + v * x) * (n * u + v * x) + (v * v) * (n * q - x * x)
  {
  }

  /** n times the excess is (n u + v x)^2 + v^2 (n x2 - x^2). */
  lemma ExcessNonNegative(s: Sums, u: real, v: real)
    requires s.n > 0.0 && Denominator(s) > 0.0
    ensures Excess(s, u, v) >= 0.0
  {
    CompleteTheSquare(s.n, s.x, s.x2, u, v);
    var f, t, d, w := Excess(s, u, v), s.n * u + v * s.x, Denominator(s), v * v;
    assert s.n * f == t * t + w * d;
    NotNegative(s.n, f, t, w, d);
  }

  lemma NotNegative(n: real, f: real, t: real, w: real, d: real)
    requires n > 0.0 && d > 0.0 && w >= 0.0 && n * f == t * t + w * d
    ensures f >= 0.0
  {
  }

  /** The normal equations of the least-squares problem. */
  ghost predicate Normal(s: Sums, a: real, b: real) {
    s.n * a + b * s.x == s.y && a * s.x + b * s.x2 == s.xy
  }

  lemma ErrorShift(s: Sums, y2: real, a: real, b: real, u: real, v: real)
    requires Normal(s, a, b)
    ensures ErrorForm(s, y2, a + u, b + v) == ErrorForm(s, y2, a, b) + Excess(s, u, v)
  {
  }

  /** The least-squares intercept that goes with the computed slope. */
  function Intercept(s: Sums): real
    requires s.n > 0.0
  {
    (s.y - SlopeOf(s) * s.x) / s.n
  }

  lemma InterceptSolves(s: Sums)
    requires s.n > 0.0 && Denominator(s) > 0.0
    ensures Normal(s, Intercept(s), SlopeOf(s))
  {
  }

  /** The forecast's trend line is the least-squares line: for any history of two days or more,
      no other line has a smaller squared error than the one with the computed slope through
      the mean point. */
  lemma SlopeIsLeastSquares(cs: seq<real>, alpha: real, beta: real)
    requires |cs| >= 2
    ensures SquaredError(cs, Intercept(SumsOf(cs)), Slope(cs)) <= SquaredError(cs, alpha, beta)
  {
    hide SumX, SumX2, SumY, SumXY, SumY2, SquaredError, ErrorForm, Denominator, SlopeOf, Intercept, Excess, Normal;
    var s, y2 := SumsOf(cs), SumY2(cs);
    var a, b := Intercept(s), SlopeOf(s);
    DenominatorPositive(cs);
    InterceptSolves(s);
    ErrorExpands(cs, a, b);
    ErrorExpands(cs, alpha, beta);
    ErrorShift(s, y2, a, b, alpha - a, beta - b);
    ExcessNonNegative(s, alpha - a, beta - b);
    assert a + (alpha - a) == alpha && b + (beta - b) == beta;
  }

  /** The trend added up day by day, starting from the mean of the history. */
  function DailySum(slope: real, mean: real, days: nat): real {
    if days == 0 then 0.0 else DailySum(slope, mean, days - 1) + mean + slope * R(days - 1)
  }

  lemma {:induction false} DailySumClosed(slope: real, mean: real, days: nat)
    ensures DailySum(slope, mean, days) == R(days) * mean + slope * SumX(days)
  {
    if days > 0 {
      DailySumClosed(slope, mean, days - 1);
      assert slope * SumX(days) == slope * SumX(days - 1) + slope * R(days - 1);
      assert R(days) * mean == R(days - 1) * mean + mean;
    }
  }

  /** The closed form of the prediction is that sum. */
  lemma PredictionIsDailySum(slope: real, mean: real, days: nat)
    ensures Predicted(slope, mean, true, days) == DailySum(slope, mean, days)
  {
    SumsClosed(days);
    DailySumClosed(slope, mean, days);
    var d, x := R(days), SumX(days);
    hide SumX, DailySum;
    assert (days - 1) as real == d - 1.0;
    assert slope * d * (d - 1.0) == slope * (d * (d - 1.0)) == 2.0 * (slope * x);
  }

  /** The trend, without a division: increasing if and only if the mean is positive and the
      slope is more than a twentieth of it, and decreasing likewise; the percentage is the slope
      over the mean. */
  lemma TrendMeans(cs: seq<real>, days: int)
    ensures var f, b, m := ForecastOf(cs, days), Slope(cs), Mean(cs);
      && (f.trend == Increasing <==> m > 0.0 && 20.0 * b > m)
      && (f.trend == Decreasing <==> m > 0.0 && -20.0 * b > m)
      && (m > 0.0 ==> f.trendPercent * m == 100.0 * b) && (m <= 0.0 ==> f.trendPercent == 0.0)
  {
    hide SumsOf, SlopeOf, MeanOf, Percent, Predicted;
    if Mean(cs) > 0.0 {
      PercentMeans(Slope(cs), Mean(cs));
    }
  }

  /** The confidence grows by a thirtieth a day, up to one. */
  lemma ConfidenceMeans(cs: seq<real>, days: int)
    ensures var f := ForecastOf(cs, days);
      (|cs| >= 30 ==> f.confidence == 1.0) && (|cs| < 30 ==> 30.0 * f.confidence == R(|cs|))
  {
    hide SumX, SumX2, SumY, SumXY, SlopeOf, MeanOf, Percent, Predicted;
  }

  /** The prediction is the day by day sum of the trend, but never below zero. */
  lemma PredictionMeans(cs: seq<real>, days: nat)
    requires cs != []
    ensures var sum := DailySum(Slope(cs), Mean(cs), days);
      ForecastOf(cs, days).predicted == if sum > 0.0 then sum else 0.0
  {
    if |cs| == 1 {
      assert cs == [cs[0]];
      OneDayForecastsNothing(cs[0], days);
      DenominatorClosed(cs);
      hide SumX, SumX2, SumY, SumXY, Denominator, Numerator, Percent, Predicted, ForecastOf;
      assert Slope(cs) == 0.0 && Mean(cs) == 0.0;
      DailySumClosed(0.0, 0.0, days);
    } else {
      PredictionIsDailySum(Slope(cs), Mean(cs), days);
      hide DailySum, SumsOf, SlopeOf, MeanOf, Percent, Predicted;
    }
  }

  lemma PercentMeans(b: real, m: real)
    requires m > 0.0
    ensures Percent(b, m) * m == 100.0 * b
    ensures Percent(b, m) > 5.0 <==> 20.0 * b > m
    ensures Percent(b, m) < -5.0 <==> -20.0 * b > m
  {
    var p := Percent(b, m);
    assert p * m == 100.0 * b;
    assert p > 5.0 <==> (p - 5.0) * m > 0.0;
    assert p < -5.0 <==> (p + 5.0) * m < 0.0;
  }
}

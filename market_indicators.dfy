/** The stateless computations of the market analyzer
    (internal/market/analyzer.go): the volatility, trend and volume
    classifiers, the regime strings built from them, the Pearson correlation
    and the volume-weighted signal. In Go these are methods of
    MarketAnalyzer that never touch its fields. The square root of the
    Pearson coefficient is a parameter: the model does not compute it. */
module MarketIndicators {
  import opened Outcomes
  import opened Bybit
  import opened Strategy

  datatype VolatilityData = VolatilityData(symbol: string, recent: real, longTerm: real, regime: string)

  datatype TrendData = TrendData(symbol: string, strength: real, direction: string, adx: real)

  datatype VolumeProfile = VolumeProfile(symbol: string, current: real, average: real, ratio: real, trend: string)

  /** The regime the strategy selector consumes: one string per dimension. */
  datatype MarketRegime = MarketRegime(volatility: string, trend: string, volume: string)

  const UnknownRegime: MarketRegime := MarketRegime("unknown", "unknown", "unknown")

  // ---------------------------------------------------------------------------
  // Volatility

  /** Mid prices (high + low) / 2 of the klines. */
  function Mids(k: seq<Kline>): (mids: seq<real>)
    ensures |mids| == |k|
  {
    seq(|k|, i requires 0 <= i < |k| => (k[i].high + k[i].low) / 2.0)
  }

  /** Sum of the absolute relative changes p[j] vs p[j-1], for 1 <= j < i,
      skipping steps whose previous price is 0. */
  function ChangeSum(p: seq<real>, i: int): real
    requires 1 <= i <= |p|
    decreases i
  {
    if i == 1 then 0.0
    else ChangeSum(p, i - 1) + (if p[i - 2] != 0.0 then Abs((p[i - 1] - p[i - 2]) / p[i - 2]) else 0.0)
  }

  /** Number of steps ChangeSum counts. */
  function ChangeCount(p: seq<real>, i: int): (n: nat)
    requires 1 <= i <= |p|
    ensures n <= i - 1
    decreases i
  {
    if i == 1 then 0
    else ChangeCount(p, i - 1) + (if p[i - 2] != 0.0 then 1 else 0)
  }

  lemma {:induction false} ChangeSumNonNegative(p: seq<real>, i: int)
    requires 1 <= i <= |p|
    ensures ChangeSum(p, i) >= 0.0
    decreases i
  {
    if i > 1 {
      ChangeSumNonNegative(p, i - 1);
    }
  }

  /** The mean absolute relative change; 0 for fewer than two prices or when
      every previous price is 0. */
  function SimpleVol(p: seq<real>): (v: real)
    ensures v >= 0.0
  {
    if |p| < 2 then 0.0
    else if ChangeCount(p, |p|) == 0 then 0.0
    else
      ChangeSumNonNegative(p, |p|);
      ChangeSum(p, |p|) / ChangeCount(p, |p|) as real
  }

  lemma {:induction false} FlatChangeSum(p: seq<real>, i: int)
    requires 1 <= i <= |p|
    requires forall j :: 0 <= j < |p| ==> p[j] == p[0]
    ensures ChangeSum(p, i) == 0.0
    decreases i
  {
    if i > 1 {
      FlatChangeSum(p, i - 1);
    }
  }

  /** A flat price series has zero volatility. */
  lemma FlatSeriesHasNoVolatility(p: seq<real>)
    requires |p| > 0
    requires forall j :: 0 <= j < |p| ==> p[j] == p[0]
    ensures SimpleVol(p) == 0.0
  {
    if |p| >= 2 {
      FlatChangeSum(p, |p|);
    }
  }

  /** simpleVolatility: one loop over consecutive prices. */
  method SimpleVolatility(p: seq<real>) returns (v: real)
    ensures v == SimpleVol(p)
  {
    if |p| < 2 {
      return 0.0;
    }
    var sum := 0.0;
    var count := 0;
    var i := 1;
    while i < |p|
      invariant 1 <= i <= |p|
      invariant sum == ChangeSum(p, i) && count == ChangeCount(p, i)
    {
      if p[i - 1] != 0.0 {
        var change := Abs((p[i] - p[i - 1]) / p[i - 1]);
        sum := sum + change;
        count := count + 1;
      }
      i := i + 1;
    }
    if count == 0 {
      return 0.0;
    }
    v := sum / count as real;
  }

  /** "high" when the recent volatility exceeds the long-term one by more than
      20%, "low" when it is more than 20% below it, otherwise "medium". */
  function VolatilityLevel(recent: real, longTerm: real): (level: string)
    ensures level == "high" <==> recent > longTerm * 1.2
    ensures level == "low" <==> !(recent > longTerm * 1.2) && recent < longTerm * 0.8
    ensures level == "medium" <==> longTerm * 0.8 <= recent <= longTerm * 1.2
  {
    if recent > longTerm * 1.2 then "high"
    else if recent < longTerm * 0.8 then "low"
    else "medium"
  }

  /** The volatility summary of a kline series: recent = last 10 mid prices,
      long-term = all of them. */
  function Volatility(data: MarketData): (v: VolatilityData)
    requires |data.klines| < 2 || |data.klines| >= 10
    ensures v.symbol == data.symbol
    ensures v.recent >= 0.0 && v.longTerm >= 0.0
    ensures v.regime == "high" || v.regime == "medium" || v.regime == "low"
  {
    var mids := Mids(data.klines);
    if |mids| < 2 then VolatilityData(data.symbol, 0.0, 0.0, "low")
    else
      var recent := SimpleVol(mids[|mids| - 10..]);
      var longTerm := SimpleVol(mids);
      VolatilityData(data.symbol, recent, longTerm, VolatilityLevel(recent, longTerm))
  }

  /** calculateVolatility. With 2 to 9 klines the source slices
      prices[len-10:] with a negative bound and panics, hence the
      precondition. */
  method CalculateVolatility(data: MarketData) returns (v: VolatilityData)
    requires |data.klines| < 2 || |data.klines| >= 10
    ensures v == Volatility(data)
    ensures |data.klines| < 2 ==> v.regime == "low" && v.recent == 0.0 && v.longTerm == 0.0
  {
    var k := data.klines;
    var prices: seq<real> := [];
    var i := 0;
    while i < |k|
      invariant 0 <= i <= |k|
      invariant prices == Mids(k)[..i]
    {
      prices := prices + [(k[i].high + k[i].low) / 2.0];
      i := i + 1;
    }
    assert prices == Mids(k);
    if |prices| < 2 {
      return VolatilityData(data.symbol, 0.0, 0.0, "low");
    }
    var recent := SimpleVolatility(prices[|prices| - 10..]);
    var longTerm := SimpleVolatility(prices);
    var regime := "medium";
    if recent > longTerm * 1.2 {
      regime := "high";
    } else if recent < longTerm * 0.8 {
      regime := "low";
    }
    v := VolatilityData(data.symbol, recent, longTerm, regime);
  }

  // ---------------------------------------------------------------------------
  // Trend

  /** Closing prices of the klines. */
  function Closes(k: seq<Kline>): (closes: seq<real>)
    ensures |closes| == |k|
  {
    seq(|k|, i requires 0 <= i < |k| => k[i].close)
  }

  /** Sum of the indices 0 .. i-1, and of their squares, in closed form. */
  function SumX(i: nat): real {
    (i as real) * (i as real - 1.0) / 2.0
  }

  function SumXX(i: nat): real {
    (i as real - 1.0) * (i as real) * (2.0 * i as real - 1.0) / 6.0
  }

  /** Adding index i to the sums of the first i indices. */
  lemma SumsStep(i: nat)
    ensures SumX(i + 1) == SumX(i) + i as real
    ensures SumXX(i + 1) == SumXX(i) + i as real * i as real
  {
    var r := i as real;
    assert (r + 1.0) * r == r * (r - 1.0) + 2.0 * r;
    assert r * (r + 1.0) * (2.0 * r + 1.0) == (r - 1.0) * r * (2.0 * r - 1.0) + 6.0 * (r * r);
  }

  function SumY(v: seq<real>, i: nat): real
    requires i <= |v|
  {
    if i == 0 then 0.0 else SumY(v, i - 1) + v[i - 1]
  }

  function SumXY(v: seq<real>, i: nat): real
    requires i <= |v|
  {
    if i == 0 then 0.0 else SumXY(v, i - 1) + (i - 1) as real * v[i - 1]
  }

  function SlopeDenominator(n: nat): real {
    n as real * SumXX(n) - SumX(n) * SumX(n)
  }

  /** The least-squares slope from the regression sums of n points; 0 when
      the denominator vanishes. */
  function Regression(n: real, sx: real, sxx: real, sy: real, sxy: real): real {
    var denominator := n * sxx - sx * sx;
    if denominator == 0.0 then 0.0 else (n * sxy - sx * sy) / denominator
  }

  /** The least-squares slope of the values against their index; 0 for
      fewer than two values or a zero denominator. */
  function Slope(v: seq<real>): real {
    var n := |v|;
    if n < 2 then 0.0
    else Regression(n as real, SumX(n), SumXX(n), SumY(v, n), SumXY(v, n))
  }

  /** linearRegressionSlope: one accumulating loop. */
  method LinearRegressionSlope(v: seq<real>) returns (slope: real)
    ensures slope == Slope(v)
  {
    var n := |v| as real;
    if |v| < 2 {
      return 0.0;
    }
    var sumX, sumY, sumXY, sumXX := 0.0, 0.0, 0.0, 0.0;
    var i := 0;
    while i < |v|
      invariant 0 <= i <= |v|
      invariant sumX == SumX(i) && sumXX == SumXX(i)
      invariant sumY == SumY(v, i) && sumXY == SumXY(v, i)
    {
      SumsStep(i);
      var x := i as real;
      sumX := sumX + x;
      sumY := sumY + v[i];
      sumXY := sumXY + x * v[i];
      sumXX := sumXX + x * x;
      i := i + 1;
    }
    slope := Regression(n, sumX, sumXX, sumY, sumXY);
  }

  /** With two or more points the denominator n^2 (n^2 - 1) / 12 is
      positive, so the zero-denominator guard never fires on real-valued
      input. */
  lemma SlopeDenominatorPositive(n: nat)
    requires n >= 2
    ensures SlopeDenominator(n) > 0.0
  {
    var r := n as real;
    assert 12.0 * SlopeDenominator(n) == r * r * (r * r - 1.0);
    assert r * r - 1.0 > 0.0 by {
      assert r * r >= 2.0 * r;
    }
    assert r * r > 0.0;
    assert r * r * (r * r - 1.0) > 0.0;
  }

  lemma {:induction false} FlatSums(v: seq<real>, i: nat, c: real)
    requires i <= |v|
    requires forall j :: 0 <= j < |v| ==> v[j] == c
    ensures SumY(v, i) == c * i as real
    ensures SumXY(v, i) == c * SumX(i)
  {
    if i > 0 {
      FlatSums(v, i - 1, c);
      SumsStep(i - 1);
    }
  }

  /** A flat series has slope 0, so it is never classified as a trend. */
  lemma FlatSeriesHasNoSlope(v: seq<real>, c: real)
    requires forall j :: 0 <= j < |v| ==> v[j] == c
    ensures Slope(v) == 0.0
  {
    if |v| >= 2 {
      var n := |v|;
      FlatSums(v, n, c);
      var r, sx := n as real, SumX(n);
      assert r * (c * sx) - sx * (c * r) == 0.0;
    }
  }

  /** Trend direction and strength from a slope: up above 0.001, down below
      -0.001, otherwise sideways; the strength is |slope| capped at 0.05 and
      scaled to [0, 1]. */
  function TrendFromSlope(symbol: string, slope: real): (t: TrendData)
    ensures t.symbol == symbol && t.adx == 0.0
    ensures t.direction == "up" <==> slope > 0.001
    ensures t.direction == "down" <==> slope < -0.001
    ensures t.direction == "sideways" <==> -0.001 <= slope <= 0.001
    ensures 0.0 <= t.strength <= 1.0
    ensures Abs(slope) >= 0.05 ==> t.strength == 1.0
    ensures Abs(slope) < 0.05 ==> t.strength == Abs(slope) / 0.05
  {
    var direction := if slope > 0.001 then "up" else if slope < -0.001 then "down" else "sideways";
    var capped := if Abs(slope) > 0.05 then 0.05 else Abs(slope);
    TrendData(symbol, capped / 0.05, direction, 0.0)
  }

  /** The trend summary of a kline series: sideways with strength 0 for fewer
      than two klines, otherwise from the slope of the closes. */
  function Trend(data: MarketData): TrendData {
    if |data.klines| < 2 then TrendData(data.symbol, 0.0, "sideways", 0.0)
    else TrendFromSlope(data.symbol, Slope(Closes(data.klines)))
  }

  /** calculateTrend. */
  method CalculateTrend(data: MarketData) returns (t: TrendData)
    ensures t == Trend(data)
    ensures t.direction == "up" || t.direction == "down" || t.direction == "sideways"
    ensures 0.0 <= t.strength <= 1.0
  {
    var k := data.klines;
    var prices: seq<real> := [];
    var i := 0;
    while i < |k|
      invariant 0 <= i <= |k|
      invariant prices == Closes(k)[..i]
    {
      prices := prices + [k[i].close];
      i := i + 1;
    }
    assert prices == Closes(k);
    if |prices| < 2 {
      return TrendData(data.symbol, 0.0, "sideways", 0.0);
    }
    var slope := LinearRegressionSlope(prices);
    t := TrendFromSlope(data.symbol, slope);
  }

  // ---------------------------------------------------------------------------
  // Volume

  /** "increasing" above a ratio of 1.2, "decreasing" below 0.8, otherwise
      "stable". */
  function VolumeTrend(ratio: real): (trend: string)
    ensures trend == "increasing" <==> ratio > 1.2
    ensures trend == "decreasing" <==> ratio < 0.8
    ensures trend == "stable" <==> 0.8 <= ratio <= 1.2
  {
    if ratio > 1.2 then "increasing" else if ratio < 0.8 then "decreasing" else "stable"
  }

  /** The volume summary: all zero and "stable" without klines; otherwise the
      newest volume against the mean volume, the ratio being 1 when the mean
      is not positive. */
  function Volume(data: MarketData): (p: VolumeProfile)
    ensures p.symbol == data.symbol
    ensures |data.klines| == 0 ==> p == VolumeProfile(data.symbol, 0.0, 0.0, 0.0, "stable")
    ensures |data.klines| > 0 ==>
      && p.current == data.klines[|data.klines| - 1].volume
      && p.average * |data.klines| as real == SumVolumes(data.klines, 0, |data.klines|)
      && (p.average > 0.0 ==> p.ratio * p.average == p.current)
      && (p.average <= 0.0 ==> p.ratio == 1.0)
      && p.trend == VolumeTrend(p.ratio)
  {
    var k := data.klines;
    if |k| == 0 then VolumeProfile(data.symbol, 0.0, 0.0, 0.0, "stable")
    else
      var current := k[|k| - 1].volume;
      var average := SumVolumes(k, 0, |k|) / |k| as real;
      var ratio := if average > 0.0 then current / average else 1.0;
      VolumeProfile(data.symbol, current, average, ratio, VolumeTrend(ratio))
  }

  /** calculateVolumeProfile: one loop collecting and summing the volumes. */
  method CalculateVolumeProfile(data: MarketData) returns (p: VolumeProfile)
    ensures p == Volume(data)
  {
    var k := data.klines;
    var volumes: seq<real> := [];
    var total := 0.0;
    var i := 0;
    while i < |k|
      invariant 0 <= i <= |k|
      invariant |volumes| == i
      invariant forall j :: 0 <= j < i ==> volumes[j] == k[j].volume
      invariant total == SumVolumes(k, 0, i)
    {
      volumes := volumes + [k[i].volume];
      total := total + k[i].volume;
      i := i + 1;
    }
    if |volumes| == 0 {
      return VolumeProfile(data.symbol, 0.0, 0.0, 0.0, "stable");
    }
    var current := volumes[|volumes| - 1];
    var average := total / |volumes| as real;
    var ratio := 1.0;
    if average > 0.0 {
      ratio := current / average;
    }
    var trend := "stable";
    if ratio > 1.2 {
      trend := "increasing";
    } else if ratio < 0.8 {
      trend := "decreasing";
    }
    p := VolumeProfile(data.symbol, current, average, ratio, trend);
  }

  // ---------------------------------------------------------------------------
  // Regime strings

  /** determineVolatilityRegime: the level with "_volatility" appended. */
  function VolatilityRegime(v: VolatilityData): (s: string)
    ensures s == v.regime + "_volatility"
    ensures v.regime == "high" ==> s == "high_volatility"
    ensures v.regime == "low" ==> s == "low_volatility"
  {
    v.regime + "_volatility"
  }

  /** determineTrendRegime. */
  function TrendRegime(t: TrendData): (s: string)
    ensures s == "trending_up" <==> t.direction == "up"
    ensures s == "trending_down" <==> t.direction == "down"
    ensures s == "ranging" <==> t.direction != "up" && t.direction != "down"
  {
    if t.direction == "up" then "trending_up"
    else if t.direction == "down" then "trending_down"
    else "ranging"
  }

  /** determineVolumeRegime. */
  function VolumeRegime(p: VolumeProfile): (s: string)
    ensures s == "high_volume" <==> p.trend == "increasing"
    ensures s == "low_volume" <==> p.trend == "decreasing"
    ensures s == "normal_volume" <==> p.trend != "increasing" && p.trend != "decreasing"
  {
    if p.trend == "increasing" then "high_volume"
    else if p.trend == "decreasing" then "low_volume"
    else "normal_volume"
  }

  /** The regime of freshly analysed data. */
  function RegimeOf(v: VolatilityData, t: TrendData, p: VolumeProfile): MarketRegime {
    MarketRegime(VolatilityRegime(v), TrendRegime(t), VolumeRegime(p))
  }

  // ---------------------------------------------------------------------------
  // Pearson correlation

  /** The square-root parameter is positive on positive arguments. */
  ghost predicate PositiveRoot(sqrt: real -> real) {
    forall v :: v > 0.0 ==> sqrt(v) > 0.0
  }

  /** The square-root parameter is the square root on non-negative arguments. */
  ghost predicate IsSquareRoot(sqrt: real -> real) {
    forall v :: v >= 0.0 ==> sqrt(v) >= 0.0 && sqrt(v) * sqrt(v) == v
  }

  function SeqSum(x: seq<real>, i: nat): real
    requires i <= |x|
  {
    if i == 0 then 0.0 else SeqSum(x, i - 1) + x[i - 1]
  }

  /** Sum over the first i points of (x - mx) * (y - my). */
  function CrossDeviation(x: seq<real>, y: seq<real>, mx: real, my: real, i: nat): real
    requires i <= |x| && i <= |y|
  {
    if i == 0 then 0.0 else CrossDeviation(x, y, mx, my, i - 1) + (x[i - 1] - mx) * (y[i - 1] - my)
  }

  lemma {:induction false} SquaredDeviationNonNegative(x: seq<real>, mx: real, i: nat)
    requires i <= |x|
    ensures CrossDeviation(x, x, mx, mx, i) >= 0.0
  {
    if i > 0 {
      SquaredDeviationNonNegative(x, mx, i - 1);
    }
  }

  lemma {:induction false} CrossDeviationSymmetric(x: seq<real>, y: seq<real>, mx: real, my: real, i: nat)
    requires i <= |x| && i <= |y|
    ensures CrossDeviation(x, y, mx, my, i) == CrossDeviation(y, x, my, mx, i)
  {
    if i > 0 {
      CrossDeviationSymmetric(x, y, mx, my, i - 1);
    }
  }

  /** numerator / sqrt(dx * dy) for positive variances. */
  function Coefficient(numerator: real, dx: real, dy: real, sqrt: real -> real): real
    requires PositiveRoot(sqrt)
    requires dx > 0.0 && dy > 0.0
  {
    assert dx * dy > 0.0;
    numerator / sqrt(dx * dy)
  }

  /** Pearson's coefficient of two equally long series: 0 for unequal
      lengths, fewer than two points or a zero variance. */
  function Pearson(x: seq<real>, y: seq<real>, sqrt: real -> real): real
    requires PositiveRoot(sqrt)
  {
    var n := |x|;
    if n != |y| || n < 2 then 0.0
    else
      var mx := SeqSum(x, n) / n as real;
      var my := SeqSum(y, n) / n as real;
      var dx := CrossDeviation(x, x, mx, mx, n);
      var dy := CrossDeviation(y, y, my, my, n);
      if dx == 0.0 || dy == 0.0 then 0.0
      else
        SquaredDeviationNonNegative(x, mx, n);
        SquaredDeviationNonNegative(y, my, n);
        Coefficient(CrossDeviation(x, y, mx, my, n), dx, dy, sqrt)
  }

  /** The coefficient does not depend on the order of its arguments. */
  lemma PearsonSymmetric(x: seq<real>, y: seq<real>, sqrt: real -> real)
    requires PositiveRoot(sqrt)
    ensures Pearson(x, y, sqrt) == Pearson(y, x, sqrt)
  {
    var n := |x|;
    if n == |y| && n >= 2 {
      var mx := SeqSum(x, n) / n as real;
      var my := SeqSum(y, n) / n as real;
      CrossDeviationSymmetric(x, y, mx, my, n);
      var dx := CrossDeviation(x, x, mx, mx, n);
      var dy := CrossDeviation(y, y, my, my, n);
      if dx != 0.0 && dy != 0.0 {
        SquaredDeviationNonNegative(x, mx, n);
        SquaredDeviationNonNegative(y, my, n);
        assert dx * dy == dy * dx;
        assert Coefficient(CrossDeviation(x, y, mx, my, n), dx, dy, sqrt)
            == Coefficient(CrossDeviation(y, x, my, mx, n), dy, dx, sqrt);
      }
    }
  }

  lemma ScaleBelow(s: real, d: real)
    requires 0.0 <= s <= d
    ensures s * s <= s * d
  {
  }

  lemma ScaleStrictlyBelow(s: real, d: real)
    requires 0.0 <= s < d
    ensures s * d < d * d
  {
  }

  lemma SquareStrictlyMonotone(s: real, d: real)
    requires 0.0 <= s < d
    ensures s * s < d * d
  {
    calc {
      s * s;
    <= { ScaleBelow(s, d); }
      s * d;
    < { ScaleStrictlyBelow(s, d); }
      d * d;
    }
  }

  /** The only non-negative root of d * d, for d > 0, is d. */
  lemma RootOfSquare(d: real, sqrt: real -> real)
    requires IsSquareRoot(sqrt)
    requires d > 0.0
    ensures sqrt(d * d) == d
  {
    assert d * d >= 0.0;
    var s := sqrt(d * d);
    assert s >= 0.0 && s * s == d * d;
    if s < d {
      SquareStrictlyMonotone(s, d);
    } else if s > d {
      SquareStrictlyMonotone(d, s);
    }
  }

  lemma CoefficientOfSelf(d: real, sqrt: real -> real)
    requires PositiveRoot(sqrt) && IsSquareRoot(sqrt)
    requires d > 0.0
    ensures Coefficient(d, d, d, sqrt) == 1.0
  {
    RootOfSquare(d, sqrt);
  }

  /** A series with non-zero variance correlates perfectly with itself, which
      is the value the matrix stores on its diagonal. */
  lemma PearsonSelf(x: seq<real>, sqrt: real -> real)
    requires PositiveRoot(sqrt) && IsSquareRoot(sqrt)
    requires |x| >= 2
    requires CrossDeviation(x, x, SeqSum(x, |x|) / |x| as real, SeqSum(x, |x|) / |x| as real, |x|) != 0.0
    ensures Pearson(x, x, sqrt) == 1.0
  {
    var n := |x|;
    var mx := SeqSum(x, n) / n as real;
    var dx := CrossDeviation(x, x, mx, mx, n);
    SquaredDeviationNonNegative(x, mx, n);
    CoefficientOfSelf(dx, sqrt);
  }

  /** pearsonCorrelation: a loop for the means, a loop for the deviation
      sums, then the coefficient. */
  method PearsonCorrelation(x: seq<real>, y: seq<real>, sqrt: real -> real) returns (r: real)
    requires PositiveRoot(sqrt)
    ensures r == Pearson(x, y, sqrt)
  {
    var n := |x|;
    if n != |y| || n < 2 {
      return 0.0;
    }
    var sumX, sumY := 0.0, 0.0;
    var i := 0;
    while i < n
      invariant 0 <= i <= n
      invariant sumX == SeqSum(x, i) && sumY == SeqSum(y, i)
    {
      sumX := sumX + x[i];
      sumY := sumY + y[i];
      i := i + 1;
    }
    var meanX := sumX / n as real;
    var meanY := sumY / n as real;
    var numerator, denomX, denomY := 0.0, 0.0, 0.0;
    i := 0;
    while i < n
      invariant 0 <= i <= n
      invariant numerator == CrossDeviation(x, y, meanX, meanY, i)
      invariant denomX == CrossDeviation(x, x, meanX, meanX, i)
      invariant denomY == CrossDeviation(y, y, meanY, meanY, i)
    {
      var diffX := x[i] - meanX;
      var diffY := y[i] - meanY;
      assert CrossDeviation(x, y, meanX, meanY, i + 1) == numerator + diffX * diffY;
      assert CrossDeviation(x, x, meanX, meanX, i + 1) == denomX + diffX * diffX;
      assert CrossDeviation(y, y, meanY, meanY, i + 1) == denomY + diffY * diffY;
      numerator := numerator + diffX * diffY;
      denomX := denomX + diffX * diffX;
      denomY := denomY + diffY * diffY;
      i := i + 1;
    }
    if denomX == 0.0 || denomY == 0.0 {
      return 0.0;
    }
    SquaredDeviationNonNegative(x, meanX, n);
    SquaredDeviationNonNegative(y, meanY, n);
    r := Coefficient(numerator, denomX, denomY, sqrt);
  }

  // ---------------------------------------------------------------------------
  // Volume-weighted signal

  datatype VolumeWeightedSignal = VolumeWeightedSignal(
    symbol: string, baseSignal: SignalAction,
    volumeConfidence: real, priceConfidence: real, overallConfidence: real)

  /** Percentage change from `before` to `after`, 0 when `before` is 0. */
  function PercentChange(before: real, after: real): real {
    if before != 0.0 then (after - before) / before * 100.0 else 0.0
  }

  /** The volume confidence the source assigns: for a directional signal 1.0
      on a volume surge above 50%, 0.5 on any volume increase, else 0.2; for
      HOLD 0.7 on a surge above 100%, else 0.3. */
  function VolumeConfidence(directional: bool, volumePct: real): (c: real)
    ensures directional ==> c == 1.0 || c == 0.5 || c == 0.2
    ensures !directional ==> c == 0.7 || c == 0.3
    ensures directional && volumePct > 50.0 ==> c == 1.0
    ensures directional && volumePct <= 0.0 ==> c == 0.2
    ensures !directional ==> (c == 0.7 <==> volumePct > 100.0)
  {
    if directional then
      if volumePct > 50.0 then 1.0 else if volumePct > 0.0 then 0.5 else 0.2
    else
      if volumePct > 100.0 then 0.7 else 0.3
  }

  /** AnalyzeVolumeWeightedSignal: the latest close against the previous one
      decides BUY (up more than 1%) or SELL (down more than 1%) with a price
      confidence of |change|/5 capped at 1; the volume change sets the volume
      confidence; the overall confidence is 0.6 price + 0.4 volume, and an
      overall confidence below 0.3 forces HOLD. */
  function AnalyzeVolumeWeightedSignal(symbol: string, data: MarketData): (s: VolumeWeightedSignal)
    ensures s.symbol == symbol
    ensures |data.klines| < 2 ==> s == VolumeWeightedSignal(symbol, Hold, 0.0, 0.0, 0.0)
    ensures 0.0 <= s.priceConfidence <= 1.0
    ensures 0.0 <= s.volumeConfidence <= 1.0
    ensures s.overallConfidence == s.priceConfidence * 0.6 + s.volumeConfidence * 0.4
    ensures 0.0 <= s.overallConfidence <= 1.0
    ensures s.overallConfidence < 0.3 ==> s.baseSignal == Hold
    ensures s.baseSignal == Buy || s.baseSignal == Sell || s.baseSignal == Hold
    ensures |data.klines| >= 2 ==>
      var k := data.klines;
      var pct := PercentChange(k[|k| - 2].close, k[|k| - 1].close);
      && (s.baseSignal == Buy <==> pct > 1.0 && s.overallConfidence >= 0.3)
      && (s.baseSignal == Sell <==> pct < -1.0 && s.overallConfidence >= 0.3)
      && (-1.0 <= pct <= 1.0 ==> s.priceConfidence == 0.0)
  {
    var k := data.klines;
    if |k| < 2 then VolumeWeightedSignal(symbol, Hold, 0.0, 0.0, 0.0)
    else
      var latest := k[|k| - 1];
      var previous := k[|k| - 2];
      var pricePct := PercentChange(previous.close, latest.close);
      var volumePct := PercentChange(previous.volume, latest.volume);
      var base := if pricePct > 1.0 then Buy else if pricePct < -1.0 then Sell else Hold;
      var priceConfidence :=
        if pricePct > 1.0 then Min(pricePct / 5.0, 1.0)
        else if pricePct < -1.0 then Min(Abs(pricePct) / 5.0, 1.0)
        else 0.0;
      var volumeConfidence := VolumeConfidence(base != Hold, volumePct);
      var overall := priceConfidence * 0.6 + volumeConfidence * 0.4;
      VolumeWeightedSignal(symbol, if overall < 0.3 then Hold else base, volumeConfidence, priceConfidence, overall)
  }
}

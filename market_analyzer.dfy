/** The stateful part of the market analyzer (internal/market/analyzer.go):
    the per-symbol trackers, the bounded price history, the correlation
    matrix and the queries over it. */
module MarketAnalysis {
  import opened Outcomes
  import opened Bybit
  import opened MarketIndicators

  const MaxHistory: int := 100

  /** The last `n` entries of `s`, or all of `s` when it is shorter. */
  function LastN<T>(s: seq<T>, n: nat): (r: seq<T>)
    ensures |r| == if |s| < n then |s| else n
    ensures forall i :: 0 <= i < |r| ==> r[i] == s[|s| - |r| + i]
  {
    if |s| > n then s[|s| - n..] else s
  }

  /** The smaller of two lengths. */
  function Shorter(m: nat, n: nat): (r: nat)
    ensures r <= m && r <= n && (r == m || r == n)
  {
    if n < m then n else m
  }

  /** calculateCorrelation: 0 when either symbol has no history; otherwise
      the correlation of the two histories. */
  function Correlation(ph: map<string, seq<real>>, a: string, b: string, sqrt: real -> real): real
    requires PositiveRoot(sqrt)
  {
    if a !in ph || b !in ph then 0.0 else SeriesCorrelation(ph[a], ph[b], sqrt)
  }

  /** 0 when the overlap of two histories is shorter than two prices;
      otherwise Pearson's coefficient of the histories trimmed to their
      common length from the end. */
  function SeriesCorrelation(xa: seq<real>, xb: seq<real>, sqrt: real -> real): real
    requires PositiveRoot(sqrt)
  {
    var n := Shorter(|xa|, |xb|);
    if n < 2 then 0.0 else Pearson(xa[|xa| - n..], xb[|xb| - n..], sqrt)
  }

  lemma SeriesCorrelationSymmetric(xa: seq<real>, xb: seq<real>, sqrt: real -> real)
    requires PositiveRoot(sqrt)
    ensures SeriesCorrelation(xa, xb, sqrt) == SeriesCorrelation(xb, xa, sqrt)
  {
    var n := Shorter(|xa|, |xb|);
    assert n == Shorter(|xb|, |xa|);
    if n >= 2 {
      PearsonSymmetric(xa[|xa| - n..], xb[|xb| - n..], sqrt);
    }
  }

  lemma CorrelationSymmetric(ph: map<string, seq<real>>, a: string, b: string, sqrt: real -> real)
    requires PositiveRoot(sqrt)
    ensures Correlation(ph, a, b, sqrt) == Correlation(ph, b, a, sqrt)
  {
    if a in ph && b in ph {
      SeriesCorrelationSymmetric(ph[a], ph[b], sqrt);
    }
  }

  /** The value the correlation matrix holds for a pair: 1 on the diagonal,
      the pairwise correlation elsewhere. */
  function MatrixEntry(ph: map<string, seq<real>>, a: string, b: string, sqrt: real -> real): real
    requires PositiveRoot(sqrt)
  {
    if a == b then 1.0 else Correlation(ph, a, b, sqrt)
  }

  /** A matrix entry, 0 when the row or the column is missing. */
  function Lookup(m: map<string, map<string, real>>, a: string, b: string): real {
    if a in m && b in m[a] then m[a][b] else 0.0
  }

  // ---------------------------------------------------------------------------
  // Diversification score

  /** Sum of |corr(symbols[i], symbols[q])| for i < q < j. */
  function RowSum(m: map<string, map<string, real>>, symbols: seq<string>, i: nat, j: nat): real
    requires i < |symbols| && j <= |symbols|
    decreases j
  {
    if j <= i + 1 then 0.0
    else RowSum(m, symbols, i, j - 1) + Abs(Lookup(m, symbols[i], symbols[j - 1]))
  }

  /** Sum of |corr| over the unordered pairs whose first index is below i. */
  function PairSum(m: map<string, map<string, real>>, symbols: seq<string>, i: nat): real
    requires i <= |symbols|
  {
    if i == 0 then 0.0 else PairSum(m, symbols, i - 1) + RowSum(m, symbols, i - 1, |symbols|)
  }

  /** Number of unordered pairs whose first index is below i. */
  function PairCount(n: nat, i: nat): nat
    requires i <= n
  {
    if i == 0 then 0 else PairCount(n, i - 1) + (n - i)
  }

  /** GetDiversificationScore as a formula: 1 for at most one symbol,
      otherwise 1 minus the mean |corr| over all unordered pairs. */
  function Diversification(m: map<string, map<string, real>>, symbols: seq<string>): real {
    var n := |symbols|;
    if n <= 1 then 1.0
    else if PairCount(n, n) == 0 then 1.0
    else 1.0 - PairSum(m, symbols, n) / PairCount(n, n) as real
  }

  lemma {:induction false} RowSumBounds(m: map<string, map<string, real>>, symbols: seq<string>, i: nat, j: nat)
    requires i < |symbols| && j <= |symbols|
    requires forall a, b :: a in m && b in m[a] ==> Abs(m[a][b]) <= 1.0
    ensures 0.0 <= RowSum(m, symbols, i, j)
    ensures RowSum(m, symbols, i, j) <= (if j <= i + 1 then 0 else j - i - 1) as real
    decreases j
  {
    if j > i + 1 {
      RowSumBounds(m, symbols, i, j - 1);
    }
  }

  lemma {:induction false} PairSumBounds(m: map<string, map<string, real>>, symbols: seq<string>, i: nat)
    requires i <= |symbols|
    requires forall a, b :: a in m && b in m[a] ==> Abs(m[a][b]) <= 1.0
    ensures 0.0 <= PairSum(m, symbols, i) <= PairCount(|symbols|, i) as real
  {
    if i > 0 {
      PairSumBounds(m, symbols, i - 1);
      RowSumBounds(m, symbols, i - 1, |symbols|);
    }
  }

  lemma {:induction false} PairCountPositive(n: nat, i: nat)
    requires 1 <= i <= n - 1
    ensures PairCount(n, i) >= n - 1
  {
    if i > 1 {
      PairCountPositive(n, i - 1);
    }
  }

  /** The score never exceeds 1, and when every stored correlation is within
      [-1, 1] it is at least 0. */
  lemma DiversificationBounds(m: map<string, map<string, real>>, symbols: seq<string>)
    ensures Diversification(m, symbols) <= 1.0
    ensures (forall a, b :: a in m && b in m[a] ==> Abs(m[a][b]) <= 1.0) ==>
      0.0 <= Diversification(m, symbols)
  {
    var n := |symbols|;
    if n > 1 {
      PairCountPositive(n, n - 1);
      assert PairCount(n, n) == PairCount(n, n - 1);
      PairSumNonNegative(m, symbols, n);
      if forall a, b :: a in m && b in m[a] ==> Abs(m[a][b]) <= 1.0 {
        PairSumBounds(m, symbols, n);
        var s, c := PairSum(m, symbols, n), PairCount(n, n) as real;
        assert s / c <= 1.0 by {
          assert s <= c;
        }
      }
    }
  }

  lemma {:induction false} RowSumNonNegative(m: map<string, map<string, real>>, symbols: seq<string>, i: nat, j: nat)
    requires i < |symbols| && j <= |symbols|
    ensures 0.0 <= RowSum(m, symbols, i, j)
    decreases j
  {
    if j > i + 1 {
      RowSumNonNegative(m, symbols, i, j - 1);
    }
  }

  lemma {:induction false} PairSumNonNegative(m: map<string, map<string, real>>, symbols: seq<string>, i: nat)
    requires i <= |symbols|
    ensures 0.0 <= PairSum(m, symbols, i)
  {
    if i > 0 {
      PairSumNonNegative(m, symbols, i - 1);
      RowSumNonNegative(m, symbols, i - 1, |symbols|);
    }
  }

  // ---------------------------------------------------------------------------
  // Highly correlated assets

  /** `assets` lists distinct symbols. */
  predicate Distinct(assets: seq<string>) {
    forall i, j :: 0 <= i < j < |assets| ==> assets[i] != assets[j]
  }

  /** `assets` are keys of `row` ordered by non-increasing |corr|. */
  predicate ByStrength(row: map<string, real>, assets: seq<string>) {
    && (forall i :: 0 <= i < |assets| ==> assets[i] in row)
    && (forall i, j :: 0 <= i < j < |assets| ==> Abs(row[assets[i]]) >= Abs(row[assets[j]]))
  }

  /** Placing x at position p, after every entry at least as strong as x
      and before the weaker ones, keeps the order. */
  lemma InsertKeepsOrder(row: map<string, real>, sorted: seq<string>, x: string, p: nat)
    requires x in row && ByStrength(row, sorted) && p <= |sorted|
    requires forall i :: 0 <= i < p ==> Abs(row[sorted[i]]) >= Abs(row[x])
    requires p < |sorted| ==> Abs(row[sorted[p]]) < Abs(row[x])
    ensures ByStrength(row, sorted[..p] + [x] + sorted[p..])
  {
    var r := sorted[..p] + [x] + sorted[p..];
    assert forall i :: 0 <= i < p ==> r[i] == sorted[i];
    assert r[p] == x;
    assert forall i :: p < i < |r| ==> r[i] == sorted[i - 1];
    forall i, j | 0 <= i < j < |r|
      ensures Abs(row[r[i]]) >= Abs(row[r[j]])
    {
      if j == p {
      } else if i == p {
        assert Abs(row[sorted[p]]) >= Abs(row[sorted[j - 1]]);
      } else if i < p && p < j {
        assert Abs(row[sorted[i]]) >= Abs(row[sorted[j - 1]]);
      }
    }
  }

  /** Inserts x after every entry at least as strong as x. */
  method InsertByStrength(row: map<string, real>, sorted: seq<string>, x: string) returns (r: seq<string>)
    requires x in row && ByStrength(row, sorted)
    ensures ByStrength(row, r)
    ensures multiset(r) == multiset(sorted) + multiset{x}
  {
    var p := 0;
    while p < |sorted| && Abs(row[sorted[p]]) >= Abs(row[x])
      invariant 0 <= p <= |sorted|
      invariant forall i :: 0 <= i < p ==> Abs(row[sorted[i]]) >= Abs(row[x])
    {
      p := p + 1;
    }
    InsertKeepsOrder(row, sorted, x, p);
    r := sorted[..p] + [x] + sorted[p..];
    assert sorted == sorted[..p] + sorted[p..];
  }

  /** The sort.Slice call: orders the collected symbols by non-increasing
      |corr| (ties in any order). */
  method SortByStrength(row: map<string, real>, xs: seq<string>) returns (r: seq<string>)
    requires forall i :: 0 <= i < |xs| ==> xs[i] in row
    ensures ByStrength(row, r)
    ensures multiset(r) == multiset(xs)
  {
    r := [];
    var i := 0;
    while i < |xs|
      invariant 0 <= i <= |xs|
      invariant ByStrength(row, r)
      invariant multiset(r) == multiset(xs[..i])
    {
      r := InsertByStrength(row, r, xs[i]);
      assert xs[..i + 1] == xs[..i] + [xs[i]];
      i := i + 1;
    }
    assert xs[..i] == xs;
  }

  lemma DistinctFromMultiset(a: seq<string>, b: seq<string>)
    requires Distinct(a) && multiset(a) == multiset(b)
    ensures Distinct(b)
    ensures forall s :: s in a <==> s in b
  {
    forall s ensures s in a <==> s in b {
      assert s in a <==> s in multiset(a);
      assert s in b <==> s in multiset(b);
    }
    forall i, j | 0 <= i < j < |b|
      ensures b[i] != b[j]
    {
      RepeatCounts(b, i, j);
      MultiplicityInDistinct(a, b[i]);
    }
  }

  /** A value at two positions occurs at least twice. */
  lemma RepeatCounts(b: seq<string>, i: nat, j: nat)
    requires i < j < |b|
    ensures b[i] == b[j] ==> multiset(b)[b[i]] >= 2
  {
    if b[i] == b[j] {
      assert b == b[..i] + [b[i]] + b[i + 1..j] + [b[j]] + b[j + 1..];
    }
  }

  lemma {:induction false} MultiplicityInDistinct(a: seq<string>, s: string)
    requires Distinct(a)
    ensures multiset(a)[s] <= 1
  {
    if |a| > 0 {
      var rest := a[..|a| - 1];
      assert a == rest + [a[|a| - 1]];
      MultiplicityInDistinct(rest, s);
      if a[|a| - 1] == s {
        assert s !in rest;
      }
    }
  }

  // ---------------------------------------------------------------------------
  // Correlation matrix

  /** Every row and column of the matrix is a symbol with history, and every
      stored entry is the value MatrixEntry prescribes. */
  ghost predicate EntriesCorrect(m: map<string, map<string, real>>, ph: map<string, seq<real>>, sqrt: real -> real)
    requires PositiveRoot(sqrt)
  {
    && (forall a :: a in m ==> a in ph)
    && (forall a, b :: a in m && b in m[a] ==> b in ph && m[a][b] == MatrixEntry(ph, a, b, sqrt))
  }

  /** Storing the prescribed value for a pair of symbols keeps the matrix
      correct. */
  lemma StoreKeepsEntries(m: map<string, map<string, real>>, ph: map<string, seq<real>>, sqrt: real -> real,
                          a: string, b: string, v: real)
    requires PositiveRoot(sqrt) && EntriesCorrect(m, ph, sqrt)
    requires a in m && b in ph && v == MatrixEntry(ph, a, b, sqrt)
    ensures EntriesCorrect(m[a := m[a][b := v]], ph, sqrt)
  {
  }

  /** The matrix CalculateCorrelations builds: a row for every symbol with
      history, a column for every such symbol in each row, and the
      prescribed entries. */
  ghost predicate IsCorrelationMatrix(m: map<string, map<string, real>>, ph: map<string, seq<real>>, sqrt: real -> real)
    requires PositiveRoot(sqrt)
  {
    && (forall a :: a in m <==> a in ph)
    && (forall a, b :: a in ph && b in ph ==> a in m && b in m[a])
    && EntriesCorrect(m, ph, sqrt)
  }

  /** Rows symbols[..i] of the matrix hold a column for every symbol. */
  ghost predicate Covers(m: map<string, map<string, real>>, symbols: seq<string>, i: int)
    requires 0 <= i <= |symbols|
  {
    forall p, q :: 0 <= p < i && 0 <= q < |symbols| ==> symbols[p] in m && symbols[q] in m[symbols[p]]
  }

  /** A matrix covering every listed symbol has a row, and in it a column,
      for each of them. */
  lemma CoveredPairs(m: map<string, map<string, real>>, keys: set<string>, symbols: seq<string>)
    requires Covers(m, symbols, |symbols|)
    requires forall s :: s in symbols <==> s in keys
    ensures forall a, b :: a in keys && b in keys ==> a in m && b in m[a]
  {
    forall a, b | a in keys && b in keys
      ensures a in m && b in m[a]
    {
      assert a in symbols && b in symbols;
      var p :| 0 <= p < |symbols| && symbols[p] == a;
      var q :| 0 <= q < |symbols| && symbols[q] == b;
      assert symbols[p] in m && symbols[q] in m[symbols[p]];
    }
  }

  /** The keys of a map, listed in some order without repetition. */
  method SymbolsOf<V>(ph: map<string, V>) returns (symbols: seq<string>)
    ensures Distinct(symbols)
    ensures forall s :: s in symbols <==> s in ph
  {
    symbols := [];
    var remaining := ph.Keys;
    while remaining != {}
      invariant remaining <= ph.Keys
      invariant Distinct(symbols)
      invariant forall s :: s in symbols <==> s in ph && s !in remaining
      decreases |remaining|
    {
      var s :| s in remaining;
      symbols := symbols + [s];
      remaining := remaining - {s};
    }
  }

  /** One pass of the inner pair loop: row symbols[i] gets every column,
      and each off-diagonal value is mirrored into the other symbol's row. */
  method FillRow(m0: map<string, map<string, real>>, ph: map<string, seq<real>>, symbols: seq<string>,
                 i: nat, sqrt: real -> real)
    returns (matrix: map<string, map<string, real>>)
    requires PositiveRoot(sqrt)
    requires i < |symbols| && Distinct(symbols) && forall s :: s in symbols ==> s in ph
    requires EntriesCorrect(m0, ph, sqrt) && Covers(m0, symbols, i)
    ensures EntriesCorrect(matrix, ph, sqrt) && Covers(matrix, symbols, i + 1)
  {
    matrix := m0;
    var n := |symbols|;
    var s1 := symbols[i];
    if s1 !in matrix {
      matrix := matrix[s1 := map[]];
    }
    var j := 0;
    while j < n
      invariant 0 <= j <= n
      invariant EntriesCorrect(matrix, ph, sqrt)
      invariant Covers(matrix, symbols, i)
      invariant s1 in matrix && forall q :: 0 <= q < j ==> symbols[q] in matrix[s1]
    {
      var s2 := symbols[j];
      if i == j {
        StoreKeepsEntries(matrix, ph, sqrt, s1, s2, 1.0);
        matrix := matrix[s1 := matrix[s1][s2 := 1.0]];
      } else {
        var corr := Correlation(ph, s1, s2, sqrt);
        assert s1 != s2;
        StoreKeepsEntries(matrix, ph, sqrt, s1, s2, corr);
        matrix := matrix[s1 := matrix[s1][s2 := corr]];
        if s2 !in matrix {
          matrix := matrix[s2 := map[]];
        }
        CorrelationSymmetric(ph, s1, s2, sqrt);
        StoreKeepsEntries(matrix, ph, sqrt, s2, s1, corr);
        matrix := matrix[s2 := matrix[s2][s1 := corr]];
      }
      j := j + 1;
    }
  }

  /** The pair loop of CalculateCorrelations over a fresh matrix, one row of
      listed symbols at a time. */
  method BuildMatrix(ph: map<string, seq<real>>, symbols: seq<string>, sqrt: real -> real)
    returns (matrix: map<string, map<string, real>>)
    requires PositiveRoot(sqrt)
    requires Distinct(symbols) && forall s :: s in symbols <==> s in ph
    ensures IsCorrelationMatrix(matrix, ph, sqrt)
  {
    var n := |symbols|;
    matrix := map[];
    var i := 0;
    while i < n
      invariant 0 <= i <= n
      invariant EntriesCorrect(matrix, ph, sqrt)
      invariant Covers(matrix, symbols, i)
    {
      matrix := FillRow(matrix, ph, symbols, i, sqrt);
      i := i + 1;
    }
    CoveredPairs(matrix, ph.Keys, symbols);
  }

  /** Such a matrix has a unit diagonal and is symmetric. */
  lemma CorrelationMatrixShape(m: map<string, map<string, real>>, ph: map<string, seq<real>>, sqrt: real -> real)
    requires PositiveRoot(sqrt) && IsCorrelationMatrix(m, ph, sqrt)
    ensures forall a :: a in m ==> a in m[a] && m[a][a] == 1.0
    ensures forall a, b :: a in m && b in m[a] ==> b in m && a in m[b] && m[a][b] == m[b][a]
  {
    forall a | a in m
      ensures a in m[a] && m[a][a] == 1.0
    {
      assert a in ph;
      assert m[a][a] == MatrixEntry(ph, a, a, sqrt);
    }
    forall a, b | a in m && b in m[a]
      ensures b in m && a in m[b] && m[a][b] == m[b][a]
    {
      assert b in ph;
      assert b in m.Keys;
      assert a in ph;
      assert a in m[b].Keys;
      assert m[a][b] == MatrixEntry(ph, a, b, sqrt);
      assert m[b][a] == MatrixEntry(ph, b, a, sqrt);
      CorrelationSymmetric(ph, a, b, sqrt);
    }
  }

  // ---------------------------------------------------------------------------
  // The analyzer

  class MarketAnalyzer {
    var volatilityTracker: map<string, VolatilityData>
    var trendIndicator: map<string, TrendData>
    var volumeAnalysis: map<string, VolumeProfile>
    var correlationMatrix: map<string, map<string, real>>
    var priceHistory: map<string, seq<real>>

    /** NewMarketAnalyzer: every table empty. */
    constructor()
      ensures volatilityTracker == map[] && trendIndicator == map[] && volumeAnalysis == map[]
      ensures correlationMatrix == map[] && priceHistory == map[]
    {
      volatilityTracker := map[];
      trendIndicator := map[];
      volumeAnalysis := map[];
      correlationMatrix := map[];
      priceHistory := map[];
    }

    /** GetMarketRegime: "unknown" in every dimension unless all three
        trackers hold the symbol. */
    function GetMarketRegime(symbol: string): (r: MarketRegime)
      reads this
      ensures symbol !in volatilityTracker || symbol !in trendIndicator || symbol !in volumeAnalysis ==>
        r == UnknownRegime
      ensures symbol in volatilityTracker && symbol in trendIndicator && symbol in volumeAnalysis ==>
        r == RegimeOf(volatilityTracker[symbol], trendIndicator[symbol], volumeAnalysis[symbol])
    {
      if symbol !in volatilityTracker || symbol !in trendIndicator || symbol !in volumeAnalysis then UnknownRegime
      else RegimeOf(volatilityTracker[symbol], trendIndicator[symbol], volumeAnalysis[symbol])
    }

    /** updatePriceHistory: the symbol's history becomes the last (at most
        100) closes of the data; no other symbol changes. */
    method UpdatePriceHistory(symbol: string, data: MarketData)
      modifies this
      ensures priceHistory == old(priceHistory)[symbol := LastN(Closes(data.klines), MaxHistory)]
      ensures |priceHistory[symbol]| == if |data.klines| < MaxHistory then |data.klines| else MaxHistory
      ensures forall i :: 0 <= i < |priceHistory[symbol]| ==>
        priceHistory[symbol][i] == data.klines[|data.klines| - |priceHistory[symbol]| + i].close
      ensures volatilityTracker == old(volatilityTracker) && trendIndicator == old(trendIndicator)
      ensures volumeAnalysis == old(volumeAnalysis) && correlationMatrix == old(correlationMatrix)
    {
      var k := data.klines;
      var prices: seq<real> := [];
      var i := 0;
      while i < |k|
        invariant 0 <= i <= |k|
        invariant prices == Closes(k)[..i]
      {
        prices := prices + [k[i].close];
        i := i + 1;
      }
      assert prices == Closes(k);
      if |prices| > MaxHistory {
        prices := prices[|prices| - MaxHistory..];
      }
      priceHistory := priceHistory[symbol := prices];
    }

    /** AnalyzeMarketConditions: recomputes the three summaries of the data,
        stores them and the price history under the symbol, and returns the
        regime that GetMarketRegime reports from then on. It never fails. */
    method AnalyzeMarketConditions(symbol: string, data: MarketData) returns (regime: MarketRegime)
      requires |data.klines| < 2 || |data.klines| >= 10
      modifies this
      ensures volatilityTracker == old(volatilityTracker)[symbol := Volatility(data)]
      ensures trendIndicator == old(trendIndicator)[symbol := Trend(data)]
      ensures volumeAnalysis == old(volumeAnalysis)[symbol := Volume(data)]
      ensures priceHistory == old(priceHistory)[symbol := LastN(Closes(data.klines), MaxHistory)]
      ensures correlationMatrix == old(correlationMatrix)
      ensures regime == GetMarketRegime(symbol)
      ensures regime == RegimeOf(Volatility(data), Trend(data), Volume(data))
    {
      var volatility := CalculateVolatility(data);
      var trend := CalculateTrend(data);
      var volume := CalculateVolumeProfile(data);
      UpdatePriceHistory(symbol, data);
      volatilityTracker := volatilityTracker[symbol := volatility];
      trendIndicator := trendIndicator[symbol := trend];
      volumeAnalysis := volumeAnalysis[symbol := volume];
      regime := MarketRegime(VolatilityRegime(volatility), TrendRegime(trend), VolumeRegime(volume));
    }

    /** calculateCorrelation over the stored histories. */
    method CalculateCorrelation(a: string, b: string, sqrt: real -> real) returns (c: real)
      requires PositiveRoot(sqrt)
      ensures c == Correlation(priceHistory, a, b, sqrt)
    {
      if a !in priceHistory || b !in priceHistory {
        return 0.0;
      }
      var prices1 := priceHistory[a];
      var prices2 := priceHistory[b];
      var minLen := |prices1|;
      if |prices2| < minLen {
        minLen := |prices2|;
      }
      if minLen < 2 {
        return 0.0;
      }
      prices1 := prices1[|prices1| - minLen..];
      prices2 := prices2[|prices2| - minLen..];
      c := PearsonCorrelation(prices1, prices2, sqrt);
    }

    /** GetDiversificationScore: a nested loop over the unordered pairs of the
        given symbols, a missing matrix entry counting as 0. */
    method GetDiversificationScore(symbols: seq<string>) returns (score: real)
      ensures score == Diversification(correlationMatrix, symbols)
      ensures score <= 1.0
      ensures |symbols| <= 1 ==> score == 1.0
    {
      var m := correlationMatrix;
      DiversificationBounds(m, symbols);
      var n := |symbols|;
      if n <= 1 {
        return 1.0;
      }
      var total := 0.0;
      var count := 0;
      var i := 0;
      while i < n
        invariant 0 <= i <= n
        invariant total == PairSum(m, symbols, i)
        invariant count == PairCount(n, i)
      {
        var j := i + 1;
        while j < n
          invariant i + 1 <= j <= n
          invariant total == PairSum(m, symbols, i) + RowSum(m, symbols, i, j)
          invariant count == PairCount(n, i) + (j - i - 1)
        {
          var correlation := 0.0;
          if symbols[i] in m {
            if symbols[j] in m[symbols[i]] {
              correlation := m[symbols[i]][symbols[j]];
            }
          }
          total := total + Abs(correlation);
          count := count + 1;
          j := j + 1;
        }
        i := i + 1;
      }
      if count == 0 {
        return 1.0;
      }
      score := 1.0 - total / count as real;
    }

    /** GetHighlyCorrelatedAssets: nothing for a symbol without a matrix row;
        otherwise every other symbol of the row whose |corr| reaches the
        threshold, each once, strongest first. */
    method GetHighlyCorrelatedAssets(symbol: string, threshold: real) returns (assets: seq<string>)
      ensures symbol !in correlationMatrix ==> assets == []
      ensures symbol in correlationMatrix ==>
        && (forall s :: s in assets <==>
              s in correlationMatrix[symbol] && s != symbol && Abs(correlationMatrix[symbol][s]) >= threshold)
        && ByStrength(correlationMatrix[symbol], assets)
      ensures Distinct(assets)
    {
      if symbol !in correlationMatrix {
        return [];
      }
      var row := correlationMatrix[symbol];
      var collected: seq<string> := [];
      var remaining := row.Keys;
      while remaining != {}
        invariant remaining <= row.Keys
        invariant Distinct(collected)
        invariant forall s :: s in collected ==> s !in remaining
        invariant forall s :: s in collected <==>
          s in row && s !in remaining && s != symbol && Abs(row[s]) >= threshold
        decreases |remaining|
      {
        var other :| other in remaining;
        if other != symbol && Abs(row[other]) >= threshold {
          collected := collected + [other];
        }
        remaining := remaining - {other};
      }
      assets := SortByStrength(row, collected);
      DistinctFromMultiset(collected, assets);
    }

    /** CalculateCorrelations: rebuilds the matrix from scratch over the
        symbols that have a price history, in map order: 1 on the diagonal,
        each off-diagonal correlation stored in both orders. */
    method CalculateCorrelations(sqrt: real -> real) returns (m: map<string, map<string, real>>)
      requires PositiveRoot(sqrt)
      modifies this
      ensures m == correlationMatrix
      ensures IsCorrelationMatrix(m, priceHistory, sqrt)
      ensures priceHistory == old(priceHistory) && volatilityTracker == old(volatilityTracker)
      ensures trendIndicator == old(trendIndicator) && volumeAnalysis == old(volumeAnalysis)
    {
      var symbols := SymbolsOf(priceHistory);
      m := BuildMatrix(priceHistory, symbols, sqrt);
      correlationMatrix := m;
    }
  }
}

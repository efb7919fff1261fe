/**
 * Model of the static indicator functions of `TechnicalAnalysis`
 * (src/technical_analysis.js): RSI, EMA, MACD, the volume-peak flag and the
 * trend-strength score, over price and volume series given oldest first.
 * Prices and volumes are exact reals; IEEE rounding is not modelled.
 */
module TechnicalAnalysis {
  import opened Options
  import opened RealArith

  /** Left-to-right sum, as `reduce((a, b) => a + b)` folds an array. */
  function Sum(s: seq<real>): real
  {
    if |s| == 0 then 0.0 else Sum(s[..|s| - 1]) + s[|s| - 1]
  }

  /**
   * `s.slice(-k)` for a positive `k`: the last `k` samples, or all of them
   * when there are fewer (`slice(-0)` would return the whole array).
   */
  function Last(s: seq<real>, k: nat): (t: seq<real>)
    requires k > 0
    ensures |t| == if |s| <= k then |s| else k
    ensures t == s[|s| - |t|..]
  {
    if |s| <= k then s else s[|s| - k..]
  }

  // ---------------------------------------------------------------- RSI

  /** Change from sample `i - 1` to sample `i`. */
  function Delta(prices: seq<real>, i: nat): real
    requires 1 <= i < |prices|
  {
    prices[i] - prices[i - 1]
  }

  /** Accumulated rises among deltas 1..n (the `gains` of the RSI loop). */
  function Gains(prices: seq<real>, n: nat): (g: real)
    requires n < |prices|
    ensures g >= 0.0
  {
    if n == 0 then 0.0
    else Gains(prices, n - 1) + (if Delta(prices, n) >= 0.0 then Delta(prices, n) else 0.0)
  }

  /** Accumulated falls among deltas 1..n, as a non-negative amount (the `losses` of the RSI loop). */
  function Losses(prices: seq<real>, n: nat): (l: real)
    requires n < |prices|
    ensures l >= 0.0
  {
    if n == 0 then 0.0
    else Losses(prices, n - 1) + (if Delta(prices, n) >= 0.0 then 0.0 else -Delta(prices, n))
  }

  /** No price fell among deltas 1..n. */
  predicate NoLossIn(prices: seq<real>, n: nat)
    requires n < |prices|
  {
    forall i :: 1 <= i <= n ==> Delta(prices, i) >= 0.0
  }

  /** The losses of the first `n` deltas vanish exactly when none of them is negative. */
  lemma {:induction false} LossesZeroIff(prices: seq<real>, n: nat)
    requires n < |prices|
    ensures Losses(prices, n) == 0.0 <==> NoLossIn(prices, n)
  {
    if n > 0 {
      LossesZeroIff(prices, n - 1);
    }
  }

  /** For a non-negative relative strength the RSI formula stays in [0, 100). */
  lemma RsiFormulaBounds(rs: real)
    requires rs >= 0.0
    ensures 0.0 <= 100.0 - 100.0 / (1.0 + rs) < 100.0
  {
    var q := 100.0 / (1.0 + rs);
    assert q * (1.0 + rs) == 100.0;
    assert q > 0.0;
    assert q <= 100.0;
  }

  /**
   * Relative Strength Index over the FIRST `period` deltas of the series
   * (samples 0..period), a neutral 50 when there are too few samples, and 100
   * when none of those deltas is a loss.
   */
  function CalculateRSI(prices: seq<real>, period: nat): (r: real)
    requires period > 0
    ensures 0.0 <= r <= 100.0
    ensures |prices| < period + 1 ==> r == 50.0
    ensures |prices| >= period + 1 ==> (r == 100.0 <==> NoLossIn(prices, period))
  {
    if |prices| < period + 1 then 50.0
    else
      var avgGain := Gains(prices, period) / period as real;
      var avgLoss := Losses(prices, period) / period as real;
      LossesZeroIff(prices, period);
      if avgLoss == 0.0 then 100.0
      else
        var rs := avgGain / avgLoss;
        RsiFormulaBounds(rs);
        100.0 - 100.0 / (1.0 + rs)
  }

  /** The gains and losses of the first `n` deltas depend only on samples 0..n. */
  lemma {:induction false} SumsIgnoreLaterSamples(prices: seq<real>, more: seq<real>, n: nat)
    requires n < |prices|
    ensures Gains(prices + more, n) == Gains(prices, n)
    ensures Losses(prices + more, n) == Losses(prices, n)
  {
    if n > 0 {
      SumsIgnoreLaterSamples(prices, more, n - 1);
      assert Delta(prices + more, n) == Delta(prices, n);
    }
  }

  /**
   * Once the series holds `period + 1` samples, appending newer samples never
   * changes the RSI: the indicator looks at the oldest window, not the newest.
   */
  lemma RsiIgnoresAppendedPrices(prices: seq<real>, more: seq<real>, period: nat)
    requires period > 0 && |prices| >= period + 1
    ensures CalculateRSI(prices + more, period) == CalculateRSI(prices, period)
  {
    SumsIgnoreLaterSamples(prices, more, period);
  }

  /** The RSI formula rewritten as a share: `100 - 100 / (1 + (g/p) / (l/p)) == 100 * g / (g + l)`. */
  lemma GainShareForm(g: real, l: real, p: real)
    requires g >= 0.0 && l > 0.0 && p > 0.0
    ensures 100.0 - 100.0 / (1.0 + (g / p) / (l / p)) == 100.0 * g / (g + l)
  {
    var rs := (g / p) / (l / p);
    assert rs * (l / p) == g / p;
    assert rs * l == g;
    var q := 100.0 / (1.0 + rs);
    assert q * (1.0 + rs) == 100.0;
    assert q * (l + g) == 100.0 * l by {
      assert q * (l + rs * l) == 100.0 * l;
    }
    var share := 100.0 * g / (g + l);
    assert share * (g + l) == 100.0 * g;
    assert (100.0 - q) * (g + l) == 100.0 * g;
    assert (100.0 - q - share) * (g + l) == 0.0;
    ZeroFactor(100.0 - q - share, g + l);
  }

  /** With at least one loss the RSI is the share of the total movement that was gains. */
  lemma RsiIsGainShare(prices: seq<real>, period: nat)
    requires period > 0 && |prices| >= period + 1
    requires Losses(prices, period) > 0.0
    ensures var g := Gains(prices, period);
            var l := Losses(prices, period);
            CalculateRSI(prices, period) == 100.0 * g / (g + l)
  {
    GainShareForm(Gains(prices, period), Losses(prices, period), period as real);
  }

  // ---------------------------------------------------------------- EMA

  /** The EMA smoothing factor `2 / (period + 1)`. */
  function Multiplier(period: nat): (m: real)
    requires period > 0
    ensures 0.0 < m <= 1.0
  {
    2.0 / (period as real + 1.0)
  }

  /**
   * Exponential moving average: seeded with the sum of the first `period`
   * samples divided by `period` (all samples when there are fewer, still
   * divided by `period`), then smoothed forward over the remaining samples.
   */
  function CalculateEMA(prices: seq<real>, period: nat): real
    requires |prices| > 0 && period > 0
    decreases |prices|
  {
    if |prices| <= period then Sum(prices) / period as real
    else
      var prev := CalculateEMA(prices[..|prices| - 1], period);
      (prices[|prices| - 1] - prev) * Multiplier(period) + prev
  }

  /** A sum of `|s|` samples in [lo, hi] lies in [|s| * lo, |s| * hi]. */
  lemma {:induction false} SumWithin(s: seq<real>, lo: real, hi: real)
    requires forall i :: 0 <= i < |s| ==> lo <= s[i] <= hi
    ensures |s| as real * lo <= Sum(s) <= |s| as real * hi
  {
    if |s| > 0 {
      SumWithin(s[..|s| - 1], lo, hi);
      assert (|s| - 1) as real * lo + lo == |s| as real * lo;
      assert (|s| - 1) as real * hi + hi == |s| as real * hi;
    }
  }

  /** One smoothing step moves the average towards the new sample and stays in any range holding both. */
  lemma SmoothingStepWithin(prev: real, x: real, m: real, lo: real, hi: real)
    requires lo <= prev <= hi && lo <= x <= hi && 0.0 <= m <= 1.0
    ensures lo <= (x - prev) * m + prev <= hi
  {
    assert (x - prev) * m + prev == m * x + (1.0 - m) * prev;
    ProductNonNegative(m, x - lo);
    ProductNonNegative(1.0 - m, prev - lo);
    ProductNonNegative(m, hi - x);
    ProductNonNegative(1.0 - m, hi - prev);
  }

  /** With at least `period` samples, the EMA lies within any range that holds every sample. */
  lemma {:induction false} EmaWithinRange(prices: seq<real>, period: nat, lo: real, hi: real)
    requires period > 0 && |prices| >= period
    requires forall i :: 0 <= i < |prices| ==> lo <= prices[i] <= hi
    ensures lo <= CalculateEMA(prices, period) <= hi
    decreases |prices|
  {
    if |prices| == period {
      SumWithin(prices, lo, hi);
      var p := period as real;
      assert Sum(prices) / p * p == Sum(prices);
    } else {
      var init := prices[..|prices| - 1];
      EmaWithinRange(init, period, lo, hi);
      SmoothingStepWithin(CalculateEMA(init, period), prices[|prices| - 1], Multiplier(period), lo, hi);
    }
  }

  /** The EMA of a constant series of at least `period` samples is that constant. */
  lemma EmaOfConstant(prices: seq<real>, period: nat, c: real)
    requires period > 0 && |prices| >= period
    requires forall i :: 0 <= i < |prices| ==> prices[i] == c
    ensures CalculateEMA(prices, period) == c
  {
    EmaWithinRange(prices, period, c, c);
  }

  /** Mean of a non-empty sample. */
  function Mean(s: seq<real>): real
    requires |s| > 0
  {
    Sum(s) / |s| as real
  }

  /** With exactly `period` samples the EMA is the plain mean; with fewer, the sum is still divided by `period`. */
  lemma EmaSeed(prices: seq<real>, period: nat)
    requires period > 0 && 0 < |prices| <= period
    ensures |prices| == period ==> CalculateEMA(prices, period) == Mean(prices)
    ensures CalculateEMA(prices, period) * period as real == Sum(prices)
  {
  }

  // ---------------------------------------------------------------- MACD

  datatype Macd = Macd(macd: real, signal: real, histogram: real)

  /** `Array(n).fill(0)`. */
  function Zeros(n: nat): (z: seq<real>)
    ensures |z| == n && forall i :: 0 <= i < n ==> z[i] == 0.0
  {
    seq(n, _ => 0.0)
  }

  /**
   * MACD line `EMA(fast) - EMA(slow)`, with the signal line taken as the
   * `signal`-period EMA of `slow - signal` zeros followed by the MACD line
   * itself; `None` when the series is shorter than `slow + signal`.
   */
  function CalculateMACD(prices: seq<real>, fast: nat, slow: nat, signal: nat): (r: Option<Macd>)
    requires fast > 0 && signal > 0 && slow >= signal
    ensures r.None? <==> |prices| < slow + signal
    ensures r.Some? ==> r.value.macd == CalculateEMA(prices, fast) - CalculateEMA(prices, slow)
    ensures r.Some? ==> r.value.histogram == r.value.macd - r.value.signal
  {
    if |prices| < slow + signal then None
    else
      var line := CalculateEMA(prices, fast) - CalculateEMA(prices, slow);
      var sig := CalculateEMA(Zeros(slow - signal) + [line], signal);
      Some(Macd(line, sig, line - sig))
  }

  lemma {:induction false} SumOfZeros(n: nat)
    ensures Sum(Zeros(n)) == 0.0
  {
    if n > 0 {
      assert Zeros(n)[..n - 1] == Zeros(n - 1);
      SumOfZeros(n - 1);
    }
  }

  /** The EMA of `n` zeros followed by `x`: a single smoothing step when the zeros fill the seed, else `x / p`. */
  lemma EmaOfPaddedValue(n: nat, x: real, p: nat)
    requires p > 0
    ensures CalculateEMA(Zeros(n) + [x], p) == if n >= p then x * Multiplier(p) else x / p as real
  {
    var s := Zeros(n) + [x];
    assert s[..|s| - 1] == Zeros(n);
    if n >= p {
      EmaOfConstant(Zeros(n), p, 0.0);
    } else {
      SumOfZeros(n);
    }
  }

  /**
   * The padded signal line collapses to a closed form:
   * `macd * 2 / (signal + 1)` when `slow - signal >= signal`, else `macd / signal`.
   */
  lemma MacdSignalClosedForm(prices: seq<real>, fast: nat, slow: nat, signal: nat)
    requires fast > 0 && signal > 0 && slow >= signal
    requires |prices| >= slow + signal
    ensures var r := CalculateMACD(prices, fast, slow, signal).value;
            r.signal == (if slow - signal >= signal then r.macd * Multiplier(signal) else r.macd / signal as real)
  {
    var line := CalculateEMA(prices, fast) - CalculateEMA(prices, slow);
    EmaOfPaddedValue(slow - signal, line, signal);
  }

  /** With the default periods 12/26/9 the signal is a fifth of the MACD line and the histogram four fifths. */
  lemma MacdDefaults(prices: seq<real>)
    requires |prices| >= 35
    ensures var r := CalculateMACD(prices, 12, 26, 9).value;
            r.signal == r.macd / 5.0 && r.histogram == r.macd * 4.0 / 5.0
  {
    MacdSignalClosedForm(prices, 12, 26, 9);
  }

  /** A flat series long enough for every average has a zero MACD line, signal and histogram. */
  lemma MacdOfConstant(prices: seq<real>, fast: nat, slow: nat, signal: nat, c: real)
    requires fast > 0 && signal > 0 && slow >= signal
    requires |prices| >= slow + signal && |prices| >= fast
    requires forall i :: 0 <= i < |prices| ==> prices[i] == c
    ensures CalculateMACD(prices, fast, slow, signal) == Some(Macd(0.0, 0.0, 0.0))
  {
    EmaOfConstant(prices, fast, c);
    EmaOfConstant(prices, slow, c);
    EmaOfPaddedValue(slow - signal, 0.0, signal);
  }

  // ---------------------------------------------------------------- volume peak

  /**
   * Whether the latest volume is at least `threshold` times the average of the
   * last ten volumes, where the sum is always divided by 10. A zero average
   * follows IEEE division: a positive volume over zero is +Infinity (a peak),
   * zero over zero is NaN and a negative one -Infinity (no peak).
   */
  function DetectVolumePeak(volumes: seq<real>, threshold: real): (peak: bool)
    requires |volumes| > 0
    ensures (forall i :: 0 <= i < |volumes| ==> volumes[i] >= 0.0) ==>
              var avg := Sum(Last(volumes, 10)) / 10.0;
              (peak <==> avg > 0.0 && volumes[|volumes| - 1] >= threshold * avg)
  {
    var window := Last(volumes, 10);
    var avg := Sum(window) / 10.0;
    var current := volumes[|volumes| - 1];
    assert window[|window| - 1] == current;
    SumOfNonNegative(window);
    if avg == 0.0 then current > 0.0
    else if avg > 0.0 then
      RatioAtLeast(current, avg, threshold);
      current / avg >= threshold
    else current / avg >= threshold
  }

  /** A sum of non-negative samples is non-negative and at least its last sample. */
  lemma {:induction false} SumOfNonNegative(s: seq<real>)
    ensures (forall i :: 0 <= i < |s| ==> s[i] >= 0.0) ==>
              Sum(s) >= 0.0 && (|s| > 0 ==> Sum(s) >= s[|s| - 1])
  {
    if |s| > 0 {
      SumOfNonNegative(s[..|s| - 1]);
      assert forall i :: 0 <= i < |s| - 1 ==> s[..|s| - 1][i] == s[i];
    }
  }

  // ---------------------------------------------------------------- trend strength

  /** `prices.slice(-k)` summed and divided by `k`. */
  function Sma(prices: seq<real>, k: nat): real
    requires k > 0
  {
    Sum(Last(prices, k)) / k as real
  }

  /**
   * Additive score: +0.4 for the latest price above the 20-sample average,
   * +0.3 for it above the 50-sample average, +0.3 for the 20-sample average
   * above the 50-sample one.
   */
  function CalculateTrendStrength(prices: seq<real>): (s: real)
    requires |prices| > 0
    ensures s in {0.0, 0.3, 0.4, 0.6, 0.7, 1.0}
    ensures var current := prices[|prices| - 1];
            s == 1.0 <==> current > Sma(prices, 20) && current > Sma(prices, 50) && Sma(prices, 20) > Sma(prices, 50)
  {
    var sma20 := Sma(prices, 20);
    var sma50 := Sma(prices, 50);
    var current := prices[|prices| - 1];
    (if current > sma20 then 0.4 else 0.0)
    + (if current > sma50 then 0.3 else 0.0)
    + (if sma20 > sma50 then 0.3 else 0.0)
  }

  /**
   * The score passes the entry gate's `> 0.6` exactly when the latest price is
   * above the 20-sample average and at least one of the other two checks holds.
   */
  lemma TrendStrengthAboveGate(prices: seq<real>)
    requires |prices| > 0
    ensures var current := prices[|prices| - 1];
            CalculateTrendStrength(prices) > 0.6 <==>
              current > Sma(prices, 20) && (current > Sma(prices, 50) || Sma(prices, 20) > Sma(prices, 50))
  {
  }
}

/**
 * The moving averages shared by the three indicator services. Each service
 * carries its own private copy of `calculateEMA` (SMI, EMA cloud and MA angles);
 * the copies are identical and are modelled once here, together with the SMI
 * service's `calculateSMA`.
 */
module MovingAverages {

  /**
   * Exponential smoothing with weight `alpha` on the newest value:
   * `r[0] = data[0]`, `r[i] = (data[i] - r[i-1]) * alpha + r[i-1]`.
   */
  function Smooth(data: seq<real>, alpha: real): (r: seq<real>)
    ensures |r| == |data|
    ensures |data| > 0 ==> r[0] == data[0]
    ensures forall i {:trigger r[i], data[i]} :: 1 <= i < |data| ==> r[i] == SmoothStep(r[i - 1], data[i], alpha)
    decreases |data|
  {
    if |data| <= 1 then data
    else
      var prev := Smooth(data[..|data| - 1], alpha);
      prev + [SmoothStep(prev[|prev| - 1], data[|data| - 1], alpha)]
  }

  /** One smoothing step from the previous output `prev` towards the new input `x`. */
  function SmoothStep(prev: real, x: real, alpha: real): real {
    (x - prev) * alpha + prev
  }

  /** The EMA weight `2 / (period + 1)`. */
  function Multiplier(period: int): (m: real)
    requires period >= 1
    ensures 0.0 < m <= 1.0
  {
    2.0 / (period as real + 1.0)
  }

  /** `calculateEMA(data, period)`. */
  function Ema(data: seq<real>, period: int): (r: seq<real>)
    requires period >= 1
    ensures |r| == |data|
    ensures |data| > 0 ==> r[0] == data[0]
    ensures forall i {:trigger r[i], data[i]} :: 1 <= i < |data| ==> r[i] == (data[i] - r[i - 1]) * Multiplier(period) + r[i - 1]
  {
    Smooth(data, Multiplier(period))
  }

  /** The recurrence determines the smoothed series: any sequence obeying it is `Smooth`. */
  lemma {:induction false} SmoothUnique(data: seq<real>, alpha: real, s: seq<real>)
    requires |s| == |data|
    requires |data| > 0 ==> s[0] == data[0]
    requires forall i :: 1 <= i < |data| ==> s[i] == (data[i] - s[i - 1]) * alpha + s[i - 1]
    ensures s == Smooth(data, alpha)
  {
    var r := Smooth(data, alpha);
    forall i | 0 <= i < |s| ensures s[i] == r[i] {
      SmoothUniqueAt(data, alpha, s, i);
    }
  }

  lemma {:induction false} SmoothUniqueAt(data: seq<real>, alpha: real, s: seq<real>, i: int)
    requires |s| == |data|
    requires |data| > 0 ==> s[0] == data[0]
    requires forall i :: 1 <= i < |data| ==> s[i] == (data[i] - s[i - 1]) * alpha + s[i - 1]
    requires 0 <= i < |s|
    ensures s[i] == Smooth(data, alpha)[i]
    decreases i
  {
    if i > 0 {
      SmoothUniqueAt(data, alpha, s, i - 1);
    }
  }

  /** Smoothing a prefix gives the prefix of the smoothed series. */
  lemma SmoothPrefix(data: seq<real>, alpha: real, k: int)
    requires 0 <= k <= |data|
    ensures Smooth(data[..k], alpha) == Smooth(data, alpha)[..k]
  {
    SmoothUnique(data[..k], alpha, Smooth(data, alpha)[..k]);
  }

  /** A step of the smoothing with `0 <= alpha <= 1` stays between its two inputs' bounds. */
  lemma SmoothStepBetween(prev: real, x: real, alpha: real, lo: real, hi: real)
    requires 0.0 <= alpha <= 1.0
    requires lo <= prev <= hi && lo <= x <= hi
    ensures lo <= SmoothStep(prev, x, alpha) <= hi
  {
    var beta := 1.0 - alpha;
    MulMono(beta, lo, prev);
    MulMono(beta, prev, hi);
    MulMono(alpha, lo, x);
    MulMono(alpha, x, hi);
    assert beta * lo <= beta * prev && alpha * lo <= alpha * x;
    AddMono(beta * lo, beta * prev, alpha * lo, alpha * x);
    AddMono(beta * prev, beta * hi, alpha * x, alpha * hi);
    assert (x - prev) * alpha + prev == beta * prev + alpha * x;
  }

  /** With a weight in [0, 1] the smoothed series never leaves the range of its input. */
  lemma {:induction false} SmoothBounded(data: seq<real>, alpha: real, lo: real, hi: real)
    requires 0.0 <= alpha <= 1.0
    requires forall i :: 0 <= i < |data| ==> lo <= data[i] <= hi
    ensures forall i :: 0 <= i < |data| ==> lo <= Smooth(data, alpha)[i] <= hi
  {
    var r := Smooth(data, alpha);
    forall i | 0 <= i < |data| ensures lo <= r[i] <= hi {
      SmoothBoundedAt(data, alpha, lo, hi, i);
    }
  }

  lemma {:induction false} SmoothBoundedAt(data: seq<real>, alpha: real, lo: real, hi: real, i: int)
    requires 0.0 <= alpha <= 1.0
    requires forall i :: 0 <= i < |data| ==> lo <= data[i] <= hi
    requires 0 <= i < |data|
    ensures lo <= Smooth(data, alpha)[i] <= hi
    decreases i
  {
    if i > 0 {
      SmoothBoundedAt(data, alpha, lo, hi, i - 1);
      var r := Smooth(data, alpha);
      SmoothStepBetween(r[i - 1], data[i], alpha, lo, hi);
    }
  }

  /** With a weight in [0, 1] a lower bound of the input bounds the smoothed series too. */
  lemma {:induction false} SmoothAtLeast(data: seq<real>, alpha: real, lo: real, i: int)
    requires 0.0 <= alpha <= 1.0
    requires forall i :: 0 <= i < |data| ==> lo <= data[i]
    requires 0 <= i < |data|
    ensures lo <= Smooth(data, alpha)[i]
    decreases i
  {
    if i > 0 {
      SmoothAtLeast(data, alpha, lo, i - 1);
      var r := Smooth(data, alpha);
      SmoothStepAtLeast(r[i - 1], data[i], alpha, lo);
    }
  }

  lemma SmoothStepAtLeast(prev: real, x: real, alpha: real, lo: real)
    requires 0.0 <= alpha <= 1.0
    requires lo <= prev && lo <= x
    ensures lo <= SmoothStep(prev, x, alpha)
  {
    var beta := 1.0 - alpha;
    MulMono(beta, lo, prev);
    MulMono(alpha, lo, x);
    assert beta * lo <= beta * prev && alpha * lo <= alpha * x;
    AddMono(beta * lo, beta * prev, alpha * lo, alpha * x);
    assert (x - prev) * alpha + prev == beta * prev + alpha * x;
  }

  /** EMA of a series stays within the series' range. */
  lemma EmaBounded(data: seq<real>, period: int, lo: real, hi: real)
    requires period >= 1
    requires forall i :: 0 <= i < |data| ==> lo <= data[i] <= hi
    ensures forall i :: 0 <= i < |data| ==> lo <= Ema(data, period)[i] <= hi
  {
    SmoothBounded(data, Multiplier(period), lo, hi);
  }

  /** A constant input gives a constant EMA equal to that value. */
  lemma EmaConstant(data: seq<real>, period: int, x: real)
    requires period >= 1
    requires forall i :: 0 <= i < |data| ==> data[i] == x
    ensures forall i :: 0 <= i < |data| ==> Ema(data, period)[i] == x
  {
    EmaBounded(data, period, x, x);
  }

  /**
   * Smoothing keeps a two-sided domination: if `-y[i] <= 2 x[i] <= y[i]` for
   * every i, the same holds of the smoothed series.
   */
  lemma {:induction false} SmoothDominated(x: seq<real>, y: seq<real>, alpha: real, i: int)
    requires 0.0 <= alpha <= 1.0
    requires |x| == |y|
    requires forall k :: 0 <= k < |x| ==> -y[k] <= 2.0 * x[k] <= y[k]
    requires 0 <= i < |x|
    ensures -Smooth(y, alpha)[i] <= 2.0 * Smooth(x, alpha)[i] <= Smooth(y, alpha)[i]
    decreases i
  {
    if i > 0 {
      SmoothDominated(x, y, alpha, i - 1);
      var sx := Smooth(x, alpha);
      var sy := Smooth(y, alpha);
      DominatedStep(sx[i - 1], sy[i - 1], x[i], y[i], alpha);
    }
  }

  lemma DominatedStep(px: real, py: real, x: real, y: real, alpha: real)
    requires 0.0 <= alpha <= 1.0
    requires -py <= 2.0 * px <= py
    requires -y <= 2.0 * x <= y
    ensures -SmoothStep(py, y, alpha) <= 2.0 * SmoothStep(px, x, alpha) <= SmoothStep(py, y, alpha)
  {
    var beta := 1.0 - alpha;
    MulMono(beta, 2.0 * px, py);
    MulMono(beta, -py, 2.0 * px);
    MulMono(alpha, 2.0 * x, y);
    MulMono(alpha, -y, 2.0 * x);
    AddMono(beta * (-py), beta * (2.0 * px), alpha * (-y), alpha * (2.0 * x));
    AddMono(beta * (2.0 * px), beta * py, alpha * (2.0 * x), alpha * y);
    assert 2.0 * ((x - px) * alpha + px) == beta * (2.0 * px) + alpha * (2.0 * x);
    assert (y - py) * alpha + py == beta * py + alpha * y;
  }

  /** Proof helper: adding two ordered pairs keeps the order. */
  lemma AddMono(a: real, b: real, c: real, d: real)
    requires a <= b && c <= d
    ensures a + c <= b + d
  {
  }

  /** Proof helper: a non-negative factor keeps the order. */
  lemma MulMono(c: real, a: real, b: real)
    requires 0.0 <= c && a <= b
    ensures c * a <= c * b
  {
  }

  /** The sum of a series. */
  function Sum(s: seq<real>): real
    decreases |s|
  {
    if |s| == 0 then 0.0 else Sum(s[..|s| - 1]) + s[|s| - 1]
  }

  /** A sum of n terms in [lo, hi] lies in [n lo, n hi]. */
  lemma {:induction false} SumBounded(s: seq<real>, lo: real, hi: real)
    requires forall i :: 0 <= i < |s| ==> lo <= s[i] <= hi
    ensures |s| as real * lo <= Sum(s) <= |s| as real * hi
    decreases |s|
  {
    if |s| > 0 {
      var init := s[..|s| - 1];
      SumBounded(init, lo, hi);
      var n := |init| as real;
      assert |s| as real * lo == n * lo + lo;
      assert |s| as real * hi == n * hi + hi;
    }
  }

  /** The mean of the `period` values ending at index `i`. */
  function TrailingMean(data: seq<real>, i: int, period: int): real
    requires period >= 1 && period - 1 <= i < |data|
  {
    Sum(data[i - period + 1..i + 1]) / period as real
  }

  /**
   * `calculateSMA(data, period)`: indices before `period - 1` copy the input,
   * later ones hold the mean of the last `period` inputs.
   */
  function Sma(data: seq<real>, period: int): (r: seq<real>)
    requires period >= 1
    ensures |r| == |data|
    ensures forall i :: 0 <= i < |data| && i < period - 1 ==> r[i] == data[i]
    ensures forall i :: period - 1 <= i < |data| ==> r[i] == TrailingMean(data, i, period)
  {
    seq(|data|, i requires 0 <= i < |data| =>
      if i < period - 1 then data[i] else TrailingMean(data, i, period))
  }

  /** The simple moving average never leaves the range of its input. */
  lemma SmaBounded(data: seq<real>, period: int, lo: real, hi: real)
    requires period >= 1
    requires forall i :: 0 <= i < |data| ==> lo <= data[i] <= hi
    ensures forall i :: 0 <= i < |data| ==> lo <= Sma(data, period)[i] <= hi
  {
    var r := Sma(data, period);
    forall i | period - 1 <= i < |data| ensures lo <= r[i] <= hi {
      var w := data[i - period + 1..i + 1];
      SumBounded(w, lo, hi);
      var p := period as real;
      assert |w| as real == p;
      assert p * lo <= Sum(w) <= p * hi;
      DivBetween(Sum(w), p, lo, hi);
    }
  }

  /** Proof helper: a sum between `p * lo` and `p * hi` divides to a value between `lo` and `hi`. */
  lemma DivBetween(s: real, p: real, lo: real, hi: real)
    requires p > 0.0 && p * lo <= s <= p * hi
    ensures lo <= s / p <= hi
  {
  }

  /** A constant input gives a constant simple moving average. */
  lemma SmaConstant(data: seq<real>, period: int, x: real)
    requires period >= 1
    requires forall i :: 0 <= i < |data| ==> data[i] == x
    ensures forall i :: 0 <= i < |data| ==> Sma(data, period)[i] == x
  {
    SmaBounded(data, period, x, x);
  }
}

/** The price frame the scoring engine reads: one row per 5-minute bar, and
    the 20-bar rolling mean taken of its volume and close columns. */
module Bars {

  /** One row of the frame: the OHLCV columns the engine reads and the
      indicator columns (RSI_14, MACD_12_26_9, MACDs_12_26_9) joined onto it.
      The indicators come from a library that is not part of this model, so
      they are plain inputs here. */
  datatype Bar = Bar(open: real, close: real, volume: real, rsi: real, macd: real, macdSignal: real)

  type Frame = seq<Bar>

  /** Length of the rolling window used for the volume mean and the SMA. */
  const Window: nat := 20

  function Last(df: Frame): Bar
    requires |df| > 0
  {
    df[|df| - 1]
  }

  function Volumes(df: Frame): seq<real>
  {
    seq(|df|, i requires 0 <= i < |df| => df[i].volume)
  }

  function Closes(df: Frame): seq<real>
  {
    seq(|df|, i requires 0 <= i < |df| => df[i].close)
  }

  /** Sum of a column, taken from the last entry backwards. */
  function Sum(xs: seq<real>): real
  {
    if xs == [] then 0.0 else Sum(xs[..|xs| - 1]) + xs[|xs| - 1]
  }

  /** `rolling(20).mean().iloc[-1]`: the mean of the last 20 entries, which
      is non-negative when they are (as volumes and prices are). */
  function RollingMean(xs: seq<real>): (m: real)
    requires |xs| >= Window
    ensures m * Window as real == Sum(xs[|xs| - Window..])
    ensures (forall i :: |xs| - Window <= i < |xs| ==> xs[i] >= 0.0) ==> m >= 0.0
  {
    var w := xs[|xs| - Window..];
    SumNonNegative(w);
    Sum(w) / Window as real
  }

  /** A column of non-negative entries has a non-negative sum. */
  lemma {:induction false} SumNonNegative(xs: seq<real>)
    ensures (forall i :: 0 <= i < |xs| ==> xs[i] >= 0.0) ==> Sum(xs) >= 0.0
  {
    if xs != [] {
      SumNonNegative(xs[..|xs| - 1]);
    }
  }

  /** A sum of n entries that all lie in [lo, hi] lies in [n*lo, n*hi]. */
  lemma {:induction false} SumBetween(xs: seq<real>, lo: real, hi: real)
    requires forall i :: 0 <= i < |xs| ==> lo <= xs[i] <= hi
    ensures |xs| as real * lo <= Sum(xs) <= |xs| as real * hi
  {
    if xs != [] {
      var n := |xs|;
      SumBetween(xs[..n - 1], lo, hi);
      assert (n as real) * lo == ((n - 1) as real) * lo + lo;
      assert (n as real) * hi == ((n - 1) as real) * hi + hi;
    }
  }

  /** The rolling mean never leaves the range of the values in its window. */
  lemma RollingMeanBetween(xs: seq<real>, lo: real, hi: real)
    requires |xs| >= Window
    requires forall i :: |xs| - Window <= i < |xs| ==> lo <= xs[i] <= hi
    ensures lo <= RollingMean(xs) <= hi
  {
    var w := xs[|xs| - Window..];
    forall i | 0 <= i < |w|
      ensures lo <= w[i] <= hi
    {
      assert w[i] == xs[|xs| - Window + i];
    }
    SumBetween(w, lo, hi);
  }

  /** Only the last 20 entries matter: older history never moves the mean. */
  lemma RollingMeanOfTail(older: seq<real>, xs: seq<real>)
    requires |xs| >= Window
    ensures RollingMean(older + xs) == RollingMean(xs)
  {
    var ys := older + xs;
    assert ys[|ys| - Window..] == xs[|xs| - Window..];
  }

  /** The window holds the current entry: its sum is the 19 earlier entries
      plus the last one. */
  lemma RollingMeanSplit(xs: seq<real>)
    requires |xs| >= Window
    ensures RollingMean(xs) * Window as real == Sum(xs[|xs| - Window..|xs| - 1]) + xs[|xs| - 1]
  {
    var w := xs[|xs| - Window..];
    assert w[..|w| - 1] == xs[|xs| - Window..|xs| - 1];
  }
}

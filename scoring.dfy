/** The quant scoring engine: a fixed decision table over the last bar of a
    frame, giving a score, the reasons that explain it and a reference price. */
module Scoring {
  import opened Bars

  /** Fewer bars than this and the frame is not scored. */
  const MinBars: nat := 30
  /** Closes below this price are not scored. */
  const MinPrice: real := 5.0
  /** Intraday gain, as a fraction of the open, above which the bonus is paid. */
  const GainBonusRatio: real := 0.05
  /** Volume above this multiple of its rolling mean is a burst. */
  const VolumeFactor: real := 1.5
  const RsiLow: real := 35.0
  const RsiHigh: real := 75.0
  const DisparityLow: real := 98.0
  const DisparityHigh: real := 110.0

  /** The explanations attached to a score, in the order the rules run. */
  datatype Reason = GainOver5Pct | VolumeBurst | TrendUp

  function Rank(r: Reason): nat
  {
    match r
    case GainOver5Pct => 0
    case VolumeBurst => 1
    case TrendUp => 2
  }

  /** Reasons listed in rule order, none twice: each ranks below the next. */
  predicate InRuleOrder(rs: seq<Reason>)
  {
    |rs| <= 1 || (Rank(rs[0]) < Rank(rs[1]) && InRuleOrder(rs[1..]))
  }

  /** The triple the engine returns: score, reasons, reference price. */
  datatype Analysis = Analysis(score: int, reasons: seq<Reason>, price: real)

  /** What a frame that is too short or too cheap gets. */
  const NoSignal := Analysis(0, [], 0.0)

  predicate Eligible(df: Frame)
  {
    |df| >= MinBars && Last(df).close >= MinPrice
  }

  predicate Rising(b: Bar)
  {
    b.close > b.open
  }

  /** `(close - open) / open > 0.05` as floating point evaluates it: for a
      zero open the quotient is +infinity, for a negative one it is negative. */
  predicate GainAbove(close: real, open: real)
    requires close > open
  {
    if open > 0.0 then (close - open) / open > GainBonusRatio else open == 0.0
  }

  predicate LargeGain(b: Bar)
  {
    Rising(b) && GainAbove(b.close, b.open)
  }

  predicate VolumeSurge(df: Frame)
    requires |df| >= Window
  {
    Last(df).volume > RollingMean(Volumes(df)) * VolumeFactor
  }

  predicate RsiInBand(b: Bar)
  {
    RsiLow <= b.rsi <= RsiHigh
  }

  predicate MacdAbove(b: Bar)
  {
    b.macd > b.macdSignal
  }

  /** The disparity index: the close as a percentage of its moving average. */
  function Disparity(close: real, sma: real): real
    requires sma != 0.0
  {
    close / sma * 100.0
  }

  /** On an eligible frame the close is at least 5, so a zero SMA makes the
      disparity +infinity in floating point, which lies outside the band. */
  predicate NearMean(df: Frame)
    requires |df| >= Window
  {
    var sma := RollingMean(Closes(df));
    sma != 0.0 && DisparityLow <= Disparity(Last(df).close, sma) <= DisparityHigh
  }

  function Award(fired: bool, points: int): int
  {
    if fired then points else 0
  }

  function Cite(fired: bool, r: Reason): seq<Reason>
  {
    if fired then [r] else []
  }

  /** The decision table: the score is the sum of the increments whose rules
      fire, and the reasons are those of the explained rules that fire. */
  function Analyze(df: Frame): (a: Analysis)
    ensures |df| < MinBars ==> a == NoSignal
    ensures |df| >= MinBars && Last(df).close < MinPrice ==> a == NoSignal
    ensures Eligible(df) ==> a.price == Last(df).close >= MinPrice
    ensures 0 <= a.score <= 100 && a.score % 10 == 0
    ensures GainOver5Pct in a.reasons <==> Eligible(df) && LargeGain(Last(df))
    ensures VolumeBurst in a.reasons <==> Eligible(df) && VolumeSurge(df)
    ensures TrendUp in a.reasons <==> Eligible(df) && MacdAbove(Last(df))
    ensures InRuleOrder(a.reasons) && |a.reasons| <= 3
    ensures Eligible(df) && Rising(Last(df)) ==> a.score >= 20
    ensures Eligible(df) && !RsiInBand(Last(df)) ==> a.score <= 80
    ensures Eligible(df) && !NearMean(df) ==> a.score <= 90
  {
    if !Eligible(df) then NoSignal
    else
      var b := Last(df);
      var score := Award(Rising(b), 20) + Award(LargeGain(b), 10)
        + Award(VolumeSurge(df), 20) + Award(RsiInBand(b), 20)
        + Award(MacdAbove(b), 20) + Award(NearMean(df), 10);
      var reasons := Cite(LargeGain(b), GainOver5Pct) + Cite(VolumeSurge(df), VolumeBurst)
        + Cite(MacdAbove(b), TrendUp);
      Analysis(score, reasons, b.close)
  }

  /** analyze_market, step by step: the score and the reasons are built up
      rule by rule, as the source does with its locals. */
  method AnalyzeMarket(df: Frame) returns (score: int, reasons: seq<Reason>, price: real)
    ensures Analysis(score, reasons, price) == Analyze(df)
  {
    if |df| < MinBars {
      return 0, [], 0.0;
    }
    var latest := df[|df| - 1];
    score := 0;
    reasons := [];
    if latest.close < MinPrice {
      return 0, [], 0.0;
    }

    // momentum, and the bonus for a large intraday gain
    if latest.close > latest.open {
      score := score + 20;
      var openPrice := latest.open;
      if GainAbove(latest.close, openPrice) {
        score := score + 10;
        reasons := reasons + [GainOver5Pct];
      }
    }
    assert score == Award(Rising(latest), 20) + Award(LargeGain(latest), 10);
    assert reasons == Cite(LargeGain(latest), GainOver5Pct);

    // volume burst
    var volMa := RollingMean(Volumes(df));
    if latest.volume > volMa * VolumeFactor {
      score := score + 20;
      reasons := reasons + [VolumeBurst];
    }
    assert Last(df) == latest;
    assert reasons == Cite(LargeGain(latest), GainOver5Pct) + Cite(VolumeSurge(df), VolumeBurst);

    // RSI band
    if RsiLow <= latest.rsi <= RsiHigh {
      score := score + 20;
    }

    // MACD above its signal line
    if latest.macd > latest.macdSignal {
      score := score + 20;
      reasons := reasons + [TrendUp];
    }

    // disparity from the 20-bar SMA
    var sma := RollingMean(Closes(df));
    if sma != 0.0 {
      var disparity := Disparity(latest.close, sma);
      if DisparityLow <= disparity <= DisparityHigh {
        score := score + 10;
      }
    }
    assert score == Award(Rising(latest), 20) + Award(LargeGain(latest), 10)
      + Award(VolumeSurge(df), 20) + Award(RsiInBand(latest), 20)
      + Award(MacdAbove(latest), 20) + Award(NearMean(df), 10);

    price := latest.close;
  }

  /** For a positive open the bonus is exactly "close more than 5% above the
      open". */
  lemma LargeGainMeans(b: Bar)
    requires b.open > 0.0
    ensures LargeGain(b) <==> b.close > b.open * (1.0 + GainBonusRatio)
  {
  }

  /** For a positive SMA the disparity band is exactly "close between 98%
      and 110% of the SMA", both ends included. */
  lemma NearMeanMeans(df: Frame)
    requires |df| >= MinBars
    requires RollingMean(Closes(df)) > 0.0
    ensures NearMean(df) <==>
      var sma := RollingMean(Closes(df));
      DisparityLow * sma <= 100.0 * Last(df).close <= DisparityHigh * sma
  {
    var sma := RollingMean(Closes(df));
    var c := Last(df).close;
    var d := Disparity(c, sma);
    assert d * sma == 100.0 * c;
    BandByProduct(d, sma, c, DisparityLow, DisparityHigh);
  }

  /** With d * sma == 100 * c and a positive sma, "lo <= d <= hi" is
      "lo * sma <= 100 * c <= hi * sma": multiplying by a positive number
      keeps both inequalities. */
  lemma BandByProduct(d: real, sma: real, c: real, lo: real, hi: real)
    requires sma > 0.0 && d * sma == 100.0 * c
    ensures lo <= d <= hi <==> lo * sma <= 100.0 * c <= hi * sma
  {
    assert (d - lo) * sma == d * sma - lo * sma;
    assert (d - hi) * sma == d * sma - hi * sma;
    if lo <= d {
      assert (d - lo) * sma >= 0.0;
      assert lo * sma <= 100.0 * c;
    } else {
      assert (lo - d) * sma > 0.0;
      assert lo * sma > 100.0 * c;
    }
    if d <= hi {
      assert (hi - d) * sma >= 0.0;
      assert 100.0 * c <= hi * sma;
    } else {
      assert (d - hi) * sma > 0.0;
      assert 100.0 * c > hi * sma;
    }
  }

  /** Because the mean includes the current bar, "volume above 1.5 times the
      20-bar mean" is "volume above 3/37 of the sum of the 19 bars before it",
      that is above 57/37 (about 1.54) times their mean. */
  lemma VolumeSurgeAgainstPriorBars(df: Frame)
    requires |df| >= MinBars
    ensures var vs := Volumes(df);
      VolumeSurge(df) <==> 37.0 * Last(df).volume > 3.0 * Sum(vs[|vs| - Window..|vs| - 1])
  {
    var vs := Volumes(df);
    RollingMeanSplit(vs);
    assert vs[|vs| - 1] == Last(df).volume;
  }

  /** The engine reads nothing but the frame's length and its last 20 rows:
      two eligible-length frames that end alike score alike. */
  lemma AnalyzeReadsLastWindow(df1: Frame, df2: Frame)
    requires |df1| >= MinBars && |df2| >= MinBars
    requires df1[|df1| - Window..] == df2[|df2| - Window..]
    ensures Analyze(df1) == Analyze(df2)
  {
    assert Last(df1) == df1[|df1| - Window..][Window - 1];
    assert Last(df2) == df2[|df2| - Window..][Window - 1];
    var w1, w2 := df1[|df1| - Window..], df2[|df2| - Window..];
    var v1, v2 := Volumes(df1), Volumes(df2);
    var vw1, vw2 := v1[|v1| - Window..], v2[|v2| - Window..];
    forall i | 0 <= i < Window
      ensures vw1[i] == vw2[i]
    {
      assert vw1[i] == w1[i].volume && vw2[i] == w2[i].volume;
    }
    assert vw1 == vw2;
    var c1, c2 := Closes(df1), Closes(df2);
    var cw1, cw2 := c1[|c1| - Window..], c2[|c2| - Window..];
    forall i | 0 <= i < Window
      ensures cw1[i] == cw2[i]
    {
      assert cw1[i] == w1[i].close && cw2[i] == w2[i].close;
    }
    assert cw1 == cw2;
  }

  /** Every entry equal: the sum is the count times the entry. */
  lemma {:induction false} SumOfEqual(xs: seq<real>, c: real)
    requires forall i :: 0 <= i < |xs| ==> xs[i] == c
    ensures Sum(xs) == |xs| as real * c
  {
    SumBetween(xs, c, c);
  }

  /** A worked example: 29 quiet bars at 10 with volume 100, then a bar that
      opens at 9, closes at 10 on volume 200 with RSI 50 and MACD above its
      signal. Every rule fires, the disparity rule included, so the score is
      100 and all three reasons are given. */
  lemma ExampleAllSignals()
    ensures var quiet := Bar(10.0, 10.0, 100.0, 50.0, 1.0, 0.0);
      var df := seq(29, _ => quiet) + [Bar(9.0, 10.0, 200.0, 50.0, 1.0, 0.0)];
      Analyze(df) == Analysis(100, [GainOver5Pct, VolumeBurst, TrendUp], 10.0)
  {
    var quiet := Bar(10.0, 10.0, 100.0, 50.0, 1.0, 0.0);
    var df := seq(29, _ => quiet) + [Bar(9.0, 10.0, 200.0, 50.0, 1.0, 0.0)];
    var vs := Volumes(df);
    var w := vs[|vs| - Window..];
    SumOfEqual(w[..Window - 1], 100.0);
    assert Sum(w) == 2100.0;
    assert RollingMean(vs) == 105.0;
    var cs := Closes(df);
    SumOfEqual(cs[|cs| - Window..], 10.0);
    assert RollingMean(cs) == 10.0;
    assert LargeGain(Last(df));
  }
}

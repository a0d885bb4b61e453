/** The scan the entry point runs: every watchlist symbol that has a frame
    is scored, and each one scoring at least 70 gives an alert carrying its
    score, reasons, price and the stop-loss and target levels derived from it. */
module Scan {
  import opened Bars
  import opened Scoring
  import opened Watchlist

  const AlertThreshold: int := 70
  /** Stop-loss 3.5% below the price, target 5% above it. */
  const StopFactor: real := 0.965
  const TargetFactor: real := 1.05

  predicate AlertWorthy(score: int)
  {
    score >= AlertThreshold
  }

  datatype Levels = Levels(stop: real, target: real)

  /** The risk levels quoted in an alert: the stop sits 3.5% of the price
      below it and the target 5% above it. */
  function RiskLevels(price: real): (l: Levels)
    ensures price - l.stop == 0.035 * price
    ensures l.target - price == 0.05 * price
    ensures price > 0.0 ==> 0.0 < l.stop < price < l.target
  {
    Levels(price * StopFactor, price * TargetFactor)
  }

  /** One alert message's content. */
  datatype Alert = Alert(ticker: Symbol, score: int, reasons: seq<Reason>, price: real, stop: real, target: real)

  /** What a ticker's alert must say: the engine's verdict on its frame, a
      score at the threshold or above, an eligible price, the risk levels of
      that price, and at least one of the volume and trend reasons. */
  predicate Reports(al: Alert, frames: map<Symbol, Frame>)
  {
    && al.ticker in frames
    && var a := Analyze(frames[al.ticker]);
    && al.score == a.score && al.reasons == a.reasons && al.price == a.price
    && AlertWorthy(al.score)
    && al.price >= MinPrice
    && Levels(al.stop, al.target) == RiskLevels(al.price)
    && 0.0 < al.stop < al.price < al.target
    && (VolumeBurst in al.reasons || TrendUp in al.reasons)
  }

  /** No ticker is alerted twice. */
  predicate DistinctTickers(r: seq<Alert>)
  {
    forall i, j :: 0 <= i < j < |r| ==> r[i].ticker != r[j].ticker
  }

  /** The engine's verdict on every downloaded ticker whose frame has at
      least 30 bars; the entry point skips the shorter ones. */
  function Verdicts(frames: map<Symbol, Frame>): (v: map<Symbol, Analysis>)
    ensures forall t :: t in v <==> t in frames && |frames[t]| >= MinBars
    ensures forall t :: t in v ==> v[t] == Analyze(frames[t])
    ensures forall t :: t in v && v[t].score > 0 ==> v[t].price == Last(frames[t]).close >= MinPrice
  {
    map t | t in frames && |frames[t]| >= MinBars :: Analyze(frames[t])
  }

  /** One ticker's contribution: nothing when it has no verdict (its
      download failed or its frame is too short) or scores below the
      threshold. */
  function AlertFor(ticker: Symbol, verdicts: map<Symbol, Analysis>): (r: seq<Alert>)
    ensures |r| <= 1
    ensures r != [] <==> ticker in verdicts && AlertWorthy(verdicts[ticker].score)
    ensures r != [] ==> r[0].ticker == ticker
  {
    if ticker in verdicts && AlertWorthy(verdicts[ticker].score) then
      var a := verdicts[ticker];
      var l := RiskLevels(a.price);
      [Alert(ticker, a.score, a.reasons, a.price, l.stop, l.target)]
    else []
  }

  /** The alerts of a whole scan, in watchlist order. */
  function Alerts(targets: seq<Symbol>, verdicts: map<Symbol, Analysis>): (r: seq<Alert>)
    ensures |r| <= |targets|
  {
    if targets == [] then []
    else Alerts(targets[..|targets| - 1], verdicts) + AlertFor(targets[|targets| - 1], verdicts)
  }

  /** The loop of the entry point: each target's frame, when present and at
      least 30 bars long, is scored, and an alert is collected when the score
      reaches the threshold. */
  method ScanWatchlist(targets: seq<Symbol>, frames: map<Symbol, Frame>) returns (alerts: seq<Alert>)
    ensures alerts == Alerts(targets, Verdicts(frames))
  {
    ghost var verdicts := Verdicts(frames);
    alerts := [];
    for i := 0 to |targets|
      invariant alerts == Alerts(targets[..i], verdicts)
    {
      var ticker := targets[i];
      assert targets[..i + 1][..i] == targets[..i];
      if ticker in frames {
        var df := frames[ticker];
        if |df| >= MinBars {
          assert verdicts[ticker] == Analyze(df);
          var score, reasons, price := AnalyzeMarket(df);
          var levels := RiskLevels(price);
          if AlertWorthy(score) {
            alerts := alerts + [Alert(ticker, score, reasons, price, levels.stop, levels.target)];
          }
        }
      }
    }
    assert targets[..|targets|] == targets;
  }

  /** One whole run: build the watchlist, and scan it when the download
      returned anything. */
  method Run(screen: Option<Screen>, download: map<Symbol, Frame>) returns (alerts: seq<Alert>)
    ensures alerts == Alerts(HotSymbols(screen), Verdicts(download))
    ensures DistinctTickers(alerts)
  {
    var targets := HotSymbols(screen);
    if |download| == 0 {
      NoFramesNoAlerts(targets, download);
      alerts := [];
    } else {
      alerts := ScanWatchlist(targets, download);
    }
    AlertsOncePerTicker(targets, Verdicts(download));
  }

  /** Every alert is about a watchlist symbol. */
  lemma {:induction false} AlertsFromTargets(targets: seq<Symbol>, verdicts: map<Symbol, Analysis>)
    ensures forall al :: al in Alerts(targets, verdicts) ==> al.ticker in targets
  {
    if targets != [] {
      var n := |targets|;
      var prefix := targets[..n - 1];
      AlertsFromTargets(prefix, verdicts);
      assert Alerts(targets, verdicts) == Alerts(prefix, verdicts) + AlertFor(targets[n - 1], verdicts);
    }
  }

  /** An alert built from a frame's verdict says what Reports demands. */
  lemma AlertForSound(t: Symbol, frames: map<Symbol, Frame>)
    ensures forall al :: al in AlertFor(t, Verdicts(frames)) ==> Reports(al, frames)
  {
  }

  /** Every alert of a scan says what Reports demands of it. */
  lemma {:induction false} AlertsSound(targets: seq<Symbol>, frames: map<Symbol, Frame>)
    ensures forall al :: al in Alerts(targets, Verdicts(frames)) ==> Reports(al, frames)
  {
    if targets != [] {
      var n := |targets|;
      var prefix := targets[..n - 1];
      AlertsSound(prefix, frames);
      AlertForSound(targets[n - 1], frames);
      assert Alerts(targets, Verdicts(frames))
        == Alerts(prefix, Verdicts(frames)) + AlertFor(targets[n - 1], Verdicts(frames));
    }
  }

  /** A ticker with an alert-worthy verdict is always alerted. */
  lemma {:induction false} VerdictAlerted(targets: seq<Symbol>, verdicts: map<Symbol, Analysis>, t: Symbol)
    requires t in targets && t in verdicts && AlertWorthy(verdicts[t].score)
    ensures exists al :: al in Alerts(targets, verdicts) && al.ticker == t
  {
    var n := |targets|;
    var prefix := targets[..n - 1];
    var last := AlertFor(targets[n - 1], verdicts);
    assert Alerts(targets, verdicts) == Alerts(prefix, verdicts) + last;
    if targets[n - 1] == t {
      assert last[0] in Alerts(targets, verdicts);
    } else {
      assert targets == prefix + [targets[n - 1]];
      VerdictAlerted(prefix, verdicts, t);
      var al :| al in Alerts(prefix, verdicts) && al.ticker == t;
      assert al in Alerts(targets, verdicts);
    }
  }

  /** A watchlist symbol whose frame scores at least 70 is always alerted. */
  lemma AlertsComplete(targets: seq<Symbol>, frames: map<Symbol, Frame>, t: Symbol)
    requires t in targets && t in frames && AlertWorthy(Analyze(frames[t]).score)
    ensures exists al :: al in Alerts(targets, Verdicts(frames)) && al.ticker == t
  {
    assert |frames[t]| >= MinBars;
    VerdictAlerted(targets, Verdicts(frames), t);
  }

  /** Scanning two lists one after the other gives the alerts of each, in turn. */
  lemma {:induction false} AlertsConcat(a: seq<Symbol>, b: seq<Symbol>, verdicts: map<Symbol, Analysis>)
    ensures Alerts(a + b, verdicts) == Alerts(a, verdicts) + Alerts(b, verdicts)
  {
    if b != [] {
      var n := |b|;
      assert (a + b)[..|a + b| - 1] == a + b[..n - 1];
      AlertsConcat(a, b[..n - 1], verdicts);
    } else {
      assert a + b == a;
    }
  }

  /** The watchlist with every occurrence of x taken out. */
  function Without(targets: seq<Symbol>, x: Symbol): (r: seq<Symbol>)
    ensures forall s :: s in r <==> s in targets && s != x
  {
    if targets == [] then []
    else
      var t := targets[|targets| - 1];
      Without(targets[..|targets| - 1], x) + (if t == x then [] else [t])
  }

  lemma {:induction false} VerdictMissingDropsOnlyItsTicker(targets: seq<Symbol>, verdicts: map<Symbol, Analysis>, x: Symbol)
    ensures Alerts(targets, verdicts - {x}) == Alerts(Without(targets, x), verdicts)
  {
    if targets != [] {
      var n := |targets|;
      var t := targets[n - 1];
      var prefix := targets[..n - 1];
      var w := Without(prefix, x);
      VerdictMissingDropsOnlyItsTicker(prefix, verdicts, x);
      assert Alerts(targets, verdicts - {x}) == Alerts(prefix, verdicts - {x}) + AlertFor(t, verdicts - {x});
      if t == x {
        assert AlertFor(t, verdicts - {x}) == [];
        assert Without(targets, x) == w;
      } else {
        assert AlertFor(t, verdicts - {x}) == AlertFor(t, verdicts);
        assert Without(targets, x) == w + [t];
        assert (w + [t])[..|w|] == w;
      }
    }
  }

  /** Per-symbol isolation: a failed download for x only removes x's own
      alert; every other symbol is alerted exactly as before, in order. */
  lemma FailedFetchDropsOnlyItsTicker(targets: seq<Symbol>, frames: map<Symbol, Frame>, x: Symbol)
    ensures Alerts(targets, Verdicts(frames - {x})) == Alerts(Without(targets, x), Verdicts(frames))
  {
    assert Verdicts(frames - {x}) == Verdicts(frames) - {x};
    VerdictMissingDropsOnlyItsTicker(targets, Verdicts(frames), x);
  }

  /** No frames downloaded, no alerts. */
  lemma {:induction false} NoFramesNoAlerts(targets: seq<Symbol>, frames: map<Symbol, Frame>)
    requires |frames| == 0
    ensures Alerts(targets, Verdicts(frames)) == []
  {
    if targets != [] {
      NoFramesNoAlerts(targets[..|targets| - 1], frames);
      assert Verdicts(frames) == map[];
    }
  }

  /** A watchlist without duplicates alerts each ticker at most once. */
  lemma {:induction false} AlertsOncePerTicker(targets: seq<Symbol>, verdicts: map<Symbol, Analysis>)
    requires NoDuplicates(targets)
    ensures DistinctTickers(Alerts(targets, verdicts))
  {
    if targets != [] {
      var n := |targets|;
      var prefix := targets[..n - 1];
      var t := targets[n - 1];
      AlertsOncePerTicker(prefix, verdicts);
      AlertsFromTargets(prefix, verdicts);
      var p := Alerts(prefix, verdicts);
      assert t !in prefix;
      var r := Alerts(targets, verdicts);
      assert r == p + AlertFor(t, verdicts);
      forall i, j | 0 <= i < j < |r|
        ensures r[i].ticker != r[j].ticker
      {
        if j >= |p| {
          assert r[j].ticker == t;
          assert r[i] == p[i] && p[i] in p;
        } else {
          assert r[i] == p[i] && r[j] == p[j];
        }
      }
    }
  }
}

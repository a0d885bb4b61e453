# sniper-bot scoring engine, in Dafny

This project models the core of a scheduled stock-scanning script
(`main.py`). The script builds a watchlist from a market screener and a
list of favourite tickers. It downloads 5-minute bars for every ticker,
scores each frame with a fixed decision table (`analyze_market`), and
sends an alert for every ticker that scores 70 or more. Each alert quotes
the price, a stop-loss 3.5% below it and a target 5% above it.

Modules, one per part of the script:

- `Bars` (bars.dfy): one frame row (`Bar`), the column sum and the 20-bar
  rolling mean used for both the volume mean and the SMA.
- `Scoring` (scoring.dfy): the decision table as a specification function
  `Analyze`, and `AnalyzeMarket`, a method that builds the score and the
  reasons step by step as the source does and is proved equal to it.
- `Watchlist` (watchlist.dfy): `get_hot_symbols`, the screener lists
  merged with the favourites without duplicates, or the fixed fallback.
- `Scan` (scan.dfy): the entry point's loop over the watchlist, the
  stop/target derivation and the `score >= 70` alert test.

Prices, volumes and indicator values are exact `real`s. Where the source's
floating point gives a defined answer outside the normal range, the model
follows it. A zero open makes the gain ratio +infinity, so the 5% bonus is
paid. On an eligible frame the close is at least 5, so a zero SMA makes
the disparity +infinity, and the band test fails.

A frame on which every rule fires scores 100: besides the 90 from the
momentum, bonus, volume, RSI and MACD rules, the disparity +10 is paid too
(`Scoring.ExampleAllSignals`).

## Model

| member | source | states |
|---|---|---|
| `Bars.RollingMean` | main.py:78 | `rolling(20).mean().iloc[-1]` is the sum of the last 20 entries over 20, and is non-negative when those entries are |
| `Bars.RollingMeanBetween` | main.py:78 | the 20-bar rolling mean lies between the smallest and the largest value of its window |
| `Bars.RollingMeanOfTail` | main.py:95 | bars older than the last 20 never change the rolling mean |
| `Bars.RollingMeanSplit` | main.py:78 | the window includes the current bar: 20 times the mean is the sum of the 19 bars before it plus the last one |
| `Scoring.Analyze` | main.py:60-99 | fewer than 30 bars, or a last close below 5, give exactly (0, [], 0); the score is a multiple of 10 in [0, 100]; each of the three reasons is listed iff its rule fired on an eligible frame; reasons come in rule order, none twice, at most 3; an eligible frame's price is its last close (at least 5); a rising bar guarantees 20, a missed RSI band caps the score at 80 and a missed disparity band at 90 |
| `Scoring.AnalyzeMarket` | main.py:60-99 | the step-by-step computation with local score and reasons returns exactly the decision table's verdict |
| `Scoring.LargeGainMeans` | main.py:70-75 | for a positive open the +10 bonus is paid iff the close is more than 5% above the open |
| `Scoring.NearMeanMeans` | main.py:95-97 | for a positive SMA the disparity +10 is paid iff 98·SMA ≤ 100·close ≤ 110·SMA, both bounds inclusive |
| `Scoring.VolumeSurgeAgainstPriorBars` | main.py:78-81 | volume above 1.5 times the 20-bar mean is volume above 3/37 of the sum of the 19 bars before it |
| `Scoring.AnalyzeReadsLastWindow` | main.py:63-97 | two frames of at least 30 bars whose last 20 rows agree get the same score, reasons and price |
| `Scoring.ExampleAllSignals` | main.py:69-97 | a frame ending in a 9 → 10 bar on double volume with RSI 50, MACD above signal and close at its SMA scores 100 with all three reasons |
| `Watchlist.Head` | main.py:50-51 | `head(n)` is the first min(n, length) entries |
| `Watchlist.Distinct` | main.py:54 | `list(set(s))` holds every entry of s exactly once and nothing else |
| `Watchlist.HotSymbols` | main.py:47-57 | the watchlist has no duplicates; it holds exactly the first 10 gainers, the first 5 most active symbols and the 8 favourites (so at most 23 symbols); when the screener fails it is the 7-symbol fallback |
| `Watchlist.FallbackAlwaysScanned` | main.py:52-57 | the fallback is the favourites without SQQQ, so every fallback symbol is in every watchlist |
| `Scan.RiskLevels` | main.py:132-133 | the stop is 3.5% of the price below it and the target 5% above it; for a positive price stop < price < target |
| `Scan.Verdicts` | main.py:124-130 | exactly the downloaded tickers with at least 30 bars are scored, each with the engine's verdict on its frame; a verdict with a positive score quotes the last close, at least 5 |
| `Scan.AlertFor` | main.py:130-136 | a ticker gets at most one alert, and gets one iff it has a verdict whose score is at least 70 |
| `Scan.Alerts` | main.py:119-151 | a scan yields at most one alert per watchlist entry |
| `Scan.ScanWatchlist` | main.py:119-151 | the loop over the targets, skipping missing and short frames, collects exactly the alerts of the scan specification |
| `Scan.Run` | main.py:112-124 | a whole run scans the built watchlist (nothing when the download is empty) and never alerts a ticker twice |
| `Scan.AlertsFromTargets` | main.py:119 | every alert is about a watchlist symbol |
| `Scan.AlertForSound` | main.py:130-145 | an alert built from a frame carries that frame's score, reasons and price, a score of at least 70, a price of at least 5, 0 < stop < price < target, and a volume or trend reason |
| `Scan.AlertsSound` | main.py:130-145 | every alert of a scan satisfies the same |
| `Scan.VerdictAlerted` | main.py:119-136 | a watchlist ticker with a verdict scoring at least 70 is alerted |
| `Scan.AlertsComplete` | main.py:136 | a watchlist ticker whose downloaded frame scores at least 70 is alerted |
| `Scan.AlertsConcat` | main.py:119-151 | scanning two lists in turn gives the alerts of the first followed by those of the second |
| `Scan.VerdictMissingDropsOnlyItsTicker` | main.py:151 | removing one ticker's verdict removes only that ticker's alert |
| `Scan.FailedFetchDropsOnlyItsTicker` | main.py:120-151 | a failed download for one ticker leaves every other ticker's alert unchanged and in order |
| `Scan.NoFramesNoAlerts` | main.py:118 | an empty download gives no alerts |
| `Scan.AlertsOncePerTicker` | main.py:119-151 | a watchlist without duplicates alerts each ticker at most once |

## Left out

- Telegram delivery (`send_telegram`, main.py:32-44) is HTTP I/O. The model stops at the list of alerts; each one is one message in the source.
- The startup message (main.py:107) is a fixed send with no logic, and is not modelled.
- The screener calls (main.py:50-51) and `yf.download` (main.py:116) are network calls. Their results are inputs: an `Option<Screen>` (None when the screener fails) and a map from ticker to frame (a ticker is missing when its download failed).
- RSI_14, MACD_12_26_9 and MACDs_12_26_9 come from an external indicator library (main.py:126-127). They are columns of each `Bar`, not computed.
- The pandas plumbing is not modelled: the `data.xs` fallback to the whole frame (main.py:121-122) and the `pd.concat` (main.py:128).
- The clock and the pauses (`get_now`, `time.sleep`) are not modelled; they only affect timing.
- The message text (main.py:137-145), including the reason strings and their `", ".join`, is text formatting and is not modelled; a reason is the `Reason` value the rule attaches.
- Floating-point rounding is not modelled: the boundary comparisons of the 5% gain (main.py:73), the 1.5× volume test (main.py:79) and the 98/110 disparity band (main.py:97) are exact over reals, where the source compares rounded float64 values, so inputs lying within rounding error of a bound may fall on the other side in the source.
- NaN inputs are not modelled, because every value is an exact real. Comparisons with NaN, which pandas makes false, therefore do not arise.
- The blanket `except` handlers (main.py:56, 151, 153) are modelled only as their effect: a missing frame or a failed screener.
- `Watchlist.Distinct`: Python's `set` fixes no order. The model keeps first occurrences and promises only "no duplicates, same elements", which is all the source guarantees.
- The `ticker` argument of `analyze_market` is unused by the source and is not a parameter of the model.

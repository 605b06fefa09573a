/**
  * The dashboard's own logic (app/page.tsx): the bounded detection history
  * fed by each order-book poll, the capped chart series, the threshold
  * inputs with their fallbacks, the client-side open-interest classifier,
  * and the small helpers `getTimeAgo`, `hasETFData` and `getETFLink`.
  *
  * React state becomes fields of classes; each state update is a method.
  * Polling timers, fetches and rendering are not modelled.
  */
module Dashboard {
  import opened Common
  import opened OrderBookAnalysis
  import opened OIAnalysis

  const MaxDetections: nat := 100
  const MaxChartPoints: nat := 10

  // ---------------------------------------------------------------------------
  // Threshold inputs
  // ---------------------------------------------------------------------------

  /** What `Number(e.target.value)` yields: NaN or a number. */
  datatype ParsedNumber = NaN | Num(value: real)

  /** `Number(v) || fallback`: 0 and NaN are falsy and fall back; every other
      value, negative ones included, is kept. */
  function ThresholdOr(input: ParsedNumber, fallback: real): (r: real)
    ensures input.NaN? ==> r == fallback
    ensures input.Num? && input.value == 0.0 ==> r == fallback
    ensures input.Num? && input.value != 0.0 ==> r == input.value
  {
    match input
    case NaN => fallback
    case Num(v) => if v == 0.0 then fallback else v
  }

  // ---------------------------------------------------------------------------
  // The detection history
  // ---------------------------------------------------------------------------

  predicate IsMeaningful(r: AnalysisResult) { r.kind != Info }

  /** `[...prev, ...meaningfulResults].slice(-100)`, applied only when there is
      something to add. */
  function AfterPoll(history: seq<AnalysisResult>, meaningful: seq<AnalysisResult>): seq<AnalysisResult>
  {
    if |meaningful| > 0 then LastN(history + meaningful, MaxDetections) else history
  }

  /** A depth snapshot as the order-book endpoint returns it. */
  datatype Snapshot = Snapshot(bids: seq<Level>, asks: seq<Level>)

  /** The order-book radar panel: its thresholds and its detection history. */
  class RadarPanel {
    var orderBookHistory: seq<AnalysisResult>
    var minVolumeForWall: real
    var minAvgVolumeForLadder: real
    var maxTotalVolumeForThin: real

    /** The history holds at most 100 detections, none of them `info`. */
    predicate Valid()
      reads this
    {
      |orderBookHistory| <= MaxDetections
      && forall i :: 0 <= i < |orderBookHistory| ==> IsMeaningful(orderBookHistory[i])
    }

    constructor()
      ensures Valid()
      ensures orderBookHistory == []
      ensures minVolumeForWall == DefaultMinVolumeForWall
      ensures minAvgVolumeForLadder == DefaultMinAvgVolumeForLadder
      ensures maxTotalVolumeForThin == DefaultMaxTotalVolumeForThin
    {
      orderBookHistory := [];
      minVolumeForWall := 100.0;
      minAvgVolumeForLadder := 500.0;
      maxTotalVolumeForThin := 50.0;
    }

    function CurrentConfig(): Config
      reads this
    {
      Config(Some(minVolumeForWall), Some(minAvgVolumeForLadder), Some(maxTotalVolumeForThin))
    }

    /** One run of `fetchOrderBook`: `None` stands for a failed request or an
        unsuccessful response, which leave the history as it was. */
    method Poll(response: Option<Snapshot>, now: int)
      requires Valid()
      modifies this
      ensures Valid()
      ensures response.None? ==> orderBookHistory == old(orderBookHistory)
      ensures response.Some? ==>
        orderBookHistory == AfterPoll(old(orderBookHistory),
          Filter(Detect(response.value.bids, response.value.asks, Resolve(old(CurrentConfig())), now), IsMeaningful))
      ensures unchanged(`minVolumeForWall, `minAvgVolumeForLadder, `maxTotalVolumeForThin)
    {
      if response.Some? {
        var analysis := AnalyzeOrderBook(response.value.bids, response.value.asks, CurrentConfig(), now);
        var meaningfulResults := Filter(analysis, IsMeaningful);
        if |meaningfulResults| > 0 {
          var newHistory := orderBookHistory + meaningfulResults;
          orderBookHistory := LastN(newHistory, MaxDetections);
          PollKeepsMeaningful(old(orderBookHistory), meaningfulResults);
        }
      }
    }

    /** The "clear history" button. */
    method ClearHistory()
      modifies this`orderBookHistory
      ensures Valid()
      ensures orderBookHistory == []
    {
      orderBookHistory := [];
    }

    /** The three threshold inputs' `onChange` handlers. */
    method SetMinVolumeForWall(input: ParsedNumber)
      modifies this`minVolumeForWall
      ensures minVolumeForWall == ThresholdOr(input, 100.0)
    {
      minVolumeForWall := ThresholdOr(input, 100.0);
    }

    method SetMinAvgVolumeForLadder(input: ParsedNumber)
      modifies this`minAvgVolumeForLadder
      ensures minAvgVolumeForLadder == ThresholdOr(input, 500.0)
    {
      minAvgVolumeForLadder := ThresholdOr(input, 500.0);
    }

    method SetMaxTotalVolumeForThin(input: ParsedNumber)
      modifies this`maxTotalVolumeForThin
      ensures maxTotalVolumeForThin == ThresholdOr(input, 50.0)
    {
      maxTotalVolumeForThin := ThresholdOr(input, 50.0);
    }
  }

  /** Appending meaningful results keeps the history bounded and free of `info`. */
  lemma PollKeepsMeaningful(history: seq<AnalysisResult>, meaningful: seq<AnalysisResult>)
    requires forall i :: 0 <= i < |history| ==> IsMeaningful(history[i])
    requires forall i :: 0 <= i < |meaningful| ==> IsMeaningful(meaningful[i])
    ensures |AfterPoll(history, meaningful)| <= MaxDetections || (|meaningful| == 0 && |history| > MaxDetections)
    ensures forall i :: 0 <= i < |AfterPoll(history, meaningful)| ==> IsMeaningful(AfterPoll(history, meaningful)[i])
  {
    if |meaningful| > 0 {
      var all := history + meaningful;
      var kept := LastN(all, MaxDetections);
      forall i | 0 <= i < |kept| ensures IsMeaningful(kept[i]) {
        var j := |all| - |kept| + i;
        assert kept[i] == all[j];
        if j < |history| {
          assert all[j] == history[j];
        } else {
          assert all[j] == meaningful[j - |history|];
        }
      }
    }
  }

  /** The history after a poll is the newest 100 of the old history followed
      by the new detections, in order: every new detection is kept when there
      are at most 100 of them, after the newest old entries that still fit. */
  lemma PollKeepsNewest(history: seq<AnalysisResult>, meaningful: seq<AnalysisResult>)
    requires 0 < |meaningful| < MaxDetections
    ensures AfterPoll(history, meaningful) == LastN(history, MaxDetections - |meaningful|) + meaningful
  {
    LastNOfAppend(history, meaningful, MaxDetections);
  }

  /** The detector never reports `info`, so the page's filter keeps every result. */
  lemma FilterIsNoOp(bids: seq<Level>, asks: seq<Level>, t: Thresholds, now: int)
    ensures Filter(Detect(bids, asks, t, now), IsMeaningful) == Detect(bids, asks, t, now)
  {
    var d := Detect(bids, asks, t, now);
    DetectShape(bids, asks, t, now);
    FilterAll(d, IsMeaningful);
  }

  /** Filtering with a test every element passes changes nothing. */
  lemma {:induction false} FilterAll<T>(xs: seq<T>, p: T -> bool)
    requires forall i :: 0 <= i < |xs| ==> p(xs[i])
    ensures Filter(xs, p) == xs
  {
    if |xs| > 0 {
      var init, last := xs[..|xs| - 1], xs[|xs| - 1];
      FilterAll(init, p);
      calc {
        Filter(xs, p);
        == { assert p(last); }
        Filter(init, p) + [last];
        ==
        init + [last];
        == { assert init + [last] == xs; }
        xs;
      }
    }
  }

  // ---------------------------------------------------------------------------
  // Chart series
  // ---------------------------------------------------------------------------

  datatype ChartPoint = ChartPoint(time: string, timestamp: int, value: real)

  /** A series update: append the point when the value is present, keep the last 10. */
  function Pushed(series: seq<ChartPoint>, value: Option<real>, time: string, timestamp: int): seq<ChartPoint>
  {
    match value
    case None => series
    case Some(v) => LastN(series + [ChartPoint(time, timestamp, v)], MaxChartPoints)
  }

  /** The three chart series shown beside the score. */
  class ChartHistory {
    var fundingRateHistory: seq<ChartPoint>
    var longShortRatioHistory: seq<ChartPoint>
    var priceHistory: seq<ChartPoint>

    predicate Valid()
      reads this
    {
      |fundingRateHistory| <= MaxChartPoints && |longShortRatioHistory| <= MaxChartPoints && |priceHistory| <= MaxChartPoints
    }

    constructor()
      ensures Valid()
      ensures fundingRateHistory == [] && longShortRatioHistory == [] && priceHistory == []
    {
      fundingRateHistory := [];
      longShortRatioHistory := [];
      priceHistory := [];
    }

    /** The series updates after a successful market-data fetch; the funding
        rate is plotted multiplied by 10000. */
    method Record(fundingRate: Option<real>, longShortRatio: Option<real>, price: Option<real>, time: string, timestamp: int)
      requires Valid()
      modifies this
      ensures Valid()
      ensures fundingRateHistory ==
        Pushed(old(fundingRateHistory), if fundingRate.Some? then Some(fundingRate.value * 10000.0) else None, time, timestamp)
      ensures longShortRatioHistory == Pushed(old(longShortRatioHistory), longShortRatio, time, timestamp)
      ensures priceHistory == Pushed(old(priceHistory), price, time, timestamp)
    {
      var scaled := if fundingRate.Some? then Some(fundingRate.value * 10000.0) else None;
      fundingRateHistory := Push(fundingRateHistory, scaled, time, timestamp);
      longShortRatioHistory := Push(longShortRatioHistory, longShortRatio, time, timestamp);
      priceHistory := Push(priceHistory, price, time, timestamp);
    }
  }

  /** One series update: when the value is present, append it and keep the last 10. */
  method Push(series: seq<ChartPoint>, value: Option<real>, time: string, timestamp: int) returns (r: seq<ChartPoint>)
    requires |series| <= MaxChartPoints
    ensures r == Pushed(series, value, time, timestamp)
    ensures |r| <= MaxChartPoints
  {
    r := series;
    if value.Some? {
      var newData := series + [ChartPoint(time, timestamp, value.value)];
      r := LastN(newData, MaxChartPoints);
    }
  }

  /** A present value becomes the newest point and the series keeps at most 10
      points, dropping the oldest; an absent value changes nothing. */
  lemma PushedShape(series: seq<ChartPoint>, value: Option<real>, time: string, timestamp: int)
    ensures value.None? ==> Pushed(series, value, time, timestamp) == series
    ensures value.Some? ==>
      var s := Pushed(series, value, time, timestamp);
      && s[|s| - 1] == ChartPoint(time, timestamp, value.value)
      && |s| == (if |series| < MaxChartPoints then |series| + 1 else MaxChartPoints)
      && s[..|s| - 1] == series[|series| - (|s| - 1)..]
  {
    if value.Some? {
      var point := ChartPoint(time, timestamp, value.value);
      LastNOfAppend(series, [point], MaxChartPoints);
    }
  }

  // ---------------------------------------------------------------------------
  // Client-side open-interest classification
  // ---------------------------------------------------------------------------

  /** The page's own copy of the classifier: locals start at the no-signal
      values and the first matching rule reassigns them. */
  method ClassifyOnClient(currentPrice: real, previousPrice: real, currentOI: real, previousOI: real)
    returns (r: TrendAnalysis)
    ensures r == AnalyzeOITrend(PercentChange(currentPrice, previousPrice), PercentChange(currentOI, previousOI))
  {
    var priceChange := if previousPrice > 0.0 then (currentPrice - previousPrice) / previousPrice * 100.0 else 0.0;
    var oiChange := if previousOI > 0.0 then (currentOI - previousOI) / previousOI * 100.0 else 0.0;

    var signalLabel := NoSignalLabel;
    var description := NoSignalText;
    var score := 0;
    var status := Healthy;

    if priceChange > 0.5 && oiChange > 0.5 {
      signalLabel := CleanTrendLabel;
      description := CleanTrendText;
      score := 10;
      status := Healthy;
    } else if priceChange > 0.5 && oiChange < -0.5 {
      signalLabel := TopDivergenceLabel;
      description := TopDivergenceText;
      score := -15;
      status := Status.Danger;
    } else if priceChange < -1.0 && oiChange > 2.0 {
      signalLabel := BottomActivityLabel;
      description := BottomActivityText;
      score := 15;
      status := Opportunity;
    } else if Abs(priceChange) <= 0.2 && oiChange > 1.0 {
      signalLabel := HiddenAccumulationLabel;
      description := HiddenAccumulationText;
      score := 10;
      status := Accumulation;
    } else if oiChange < -5.0 {
      signalLabel := CrashLabel;
      description := CrashText;
      score := -20;
      status := Crash;
    }

    r := TrendAnalysis(priceChange, oiChange, score, signalLabel, description, status);
  }

  // ---------------------------------------------------------------------------
  // getTimeAgo, hasETFData, getETFLink
  // ---------------------------------------------------------------------------

  datatype TimeAgo = DaysAgo(days: int) | HoursAgo(hours: int) | MinutesAgo(minutes: int) | JustNow

  /** `getTimeAgo(date)` with the current time passed in; `/` by a positive
      constant rounds down, like `Math.floor` of the division. */
  function GetTimeAgo(now: int, date: int): (r: TimeAgo)
    ensures r.DaysAgo? ==> r.days >= 1
    ensures r.HoursAgo? ==> 1 <= r.hours < 24
    ensures r.MinutesAgo? ==> 1 <= r.minutes < 60
    ensures r.JustNow? ==> now - date < 60000
  {
    var diff := now - date;
    var minutes := diff / 60000;
    var hours := minutes / 60;
    var days := hours / 24;
    if days > 0 then DaysAgo(days)
    else if hours > 0 then HoursAgo(hours)
    else if minutes > 0 then MinutesAgo(minutes)
    else JustNow
  }

  /** Floor division twice is floor division by the product. */
  lemma FloorTwice(x: int, a: int, b: int)
    requires a > 0 && b > 0
    ensures (x / a) / b == x / (a * b)
  {
    var q := x / a;
    var r := x % a;
    var q2 := q / b;
    var r2 := q % b;
    NestedSplit(x, a, b, q, r, q2, r2);
    DivUnique(x, a * b, q2, a * r2 + r);
  }

  /** Substituting one quotient-remainder split into another. */
  lemma NestedSplit(x: int, a: int, b: int, q: int, r: int, q2: int, r2: int)
    requires a > 0 && b > 0
    requires x == a * q + r && 0 <= r < a
    requires q == b * q2 + r2 && 0 <= r2 < b
    ensures x == (a * b) * q2 + (a * r2 + r)
    ensures 0 <= a * r2 + r < a * b
  {
    calc {
      a * q;
      == a * (b * q2 + r2);
      == a * (b * q2) + a * r2;
      == (a * b) * q2 + a * r2;
    }
    calc {
      a * r2;
      <= { MulAwayFromZero(a, b - r2); }
      a * r2 + a * (b - r2) - a;
      == a * b - a;
    }
  }

  /** A quotient-remainder split with the remainder in range is the division. */
  lemma DivUnique(x: int, d: int, q: int, r: int)
    requires d > 0 && x == d * q + r && 0 <= r < d
    ensures x / d == q
  {
    var q' := x / d;
    var r' := x % d;
    assert x == d * q' + r' && 0 <= r' < d;
    assert d * (q' - q) == r - r';
    MulAwayFromZero(d, q' - q);
  }

  /** A non-zero multiple of `d` is at least `d` away from zero. */
  lemma MulAwayFromZero(d: int, k: int)
    requires d > 0
    ensures k >= 1 ==> d * k >= d
    ensures k <= -1 ==> d * k <= -d
  {
    if k >= 1 {
      assert d * k == d * (k - 1) + d;
      assert d * (k - 1) >= 0;
    }
    if k <= -1 {
      assert d * k == d * (k + 1) - d;
      assert d * (-(k + 1)) >= 0;
    }
  }

  /** The largest whole unit is reported: days for at least a day, hours for
      at least an hour, minutes for at least a minute, otherwise "just now",
      which also covers dates in the future. */
  lemma TimeAgoUnits(now: int, date: int)
    ensures var diff := now - date;
      match GetTimeAgo(now, date)
      case DaysAgo(d) => d >= 1 && d == diff / 86400000
      case HoursAgo(h) => 1 <= h < 24 && h == diff / 3600000
      case MinutesAgo(m) => 1 <= m < 60 && m == diff / 60000
      case JustNow => diff < 60000
    ensures GetTimeAgo(now, date).DaysAgo? <==> now - date >= 86400000
    ensures GetTimeAgo(now, date).HoursAgo? <==> 3600000 <= now - date < 86400000
    ensures GetTimeAgo(now, date).MinutesAgo? <==> 60000 <= now - date < 3600000
  {
    var diff := now - date;
    FloorTwice(diff, 60000, 60);
    FloorTwice(diff, 3600000, 24);
    DivAtLeastOne(diff, 60000);
    DivAtLeastOne(diff, 3600000);
    DivAtLeastOne(diff, 86400000);
  }

  /** `x / d >= 1` exactly when `x >= d`. */
  lemma DivAtLeastOne(x: int, d: int)
    requires d > 0
    ensures x / d >= 1 <==> x >= d
  {
    var q := x / d;
    var r := x % d;
    assert x == d * q + r && 0 <= r < d;
    if q >= 1 {
      assert d * q >= d;
    } else {
      assert d * q <= 0;
    }
  }

  const EtfTokens: seq<string> := ["BTC", "ETH", "SOL", "XRP"]
  const GenericEtfUrl: string := "https://www.coinglass.com/etf"

  /** `hasETFData`: BTC, ETH, SOL or XRP, ignoring ASCII case. */
  predicate HasETFData(tokenSymbol: string)
    ensures HasETFData(tokenSymbol) ==>
      |tokenSymbol| == 3 && forall i :: 0 <= i < 3 ==> 'a' <= tokenSymbol[i] <= 'z' || 'A' <= tokenSymbol[i] <= 'Z'
  {
    Upper(tokenSymbol) in EtfTokens
  }

  /** `getETFLink`: the coin's ETF page for the four mapped coins, the
      general page otherwise. */
  function GetETFLink(tokenSymbol: string): (r: string)
    ensures !HasETFData(tokenSymbol) ==> r == GenericEtfUrl
    ensures HasETFData(tokenSymbol) ==> StartsWith(r, "https://www.coinglass.com/") && r != GenericEtfUrl
  {
    var upperSymbol := Upper(tokenSymbol);
    if upperSymbol == "BTC" then "https://www.coinglass.com/bitcoin-etf"
    else if upperSymbol == "ETH" then "https://www.coinglass.com/eth-etf"
    else if upperSymbol == "SOL" then "https://www.coinglass.com/sol-etf"
    else if upperSymbol == "XRP" then "https://www.coinglass.com/xrp-etf"
    else GenericEtfUrl
  }

  /** The link is coin-specific exactly when the coin has ETF data, and it
      depends on the symbol only up to ASCII case. */
  lemma ETFLinkMatchesETFData(tokenSymbol: string, other: string)
    ensures GetETFLink(tokenSymbol) != GenericEtfUrl <==> HasETFData(tokenSymbol)
    ensures EqualsIgnoreCase(tokenSymbol, other) ==> GetETFLink(tokenSymbol) == GetETFLink(other)
  {
    var u := Upper(tokenSymbol);
    assert "https://www.coinglass.com/bitcoin-etf"[26] != GenericEtfUrl[26];
    assert "https://www.coinglass.com/eth-etf"[28] != GenericEtfUrl[28];
    assert "https://www.coinglass.com/sol-etf"[26] != GenericEtfUrl[26];
    assert "https://www.coinglass.com/xrp-etf"[26] != GenericEtfUrl[26];
  }
}

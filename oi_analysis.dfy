/**
  * Open-interest trend analysis (app/api/oi-analysis/route.ts): the pure
  * classifier `analyzeOITrend` and the fallback chain of `getOIAnalysis`
  * that decides which price and open-interest changes reach it.
  *
  * The HTTP requests themselves are not modelled: each request is an input
  * describing how it ended (a parsed body, a non-OK status, or an exception).
  */
module OIAnalysis {
  import opened Common

  datatype Status = Healthy | Danger | Opportunity | Accumulation | Crash

  datatype Period = OneHour | FourHours

  /** `Omit<OIAnalysisResult, 'period'>` as `analyzeOITrend` returns it. */
  datatype TrendAnalysis = TrendAnalysis(
    priceChange: real,
    oiChange: real,
    score: int,
    signalLabel: string,
    description: string,
    status: Status)

  function Abs(x: real): real
  {
    if x < 0.0 then -x else x
  }

  // The five signals and the default, with their fixed texts.

  const CleanTrendLabel: string := "🟢 趋势健康 (资金做多)"
  const CleanTrendText: string := "价格上涨且OI上涨，资金进场推动上涨"
  const TopDivergenceLabel: string := "🔴 顶部背离 (多头跑路)"
  const TopDivergenceText: string := "价格新高但多头离场，只剩下散户在冲"
  const BottomActivityLabel: string := "🟡 底部异动 (恐慌盘/强力换手)"
  const BottomActivityText: string := "下跌中有人疯狂开仓，可能是被动爆仓后的V反，或者是主力接针"
  const HiddenAccumulationLabel: string := "🔵 主力潜伏 (蓄势待发)"
  const HiddenAccumulationText: string := "价格横盘但OI持续上涨，暗中建仓"
  const CrashLabel: string := "⚠️ 多头大逃亡 (大清算)"
  const CrashText: string := "OI单次暴跌，多头大逃亡"
  const NoSignalLabel: string := "⚪ 无明显信号"
  const NoSignalText: string := "价格和OI变化都在正常范围内"

  // The five rule conditions, in the order they are tested.
  predicate IsCleanTrend(p: real, o: real) { p > 0.5 && o > 0.5 }
  predicate IsTopDivergence(p: real, o: real) { p > 0.5 && o < -0.5 }
  predicate IsBottomActivity(p: real, o: real) { p < -1.0 && o > 2.0 }
  predicate IsHiddenAccumulation(p: real, o: real) { Abs(p) <= 0.2 && o > 1.0 }
  predicate IsCrash(p: real, o: real) { o < -5.0 }

  /** `analyzeOITrend`: the first rule whose condition holds decides; the
      inputs are returned unchanged in every branch. */
  function AnalyzeOITrend(priceChangePercent: real, oiChangePercent: real): (r: TrendAnalysis)
    ensures r.priceChange == priceChangePercent && r.oiChange == oiChangePercent
  {
    var p, o := priceChangePercent, oiChangePercent;
    if p > 0.5 && o > 0.5 then
      TrendAnalysis(p, o, 10, CleanTrendLabel, CleanTrendText, Healthy)
    else if p > 0.5 && o < -0.5 then
      TrendAnalysis(p, o, -15, TopDivergenceLabel, TopDivergenceText, Danger)
    else if p < -1.0 && o > 2.0 then
      TrendAnalysis(p, o, 15, BottomActivityLabel, BottomActivityText, Opportunity)
    else if Abs(p) <= 0.2 && o > 1.0 then
      TrendAnalysis(p, o, 10, HiddenAccumulationLabel, HiddenAccumulationText, Accumulation)
    else if o < -5.0 then
      TrendAnalysis(p, o, -20, CrashLabel, CrashText, Crash)
    else
      TrendAnalysis(p, o, 0, NoSignalLabel, NoSignalText, Healthy)
  }

  /** `previous > 0 ? (current - previous) / previous * 100 : 0`. */
  function PercentChange(current: real, previous: real): real
  {
    if previous > 0.0 then (current - previous) / previous * 100.0 else 0.0
  }

  // ---------------------------------------------------------------------------
  // The fallback chain of getOIAnalysis
  // ---------------------------------------------------------------------------

  /** How one request ended: a parsed body, a non-OK HTTP status, or an exception. */
  datatype Reply<T> = Ok(body: T) | HttpStatus(code: int) | Threw

  /** The latest and the previous value read from a two-entry series. */
  datatype Pair = Pair(current: real, previous: real)

  /** The open-interest source that produced `oiChange`. */
  datatype OISource = Unknown | BinancePublic | Bybit | BinanceStandard | BinanceCurrentEstimated | PriceEstimatedFallback
  {
    function Name(): string
    {
      match this
      case Unknown => "unknown"
      case BinancePublic => "binance_public_api"
      case Bybit => "bybit_api"
      case BinanceStandard => "binance_standard_api"
      case BinanceCurrentEstimated => "binance_current_oi_estimated"
      case PriceEstimatedFallback => "price_estimated_fallback"
    }
  }

  /** The requests `getOIAnalysis` may make, each with how it ended.
      `Ok(None)` stands for a body without two usable entries. */
  datatype Replies = Replies(
    klines: Reply<Option<Pair>>,          // closes of the last two candles
    ticker: Reply<Pair>,                  // lastPrice and openPrice
    publicOI: Reply<Option<Pair>>,        // method 1
    bybitOI: Reply<Option<Pair>>,         // method 2
    currentOI: Reply<real>,               // method 3, current value
    historyOI: Reply<Option<real>>)       // method 3, previous value

  datatype OIAnalysisResult = OIAnalysisResult(period: Period, analysis: TrendAnalysis, dataSource: string, isRealOI: bool)

  /** Open-interest change, its source and whether it is real data. */
  datatype OIReading = OIReading(change: real, source: OISource, isReal: bool)

  /** The price change: from the candles when they answer; from the 24h
      ticker only when the candles are blocked (451) or the request throws;
      0 otherwise. */
  function PriceChangeOf(klines: Reply<Option<Pair>>, ticker: Reply<Pair>): real
  {
    match klines
    case Ok(Some(p)) => PercentChange(p.current, p.previous)
    case Ok(None) => 0.0
    case HttpStatus(code) =>
      if code == 451 then TickerChange(ticker) else 0.0
    case Threw => TickerChange(ticker)
  }

  function TickerChange(ticker: Reply<Pair>): real
  {
    match ticker
    case Ok(p) => if p.previous > 0.0 then (p.current - p.previous) / p.previous * 100.0 else 0.0
    case _ => 0.0
  }

  /** A two-entry open-interest series is usable when both values are positive. */
  predicate Usable(reply: Reply<Option<Pair>>)
  {
    reply.Ok? && reply.body.Some? && reply.body.value.previous > 0.0 && reply.body.value.current > 0.0
  }

  /** The reading the chain settles on, given the price change. */
  function OIReadingOf(rs: Replies, priceChange: real): OIReading
  {
    if Usable(rs.publicOI) then
      var p := rs.publicOI.body.value;
      OIReading(PercentChange(p.current, p.previous), BinancePublic, true)
    else if Usable(rs.bybitOI) then
      var p := rs.bybitOI.body.value;
      OIReading(PercentChange(p.current, p.previous), Bybit, true)
    else if rs.currentOI.Ok? && rs.currentOI.body > 0.0 && rs.historyOI.Ok?
            && rs.historyOI.body.Some? && rs.historyOI.body.value > 0.0 then
      OIReading(PercentChange(rs.currentOI.body, rs.historyOI.body.value), BinanceStandard, false)
    else if rs.currentOI.Ok? && rs.currentOI.body > 0.0 && rs.historyOI.HttpStatus? && Abs(priceChange) > 0.1 then
      OIReading(priceChange * 0.3, BinanceCurrentEstimated, false)
    else
      OIReading(priceChange * 0.3, PriceEstimatedFallback, false)
  }

  /** The price part of `getOIAnalysis`: candles first, the ticker as backup. */
  method FetchPriceChange(klines: Reply<Option<Pair>>, ticker: Reply<Pair>) returns (priceChangePercent: real)
    ensures priceChangePercent == PriceChangeOf(klines, ticker)
  {
    priceChangePercent := 0.0;
    var useTicker := false;
    match klines {
      case Ok(body) =>
        if body.Some? {
          var currentPrice := body.value.current;
          var previousPrice := body.value.previous;
          priceChangePercent := if previousPrice > 0.0 then (currentPrice - previousPrice) / previousPrice * 100.0 else 0.0;
        }
      case HttpStatus(code) =>
        if code == 451 {
          useTicker := true;
        }
      case Threw =>
        useTicker := true;
    }
    if useTicker {
      if ticker.Ok? {
        var currentPrice := ticker.body.current;
        var openPrice := ticker.body.previous;
        if openPrice > 0.0 {
          priceChangePercent := (currentPrice - openPrice) / openPrice * 100.0;
        }
      }
    }
  }

  /** The open-interest part: methods 1 to 3 in turn, each only while no
      earlier one succeeded, then the price-based estimate. */
  method FetchOIChange(rs: Replies, priceChangePercent: real) returns (reading: OIReading)
    ensures reading == OIReadingOf(rs, priceChangePercent)
  {
    var oiChangePercent := 0.0;
    var oiDataSuccess := false;
    var oiDataSource := Unknown;
    var isRealOI := false;

    // Method 1: the public data endpoint.
    if rs.publicOI.Ok? && rs.publicOI.body.Some? {
      var currentOI := rs.publicOI.body.value.current;
      var previousOI := rs.publicOI.body.value.previous;
      if previousOI > 0.0 && currentOI > 0.0 {
        oiChangePercent := (currentOI - previousOI) / previousOI * 100.0;
        oiDataSuccess := true;
        oiDataSource := BinancePublic;
        isRealOI := true;
      }
    }

    // Method 2: Bybit.
    if !oiDataSuccess {
      if rs.bybitOI.Ok? && rs.bybitOI.body.Some? {
        var currentOI := rs.bybitOI.body.value.current;
        var previousOI := rs.bybitOI.body.value.previous;
        if previousOI > 0.0 && currentOI > 0.0 {
          oiChangePercent := (currentOI - previousOI) / previousOI * 100.0;
          oiDataSuccess := true;
          oiDataSource := Bybit;
          isRealOI := true;
        }
      }
    }

    // Method 3: the standard endpoint; success here leaves isRealOI false.
    if !oiDataSuccess {
      if rs.currentOI.Ok? {
        var currentOI := rs.currentOI.body;
        if currentOI > 0.0 {
          match rs.historyOI {
            case Ok(previous) =>
              if previous.Some? && previous.value > 0.0 {
                oiChangePercent := (currentOI - previous.value) / previous.value * 100.0;
                oiDataSuccess := true;
                oiDataSource := BinanceStandard;
              }
            case HttpStatus(_) =>
              if currentOI > 0.0 && Abs(priceChangePercent) > 0.1 {
                oiChangePercent := priceChangePercent * 0.3;
                oiDataSuccess := true;
                oiDataSource := BinanceCurrentEstimated;
              }
            case Threw =>
          }
        }
      }
    }

    // Last resort: 30% of the price change.
    if !oiDataSuccess {
      oiChangePercent := priceChangePercent * 0.3;
      oiDataSuccess := true;
      oiDataSource := PriceEstimatedFallback;
      isRealOI := false;
    }

    reading := OIReading(oiChangePercent, oiDataSource, isRealOI);
  }

  /** `getOIAnalysis` when nothing escapes to its outer `catch`. */
  method GetOIAnalysis(period: Period, rs: Replies) returns (r: OIAnalysisResult)
    ensures r.analysis == AnalyzeOITrend(PriceChangeOf(rs.klines, rs.ticker), OIReadingOf(rs, PriceChangeOf(rs.klines, rs.ticker)).change)
    ensures r.dataSource == OIReadingOf(rs, PriceChangeOf(rs.klines, rs.ticker)).source.Name()
    ensures r.isRealOI == OIReadingOf(rs, PriceChangeOf(rs.klines, rs.ticker)).isReal
    ensures r.period == period
  {
    var priceChangePercent := FetchPriceChange(rs.klines, rs.ticker);
    var reading := FetchOIChange(rs, priceChangePercent);
    var analysis := AnalyzeOITrend(priceChangePercent, reading.change);
    r := OIAnalysisResult(period, analysis, reading.source.Name(), reading.isReal);
  }

  /** The outer `catch` of `getOIAnalysis`: both changes 0, marked as an error fallback. */
  function ErrorFallback(period: Period): (r: OIAnalysisResult)
    ensures r.analysis.priceChange == 0.0 && r.analysis.oiChange == 0.0
    ensures r.analysis.score == 0 && r.analysis.status == Healthy && r.analysis.signalLabel == NoSignalLabel
    ensures r.dataSource == "error_fallback" && !r.isRealOI && r.period == period
  {
    var fallbackPriceChange := 0.0;
    var fallbackOIChange := fallbackPriceChange * 0.3;
    OIAnalysisResult(period, AnalyzeOITrend(fallbackPriceChange, fallbackOIChange), "error_fallback", false)
  }

  // ---------------------------------------------------------------------------
  // Properties of the classifier and of the chain
  // ---------------------------------------------------------------------------

  /** Each outcome in words of the rule conditions: a rule decides exactly
      when its condition holds and no earlier one does. */
  lemma FirstMatchingRuleWins(p: real, o: real)
    ensures var r := AnalyzeOITrend(p, o);
      (r.signalLabel == CleanTrendLabel <==> IsCleanTrend(p, o))
      && (r.status == Danger <==> !IsCleanTrend(p, o) && IsTopDivergence(p, o))
      && (r.status == Opportunity <==> !IsCleanTrend(p, o) && !IsTopDivergence(p, o) && IsBottomActivity(p, o))
      && (r.status == Accumulation <==>
            !IsCleanTrend(p, o) && !IsTopDivergence(p, o) && !IsBottomActivity(p, o) && IsHiddenAccumulation(p, o))
      && (r.status == Crash <==>
            !IsCleanTrend(p, o) && !IsTopDivergence(p, o) && !IsBottomActivity(p, o)
            && !IsHiddenAccumulation(p, o) && IsCrash(p, o))
      && (r.signalLabel == NoSignalLabel <==>
            !IsCleanTrend(p, o) && !IsTopDivergence(p, o) && !IsBottomActivity(p, o)
            && !IsHiddenAccumulation(p, o) && !IsCrash(p, o))
    ensures var r := AnalyzeOITrend(p, o);
      (r.status == Healthy && r.score == 10) || (r.status == Danger && r.score == -15)
      || (r.status == Opportunity && r.score == 15) || (r.status == Accumulation && r.score == 10)
      || (r.status == Crash && r.score == -20) || (r.status == Healthy && r.score == 0 && r.signalLabel == NoSignalLabel)
  {
    assert CleanTrendLabel[0] != NoSignalLabel[0];
  }

  /** A price rise above 0.5% with open interest falling below -5% is a top
      divergence, not a crash: the divergence rule is tested first. */
  lemma DivergenceShadowsCrash(p: real, o: real)
    requires p > 0.5 && o < -5.0
    ensures AnalyzeOITrend(p, o).status == Danger && AnalyzeOITrend(p, o).score == -15
  {
  }

  /** The percent change is 0 without a positive previous value, and otherwise
      has the sign of the move. */
  lemma PercentChangeSign(current: real, previous: real)
    ensures previous <= 0.0 ==> PercentChange(current, previous) == 0.0
    ensures previous > 0.0 ==>
      (PercentChange(current, previous) > 0.0 <==> current > previous)
      && (PercentChange(current, previous) == 0.0 <==> current == previous)
  {
    if previous > 0.0 {
      var d := current - previous;
      var q := d / previous;
      assert q * previous == d;
      if d > 0.0 {
        assert q > 0.0;
      } else if d < 0.0 {
        assert q < 0.0;
      }
    }
  }

  /** The last resort is taken exactly when methods 1 and 2 give nothing
      usable and method 3 fails in one of its ways: the current value does not
      answer or is not positive, the history throws, answers without a
      positive previous value, or is refused while the price moved by at most
      0.1%. The change is then 30% of the price change, not marked real. */
  lemma FallbackEstimate(rs: Replies, priceChange: real)
    ensures var r := OIReadingOf(rs, priceChange);
      r.source == PriceEstimatedFallback
      <==>
      && !Usable(rs.publicOI)
      && !Usable(rs.bybitOI)
      && (|| !rs.currentOI.Ok?
          || rs.currentOI.body <= 0.0
          || rs.historyOI.Threw?
          || (rs.historyOI.Ok? && (rs.historyOI.body.None? || rs.historyOI.body.value <= 0.0))
          || (rs.historyOI.HttpStatus? && Abs(priceChange) <= 0.1))
    ensures var r := OIReadingOf(rs, priceChange);
      r.source == PriceEstimatedFallback ==> r.change == priceChange * 0.3 && !r.isReal
  {
  }

  /** Only methods 1 and 2 mark the data as real; method 3 succeeds without
      setting the flag. */
  lemma RealOnlyFromFirstTwoMethods(rs: Replies, priceChange: real)
    ensures var reading := OIReadingOf(rs, priceChange);
      reading.isReal <==> reading.source == BinancePublic || reading.source == Bybit
    ensures var reading := OIReadingOf(rs, priceChange);
      reading.isReal <==> Usable(rs.publicOI) || Usable(rs.bybitOI)
  {
  }

  /** The ticker is consulted only when the candles are blocked or throw. */
  lemma TickerOnlyAsBackup(klines: Reply<Option<Pair>>, ticker: Reply<Pair>, other: Reply<Pair>)
    requires !(klines.Threw? || (klines.HttpStatus? && klines.code == 451))
    ensures PriceChangeOf(klines, ticker) == PriceChangeOf(klines, other)
  {
  }
}

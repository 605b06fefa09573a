/**
  * The rolling summariser (lib/orderbook-summary.ts): it keeps the detections
  * of the last hour, counts them by title and severity, and derives a risk
  * level, a trend, key points and a narrative.
  *
  * Key points and the narrative are modelled as sequences of structured lines
  * and clauses; the number formatting of the source's text is not modelled.
  */
module OrderBookSummary {
  import opened Common
  import opened OrderBookAnalysis

  datatype Risk = LowRisk | MediumRisk | HighRisk

  datatype Trend = Bullish | Bearish | Neutral

  /** Which trend branch was taken; each has its own key-point text. */
  datatype TrendCall = SpoofedPressure | SupportDominates | PressureDominates | NoClearTrend {
    function Trend(): Trend {
      match this
      case SpoofedPressure => Bearish
      case SupportDominates => Bullish
      case PressureDominates => Bearish
      case NoClearTrend => Neutral
    }
  }

  /** One entry of `keyPoints`. */
  datatype KeyPoint =
    | InsufficientData
    | RiskPoint(risk: Risk)
    | TrendPoint(call: TrendCall)
    | FakeWallPoint(count: nat)
    | LadderPoint(count: nat)
    | LadderVolumePoint(avgVolume: real, symbol: string)
    | ThinPoint(count: nat)

  /** One clause of the `summary` narrative. */
  datatype Clause =
    | NoDataClause(symbol: string)
    | HeaderClause(symbol: string, total: nat)
    | FakeWallClause(count: nat)
    | LadderClause(count: nat)
    | ThinClause(count: nat)
    | AvgVolumeClause(avgVolume: real, symbol: string)
    | ClosingClause(risk: Risk, trend: Trend)

  datatype Summary = Summary(summary: seq<Clause>, keyPoints: seq<KeyPoint>, riskLevel: Risk, trend: Trend)

  /** `signalCounts` of the source. */
  datatype SignalCounts = SignalCounts(fakeWall: nat, ladder: nat, thin: nat, danger: nat, warning: nat, success: nat)

  /** The window is one hour. */
  const WindowMs: int := 60 * 60 * 1000

  predicate InWindow(e: AnalysisResult, now: int)
  {
    e.timestamp >= now - WindowMs
  }

  /** `history.filter(h => h.timestamp >= oneHourAgo)`. */
  function RecentHistory(history: seq<AnalysisResult>, now: int): seq<AnalysisResult>
  {
    Filter(history, e => InWindow(e, now))
  }

  // Classification by substring of the title, as the source does.
  predicate IsFakeWallSignal(e: AnalysisResult) { Contains(e.title, "假护盘") || Contains(e.title, "假压盘") }
  predicate IsLadderSignal(e: AnalysisResult) { Contains(e.title, "密集网格") }
  predicate IsThinSignal(e: AnalysisResult) { Contains(e.title, "盘口真空") }
  predicate IsSupportLadder(e: AnalysisResult) { Contains(e.title, LadderSupportTitle) }
  predicate IsPressureLadder(e: AnalysisResult) { Contains(e.title, LadderPressureTitle) }
  predicate IsHigh(e: AnalysisResult) { e.severity == High }
  predicate IsMedium(e: AnalysisResult) { e.severity == Medium }
  predicate IsLow(e: AnalysisResult) { e.severity == Low }

  function CountSignals(w: seq<AnalysisResult>): SignalCounts
  {
    SignalCounts(
      CountWhere(w, IsFakeWallSignal), CountWhere(w, IsLadderSignal), CountWhere(w, IsThinSignal),
      CountWhere(w, IsHigh), CountWhere(w, IsMedium), CountWhere(w, IsLow))
  }

  /** First match wins: vacuum-heavy or danger-heavy is high, then medium, else low. */
  function RiskOf(c: SignalCounts): Risk
  {
    if c.thin > 5 || c.danger > 10 then HighRisk
    else if c.warning > 5 || c.danger > 3 then MediumRisk
    else LowRisk
  }

  /** `count / total` as the source's floating-point ratio. */
  function Ratio(count: nat, total: nat): real
    requires total > 0
  {
    (count as real) / (total as real)
  }

  function TrendOf(c: SignalCounts, n: nat, supportLadders: nat, pressureLadders: nat): TrendCall
    requires n > 0
  {
    if Ratio(c.fakeWall, n) > 0.3 then SpoofedPressure
    else if Ratio(c.ladder, n) > 0.3 then
      if supportLadders > pressureLadders then SupportDominates else PressureDominates
    else NoClearTrend
  }

  predicate IsDefined(o: Option<real>)
  {
    o.Some?
  }

  /** The values of the fields that are defined, in order. */
  function Defined(xs: seq<Option<real>>): (r: seq<real>)
    ensures |r| == CountWhere(xs, IsDefined)
    ensures forall i :: 0 <= i < |xs| && xs[i].Some? ==> xs[i].value in r
    ensures forall x :: x in r ==> Some(x) in xs
  {
    if |xs| == 0 then []
    else
      var init := Defined(xs[..|xs| - 1]);
      assert forall i :: 0 <= i < |xs| - 1 ==> xs[i] == xs[..|xs| - 1][i];
      match xs[|xs| - 1]
      case Some(v) => init + [v]
      case None => init
  }

  /** Total of the defined fields, an undefined one adding nothing. */
  function FieldTotal(xs: seq<Option<real>>): real
  {
    if |xs| == 0 then 0.0
    else FieldTotal(xs[..|xs| - 1]) + (if xs[|xs| - 1].Some? then xs[|xs| - 1].value else 0.0)
  }

  /** Gathering the defined values of two runs of fields is gathering each. */
  lemma {:induction false} DefinedAppend(a: seq<Option<real>>, b: seq<Option<real>>)
    ensures Defined(a + b) == Defined(a) + Defined(b)
  {
    if |b| == 0 {
      assert a + b == a;
    } else {
      assert (a + b)[..|a + b| - 1] == a + b[..|b| - 1];
      DefinedAppend(a, b[..|b| - 1]);
    }
  }

  lemma DefinedSingle(o: Option<real>)
    ensures Defined([o]) == if o.Some? then [o.value] else []
  {
    var one := [o];
    assert one[..|one| - 1] == [];
  }

  /** The defined values add up to the fields' total. */
  lemma {:induction false} DefinedSum(xs: seq<Option<real>>)
    ensures Sum(Defined(xs)) == FieldTotal(xs)
  {
    if |xs| > 0 {
      var init, last := xs[..|xs| - 1], xs[|xs| - 1];
      DefinedSum(init);
      if last.Some? {
        SumAppend(Defined(init), [last.value]);
        assert [last.value][1..] == [];
      }
    }
  }

  function VolumeFields(w: seq<AnalysisResult>): seq<Option<real>>
  {
    seq(|w|, i requires 0 <= i < |w| => w[i].volume)
  }

  function AvgVolumeFields(w: seq<AnalysisResult>): seq<Option<real>>
  {
    seq(|w|, i requires 0 <= i < |w| => w[i].avgVolume)
  }

  /** Mean of the values, or 0 when there are none. */
  function MeanOrZero(xs: seq<real>): real
  {
    if |xs| > 0 then Mean(xs) else 0.0
  }

  function NoDataSummary(symbol: string): Summary
  {
    Summary([NoDataClause(symbol)], [InsufficientData], LowRisk, Neutral)
  }

  function KeyPointsOf(c: SignalCounts, risk: Risk, call: TrendCall, avgLadderVolume: real, symbol: string): seq<KeyPoint>
  {
    [RiskPoint(risk), TrendPoint(call)]
    + (if c.fakeWall > 0 then [FakeWallPoint(c.fakeWall)] else [])
    + (if c.ladder > 0 then
         [LadderPoint(c.ladder)] + (if avgLadderVolume > 0.0 then [LadderVolumePoint(avgLadderVolume, symbol)] else [])
       else [])
    + (if c.thin > 0 then [ThinPoint(c.thin)] else [])
  }

  function NarrativeOf(symbol: string, n: nat, c: SignalCounts, avgVolume: real, risk: Risk, trend: Trend): seq<Clause>
  {
    [HeaderClause(symbol, n)]
    + (if c.fakeWall > 0 then [FakeWallClause(c.fakeWall)] else [])
    + (if c.ladder > 0 then [LadderClause(c.ladder)] else [])
    + (if c.thin > 0 then [ThinClause(c.thin)] else [])
    + (if avgVolume > 0.0 then [AvgVolumeClause(avgVolume, symbol)] else [])
    + [ClosingClause(risk, trend)]
  }

  /** The summary of `history` at time `now`, stated on values. */
  function SummaryOf(history: seq<AnalysisResult>, symbol: string, now: int): Summary
  {
    var w := RecentHistory(history, now);
    if |w| == 0 then NoDataSummary(symbol)
    else
      var c := CountSignals(w);
      var risk := RiskOf(c);
      var call := TrendOf(c, |w|, CountWhere(w, IsSupportLadder), CountWhere(w, IsPressureLadder));
      var avgVolume := MeanOrZero(Defined(VolumeFields(w)));
      var avgLadderVolume := MeanOrZero(Defined(AvgVolumeFields(w)));
      Summary(
        NarrativeOf(symbol, |w|, c, avgVolume, risk, call.Trend()),
        KeyPointsOf(c, risk, call, avgLadderVolume, symbol),
        risk, call.Trend())
  }

  // ---------------------------------------------------------------------------
  // The summariser
  // ---------------------------------------------------------------------------

  /** The counting `forEach` over the window: one pass, six counters. */
  method CountWindow(recentHistory: seq<AnalysisResult>) returns (counts: SignalCounts)
    ensures counts == CountSignals(recentHistory)
  {
    var fakeWall, ladder, thin, danger, warning, success := 0, 0, 0, 0, 0, 0;
    var i := 0;
    while i < |recentHistory|
      invariant 0 <= i <= |recentHistory|
      invariant fakeWall == CountWhere(recentHistory[..i], IsFakeWallSignal)
      invariant ladder == CountWhere(recentHistory[..i], IsLadderSignal)
      invariant thin == CountWhere(recentHistory[..i], IsThinSignal)
      invariant danger == CountWhere(recentHistory[..i], IsHigh)
      invariant warning == CountWhere(recentHistory[..i], IsMedium)
      invariant success == CountWhere(recentHistory[..i], IsLow)
    {
      var item := recentHistory[i];
      assert recentHistory[..i + 1][..i] == recentHistory[..i];
      if Contains(item.title, "假护盘") || Contains(item.title, "假压盘") {
        fakeWall := fakeWall + 1;
      }
      if Contains(item.title, "密集网格") {
        ladder := ladder + 1;
      }
      if Contains(item.title, "盘口真空") {
        thin := thin + 1;
      }
      if item.severity == High {
        danger := danger + 1;
      } else if item.severity == Medium {
        warning := warning + 1;
      } else if item.severity == Low {
        success := success + 1;
      }
      i := i + 1;
    }
    assert recentHistory[..i] == recentHistory;
    counts := SignalCounts(fakeWall, ladder, thin, danger, warning, success);
  }

  /** The trend branch: spoofed walls above 30% first, then ladders above 30%
      split by the support and pressure ladder counts. */
  method AssessTrend(recentHistory: seq<AnalysisResult>, counts: SignalCounts) returns (call: TrendCall)
    requires |recentHistory| > 0
    ensures call == TrendOf(counts, |recentHistory|, CountWhere(recentHistory, IsSupportLadder), CountWhere(recentHistory, IsPressureLadder))
  {
    var n := |recentHistory|;
    var fakeWallRatio := (counts.fakeWall as real) / (n as real);
    var ladderRatio := (counts.ladder as real) / (n as real);
    if fakeWallRatio > 0.3 {
      call := SpoofedPressure;
    } else if ladderRatio > 0.3 {
      var supportLadder := |Filter(recentHistory, IsSupportLadder)|;
      var pressureLadder := |Filter(recentHistory, IsPressureLadder)|;
      if supportLadder > pressureLadder {
        call := SupportDominates;
      } else {
        call := PressureDominates;
      }
    } else {
      call := NoClearTrend;
    }
  }

  /** The key points of a non-empty window: the risk line, the trend line,
      then spoofed walls, ladders (with their average volume when positive)
      and vacuums, each when seen. */
  method ListKeyPoints(counts: SignalCounts, riskLevel: Risk, call: TrendCall, avgLadderVolume: real, symbol: string)
    returns (keyPoints: seq<KeyPoint>)
    ensures keyPoints == KeyPointsOf(counts, riskLevel, call, avgLadderVolume, symbol)
  {
    keyPoints := [RiskPoint(riskLevel), TrendPoint(call)];
    if counts.fakeWall > 0 {
      keyPoints := keyPoints + [FakeWallPoint(counts.fakeWall)];
    }
    ghost var afterFakeWall := keyPoints;
    if counts.ladder > 0 {
      keyPoints := keyPoints + [LadderPoint(counts.ladder)];
      if avgLadderVolume > 0.0 {
        keyPoints := keyPoints + [LadderVolumePoint(avgLadderVolume, symbol)];
      }
    }
    assert keyPoints == afterFakeWall + (if counts.ladder > 0 then
        [LadderPoint(counts.ladder)] + (if avgLadderVolume > 0.0 then [LadderVolumePoint(avgLadderVolume, symbol)] else [])
      else []);
    if counts.thin > 0 {
      keyPoints := keyPoints + [ThinPoint(counts.thin)];
    }
  }

  /** The narrative of a non-empty window: the header, one clause per kind of
      signal seen, the average volume when positive, and the closing verdict. */
  method Narrate(symbol: string, n: nat, counts: SignalCounts, avgVolume: real, riskLevel: Risk, trend: Trend)
    returns (summary: seq<Clause>)
    ensures summary == NarrativeOf(symbol, n, counts, avgVolume, riskLevel, trend)
  {
    summary := [HeaderClause(symbol, n)];
    if counts.fakeWall > 0 {
      summary := summary + [FakeWallClause(counts.fakeWall)];
    }
    if counts.ladder > 0 {
      summary := summary + [LadderClause(counts.ladder)];
    }
    if counts.thin > 0 {
      summary := summary + [ThinClause(counts.thin)];
    }
    if avgVolume > 0.0 {
      summary := summary + [AvgVolumeClause(avgVolume, symbol)];
    }
    summary := summary + [ClosingClause(riskLevel, trend)];
  }

  /** `generateOrderBookSummary(history, symbol)` with `Date.now()` passed in as `now`. */
  method GenerateOrderBookSummary(history: seq<AnalysisResult>, symbol: string, now: int) returns (s: Summary)
    ensures s == SummaryOf(history, symbol, now)
  {
    var recentHistory := RecentHistory(history, now);
    if |recentHistory| == 0 {
      return NoDataSummary(symbol);
    }

    var counts := CountWindow(recentHistory);
    var avgVolume := MeanOrZero(Defined(VolumeFields(recentHistory)));
    var avgLadderVolume := MeanOrZero(Defined(AvgVolumeFields(recentHistory)));

    var riskLevel;
    if counts.thin > 5 || counts.danger > 10 {
      riskLevel := HighRisk;
    } else if counts.warning > 5 || counts.danger > 3 {
      riskLevel := MediumRisk;
    } else {
      riskLevel := LowRisk;
    }
    var call := AssessTrend(recentHistory, counts);
    var trend := call.Trend();

    var keyPoints := ListKeyPoints(counts, riskLevel, call, avgLadderVolume, symbol);
    var summary := Narrate(symbol, |recentHistory|, counts, avgVolume, riskLevel, trend);
    s := Summary(summary, keyPoints, riskLevel, trend);
  }

  // ---------------------------------------------------------------------------
  // What the summary promises
  // ---------------------------------------------------------------------------

  /** Only detections at most one hour old count; an empty window gives the
      fixed "insufficient data" summary. */
  lemma WindowIsLastHour(history: seq<AnalysisResult>, now: int)
    ensures forall e :: e in RecentHistory(history, now) <==> e in history && e.timestamp >= now - 3600000
    ensures RecentHistory(history, now) == [] ==>
      SummaryOf(history, "", now).keyPoints == [InsufficientData]
  {
    var w := RecentHistory(history, now);
    forall e | e in w ensures e in history && e.timestamp >= now - 3600000 {
      var i :| 0 <= i < |w| && w[i] == e;
    }
    forall e | e in history && e.timestamp >= now - 3600000 ensures e in w {
      var i :| 0 <= i < |history| && history[i] == e;
    }
  }

  /** Every detection has exactly one severity, so the three severity counts add up to the window size. */
  lemma {:induction false} SeverityCountsPartition(w: seq<AnalysisResult>)
    ensures CountSignals(w).danger + CountSignals(w).warning + CountSignals(w).success == |w|
  {
    if |w| > 0 {
      SeverityCountsPartition(w[..|w| - 1]);
    }
  }

  /** A character of a found substring occurs in the string searched. */
  lemma {:induction false} ContainsKeepsChars(s: string, sub: string, c: char)
    requires Contains(s, sub) && c in sub
    ensures c in s
    decreases |s|
  {
    if StartsWith(s, sub) {
      assert c in s[..|sub|];
    } else {
      ContainsKeepsChars(s[1..], sub, c);
    }
  }

  // How the summary's substring tests classify each detector title: the
  // negative facts follow from a character of the pattern missing in the title.

  lemma FakeSupportTitleSignals()
    ensures Contains(FakeSupportTitle, "假护盘")
    ensures !Contains(FakeSupportTitle, "密集网格") && !Contains(FakeSupportTitle, "盘口真空")
    ensures !Contains(FakeSupportTitle, LadderSupportTitle) && !Contains(FakeSupportTitle, LadderPressureTitle)
  {
    assert StartsWith(FakeSupportTitle, "假护盘");
    var t := FakeSupportTitle;
    assert '密' !in t && '口' !in t;
    if Contains(t, "密集网格") { ContainsKeepsChars(t, "密集网格", '密'); }
    if Contains(t, "盘口真空") { ContainsKeepsChars(t, "盘口真空", '口'); }
    if Contains(t, LadderSupportTitle) { ContainsKeepsChars(t, LadderSupportTitle, '密'); }
    if Contains(t, LadderPressureTitle) { ContainsKeepsChars(t, LadderPressureTitle, '密'); }
  }

  lemma FakePressureTitleSignals()
    ensures Contains(FakePressureTitle, "假压盘")
    ensures !Contains(FakePressureTitle, "密集网格") && !Contains(FakePressureTitle, "盘口真空")
    ensures !Contains(FakePressureTitle, LadderSupportTitle) && !Contains(FakePressureTitle, LadderPressureTitle)
  {
    assert StartsWith(FakePressureTitle, "假压盘");
    var t := FakePressureTitle;
    assert '密' !in t && '口' !in t;
    if Contains(t, "密集网格") { ContainsKeepsChars(t, "密集网格", '密'); }
    if Contains(t, "盘口真空") { ContainsKeepsChars(t, "盘口真空", '口'); }
    if Contains(t, LadderSupportTitle) { ContainsKeepsChars(t, LadderSupportTitle, '密'); }
    if Contains(t, LadderPressureTitle) { ContainsKeepsChars(t, LadderPressureTitle, '密'); }
  }

  lemma LadderSupportTitleSignals()
    ensures Contains(LadderSupportTitle, "密集网格") && Contains(LadderSupportTitle, LadderSupportTitle)
    ensures !Contains(LadderSupportTitle, "假护盘") && !Contains(LadderSupportTitle, "假压盘")
    ensures !Contains(LadderSupportTitle, "盘口真空") && !Contains(LadderSupportTitle, LadderPressureTitle)
  {
    assert StartsWith(LadderSupportTitle, "密集网格") && StartsWith(LadderSupportTitle, LadderSupportTitle);
    var t := LadderSupportTitle;
    assert '假' !in t && '口' !in t && '压' !in t;
    if Contains(t, "假护盘") { ContainsKeepsChars(t, "假护盘", '假'); }
    if Contains(t, "假压盘") { ContainsKeepsChars(t, "假压盘", '假'); }
    if Contains(t, "盘口真空") { ContainsKeepsChars(t, "盘口真空", '口'); }
    if Contains(t, LadderPressureTitle) { ContainsKeepsChars(t, LadderPressureTitle, '压'); }
  }

  lemma LadderPressureTitleSignals()
    ensures Contains(LadderPressureTitle, "密集网格") && Contains(LadderPressureTitle, LadderPressureTitle)
    ensures !Contains(LadderPressureTitle, "假护盘") && !Contains(LadderPressureTitle, "假压盘")
    ensures !Contains(LadderPressureTitle, "盘口真空") && !Contains(LadderPressureTitle, LadderSupportTitle)
  {
    assert StartsWith(LadderPressureTitle, "密集网格") && StartsWith(LadderPressureTitle, LadderPressureTitle);
    var t := LadderPressureTitle;
    assert '假' !in t && '口' !in t && '护' !in t;
    if Contains(t, "假护盘") { ContainsKeepsChars(t, "假护盘", '假'); }
    if Contains(t, "假压盘") { ContainsKeepsChars(t, "假压盘", '假'); }
    if Contains(t, "盘口真空") { ContainsKeepsChars(t, "盘口真空", '口'); }
    if Contains(t, LadderSupportTitle) { ContainsKeepsChars(t, LadderSupportTitle, '护'); }
  }

  lemma VacuumTitleSignals()
    ensures Contains(VacuumTitle, "盘口真空")
    ensures !Contains(VacuumTitle, "假护盘") && !Contains(VacuumTitle, "假压盘") && !Contains(VacuumTitle, "密集网格")
    ensures !Contains(VacuumTitle, LadderSupportTitle) && !Contains(VacuumTitle, LadderPressureTitle)
  {
    assert StartsWith(VacuumTitle, "盘口真空");
    var t := VacuumTitle;
    assert '假' !in t && '密' !in t;
    if Contains(t, "假护盘") { ContainsKeepsChars(t, "假护盘", '假'); }
    if Contains(t, "假压盘") { ContainsKeepsChars(t, "假压盘", '假'); }
    if Contains(t, "密集网格") { ContainsKeepsChars(t, "密集网格", '密'); }
    if Contains(t, LadderSupportTitle) { ContainsKeepsChars(t, LadderSupportTitle, '密'); }
    if Contains(t, LadderPressureTitle) { ContainsKeepsChars(t, LadderPressureTitle, '密'); }
  }

  /** Each detector title falls in exactly one of the summary's classes. */
  lemma DetectorTitleSignals(e: AnalysisResult)
    requires IsDetectorTitle(e.title)
    ensures IsFakeWallSignal(e) <==> e.title == FakeSupportTitle || e.title == FakePressureTitle
    ensures IsLadderSignal(e) <==> e.title == LadderSupportTitle || e.title == LadderPressureTitle
    ensures IsThinSignal(e) <==> e.title == VacuumTitle
    ensures IsSupportLadder(e) <==> e.title == LadderSupportTitle
    ensures IsPressureLadder(e) <==> e.title == LadderPressureTitle
  {
    TitleRanks();
    FakeSupportTitleSignals();
    FakePressureTitleSignals();
    LadderSupportTitleSignals();
    LadderPressureTitleSignals();
    VacuumTitleSignals();
  }

  /** When every entry carries a detector title, each is counted in exactly
      one of the spoofed-wall, ladder and vacuum counts, and the ladders split
      into support and pressure. */
  lemma {:induction false} DetectorTitlesPartition(w: seq<AnalysisResult>)
    requires forall i :: 0 <= i < |w| ==> IsDetectorTitle(w[i].title)
    ensures CountSignals(w).fakeWall + CountSignals(w).ladder + CountSignals(w).thin == |w|
    ensures CountWhere(w, IsSupportLadder) + CountWhere(w, IsPressureLadder) == CountSignals(w).ladder
  {
    if |w| > 0 {
      var init := w[..|w| - 1];
      DetectorTitlesPartition(init);
      DetectorTitleSignals(w[|w| - 1]);
      TitleRanks();
    }
  }

  /** The risk level in words of the counts: high iff vacuum-heavy or
      danger-heavy; medium iff not high and warning-heavy or moderately
      danger-heavy; low otherwise. */
  lemma RiskLevelRule(c: SignalCounts)
    ensures RiskOf(c) == HighRisk <==> c.thin > 5 || c.danger > 10
    ensures RiskOf(c) == MediumRisk <==> !(c.thin > 5 || c.danger > 10) && (c.warning > 5 || c.danger > 3)
    ensures RiskOf(c) == LowRisk <==> c.thin <= 5 && c.danger <= 3 && c.warning <= 5
  {
  }

  /** More signals of any kind never lower the risk level. */
  lemma RiskMonotone(c: SignalCounts, d: SignalCounts)
    requires c.thin <= d.thin && c.danger <= d.danger && c.warning <= d.warning
    ensures RiskOf(c) == HighRisk ==> RiskOf(d) == HighRisk
    ensures RiskOf(c) == MediumRisk ==> RiskOf(d) != LowRisk
  {
  }

  /** The ratio test is an integer test: `k / n > 0.3` iff `10 * k > 3 * n`. */
  lemma RatioAboveThreeTenths(k: nat, n: nat)
    requires n > 0
    ensures Ratio(k, n) > 0.3 <==> 10 * k > 3 * n
  {
    var kr, nr := k as real, n as real;
    DivAbove(kr, nr, 0.3);
    assert (10 * k) as real == 10.0 * kr && (3 * n) as real == 3.0 * nr;
  }

  /** The trend in words of the counts: bearish on spoofed walls above 30%;
      otherwise, with ladders above 30%, bullish exactly when support ladders
      outnumber pressure ladders (a tie is bearish); otherwise neutral. */
  lemma TrendRule(c: SignalCounts, n: nat, support: nat, pressure: nat)
    requires n > 0
    ensures TrendOf(c, n, support, pressure) == SpoofedPressure <==> 10 * c.fakeWall > 3 * n
    ensures TrendOf(c, n, support, pressure).Trend() == Bullish <==>
              10 * c.fakeWall <= 3 * n && 10 * c.ladder > 3 * n && support > pressure
    ensures TrendOf(c, n, support, pressure).Trend() == Neutral <==>
              10 * c.fakeWall <= 3 * n && 10 * c.ladder <= 3 * n
  {
    RatioAboveThreeTenths(c.fakeWall, n);
    RatioAboveThreeTenths(c.ladder, n);
  }

  /** Risk level and trend depend only on counts, so reordering the history changes neither. */
  lemma PermutationKeepsRiskAndTrend(h1: seq<AnalysisResult>, h2: seq<AnalysisResult>, symbol: string, now: int)
    requires multiset(h1) == multiset(h2)
    ensures SummaryOf(h1, symbol, now).riskLevel == SummaryOf(h2, symbol, now).riskLevel
    ensures SummaryOf(h1, symbol, now).trend == SummaryOf(h2, symbol, now).trend
  {
    var w1 := RecentHistory(h1, now);
    var w2 := RecentHistory(h2, now);
    FilterPermutation(h1, h2, e => InWindow(e, now));
    assert |w1| == |multiset(w1)| == |multiset(w2)| == |w2|;
    CountPermutation(w1, w2, IsFakeWallSignal);
    CountPermutation(w1, w2, IsLadderSignal);
    CountPermutation(w1, w2, IsThinSignal);
    CountPermutation(w1, w2, IsHigh);
    CountPermutation(w1, w2, IsMedium);
    CountPermutation(w1, w2, IsLow);
    CountPermutation(w1, w2, IsSupportLadder);
    CountPermutation(w1, w2, IsPressureLadder);
  }

  /** An empty window yields the single "insufficient data" key point with low
      risk and neutral trend. Otherwise the key points open with the risk line
      and the trend line and number between two and six, and the narrative
      opens with the window size and closes with the risk and trend. */
  lemma SummaryShape(history: seq<AnalysisResult>, symbol: string, now: int)
    ensures var s := SummaryOf(history, symbol, now);
      RecentHistory(history, now) == [] ==>
        s.keyPoints == [InsufficientData] && s.riskLevel == LowRisk && s.trend == Neutral
    ensures var s := SummaryOf(history, symbol, now);
      var w := RecentHistory(history, now);
      w != [] ==>
        && 2 <= |s.keyPoints| <= 6
        && s.keyPoints[0] == RiskPoint(s.riskLevel)
        && s.keyPoints[1].TrendPoint? && s.keyPoints[1].call.Trend() == s.trend
        && s.summary[0] == HeaderClause(symbol, |w|)
        && s.summary[|s.summary| - 1] == ClosingClause(s.riskLevel, s.trend)
  {
  }

  /** `values.reduce(+) / values.length`, or 0 without values: the total of
      the defined fields divided by how many are defined. */
  lemma MeanOfDefined(xs: seq<Option<real>>)
    ensures var n := CountWhere(xs, IsDefined);
      MeanOrZero(Defined(xs)) == if n > 0 then FieldTotal(xs) / (n as real) else 0.0
  {
    DefinedSum(xs);
  }

  /** Both averages of the summary are means over the window's entries that
      define the field: `volume` for the average volume, `avgVolume` (wall
      detections' included) for the average ladder volume. */
  lemma AveragesAreMeans(w: seq<AnalysisResult>)
    ensures var v := VolumeFields(w); var n := CountWhere(v, IsDefined);
      MeanOrZero(Defined(v)) == if n > 0 then FieldTotal(v) / (n as real) else 0.0
    ensures var a := AvgVolumeFields(w); var n := CountWhere(a, IsDefined);
      MeanOrZero(Defined(a)) == if n > 0 then FieldTotal(a) / (n as real) else 0.0
    ensures forall i :: 0 <= i < |w| ==> VolumeFields(w)[i] == w[i].volume && AvgVolumeFields(w)[i] == w[i].avgVolume
  {
    MeanOfDefined(VolumeFields(w));
    MeanOfDefined(AvgVolumeFields(w));
  }

  /** An average lies between the smallest and largest defined value. */
  lemma AverageBetween(xs: seq<Option<real>>, lo: real, hi: real)
    requires forall i :: 0 <= i < |xs| && xs[i].Some? ==> lo <= xs[i].value <= hi
    ensures CountWhere(xs, IsDefined) > 0 ==> lo <= MeanOrZero(Defined(xs)) <= hi
  {
    var d := Defined(xs);
    forall k | 0 <= k < |d| ensures lo <= d[k] <= hi {
      assert Some(d[k]) in xs;
    }
    if |d| > 0 {
      MeanBetween(d, lo, hi);
    }
  }

  /** Twenty detections of the last hour with seven spoofed walls, two ladders,
      one vacuum and severities 1 high / 4 medium / 15 low: spoofed walls are
      35% of the window, so the trend is bearish, and the risk stays low. */
  lemma MostlySpoofedWindow(support: nat, pressure: nat)
    ensures var c := SignalCounts(7, 2, 1, 1, 4, 15);
      RiskOf(c) == LowRisk && TrendOf(c, 20, support, pressure) == SpoofedPressure
  {
    RatioAboveThreeTenths(7, 20);
  }
}

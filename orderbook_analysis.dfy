/**
  * The order-book radar detector (lib/orderbook-analysis.ts): five threshold
  * rules over one depth snapshot, each contributing at most one result.
  *
  * The specification functions (`WallRule`, `LadderRule`, `VacuumRule`,
  * `Detect`) state each rule on values; `AnalyzeOrderBook` is the imperative
  * detector, proved equal to `Detect`, and the lemmas below state what the
  * rules promise.
  */
module OrderBookAnalysis {
  import opened Common

  /** One depth level, `[price, quantity]` in the source. */
  datatype Level = Level(price: real, quantity: real)

  /** The result's `type`; the detector never produces `Info`. */
  datatype ResultType = Warning | Info | Danger | Success

  datatype Severity = Low | Medium | High

  /** One detection; `None` stands for a field the source leaves undefined. */
  datatype AnalysisResult = AnalysisResult(
    kind: ResultType,
    title: string,
    price: Option<real>,
    volume: Option<real>,
    avgVolume: Option<real>,
    totalVolume: Option<real>,
    severity: Severity,
    timestamp: int)

  /** `OrderBookAnalysisConfig`: every threshold may be left undefined. */
  datatype Config = Config(
    minVolumeForWall: Option<real>,
    minAvgVolumeForLadder: Option<real>,
    maxTotalVolumeForThin: Option<real>)

  /** The thresholds in force after defaults are applied. */
  datatype Thresholds = Thresholds(wall: real, ladder: real, thin: real)

  datatype Side = Bid | Ask

  const DefaultMinVolumeForWall: real := 100.0
  const DefaultMinAvgVolumeForLadder: real := 500.0
  const DefaultMaxTotalVolumeForThin: real := 50.0

  /** Only the best ten levels of each side are examined. */
  const TopLevels: nat := 10

  const FakeSupportTitle: string := "假护盘检测"
  const FakePressureTitle: string := "假压盘检测"
  const LadderSupportTitle: string := "密集网格护盘"
  const LadderPressureTitle: string := "密集网格压盘"
  const VacuumTitle: string := "盘口真空"

  /** The five titles the detector can emit. */
  predicate IsDetectorTitle(t: string)
  {
    t == FakeSupportTitle || t == FakePressureTitle || t == LadderSupportTitle
    || t == LadderPressureTitle || t == VacuumTitle
  }

  /** Destructuring with defaults: an undefined field takes its default, a defined one is kept. */
  function Resolve(c: Config): (t: Thresholds)
    ensures c.minVolumeForWall.None? ==> t.wall == DefaultMinVolumeForWall
    ensures c.minAvgVolumeForLadder.None? ==> t.ladder == DefaultMinAvgVolumeForLadder
    ensures c.maxTotalVolumeForThin.None? ==> t.thin == DefaultMaxTotalVolumeForThin
    ensures c.minVolumeForWall.Some? ==> t.wall == c.minVolumeForWall.value
    ensures c.minAvgVolumeForLadder.Some? ==> t.ladder == c.minAvgVolumeForLadder.value
    ensures c.maxTotalVolumeForThin.Some? ==> t.thin == c.maxTotalVolumeForThin.value
  {
    Thresholds(
      c.minVolumeForWall.GetOr(DefaultMinVolumeForWall),
      c.minAvgVolumeForLadder.GetOr(DefaultMinAvgVolumeForLadder),
      c.maxTotalVolumeForThin.GetOr(DefaultMaxTotalVolumeForThin))
  }

  /** `levels.map(l => l[1])`. */
  function Quantities(levels: seq<Level>): (v: seq<real>)
    ensures |v| == |levels|
    ensures forall i :: 0 <= i < |levels| ==> v[i] == levels[i].quantity
  {
    seq(|levels|, i requires 0 <= i < |levels| => levels[i].quantity)
  }

  /** `levels.map(l => l[0])`. */
  function Prices(levels: seq<Level>): (v: seq<real>)
    ensures |v| == |levels|
    ensures forall i :: 0 <= i < |levels| ==> v[i] == levels[i].price
  {
    seq(|levels|, i requires 0 <= i < |levels| => levels[i].price)
  }

  // ---------------------------------------------------------------------------
  // The rules, stated on values
  // ---------------------------------------------------------------------------

  /** Level `i` is a wall: more than five times the mean of all levels, above
      the wall threshold, and more than five times the mean of the others. */
  predicate IsWallAt(v: seq<real>, i: nat, minWall: real)
    requires 2 <= |v| && i < |v|
  {
    v[i] > Mean(v) * 5.0 && v[i] > minWall && v[i] > Mean(RemoveAt(v, i)) * 5.0
  }

  /** The first wall at index `k` or later. */
  function FirstWallFrom(v: seq<real>, minWall: real, k: nat): (r: Option<nat>)
    requires 2 <= |v| && k <= |v|
    ensures r.Some? ==> k <= r.value < |v| && IsWallAt(v, r.value, minWall)
    decreases |v| - k
  {
    if k == |v| then None
    else if IsWallAt(v, k, minWall) then Some(k)
    else FirstWallFrom(v, minWall, k + 1)
  }

  function WallResult(side: Side, price: real, volume: real, otherAvg: real, now: int): AnalysisResult
  {
    match side
    case Bid => AnalysisResult(Warning, FakeSupportTitle, Some(price), Some(volume), Some(otherAvg), None, Medium, now)
    case Ask => AnalysisResult(Danger, FakePressureTitle, Some(price), Some(volume), Some(otherAvg), None, High, now)
  }

  function LadderResult(side: Side, price: real, avg: real, total: real, now: int): AnalysisResult
  {
    match side
    case Bid => AnalysisResult(Success, LadderSupportTitle, Some(price), None, Some(avg), Some(total), Low, now)
    case Ask => AnalysisResult(Warning, LadderPressureTitle, Some(price), None, Some(avg), Some(total), Medium, now)
  }

  function VacuumResult(total: real, now: int): AnalysisResult
  {
    AnalysisResult(Danger, VacuumTitle, None, None, None, Some(total), High, now)
  }

  /** Rules 1 and 2: the first wall among the top ten levels of one side, if the side has three. */
  function WallRule(levels: seq<Level>, minWall: real, side: Side, now: int): seq<AnalysisResult>
  {
    var top := Take(levels, TopLevels);
    if |top| < 3 then []
    else
      var v := Quantities(top);
      match FirstWallFrom(v, minWall, 0)
      case None => []
      case Some(i) => [WallResult(side, top[i].price, v[i], Mean(RemoveAt(v, i)), now)]
  }

  /** Sum of squared deviations from `m`. */
  function SquaredDeviations(v: seq<real>, m: real): real
  {
    if |v| == 0 then 0.0 else (v[0] - m) * (v[0] - m) + SquaredDeviations(v[1..], m)
  }

  /** Population variance of `v` around its mean `m`. */
  function Variance(v: seq<real>, m: real): real
    requires |v| > 0
  {
    SquaredDeviations(v, m) / (|v| as real)
  }

  /** `coefficientOfVariation < 0.5`, where the coefficient is `sqrt(variance) / m`
      for a positive mean and 0 otherwise; squared to avoid the root. */
  predicate EvenlySpread(variance: real, m: real)
  {
    m > 0.0 ==> variance < 0.25 * m * m
  }

  /** Rules 3 and 4: a ladder over the best five levels of one side. */
  function LadderRule(levels: seq<Level>, minAvg: real, side: Side, now: int): seq<AnalysisResult>
  {
    var top := Take(levels, TopLevels);
    if |top| < 5 then []
    else
      var v := Quantities(top[..5]);
      var m := Mean(v);
      if m > minAvg && EvenlySpread(Variance(v, m), m)
      then [LadderResult(side, MinOf(Prices(top[..5])), m, Sum(v), now)]
      else []
  }

  /** Rule 5: the best three levels of both sides together hold less than the threshold. */
  function VacuumRule(bids: seq<Level>, asks: seq<Level>, maxThin: real, now: int): seq<AnalysisResult>
  {
    if |Take(bids, TopLevels)| >= 3 && |Take(asks, TopLevels)| >= 3 then
      var total := Sum(Quantities(bids[..3])) + Sum(Quantities(asks[..3]));
      if total < maxThin then [VacuumResult(total, now)] else []
    else []
  }

  /** All five rules, in the order the detector evaluates them. */
  function Detect(bids: seq<Level>, asks: seq<Level>, t: Thresholds, now: int): seq<AnalysisResult>
  {
    WallRule(bids, t.wall, Bid, now) + WallRule(asks, t.wall, Ask, now)
    + LadderRule(bids, t.ladder, Bid, now) + LadderRule(asks, t.ladder, Ask, now)
    + VacuumRule(bids, asks, t.thin, now)
  }

  // ---------------------------------------------------------------------------
  // The detector
  // ---------------------------------------------------------------------------

  /** The wall scan over one side: walk the top levels and stop at the first wall. */
  method ScanForWall(levels: seq<Level>, minWall: real, side: Side, now: int) returns (found: seq<AnalysisResult>)
    ensures found == WallRule(levels, minWall, side, now)
  {
    found := [];
    var top := Take(levels, TopLevels);
    if |top| >= 3 {
      var volumes := Quantities(top);
      var avgVolume := Mean(volumes);
      var i := 0;
      while i < |top|
        invariant 0 <= i <= |top|
        invariant found == []
        invariant FirstWallFrom(volumes, minWall, 0) == FirstWallFrom(volumes, minWall, i)
      {
        var volume := volumes[i];
        if volume > avgVolume * 5.0 && volume > minWall {
          var otherAvg := Mean(RemoveAt(volumes, i));
          if volume > otherAvg * 5.0 {
            found := found + [WallResult(side, top[i].price, volume, otherAvg, now)];
            break;
          }
        }
        i := i + 1;
      }
    }
  }

  /** The ladder test over the best five levels of one side. */
  method CheckLadder(levels: seq<Level>, minAvg: real, side: Side, now: int) returns (found: seq<AnalysisResult>)
    ensures found == LadderRule(levels, minAvg, side, now)
  {
    found := [];
    var top := Take(levels, TopLevels);
    if |top| >= 5 {
      var volumes := Quantities(top[..5]);
      var avgVolume := Sum(volumes) / 5.0;
      var variance := SquaredDeviations(volumes, avgVolume) / 5.0;
      var spreadOk := if avgVolume > 0.0 then variance < 0.25 * avgVolume * avgVolume else true;
      if avgVolume > minAvg && spreadOk {
        var totalVolume := Sum(volumes);
        var minPrice := MinOf(Prices(top[..5]));
        found := [LadderResult(side, minPrice, avgVolume, totalVolume, now)];
      }
    }
  }

  /** `analyzeOrderBook(bids, asks, config)` with `Date.now()` passed in as `now`. */
  method AnalyzeOrderBook(bids: seq<Level>, asks: seq<Level>, config: Config, now: int)
    returns (results: seq<AnalysisResult>)
    ensures results == Detect(bids, asks, Resolve(config), now)
    ensures |results| <= 5
    ensures forall i :: 0 <= i < |results| ==> results[i].kind != Info && results[i].timestamp == now
  {
    var t := Resolve(config);
    results := [];

    var bidWall := ScanForWall(bids, t.wall, Bid, now);
    results := results + bidWall;
    var askWall := ScanForWall(asks, t.wall, Ask, now);
    results := results + askWall;

    var support := CheckLadder(bids, t.ladder, Bid, now);
    results := results + support;
    var resistance := CheckLadder(asks, t.ladder, Ask, now);
    results := results + resistance;

    var vacuum := CheckVacuum(bids, asks, t.thin, now);
    results := results + vacuum;
    DetectShape(bids, asks, t, now);
  }

  /** The liquidity-vacuum test over the best three levels of both sides. */
  method CheckVacuum(bids: seq<Level>, asks: seq<Level>, maxThin: real, now: int) returns (found: seq<AnalysisResult>)
    ensures found == VacuumRule(bids, asks, maxThin, now)
  {
    found := [];
    var topBids := Take(bids, TopLevels);
    var topAsks := Take(asks, TopLevels);
    if |topBids| >= 3 && |topAsks| >= 3 {
      var top3BidVolume := Sum(Quantities(topBids[..3]));
      var top3AskVolume := Sum(Quantities(topAsks[..3]));
      var totalTop3Volume := top3BidVolume + top3AskVolume;
      if totalTop3Volume < maxThin {
        found := [VacuumResult(totalTop3Volume, now)];
      }
      assert topBids[..3] == bids[..3] && topAsks[..3] == asks[..3];
    }
  }

  // ---------------------------------------------------------------------------
  // What the rules promise
  // ---------------------------------------------------------------------------

  /** Position of a detector title in the order the rules run (5 for any other title). */
  function TitleRank(title: string): nat
  {
    if title == FakeSupportTitle then 0
    else if title == FakePressureTitle then 1
    else if title == LadderSupportTitle then 2
    else if title == LadderPressureTitle then 3
    else if title == VacuumTitle then 4
    else 5
  }

  /** Every result is a detector result stamped `now` with rank below `k`,
      and ranks strictly increase along the sequence. */
  predicate RankedBelow(rs: seq<AnalysisResult>, k: nat, now: int)
  {
    && (forall i :: 0 <= i < |rs| ==>
          rs[i].kind != Info && rs[i].timestamp == now && IsDetectorTitle(rs[i].title) && TitleRank(rs[i].title) < k)
    && (forall i, j :: 0 <= i < j < |rs| ==> TitleRank(rs[i].title) < TitleRank(rs[j].title))
  }

  /** A rule's contribution: nothing, or one detector result of rank `k` stamped `now`. */
  predicate RuleOutput(rs: seq<AnalysisResult>, k: nat, now: int)
  {
    |rs| <= 1 && forall e :: e in rs ==> e.kind != Info && e.timestamp == now && IsDetectorTitle(e.title) && TitleRank(e.title) == k
  }

  lemma {:induction false} AppendRule(a: seq<AnalysisResult>, b: seq<AnalysisResult>, k: nat, now: int)
    requires RankedBelow(a, k, now) && RuleOutput(b, k, now)
    ensures RankedBelow(a + b, k + 1, now)
  {
    if |b| == 1 {
      assert b[0] in b;
    }
  }

  lemma TitleRanks()
    ensures TitleRank(FakeSupportTitle) == 0 && TitleRank(FakePressureTitle) == 1
    ensures TitleRank(LadderSupportTitle) == 2 && TitleRank(LadderPressureTitle) == 3
    ensures TitleRank(VacuumTitle) == 4
  {
    assert FakePressureTitle[1] != FakeSupportTitle[1];
    assert |LadderSupportTitle| != |FakeSupportTitle| && |LadderSupportTitle| != |FakePressureTitle|;
    assert |LadderPressureTitle| != |FakeSupportTitle| && |LadderPressureTitle| != |FakePressureTitle|;
    assert LadderPressureTitle[4] != LadderSupportTitle[4];
    assert VacuumTitle[0] != FakeSupportTitle[0] && VacuumTitle[0] != FakePressureTitle[0];
    assert |VacuumTitle| != |LadderSupportTitle| && |VacuumTitle| != |LadderPressureTitle|;
  }

  /** At most five results, at most one per rule (the titles are pairwise
      distinct, in rule order), none of type `info`, all stamped `now`. */
  lemma DetectShape(bids: seq<Level>, asks: seq<Level>, t: Thresholds, now: int)
    ensures var r := Detect(bids, asks, t, now);
      && |r| <= 5
      && (forall i :: 0 <= i < |r| ==> r[i].kind != Info && r[i].timestamp == now && IsDetectorTitle(r[i].title))
      && (forall i, j :: 0 <= i < j < |r| ==> r[i].title != r[j].title)
  {
    DetectRanked(bids, asks, t, now);
  }

  lemma DetectRanked(bids: seq<Level>, asks: seq<Level>, t: Thresholds, now: int)
    ensures |Detect(bids, asks, t, now)| <= 5
    ensures RankedBelow(Detect(bids, asks, t, now), 5, now)
  {
    TitleRanks();
    var w1 := WallRule(bids, t.wall, Bid, now);
    var w2 := WallRule(asks, t.wall, Ask, now);
    var l1 := LadderRule(bids, t.ladder, Bid, now);
    var l2 := LadderRule(asks, t.ladder, Ask, now);
    var v := VacuumRule(bids, asks, t.thin, now);
    assert RankedBelow([], 0, now);
    AppendRule([], w1, 0, now);
    AppendRule(w1, w2, 1, now);
    AppendRule(w1 + w2, l1, 2, now);
    AppendRule(w1 + w2 + l1, l2, 3, now);
    AppendRule(w1 + w2 + l1 + l2, v, 4, now);
  }

  /** `FirstWallFrom` finds the first wall: a wall, with no wall before it;
      and it finds none exactly when there is none. */
  lemma {:induction false} FirstWallIsFirst(v: seq<real>, minWall: real, k: nat)
    requires 2 <= |v| && k <= |v|
    ensures forall i :: FirstWallFrom(v, minWall, k) == Some(i) ==>
      k <= i < |v| && IsWallAt(v, i, minWall) && forall j :: k <= j < i ==> !IsWallAt(v, j, minWall)
    ensures FirstWallFrom(v, minWall, k) == None <==> forall j :: k <= j < |v| ==> !IsWallAt(v, j, minWall)
    decreases |v| - k
  {
    if k < |v| {
      FirstWallIsFirst(v, minWall, k + 1);
    }
  }

  /** Rule 1/2 fires exactly when the side has at least three levels and some
      top-ten level is a wall; it then reports the first such level, its
      price, its volume, and the mean of the other levels. */
  lemma WallRuleFires(levels: seq<Level>, minWall: real, side: Side, now: int)
    ensures var top := Take(levels, TopLevels); var v := Quantities(top);
      && ((|WallRule(levels, minWall, side, now)| == 1)
           <==> (|top| >= 3 && exists i :: 0 <= i < |top| && IsWallAt(v, i, minWall)))
      && (|WallRule(levels, minWall, side, now)| != 1 ==> WallRule(levels, minWall, side, now) == [])
      && (forall i :: 0 <= i < |top| && |top| >= 3 && IsWallAt(v, i, minWall)
            && (forall j :: 0 <= j < i ==> !IsWallAt(v, j, minWall))
            ==> WallRule(levels, minWall, side, now) == [WallResult(side, top[i].price, v[i], Mean(RemoveAt(v, i)), now)])
  {
    var top := Take(levels, TopLevels);
    if |top| >= 3 {
      var v := Quantities(top);
      FirstWallIsFirst(v, minWall, 0);
      forall i | 0 <= i < |top| && IsWallAt(v, i, minWall) && (forall j :: 0 <= j < i ==> !IsWallAt(v, j, minWall))
        ensures FirstWallFrom(v, minWall, 0) == Some(i)
      {
        FirstWallExact(v, minWall, i);
      }
    }
  }

  /** A wall with no wall before it is the one `FirstWallFrom` finds. */
  lemma FirstWallExact(v: seq<real>, minWall: real, i: nat)
    requires 2 <= |v| && i < |v| && IsWallAt(v, i, minWall)
    requires forall j :: 0 <= j < i ==> !IsWallAt(v, j, minWall)
    ensures FirstWallFrom(v, minWall, 0) == Some(i)
  {
    FirstWallIsFirst(v, minWall, 0);
  }

  /** With non-negative quantities a level can never exceed five times the mean
      of at most five levels, so the wall rules never fire on such a side. */
  lemma NoWallOnShallowSide(v: seq<real>, i: nat, minWall: real)
    requires 2 <= |v| <= 5 && i < |v|
    requires AllNonNegative(v)
    ensures !IsWallAt(v, i, minWall)
  {
    SumBoundsTerm(v, i);
    var n := |v| as real;
    var s := Sum(v);
    assert Mean(v) * n == s;
    assert Mean(v) * 5.0 >= Mean(v) * n;
  }

  /** For a non-negative level, the "five times the mean of all" test already
      implies the "five times the mean of the others" test. */
  lemma OtherMeanTestImplied(v: seq<real>, i: nat)
    requires 2 <= |v| && i < |v|
    requires v[i] >= 0.0
    requires v[i] > Mean(v) * 5.0
    ensures v[i] > Mean(RemoveAt(v, i)) * 5.0
  {
    SumRemoveAt(v, i);
    var n := |v| as real;
    var s := Sum(v);
    assert Mean(v) * n == s;
    MulStrict(v[i], Mean(v) * 5.0, n);
    assert v[i] * n > 5.0 * s;
    var o := Mean(RemoveAt(v, i));
    assert o * (n - 1.0) == s - v[i];
    assert v[i] * (n - 1.0) > 5.0 * (s - v[i]);
    if v[i] <= o * 5.0 {
      MulWeak(o * 5.0, v[i], n - 1.0);
    }
  }

  /** The squared test is the source's coefficient-of-variation test: for any
      standard deviation `sd` (a non-negative root of the variance) and positive
      mean `m`, `sd / m < 0.5` exactly when `variance < 0.25 * m * m`. */
  lemma SquaredSpreadTest(variance: real, sd: real, m: real)
    requires sd >= 0.0 && sd * sd == variance && m > 0.0
    ensures sd / m < 0.5 <==> EvenlySpread(variance, m)
  {
    var h := 0.5 * m;
    BelowHalfMean(sd, m);
    assert h * h == 0.25 * m * m;
    if sd < h {
      SquareLess(sd, h);
    } else if h < sd {
      SquareLess(h, sd);
    }
  }

  lemma BelowHalfMean(sd: real, m: real)
    requires m > 0.0
    ensures sd / m < 0.5 <==> sd < 0.5 * m
  {
    var q := sd / m;
    assert q * m == sd;
    if q < 0.5 {
      MulStrict(0.5, q, m);
    } else {
      MulWeak(q, 0.5, m);
    }
  }

  lemma SquareLess(a: real, b: real)
    requires 0.0 <= a < b
    ensures a * a < b * b
  {
    calc {
      a * a;
    <=  { if a > 0.0 { MulStrict(b, a, a); } }
      b * a;
    ==
      a * b;
    <   { MulStrict(b, a, b); }
      b * b;
    }
  }

  /** Rule 3/4 fires exactly when the side has five levels, their mean exceeds
      the ladder threshold and they are evenly spread; it reports the lowest
      of the five prices, the mean, and a total of five times the mean. */
  lemma LadderRuleFires(levels: seq<Level>, minAvg: real, side: Side, now: int)
    ensures var r := LadderRule(levels, minAvg, side, now);
      && |r| <= 1
      && (|r| == 1 <==> |levels| >= 5 && var v := Quantities(levels[..5]);
                        Mean(v) > minAvg && EvenlySpread(Variance(v, Mean(v)), Mean(v)))
      && (|r| == 1 ==>
            var v := Quantities(levels[..5]);
            && r[0].avgVolume == Some(Mean(v))
            && r[0].totalVolume == Some(5.0 * Mean(v))
            && r[0].price.Some?
            && (forall j :: 0 <= j < 5 ==> r[0].price.value <= levels[j].price)
            && (exists j :: 0 <= j < 5 && r[0].price.value == levels[j].price)
            && r[0].severity == (if side == Bid then Low else Medium))
  {
    if |levels| >= 5 {
      assert Take(levels, TopLevels)[..5] == levels[..5];
      var ps := Prices(levels[..5]);
      var m := MinOf(ps);
      assert m in ps;
    }
  }

  /** Rule 5 fires exactly when both sides have three levels and their best
      three quantities together stay below the threshold; it reports that total
      and no price. */
  lemma VacuumRuleFires(bids: seq<Level>, asks: seq<Level>, maxThin: real, now: int)
    ensures var r := VacuumRule(bids, asks, maxThin, now);
      && |r| <= 1
      && (|r| == 1 <==> |bids| >= 3 && |asks| >= 3
                        && Sum(Quantities(bids[..3])) + Sum(Quantities(asks[..3])) < maxThin)
      && (|r| == 1 ==> r[0].totalVolume == Some(Sum(Quantities(bids[..3])) + Sum(Quantities(asks[..3])))
                       && r[0].price.None? && r[0].severity == High)
  {
  }

  // ---------------------------------------------------------------------------
  // Worked snapshots
  // ---------------------------------------------------------------------------

  /** Five bid levels with one of 1000 among levels of 10: the mean is 208, and
      1000 is not more than five times that, so no bid wall is reported
      (a wall needs more than five levels). */
  lemma FiveLevelSpikeIsNoWall(now: int)
    ensures WallRule([Level(100.0, 10.0), Level(99.9, 10.0), Level(99.8, 10.0), Level(99.7, 1000.0), Level(99.6, 10.0)],
                     DefaultMinVolumeForWall, Bid, now) == []
  {
    var levels := [Level(100.0, 10.0), Level(99.9, 10.0), Level(99.8, 10.0), Level(99.7, 1000.0), Level(99.6, 10.0)];
    var v := Quantities(levels);
    assert Take(levels, TopLevels) == levels;
    forall i | 0 <= i < 5 ensures !IsWallAt(v, i, DefaultMinVolumeForWall) {
      NoWallOnShallowSide(v, i, DefaultMinVolumeForWall);
    }
    FirstWallIsFirst(v, DefaultMinVolumeForWall, 0);
  }

  /** Five bids of 600 form a support ladder with mean 600 and total 3000. */
  lemma EvenBidsFormLadder(now: int)
    ensures LadderRule([Level(100.0, 600.0), Level(99.9, 600.0), Level(99.8, 600.0), Level(99.7, 600.0), Level(99.6, 600.0)],
                       DefaultMinAvgVolumeForLadder, Bid, now)
            == [LadderResult(Bid, 99.6, 600.0, 3000.0, now)]
  {
    var levels := [Level(100.0, 600.0), Level(99.9, 600.0), Level(99.8, 600.0), Level(99.7, 600.0), Level(99.6, 600.0)];
    assert Take(levels, TopLevels)[..5] == levels;
    var v := Quantities(levels);
    assert v == [600.0, 600.0, 600.0, 600.0, 600.0];
    assert Sum([600.0]) == 600.0;
    assert Sum([600.0, 600.0]) == 1200.0;
    assert Sum([600.0, 600.0, 600.0]) == 1800.0;
    assert Sum([600.0, 600.0, 600.0, 600.0]) == 2400.0;
    assert Sum(v) == 3000.0;
    assert SquaredDeviations([600.0], 600.0) == 0.0;
    assert SquaredDeviations([600.0, 600.0], 600.0) == 0.0;
    assert SquaredDeviations([600.0, 600.0, 600.0], 600.0) == 0.0;
    assert SquaredDeviations([600.0, 600.0, 600.0, 600.0], 600.0) == 0.0;
    assert SquaredDeviations(v, 600.0) == 0.0;
    var ps := Prices(levels);
    assert ps == [100.0, 99.9, 99.8, 99.7, 99.6];
    assert MinOf(ps) == 99.6;
  }
}

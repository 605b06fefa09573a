/**
  * The score calculator (lib/scoring.ts): banded contributions from funding
  * rate, long/short ratio, fear-greed index, ETF flow and order-book features,
  * added to a base of 50, clamped to [0, 100] and mapped to a recommendation.
  *
  * Every contribution is an integer, so the source's final `Math.round` is
  * the identity and the model keeps scores as `int`. The reason texts are not
  * modelled.
  */
module Scoring {
  import opened Common
  import opened OrderBookAnalysis
  import opened OrderBookFeatures

  datatype ScoringInputs = ScoringInputs(
    fundingRate: real,              // percent
    longShortRatio: Option<real>,   // null when unavailable
    fearGreedIndex: real,           // 0-100
    oiPattern: string,              // carried but not scored
    etfFlow: real,                  // hundreds of millions of USD
    orderBookFeatures: seq<string>)

  datatype Category = FundingRate | LongShortRatio | FearGreedIndex | EtfFlow | OrderBookFeatures

  datatype ScoreBreakdown = ScoreBreakdown(category: Category, score: int)

  datatype Recommendation = StrongBuy | Hold | Sell

  datatype ScoringResult = ScoringResult(
    totalScore: int,
    breakdown: seq<ScoreBreakdown>,
    recommendation: Recommendation,
    recommendationText: string)

  const BaseScore: int := 50

  // ---------------------------------------------------------------------------
  // Contributions, one function per category
  // ---------------------------------------------------------------------------

  /** Funding rate bands, first match wins; the gaps between bands score 0. */
  function FundingScore(rate: real): int
  {
    if rate > 0.10 then -20
    else if 0.07 <= rate <= 0.09 then -10
    else if 0.0 <= rate <= 0.02 then 10
    else if -0.04 <= rate <= -0.01 then 20
    else if rate < -0.05 then 30
    else 0
  }

  /** Crowded longs score -20, crowded shorts +20; a missing ratio scores 0. */
  function LongShortScore(ratio: Option<real>): int
  {
    match ratio
    case None => 0
    case Some(r) => if r > 2.5 then -20 else if r < 0.4 then 20 else 0
  }

  /** Extreme greed scores -20, extreme fear +30. */
  function FearGreedScore(index: real): int
  {
    if index > 90.0 then -20 else if index < 10.0 then 30 else 0
  }

  /** Strong inflow +30, inflow +15, outflow beyond 3 scores -15. */
  function EtfScore(flow: real): int
  {
    if flow > 10.0 then 30 else if flow > 5.0 then 15 else if flow < -3.0 then -15 else 0
  }

  /** `orderBookScores[feature] || 0`: the score table, unknown names 0. */
  function FeatureScore(feature: string): int
  {
    if feature == RealSupport then 10
    else if feature == FakeSupport then -5
    else if feature == RealBreakout then 15
    else if feature == "fake-support-removed" then -15
    else 0
  }

  /** The order-book contribution: every listed feature counts, repeats included. */
  function OrderBookTotal(features: seq<string>): int
  {
    if |features| == 0 then 0
    else OrderBookTotal(features[..|features| - 1]) + FeatureScore(features[|features| - 1])
  }

  /** `Math.max(0, Math.min(100, x))`. */
  function Clamp(x: int): (r: int)
    ensures 0 <= r <= 100
    ensures 0 <= x <= 100 ==> r == x
    ensures x < 0 ==> r == 0
    ensures x > 100 ==> r == 100
  {
    if x > 100 then 100 else if x < 0 then 0 else x
  }

  function RecommendationFor(score: int): Recommendation
  {
    if score > 75 then StrongBuy else if score >= 40 then Hold else Sell
  }

  function RecommendationText(r: Recommendation): string
  {
    match r
    case StrongBuy => "强烈买入 (Strong Buy)"
    case Hold => "持有/观望 (Hold)"
    case Sell => "减仓/卖出 (Sell)"
  }

  /** The sum of the breakdown's scores. */
  function BreakdownSum(breakdown: seq<ScoreBreakdown>): int
  {
    if |breakdown| == 0 then 0 else breakdown[0].score + BreakdownSum(breakdown[1..])
  }

  // ---------------------------------------------------------------------------
  // The calculator
  // ---------------------------------------------------------------------------

  /** The `forEach` over the features, accumulating their scores. */
  method SumFeatureScores(features: seq<string>) returns (orderBookTotal: int)
    ensures orderBookTotal == OrderBookTotal(features)
  {
    orderBookTotal := 0;
    var i := 0;
    while i < |features|
      invariant 0 <= i <= |features|
      invariant orderBookTotal == OrderBookTotal(features[..i])
    {
      assert features[..i + 1][..i] == features[..i];
      var score := FeatureScore(features[i]);
      orderBookTotal := orderBookTotal + score;
      i := i + 1;
    }
    assert features[..i] == features;
  }

  /** Section 1 of `calculateScore`: the funding-rate branch chain. */
  method ScoreFundingRate(fundingRate: real) returns (score: int)
    ensures score == FundingScore(fundingRate)
  {
    if fundingRate > 0.10 {
      score := -20;
    } else if fundingRate >= 0.07 && fundingRate <= 0.09 {
      score := -10;
    } else if fundingRate >= 0.0 && fundingRate <= 0.02 {
      score := 10;
    } else if fundingRate >= -0.04 && fundingRate <= -0.01 {
      score := 20;
    } else if fundingRate < -0.05 {
      score := 30;
    } else {
      score := 0;
    }
  }

  /** Section 2: the long/short ratio, when available. */
  method ScoreLongShortRatio(longShortRatio: Option<real>) returns (score: int)
    ensures score == LongShortScore(longShortRatio)
  {
    if longShortRatio.Some? {
      var ratio := longShortRatio.value;
      if ratio > 2.5 {
        score := -20;
      } else if ratio < 0.4 {
        score := 20;
      } else {
        score := 0;
      }
    } else {
      score := 0;
    }
  }

  /** Section 3: the fear-greed index. */
  method ScoreFearGreed(fng: real) returns (score: int)
    ensures score == FearGreedScore(fng)
  {
    if fng > 90.0 {
      score := -20;
    } else if fng < 10.0 {
      score := 30;
    } else {
      score := 0;
    }
  }

  /** Section 5: the ETF flow. */
  method ScoreEtfFlow(etfFlow: real) returns (score: int)
    ensures score == EtfScore(etfFlow)
  {
    if etfFlow > 10.0 {
      score := 30;
    } else if etfFlow > 5.0 {
      score := 15;
    } else if etfFlow < -3.0 {
      score := -15;
    } else {
      score := 0;
    }
  }

  /** `calculateScore`: five categories in a fixed order, base 50, clamp, recommendation. */
  method CalculateScore(inputs: ScoringInputs) returns (r: ScoringResult)
    ensures |r.breakdown| == 5
    ensures r.breakdown[0] == ScoreBreakdown(FundingRate, FundingScore(inputs.fundingRate))
    ensures r.breakdown[1] == ScoreBreakdown(LongShortRatio, LongShortScore(inputs.longShortRatio))
    ensures r.breakdown[2] == ScoreBreakdown(FearGreedIndex, FearGreedScore(inputs.fearGreedIndex))
    ensures r.breakdown[3] == ScoreBreakdown(EtfFlow, EtfScore(inputs.etfFlow))
    ensures r.breakdown[4] == ScoreBreakdown(OrderBookFeatures, OrderBookTotal(inputs.orderBookFeatures))
    ensures r.totalScore == Clamp(BaseScore + BreakdownSum(r.breakdown))
    ensures 0 <= r.totalScore <= 100
    ensures r.recommendation == RecommendationFor(r.totalScore)
    ensures r.recommendationText == RecommendationText(r.recommendation)
  {
    var breakdown: seq<ScoreBreakdown> := [];
    var totalScore := BaseScore;

    var funding := ScoreFundingRate(inputs.fundingRate);
    totalScore := totalScore + funding;
    breakdown := breakdown + [ScoreBreakdown(FundingRate, funding)];

    var longShort := ScoreLongShortRatio(inputs.longShortRatio);
    totalScore := totalScore + longShort;
    breakdown := breakdown + [ScoreBreakdown(LongShortRatio, longShort)];

    var fearGreed := ScoreFearGreed(inputs.fearGreedIndex);
    totalScore := totalScore + fearGreed;
    breakdown := breakdown + [ScoreBreakdown(FearGreedIndex, fearGreed)];

    var etf := ScoreEtfFlow(inputs.etfFlow);
    totalScore := totalScore + etf;
    breakdown := breakdown + [ScoreBreakdown(EtfFlow, etf)];

    var orderBookTotal := SumFeatureScores(inputs.orderBookFeatures);
    totalScore := totalScore + orderBookTotal;
    breakdown := breakdown + [ScoreBreakdown(OrderBookFeatures, orderBookTotal)];

    BreakdownSumOfFive(breakdown);
    totalScore := if 100 < totalScore then 100 else totalScore;
    totalScore := if 0 > totalScore then 0 else totalScore;

    var recommendation: Recommendation;
    var recommendationText: string;
    if totalScore > 75 {
      recommendation := StrongBuy;
      recommendationText := "强烈买入 (Strong Buy)";
    } else if totalScore >= 40 {
      recommendation := Hold;
      recommendationText := "持有/观望 (Hold)";
    } else {
      recommendation := Sell;
      recommendationText := "减仓/卖出 (Sell)";
    }

    r := ScoringResult(totalScore, breakdown, recommendation, recommendationText);
  }

  /** A five-entry breakdown sums entry by entry. */
  lemma BreakdownSumOfFive(b: seq<ScoreBreakdown>)
    requires |b| == 5
    ensures BreakdownSum(b) == b[0].score + b[1].score + b[2].score + b[3].score + b[4].score
  {
    assert BreakdownSum(b[4..]) == b[4].score + BreakdownSum(b[5..]);
    assert BreakdownSum(b[3..]) == b[3].score + BreakdownSum(b[4..]);
    assert BreakdownSum(b[2..]) == b[2].score + BreakdownSum(b[3..]);
    assert BreakdownSum(b[1..]) == b[1].score + BreakdownSum(b[2..]);
    assert b[5..] == [];
  }

  // ---------------------------------------------------------------------------
  // What the score promises
  // ---------------------------------------------------------------------------

  /** Each funding band, stated as a condition on the rate: the five scored
      bands and the gaps between them, which score 0. */
  lemma FundingBands(rate: real)
    ensures FundingScore(rate) == -20 <==> rate > 0.10
    ensures FundingScore(rate) == -10 <==> 0.07 <= rate <= 0.09
    ensures FundingScore(rate) == 10 <==> 0.0 <= rate <= 0.02
    ensures FundingScore(rate) == 20 <==> -0.04 <= rate <= -0.01
    ensures FundingScore(rate) == 30 <==> rate < -0.05
    ensures FundingScore(rate) == 0 <==>
      (0.09 < rate <= 0.10) || (0.02 < rate < 0.07) || (-0.01 < rate < 0.0) || (-0.05 <= rate < -0.04)
  {
  }

  /** The other three contributions, each band stated as a condition on its
      input: a missing long/short ratio is neutral, and the ETF outflow band
      starts strictly below -3. */
  lemma SentimentBands(ratio: Option<real>, index: real, flow: real)
    ensures LongShortScore(ratio) == -20 <==> ratio.Some? && ratio.value > 2.5
    ensures LongShortScore(ratio) == 20 <==> ratio.Some? && ratio.value < 0.4
    ensures LongShortScore(ratio) == 0 <==> ratio.None? || 0.4 <= ratio.value <= 2.5
    ensures FearGreedScore(index) == -20 <==> index > 90.0
    ensures FearGreedScore(index) == 30 <==> index < 10.0
    ensures FearGreedScore(index) == 0 <==> 10.0 <= index <= 90.0
    ensures EtfScore(flow) == 30 <==> flow > 10.0
    ensures EtfScore(flow) == 15 <==> 5.0 < flow <= 10.0
    ensures EtfScore(flow) == -15 <==> flow < -3.0
    ensures EtfScore(flow) == 0 <==> -3.0 <= flow <= 5.0
  {
  }

  /** The recommendation bands, stated on the clamped score. */
  lemma RecommendationBands(score: int)
    ensures RecommendationFor(score) == StrongBuy <==> score > 75
    ensures RecommendationFor(score) == Hold <==> 40 <= score <= 75
    ensures RecommendationFor(score) == Sell <==> score < 40
  {
  }

  /** The order-book contribution distributes over concatenation, so every
      occurrence of a feature counts and order does not matter. */
  lemma {:induction false} OrderBookTotalAppend(a: seq<string>, b: seq<string>)
    ensures OrderBookTotal(a + b) == OrderBookTotal(a) + OrderBookTotal(b)
    decreases |b|
  {
    if |b| == 0 {
      assert a + b == a;
    } else {
      var ab := a + b;
      assert ab[..|ab| - 1] == a + b[..|b| - 1];
      OrderBookTotalAppend(a, b[..|b| - 1]);
    }
  }

  /** On a list of distinct known features, as the feature extractor builds,
      the contribution is 10 for real support, -5 for fake support and 15 for
      a real breakout, each counted once. */
  lemma {:induction false} DistinctFeaturesTotal(features: seq<string>)
    requires NoRepeats(features)
    requires forall i :: 0 <= i < |features| ==> features[i] in {RealSupport, FakeSupport, RealBreakout}
    ensures OrderBookTotal(features) ==
      (if RealSupport in features then 10 else 0)
      + (if FakeSupport in features then -5 else 0)
      + (if RealBreakout in features then 15 else 0)
  {
    if |features| > 0 {
      var init := features[..|features| - 1];
      var x := features[|features| - 1];
      assert NoRepeats(init) by {
        forall i, j | 0 <= i < j < |init| ensures init[i] != init[j] {
          assert init[i] == features[i] && init[j] == features[j];
        }
      }
      assert x !in init by {
        forall i | 0 <= i < |init| ensures init[i] != x {
          assert init[i] == features[i];
        }
      }
      DistinctFeaturesTotal(init);
      assert forall y :: y in features <==> y in init || y == x;
    }
  }

  /** Scoring the extractor's output: the order-book contribution is 10 when a
      support ladder was seen, -5 when a spoofed wall was seen and 15 when a
      vacuum was seen, so it lies between -5 and 25. */
  lemma ExtractedFeaturesScore(results: seq<AnalysisResult>)
    ensures OrderBookTotal(FeaturesOf(results)) ==
      (if exists i :: 0 <= i < |results| && results[i].title == LadderSupportTitle then 10 else 0)
      + (if exists i :: 0 <= i < |results| && (results[i].title == FakeSupportTitle || results[i].title == FakePressureTitle) then -5 else 0)
      + (if exists i :: 0 <= i < |results| && results[i].title == VacuumTitle then 15 else 0)
    ensures -5 <= OrderBookTotal(FeaturesOf(results)) <= 25
  {
    var f := FeaturesOf(results);
    FeaturesDistinctAndKnown(results);
    forall i | 0 <= i < |f| ensures f[i] in {RealSupport, FakeSupport, RealBreakout} {
      assert f[i] in f;
    }
    DistinctFeaturesTotal(f);
    FeaturesByTitle(results);
  }
}

/**
  * The bridge from detections to scoring features
  * (lib/orderbook-to-features.ts): each detector title maps to at most one
  * feature name, and each feature is listed once, in order of first trigger.
  */
module OrderBookFeatures {
  import opened Common
  import opened OrderBookAnalysis

  const RealSupport: string := "real-support"
  const FakeSupport: string := "fake-support"
  const RealBreakout: string := "real-breakout"

  /** Feature window used when the caller gives none, and the one the
      dashboard passes: one minute. */
  const DefaultFeatureWindowMs: int := 60000

  /** The feature a detection title triggers: ladder support is real support,
      either spoofed wall is fake support, a vacuum is a real breakout, and
      ladder pressure (like any other title) triggers nothing. */
  function FeatureOf(title: string): (f: Option<string>)
    ensures f.Some? ==> f.value in {RealSupport, FakeSupport, RealBreakout}
  {
    if title == LadderSupportTitle then Some(RealSupport)
    else if title == FakeSupportTitle then Some(FakeSupport)
    else if title == FakePressureTitle then Some(FakeSupport)
    else if title == VacuumTitle then Some(RealBreakout)
    else None
  }

  /** The features of a sequence of detections, as the loop builds them. */
  function FeaturesOf(results: seq<AnalysisResult>): seq<string>
  {
    if |results| == 0 then []
    else
      var features := FeaturesOf(results[..|results| - 1]);
      match FeatureOf(results[|results| - 1].title)
      case Some(x) => if x in features then features else features + [x]
      case None => features
  }

  /** `convertOrderBookToFeatures`: one pass, pushing each triggered feature unless already present. */
  method ConvertOrderBookToFeatures(analysisResults: seq<AnalysisResult>) returns (features: seq<string>)
    ensures features == FeaturesOf(analysisResults)
  {
    features := [];
    var i := 0;
    while i < |analysisResults|
      invariant 0 <= i <= |analysisResults|
      invariant features == FeaturesOf(analysisResults[..i])
    {
      var result := analysisResults[i];
      assert analysisResults[..i + 1][..i] == analysisResults[..i];
      if result.title == LadderSupportTitle {
        if RealSupport !in features {
          features := features + [RealSupport];
        }
      }
      if result.title == FakeSupportTitle {
        if FakeSupport !in features {
          features := features + [FakeSupport];
        }
      }
      if result.title == FakePressureTitle {
        if FakeSupport !in features {
          features := features + [FakeSupport];
        }
      }
      if result.title == VacuumTitle {
        if RealBreakout !in features {
          features := features + [RealBreakout];
        }
      }
      i := i + 1;
    }
    assert analysisResults[..i] == analysisResults;
  }

  /** Detections younger than the window: `now - timestamp < window`, strictly. */
  function RecentResults(history: seq<AnalysisResult>, timeWindowMs: int, now: int): seq<AnalysisResult>
  {
    Filter(history, (r: AnalysisResult) => now - r.timestamp < timeWindowMs)
  }

  /** `extractOrderBookFeatures(history, timeWindowMs)` with `Date.now()` passed in as `now`. */
  method ExtractOrderBookFeatures(history: seq<AnalysisResult>, timeWindowMs: int, now: int) returns (features: seq<string>)
    ensures features == FeaturesOf(RecentResults(history, timeWindowMs, now))
  {
    var recentResults := RecentResults(history, timeWindowMs, now);
    features := ConvertOrderBookToFeatures(recentResults);
  }

  /** The dashboard's call, `extractOrderBookFeatures(orderBookHistory, 60000)`:
      a feature is listed exactly when a detection of the last minute triggers it. */
  method PageOrderBookFeatures(history: seq<AnalysisResult>, now: int) returns (features: seq<string>)
    ensures forall x :: x in features <==>
      exists i :: 0 <= i < |history| && now - history[i].timestamp < 60000 && FeatureOf(history[i].title) == Some(x)
  {
    features := ExtractOrderBookFeatures(history, DefaultFeatureWindowMs, now);
    forall x ensures x in features <==>
      exists i :: 0 <= i < |history| && now - history[i].timestamp < 60000 && FeatureOf(history[i].title) == Some(x)
    {
      RecentFeatureIff(history, DefaultFeatureWindowMs, now, x);
    }
  }

  // ---------------------------------------------------------------------------
  // Properties of the feature list
  // ---------------------------------------------------------------------------

  /** A feature is listed exactly when some detection triggers it. */
  lemma {:induction false} FeaturePresentIff(results: seq<AnalysisResult>, x: string)
    ensures x in FeaturesOf(results) <==> exists i :: 0 <= i < |results| && FeatureOf(results[i].title) == Some(x)
  {
    if |results| > 0 {
      var init := results[..|results| - 1];
      FeaturePresentIff(init, x);
      if exists i :: 0 <= i < |init| && FeatureOf(init[i].title) == Some(x) {
        var i :| 0 <= i < |init| && FeatureOf(init[i].title) == Some(x);
        assert results[i] == init[i];
      }
      if exists i :: 0 <= i < |results| && FeatureOf(results[i].title) == Some(x) {
        var i :| 0 <= i < |results| && FeatureOf(results[i].title) == Some(x);
        if i < |init| {
          assert init[i] == results[i];
        }
      }
    }
  }

  /** Which titles trigger which feature: only ladder support triggers real
      support, only the two spoofed walls trigger fake support, and only a
      vacuum triggers a real breakout. */
  lemma FeatureOfInverse(title: string)
    ensures FeatureOf(title) == Some(RealSupport) <==> title == LadderSupportTitle
    ensures FeatureOf(title) == Some(FakeSupport) <==> title == FakeSupportTitle || title == FakePressureTitle
    ensures FeatureOf(title) == Some(RealBreakout) <==> title == VacuumTitle
  {
    TitleRanks();
    assert RealSupport[0] == 'r' && FakeSupport[0] == 'f' && RealSupport[5] == 's' && RealBreakout[5] == 'b';
  }

  /** Each feature is listed exactly when a detection with one of its titles exists. */
  lemma FeaturesByTitle(results: seq<AnalysisResult>)
    ensures RealSupport in FeaturesOf(results) <==> exists i :: 0 <= i < |results| && results[i].title == LadderSupportTitle
    ensures FakeSupport in FeaturesOf(results) <==>
      exists i :: 0 <= i < |results| && (results[i].title == FakeSupportTitle || results[i].title == FakePressureTitle)
    ensures RealBreakout in FeaturesOf(results) <==> exists i :: 0 <= i < |results| && results[i].title == VacuumTitle
  {
    FeaturePresentIff(results, RealSupport);
    FeaturePresentIff(results, FakeSupport);
    FeaturePresentIff(results, RealBreakout);
    forall i | 0 <= i < |results| {
      FeatureOfInverse(results[i].title);
    }
  }

  /** No feature is listed twice, and only the three scored features appear. */
  lemma {:induction false} FeaturesDistinctAndKnown(results: seq<AnalysisResult>)
    ensures NoRepeats(FeaturesOf(results))
    ensures forall x :: x in FeaturesOf(results) ==> x in {RealSupport, FakeSupport, RealBreakout}
  {
    if |results| > 0 {
      var init := results[..|results| - 1];
      FeaturesDistinctAndKnown(init);
      var before := FeaturesOf(init);
      match FeatureOf(results[|results| - 1].title)
      case Some(x) =>
        if x !in before {
          var f := before + [x];
          forall i, j | 0 <= i < j < |f| ensures f[i] != f[j] {
            assert f[i] == before[i] && before[i] in before;
            if j < |before| {
              assert f[j] == before[j];
            }
          }
        }
      case None =>
        assert FeaturesOf(results) == before;
    }
  }

  /** At most three features, since they are distinct and drawn from three names. */
  lemma FeaturesAtMostThree(results: seq<AnalysisResult>)
    ensures |FeaturesOf(results)| <= 3
  {
    var f := FeaturesOf(results);
    FeaturesDistinctAndKnown(results);
    forall i | 0 <= i < |f| ensures f[i] in {RealSupport, FakeSupport, RealBreakout} {
      assert f[i] in f;
    }
    DistinctWithin(f, {RealSupport, FakeSupport, RealBreakout});
  }

  /** Later detections only append: the features of a prefix are a prefix of the features. */
  lemma {:induction false} FeaturesGrowByAppending(results: seq<AnalysisResult>, more: seq<AnalysisResult>)
    ensures FeaturesOf(results) <= FeaturesOf(results + more)
    decreases |more|
  {
    if |more| == 0 {
      assert results + more == results;
    } else {
      var all := results + more;
      assert all[..|all| - 1] == results + more[..|more| - 1];
      FeaturesGrowByAppending(results, more[..|more| - 1]);
    }
  }

  /** A feature is listed for a window exactly when some detection of the
      history younger than the window triggers it. */
  lemma RecentFeatureIff(history: seq<AnalysisResult>, timeWindowMs: int, now: int, x: string)
    ensures x in FeaturesOf(RecentResults(history, timeWindowMs, now)) <==>
      exists i :: 0 <= i < |history| && now - history[i].timestamp < timeWindowMs && FeatureOf(history[i].title) == Some(x)
  {
    var recent := RecentResults(history, timeWindowMs, now);
    FeaturePresentIff(recent, x);
    if x in FeaturesOf(recent) {
      var k :| 0 <= k < |recent| && FeatureOf(recent[k].title) == Some(x);
      var i :| 0 <= i < |history| && history[i] == recent[k];
    }
    if exists i :: 0 <= i < |history| && now - history[i].timestamp < timeWindowMs && FeatureOf(history[i].title) == Some(x) {
      var i :| 0 <= i < |history| && now - history[i].timestamp < timeWindowMs && FeatureOf(history[i].title) == Some(x);
      assert history[i] in recent;
    }
  }

  /** Widening the time window never loses a feature. */
  lemma WiderWindowKeepsFeatures(history: seq<AnalysisResult>, narrow: int, wide: int, now: int, x: string)
    requires narrow <= wide
    requires x in FeaturesOf(RecentResults(history, narrow, now))
    ensures x in FeaturesOf(RecentResults(history, wide, now))
  {
    var rn := RecentResults(history, narrow, now);
    var rw := RecentResults(history, wide, now);
    FeaturePresentIff(rn, x);
    FeaturePresentIff(rw, x);
    var i :| 0 <= i < |rn| && FeatureOf(rn[i].title) == Some(x);
    var j :| 0 <= j < |history| && history[j] == rn[i];
    var k :| 0 <= k < |rw| && rw[k] == history[j];
  }
}

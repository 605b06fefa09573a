# crypto-vibe-scorer, the order-book radar and its scoring, in Dafny

This project models the decision logic of crypto-vibe-scorer, a dashboard
that scores a coin's "vibe" from market data. The modelled parts are:

- **The order-book radar detector** (`OrderBookAnalysis`). It applies five
  threshold rules to one depth snapshot:
  - a bid wall and an ask wall (spoofing);
  - a support ladder and a resistance ladder;
  - a liquidity vacuum.
- **The dashboard's bounded detection history** (`Dashboard.RadarPanel`). Each
  poll appends the detector's non-`info` results and keeps the newest 100.
- **The rolling summariser** (`OrderBookSummary`). It keeps the last hour and
  counts signals by kind and by severity. From those counts it derives a risk
  level, a trend, the key points and the narrative.
- **The feature extractor** (`OrderBookFeatures`). It turns recent detections
  into a deduplicated list of scoring features.
- **The score calculator** (`Scoring`). It adds five banded contributions to a
  base of 50, clamps the total to [0, 100] and maps it to buy, hold or sell.
- **The open-interest trend classifier and its data-source chain**
  (`OIAnalysis`), and the page's own client-side copy of the classifier
  (`Dashboard.ClassifyOnClient`).
- **The newest-first, capped score-history store** (`ScoreHistory.HistoryStore`).
- **The dashboard's small helpers**: the chart series capped at 10 points,
  the threshold inputs with their fallbacks, `getTimeAgo`, `hasETFData` and
  `getETFLink`.
- **The news route** (`News`). It covers:
  - the CoinGecko and block-explorer lookups;
  - the tracked-tweet selection over RSS mirrors, including its text
    clean-up and link rewriting;
  - the assembly of the news list, its stable sort with on-chain tweets pinned
    first, and the truncation to `limit`.

Conventions:

- `Date.now()` becomes a `now` parameter. The news route reads the clock separately for each account's undated tweet (app/api/news/route.ts:332), for the explorer item (:109) and for the project item (:141); each reading is its own parameter, with no order assumed among them.
- Fetch results become parameters describing how each request ended.
- Quantities and prices are `real`, timestamps `int`, strings `seq<char>`.
- The ladder's `sqrt(variance) / mean < 0.5` test is stated as
  `variance < 0.25 * mean * mean` for a positive mean.
  `OrderBookAnalysis.SquaredSpreadTest` proves the two tests agree for any
  non-negative root.
- Dafny's `/` by a positive integer rounds down, like `Math.floor` of the
  division.

Where the code and the design description of the system disagree, the model
follows the code:

- **A wall on a five-level side.** The description's first worked example has
  five bid levels with one spike of 1000 among levels of 10 and expects a bid
  wall. As written, the wall test compares a level with five times the mean of
  all levels, and that mean includes the level itself. With at most five
  non-negative levels, no level can pass. So this input reports no wall.
  `OrderBookAnalysis.FiveLevelSpikeIsNoWall` and
  `OrderBookAnalysis.NoWallOnShallowSide` prove it.
- **Method 3 and `isRealOI`.** Method 3 of the open-interest chain (Binance's
  standard endpoint) succeeds without setting `isRealOI`, so its real data is
  reported as not real. `OIAnalysis.RealOnlyFromFirstTwoMethods` states this.
- **The page's `info` filter.** The page filters `info` results out of each
  poll, but the detector never produces one, so the filter keeps everything.
  `Dashboard.FilterIsNoOp` proves it.

## Model

| member | source | states |
|---|---|---|
| OrderBookAnalysis.Resolve | lib/orderbook-analysis.ts:32-36 | an undefined threshold takes its default (100 for walls, 500 for ladders, 50 for the vacuum); a defined one, whatever its value, is kept |
| OrderBookAnalysis.ScanForWall | lib/orderbook-analysis.ts:45-72 | the loop over the top ten levels, stopping at the first wall, yields exactly the wall rule's result for that side (bids as `warning`/`medium`, asks as `danger`/`high`) |
| OrderBookAnalysis.CheckLadder | lib/orderbook-analysis.ts:108-134 | the ladder test over the best five levels yields exactly the ladder rule's result for that side |
| OrderBookAnalysis.CheckVacuum | lib/orderbook-analysis.ts:169-186 | the vacuum test over the best three levels of both sides yields exactly the vacuum rule's result |
| OrderBookAnalysis.AnalyzeOrderBook | lib/orderbook-analysis.ts:27-192 | the result is the five rules' outputs in evaluation order; at most 5 results, none of type `info`, all stamped with the one `now` parameter |
| OrderBookAnalysis.DetectShape | lib/orderbook-analysis.ts:37-191 | at most five results, at most one per rule: the titles are detector titles and pairwise distinct, none is `info`, all stamped with the one `now` parameter |
| OrderBookAnalysis.DetectRanked | lib/orderbook-analysis.ts:37-191 | the results appear in rule order (bid wall, ask wall, support ladder, resistance ladder, vacuum), each rule contributing at most one |
| OrderBookAnalysis.FirstWallIsFirst | lib/orderbook-analysis.ts:50-72 | the scan reports a wall with no wall before it, and reports none exactly when no level from the start index on is a wall |
| OrderBookAnalysis.WallRuleFires | lib/orderbook-analysis.ts:45-103 | a wall is reported iff the side has at least three levels and some top-ten level is a wall; it carries the first such level's price, its volume and the mean of the other levels; otherwise nothing is reported |
| OrderBookAnalysis.NoWallOnShallowSide | lib/orderbook-analysis.ts:47-57 | with non-negative quantities, no level of a side with at most five levels exceeds five times the mean, so the wall rules cannot fire there |
| OrderBookAnalysis.OtherMeanTestImplied | lib/orderbook-analysis.ts:52-57 | for a non-negative level, beating five times the mean of all levels implies beating five times the mean of the others |
| OrderBookAnalysis.SquaredSpreadTest | lib/orderbook-analysis.ts:113-118 | for a positive mean and any non-negative square root of the variance, `sd / m < 0.5` iff `variance < 0.25 * m * m` |
| OrderBookAnalysis.LadderRuleFires | lib/orderbook-analysis.ts:108-164 | a ladder is reported iff the side has five levels whose mean exceeds the threshold and which are evenly spread; it carries the lowest of the five prices, the mean, and a total of five times the mean |
| OrderBookAnalysis.VacuumRuleFires | lib/orderbook-analysis.ts:169-185 | a vacuum is reported iff both sides have three levels and their top-three sums together are below the threshold; it carries that total and no price |
| OrderBookAnalysis.FiveLevelSpikeIsNoWall | lib/orderbook-analysis.ts:45-72 | five bid levels with one spike of 1000 among levels of 10 produce no wall with the default threshold |
| OrderBookAnalysis.EvenBidsFormLadder | lib/orderbook-analysis.ts:108-134 | five bids of 600 form a support ladder with mean 600 and total 3000 under the default threshold |
| OrderBookSummary.CountWindow | lib/orderbook-summary.ts:41-58 | the counting pass over the window yields the six signal counters of the window |
| OrderBookSummary.AssessTrend | lib/orderbook-summary.ts:93-117 | the trend branch is the one the counts and the support/pressure ladder counts select |
| OrderBookSummary.ListKeyPoints | lib/orderbook-summary.ts:76-131 | the key points are the risk line, the trend line, then one line per signal kind seen (plus the average-ladder-volume line when positive) |
| OrderBookSummary.Narrate | lib/orderbook-summary.ts:133-150 | the narrative is the header, one clause per signal kind seen, the average-volume clause when positive, and the closing risk/trend clause |
| OrderBookSummary.GenerateOrderBookSummary | lib/orderbook-summary.ts:14-158 | the summary equals the value-level summary of the window at `now` |
| OrderBookSummary.Defined | lib/orderbook-summary.ts:61-66 | the defined field values: exactly as many as the fields that are defined, each defined value is among them, and nothing else is (that each one appears in field order is `DefinedAppend` and `DefinedSingle`) |
| OrderBookSummary.DefinedAppend | lib/orderbook-summary.ts:61-66 | the values gathered from two runs of fields are those of the first run followed by those of the second, so the entries' order is kept |
| OrderBookSummary.DefinedSingle | lib/orderbook-summary.ts:61-66 | one field contributes its value when defined and nothing otherwise |
| OrderBookSummary.DefinedSum | lib/orderbook-summary.ts:69-73 | the gathered values add up to the total of the defined fields |
| OrderBookSummary.WindowIsLastHour | lib/orderbook-summary.ts:18-29 | an entry is in the window iff it is in the history and at most one hour old (timestamp >= now - 3600000); an empty window yields the insufficient-data summary |
| OrderBookSummary.SeverityCountsPartition | lib/orderbook-summary.ts:51-57 | the high, medium and low counts add up to the window size |
| OrderBookSummary.DetectorTitleSignals | lib/orderbook-summary.ts:42-49 | for detector titles the substring tests classify exactly: spoofed walls, ladders, vacuum, and support versus pressure ladders |
| OrderBookSummary.DetectorTitlesPartition | lib/orderbook-summary.ts:41-58 | when every entry carries a detector title, each is counted in exactly one of spoofed-wall, ladder and vacuum, and support plus pressure ladders make up the ladder count |
| OrderBookSummary.FakeSupportTitleSignals | lib/orderbook-summary.ts:42-49 | the bid-wall title contains "假护盘" and none of the other classes' markers |
| OrderBookSummary.FakePressureTitleSignals | lib/orderbook-summary.ts:42-49 | the ask-wall title contains "假压盘" and none of the other classes' markers |
| OrderBookSummary.LadderSupportTitleSignals | lib/orderbook-summary.ts:45-49 | the support-ladder title contains "密集网格" and itself, and no other class marker or the pressure-ladder title |
| OrderBookSummary.LadderPressureTitleSignals | lib/orderbook-summary.ts:45-49 | the pressure-ladder title contains "密集网格" and itself, and no other class marker or the support-ladder title |
| OrderBookSummary.VacuumTitleSignals | lib/orderbook-summary.ts:42-49 | the vacuum title contains "盘口真空" and no other class marker |
| OrderBookSummary.RiskLevelRule | lib/orderbook-summary.ts:80-90 | risk is high iff vacuum > 5 or high > 10; medium iff not high and (medium > 5 or high > 3); low otherwise |
| OrderBookSummary.RiskMonotone | lib/orderbook-summary.ts:80-90 | more signals of every kind never lower the risk level |
| OrderBookSummary.RatioAboveThreeTenths | lib/orderbook-summary.ts:93-99 | the ratio test `k / n > 0.3` holds iff `10k > 3n` |
| OrderBookSummary.TrendRule | lib/orderbook-summary.ts:92-117 | bearish on spoofed walls above 30%; otherwise, on ladders above 30%, bullish iff support ladders outnumber pressure ladders (ties bearish); otherwise neutral |
| OrderBookSummary.PermutationKeepsRiskAndTrend | lib/orderbook-summary.ts:41-117 | reordering the history changes neither the risk level nor the trend |
| OrderBookSummary.SummaryShape | lib/orderbook-summary.ts:22-150 | an empty window gives ['数据不足'], low risk, neutral trend; otherwise 2 to 6 key points starting with the risk line and the trend line, and a narrative opening with the window size and closing with risk and trend |
| OrderBookSummary.MeanOfDefined | lib/orderbook-summary.ts:69-73 | an average is the total of the defined fields divided by how many are defined, and 0 when none is |
| OrderBookSummary.AveragesAreMeans | lib/orderbook-summary.ts:61-73 | `avgVolume` is the total of the window's defined `volume` fields divided by their number, `avgLadderVolume` the same over the defined `avgVolume` fields (wall detections' included); each is 0 when no entry defines its field |
| OrderBookSummary.AverageBetween | lib/orderbook-summary.ts:69-73 | when some field is defined, the average lies between any bounds of the defined values |
| OrderBookSummary.MostlySpoofedWindow | lib/orderbook-summary.ts:80-98 | 20 detections with 7 spoofed walls and severities 1/4/15 give low risk and a bearish trend |
| OrderBookFeatures.FeatureOf | lib/orderbook-to-features.ts:18-45 | a title triggers at most one feature, always one of real-support, fake-support, real-breakout |
| OrderBookFeatures.ConvertOrderBookToFeatures | lib/orderbook-to-features.ts:10-52 | the loop, pushing each triggered feature unless already listed, yields the feature list of the detections |
| OrderBookFeatures.ExtractOrderBookFeatures | lib/orderbook-to-features.ts:60-70 | the features of exactly the detections younger than the window (strictly) |
| OrderBookFeatures.FeaturePresentIff | lib/orderbook-to-features.ts:18-45 | a feature is listed iff some detection's title triggers it |
| OrderBookFeatures.FeatureOfInverse | lib/orderbook-to-features.ts:19-45 | real-support comes only from "密集网格护盘", fake-support only from the two wall titles, real-breakout only from "盘口真空"; the pressure ladder triggers nothing |
| OrderBookFeatures.FeaturesByTitle | lib/orderbook-to-features.ts:18-49 | each feature is listed iff a detection with exactly one of its titles exists (equality, not substring) |
| OrderBookFeatures.FeaturesDistinctAndKnown | lib/orderbook-to-features.ts:20-45 | no feature is listed twice, and only the three scored features appear |
| OrderBookFeatures.FeaturesAtMostThree | lib/orderbook-to-features.ts:18-49 | at most three features |
| OrderBookFeatures.FeaturesGrowByAppending | lib/orderbook-to-features.ts:18-49 | later detections only append features, so features appear in the order of their first trigger |
| OrderBookFeatures.RecentFeatureIff | lib/orderbook-to-features.ts:60-70 | a feature is listed for a window exactly when some detection of the history younger than the window triggers it |
| OrderBookFeatures.PageOrderBookFeatures | app/page.tsx:574 | the dashboard's features are exactly those triggered by a detection of the last minute (60000 ms, also the function's default window) |
| OrderBookFeatures.WiderWindowKeepsFeatures | lib/orderbook-to-features.ts:64-69 | a wider time window never loses a feature |
| Scoring.Clamp | lib/scoring.ts:196 | the result lies in [0, 100]; values inside are kept, below become 0, above become 100 |
| Scoring.SumFeatureScores | lib/scoring.ts:175-179 | the accumulation loop yields the order-book contribution of the feature list |
| Scoring.ScoreFundingRate | lib/scoring.ts:33-75 | the funding branch chain yields the funding band's contribution |
| Scoring.ScoreLongShortRatio | lib/scoring.ts:78-107 | the long/short branch chain yields the ratio band's contribution, 0 when the ratio is missing |
| Scoring.ScoreFearGreed | lib/scoring.ts:110-131 | the fear-greed branch chain yields the index band's contribution |
| Scoring.ScoreEtfFlow | lib/scoring.ts:138-166 | the ETF branch chain yields the flow band's contribution |
| Scoring.CalculateScore | lib/scoring.ts:28-218 | five breakdown entries in the order funding, long/short, fear-greed, ETF, order book; the total is the clamp of 50 plus their sum, in [0, 100]; the recommendation and its text follow the total |
| Scoring.FundingBands | lib/scoring.ts:34-75 | -20 iff rate > 0.10; -10 iff in [0.07, 0.09]; +10 iff in [0, 0.02]; +20 iff in [-0.04, -0.01]; +30 iff < -0.05; 0 exactly in the gaps |
| Scoring.SentimentBands | lib/scoring.ts:78-166 | long/short -20 iff > 2.5, +20 iff < 0.4, 0 when missing or between; fear-greed -20 iff > 90, +30 iff < 10; ETF +30 iff > 10, +15 iff in (5, 10], -15 iff < -3, 0 otherwise |
| Scoring.RecommendationBands | lib/scoring.ts:199-210 | strong-buy iff score > 75, hold iff 40 <= score <= 75, sell iff score < 40 |
| Scoring.OrderBookTotalAppend | lib/scoring.ts:169-179 | the order-book contribution distributes over concatenation, so repeats count each time |
| Scoring.DistinctFeaturesTotal | lib/scoring.ts:169-179 | on distinct known features the contribution is 10 for real-support, -5 for fake-support and 15 for real-breakout, each once |
| Scoring.ExtractedFeaturesScore | lib/scoring.ts:169-180 | scoring the extractor's output gives 10 if a support ladder was seen, -5 if a spoofed wall was, 15 if a vacuum was, so between -5 and 25 |
| OIAnalysis.AnalyzeOITrend | app/api/oi-analysis/route.ts:21-91 | the price and open-interest changes are returned unchanged in every branch |
| OIAnalysis.FirstMatchingRuleWins | app/api/oi-analysis/route.ts:21-91 | each outcome holds iff its rule's condition holds and no earlier rule's does (healthy 10, danger -15, opportunity 15, accumulation 10, crash -20); otherwise no signal, score 0, status healthy |
| OIAnalysis.DivergenceShadowsCrash | app/api/oi-analysis/route.ts:35-80 | price above 0.5% with open interest below -5% is classified danger (-15), not crash |
| OIAnalysis.PercentChangeSign | app/api/oi-analysis/route.ts:115 | the percent change is 0 without a positive previous value; otherwise it is positive iff the value rose and 0 iff unchanged |
| OIAnalysis.FetchPriceChange | app/api/oi-analysis/route.ts:96-153 | the price change comes from the candles, from the 24h ticker only when the candles are blocked (451) or throw, and is 0 otherwise |
| OIAnalysis.TickerOnlyAsBackup | app/api/oi-analysis/route.ts:100-153 | unless the candles are blocked or throw, the ticker's reply does not affect the price change |
| OIAnalysis.FetchOIChange | app/api/oi-analysis/route.ts:155-312 | the sequence of methods 1 to 3, each tried only while none succeeded, then the estimate, yields the reading of the source chain |
| OIAnalysis.FallbackEstimate | app/api/oi-analysis/route.ts:240-311 | the last-resort estimate is used iff methods 1 and 2 give nothing usable and method 3 fails: its current value does not answer or is not positive, or its history throws, answers without a positive previous value, or is refused while the price moved by at most 0.1%; the change is then 0.3 times the price change, not marked real |
| OIAnalysis.RealOnlyFromFirstTwoMethods | app/api/oi-analysis/route.ts:161-299 | the data is marked real iff method 1 or method 2 supplied it |
| OIAnalysis.GetOIAnalysis | app/api/oi-analysis/route.ts:94-326 | the result classifies the chain's price and open-interest changes, reports the chain's source name and realness, and keeps the period |
| OIAnalysis.ErrorFallback | app/api/oi-analysis/route.ts:327-341 | the error path reports both changes 0, score 0, status healthy, no signal, source `error_fallback`, not real |
| ScoreHistory.ReadRecords | lib/history.ts:41-50 | missing or unreadable storage reads as the empty list |
| ScoreHistory.HistoryStore.Save | lib/history.ts:23-39 | the stored list becomes the new record prepended and cut to 100; the new record is first and the length is min(old + 1, 100) |
| ScoreHistory.HistoryStore.Clear | lib/history.ts:57-63 | the key is removed, so the records read as empty |
| ScoreHistory.HistoryStore.Delete | lib/history.ts:65-73 | the stored list becomes the old list without the records carrying that id |
| ScoreHistory.SaveShape | lib/history.ts:32-33 | after a save the new record is at index 0, the length is min(old + 1, 100), and the older records follow in order, the oldest dropped only when there were already 100 |
| ScoreHistory.SaveBounded | lib/history.ts:21-33 | a saved list holds between 1 and 100 records |
| ScoreHistory.DeleteExactly | lib/history.ts:65-70 | a record survives iff it was present and has another id, the length drops by the number of records with that id, and the survivors keep their order (those of any prefix come first) |
| ScoreHistory.BySymbolExactly | lib/history.ts:52-55 | a record is returned iff it is stored and its symbol matches ignoring ASCII case, in stored order (the matches of any prefix come first) |
| ScoreHistory.HistoryStore.Records | lib/history.ts:41-50 | the stored list, or the empty list when the key is missing or unreadable |
| ScoreHistory.HistoryStore.BySymbol | lib/history.ts:52-55 | a record is returned iff it is among the stored records and its symbol matches ignoring ASCII case |
| ScoreHistory.UnreadableStorage | lib/history.ts:41-49 | missing and unparsable storage read as []; a save over unparsable storage leaves just the new record |
| Dashboard.ThresholdOr | app/page.tsx:1169 | a threshold input that parses to 0 or NaN falls back; any other value, negative ones included, is kept |
| Dashboard.RadarPanel.SetMinVolumeForWall | app/page.tsx:1169 | the wall threshold becomes the input, or 100 when it is 0 or NaN |
| Dashboard.RadarPanel.SetMinAvgVolumeForLadder | app/page.tsx:1180 | the ladder threshold becomes the input, or 500 when it is 0 or NaN |
| Dashboard.RadarPanel.SetMaxTotalVolumeForThin | app/page.tsx:1191 | the vacuum threshold becomes the input, or 50 when it is 0 or NaN |
| Dashboard.RadarPanel.Poll | app/page.tsx:484-515 | a failed poll leaves the history unchanged; otherwise the history becomes the last 100 of the old history followed by the non-`info` detections under the panel's thresholds (unchanged when there are none); it stays within 100 entries with no `info` |
| Dashboard.RadarPanel.ClearHistory | app/page.tsx:1315 | the detection history becomes empty |
| Dashboard.PollKeepsMeaningful | app/page.tsx:508-515 | appending non-`info` results to a non-`info` history keeps it free of `info` and within 100 entries |
| Dashboard.PollKeepsNewest | app/page.tsx:512-515 | with fewer than 100 new detections, all are kept, after the newest old entries that still fit |
| Dashboard.FilterIsNoOp | app/page.tsx:508 | the page's `info` filter keeps every detection, since the detector never reports `info` |
| Dashboard.ChartHistory.Record | app/page.tsx:119-144 | each series gains its point only when the value is present (funding rate times 10000), keeps at most 10 points, and the others are untouched |
| Dashboard.Push | app/page.tsx:124-143 | one series update equals appending the present value and keeping the last 10, and stays within 10 points |
| Dashboard.PushedShape | app/page.tsx:124-143 | an absent value changes nothing; a present one becomes the last point and the length is min(old + 1, 10) |
| Dashboard.ClassifyOnClient | app/page.tsx:250-290 | the page's own classifier gives exactly the route classifier's result on the same percent changes |
| Dashboard.GetTimeAgo | app/page.tsx:611-622 | a count of days is at least 1, of hours 1 to 23, of minutes 1 to 59, and "刚刚" means less than a minute has passed |
| Dashboard.TimeAgoUnits | app/page.tsx:611-622 | days iff at least a day has passed, hours iff at least an hour but under a day, minutes iff at least a minute but under an hour, "刚刚" otherwise (future dates included); each count is the floor of the elapsed time in that unit |
| Dashboard.FloorTwice | app/page.tsx:614-616 | flooring twice equals flooring by the product, so hours and days are floors of the elapsed milliseconds |
| Dashboard.HasETFData | app/page.tsx:625-629 | only a three-letter alphabetic symbol can have ETF data |
| Dashboard.GetETFLink | app/page.tsx:632-649 | a coin without ETF data gets the general ETF page; a coin with it gets a different coinglass.com page |
| Dashboard.ETFLinkMatchesETFData | app/page.tsx:625-649 | the link is coin-specific exactly when the coin has ETF data, and it depends on the symbol only up to ASCII case |
| News.CoinGeckoId | app/api/news/route.ts:190-207 | an id is returned iff the upper-cased symbol is in the 13-entry table, and it is that entry |
| News.BlockExplorerUrl | app/api/news/route.ts:210-226 | the result is coingecko.com iff the upper-cased symbol is not one of BTC, ETH, SOL, BNB, AVAX, MATIC |
| News.CoinGeckoIdsInjective | app/api/news/route.ts:191-205 | two symbols with the same id are equal up to ASCII case |
| News.LookupsIgnoreCase | app/api/news/route.ts:190-226 | both lookups ignore ASCII case, and every symbol with its own explorer also has a CoinGecko id |
| News.CollectedItems | app/api/news/route.ts:19-150 | the collected list holds the CoinGecko items (when the coin has an id), the CryptoCompare items, every tracked tweet exactly once (pinned ones split off first), and the explorer and project items when they apply |
| News.ExplorerItemOnlyForMajors | app/api/news/route.ts:101-112 | when no fetched item claims the explorer's label, the collected list holds one explorer item for BTC, ETH and SOL and none otherwise |
| News.ExplorerItemHasDedicatedUrl | app/api/news/route.ts:102-111 | the explorer item of BTC, ETH or SOL links to a dedicated explorer, and the symbol has a CoinGecko id |
| News.TweetsNotExplorer | app/api/news/route.ts:342-349 | no tracked tweet carries the explorer's label |
| News.InsertPermutes | app/api/news/route.ts:154-164 | inserting keeps every item exactly once |
| News.InsertSorted | app/api/news/route.ts:154-164 | inserting into a sorted list keeps it sorted |
| News.SortPermutes | app/api/news/route.ts:154-164 | the sort is a permutation |
| News.SortSorts | app/api/news/route.ts:154-164 | the sorted list respects the comparator at every pair |
| News.SortKeepsTies | app/api/news/route.ts:154-164 | the sort is stable: items the comparator ties keep their input order |
| News.SortedMeaning | app/api/news/route.ts:154-164 | in a sorted list every `链上数据` item precedes every other item, and within each group publication times do not increase |
| News.SliceTo | app/api/news/route.ts:167 | `slice(0, end)` is a prefix of length min(end, n), and a negative end counts back from the length |
| News.SliceKeepsOrder | app/api/news/route.ts:167 | a prefix of a sorted list is sorted |
| News.NewsOrdered | app/api/news/route.ts:154-167 | the returned list is the first min(limit, n) items of a sorted permutation of everything collected |
| News.GetNews | app/api/news/route.ts:13-176 | the response is the collected items, sorted and cut to `limit`, with the upper-cased symbol and the count of returned items; each account's undated tweet, the explorer item and the project item carry their own clock readings |
| News.SymbolParam | app/api/news/route.ts:16 | a missing or empty symbol parameter becomes "BTC"; any other is kept |
| News.TrimStart | app/api/news/route.ts:292 | drops exactly the leading whitespace: a suffix whose first character is not whitespace |
| News.TrimEnd | app/api/news/route.ts:292 | drops exactly the trailing whitespace: a prefix whose last character is not whitespace |
| News.TrimShape | app/api/news/route.ts:292 | a trimmed text has no whitespace at either end, and trimming again changes nothing |
| News.IndexOf | app/api/news/route.ts:295 | the index of the first occurrence of the character, or none iff it does not occur |
| News.StripTags | app/api/news/route.ts:295 | no `<` is left followed by a `>`, the text does not grow, and only spaces are added |
| News.ReplaceAll | app/api/news/route.ts:298-306 | a text without the pattern is unchanged, and a replacement no longer than the pattern never lengthens the text |
| News.ReplaceAbsent | app/api/news/route.ts:298-306 | a pattern with a character the text lacks is not replaced |
| News.DecodeEntities | app/api/news/route.ts:298-305 | decoding never lengthens the text |
| News.AmpersandDecodedFirst | app/api/news/route.ts:298-302 | `&amp;` is decoded before `&lt;`, so "&amp;lt;" decodes to "<" |
| News.CollapseSpaces | app/api/news/route.ts:306 | every whitespace run becomes a single space: no two whitespace characters in a row, no whitespace but spaces, empty iff the input is, and no growth |
| News.CleanDescriptionShape | app/api/news/route.ts:292-307 | a cleaned description is no longer than the raw one, has no whitespace at its ends, and holds only single spaces |
| News.TrimKeepsSpacing | app/api/news/route.ts:306-307 | trimming a single-spaced text leaves it single-spaced |
| News.AccountPrefixRemoved | app/api/news/route.ts:315 | a title "name: body", with a non-empty name without a colon, becomes the body |
| News.StripAccountPrefix | app/api/news/route.ts:315 | the result is a suffix of the title; when something was removed, the title does not start with a colon, the removed part holds a colon, and the result does not start with whitespace |
| News.NoAccountPrefix | app/api/news/route.ts:315 | a title without a colon, or starting with one, is kept |
| News.TrailingDigits | app/api/news/route.ts:324 | the longest run of digits ending the link |
| News.TwitterLink | app/api/news/route.ts:319-330 | a link without "nitter" is kept; a mirror link becomes a link under `https://x.com/<user>` |
| News.TwitterLinkRule | app/api/news/route.ts:319-330 | a mirror link ending in `/<digits>` becomes `https://x.com/<user>/status/<digits>`; a mirror link not ending in a digit becomes `https://x.com/<user>`; other links are unchanged |
| News.MentionsSymbol | app/api/news/route.ts:269 | a text mentioning the symbol is at least as long as the symbol |
| News.MentionsSymbolExamples | app/api/news/route.ts:269 | the whole-word, case-insensitive test finds "btc" in "Whale moved 500 btc." and not in "wbtc" |
| News.TweetText | app/api/news/route.ts:288-317 | the tweet text does not start with whitespace and is no longer than the title or the raw description it came from |
| News.ItemOutcome | app/api/news/route.ts:276-351 | an item is kept exactly when it mentions the symbol, has a title and a link, has no unparsable date, and its tweet text mentions the symbol and is longer than 15 characters; the kept tweet's text is cut to 600, it carries the account's label, the title "🔗 account - SYMBOL 链上追踪", the trimmed link rewritten to x.com, and the item's date or, when it has none, the clock reading; an unparsable date aborts the feed |
| News.ScanItems | app/api/news/route.ts:276-354 | the loop over one feed's items stops at the first kept tweet or at an abort, and yields the first tweet of the feed |
| News.TryAccount | app/api/news/route.ts:250-361 | the loop over the mirrors stops at the first mirror that yields a tweet, and yields that account's tweet |
| News.FetchTwitterOnchainData | app/api/news/route.ts:229-368 | the tweets are at most one per account, in account order |
| News.FirstTweetShape | app/api/news/route.ts:335-350 | a feed's tweet has a description of 16 to 600 characters, kind on-chain and the account's label |
| News.AccountTweetShape | app/api/news/route.ts:250-361 | an account's tweet has a description of 16 to 600 characters, kind on-chain and the account's label |
| News.TweetsShape | app/api/news/route.ts:229-368 | at most one tweet per account, each with a description of 16 to 600 characters, kind on-chain, and one of the accounts' labels |
| News.PinnedOnlyForLookonchain | app/api/news/route.ts:338-340 | only Lookonchain's tweets carry the pinned `链上数据` label, and no tweet carries the explorer's label |

## Left out

- Every HTTP request is left out:
  - the exchange, CoinGecko, CryptoCompare and Nitter fetches;
  - `lib/fetch-with-timeout.ts`;
  - the other API routes.
- In their place, each request is a parameter that says how it ended: a parsed body, a non-OK status, or a thrown error.
- JSON parsing and `localStorage` are left out. Storage is a field holding nothing, an unreadable value, or a list of records.
- History record ids are a parameter, because they come from the clock and `Math.random`.
- Timers, `AbortController` timeouts, React state scheduling, `useMemo`, scrolling and rendering are left out.
- Reason texts, `toFixed`, `toLocaleString` and the emoji and wording of labels are left out. The summary's key points and narrative are datatypes of lines and clauses, not formatted strings.
- Numbers are exact reals, not IEEE doubles, so rounding in the means, ratios and percent changes is not modelled.
- `parseFloat`, `parseInt`, `Number(...)` and date parsing are left out. Their outcomes (a number, NaN, or an invalid date) are inputs where the model has a place for them: the threshold inputs and the RSS `pubDate`.
- A news item's publication time is a whole number of milliseconds. A CoinGecko item whose `published_on` does not parse (app/api/news/route.ts:41) makes the sort comparator at :163 return NaN, which the sort reads as a tie, so that item's place is up to the engine. The model cannot express such an item.
- Each detector rule calls `Date.now()` for its own timestamp (lib/orderbook-analysis.ts:67, 98, 132, 162, 183). The model stamps all results of one analysis with a single `now` parameter, so results of one call that the source could stamp a millisecond apart are stamped alike.
- Upper-casing and case-insensitive matching cover ASCII letters only. Other characters are compared as they are.
- The whole-word symbol test does not treat regular-expression metacharacters in a symbol specially.
- Lengths count characters, not UTF-16 code units. This affects `substring(0, 600)` and the length tests on tweet text only for characters outside the Basic Multilingual Plane.
- A failed `localStorage` write, and the outer `catch` of the news route, are left out.
- The `catch` of `getOIAnalysis` is modelled as its own result (`OIAnalysis.ErrorFallback`), not as an exception.
- News.CoinGeckoIdsInjective: states that the id table is one-to-one. It does not also state the table's size.
- Dashboard.ChartHistory.Record: the "HH:MM" time label is a parameter, because it is formatted from the clock.
- OrderBookAnalysis.CheckLadder: the spread test is stated without `Math.sqrt`. `OrderBookAnalysis.SquaredSpreadTest` shows the two forms agree.
- ScoreHistory.HistoryStore.Save: the draft's fields are stored as given. The spread of `record` into the new object is not modelled field by field.

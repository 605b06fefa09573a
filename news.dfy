/**
  * The news route (app/api/news/route.ts): symbol lookups, the assembly of
  * the news list, its ordering and truncation, and the selection and clean-up
  * of tracked tweets.
  *
  * Every fetch is replaced by its parsed outcome, passed in as a parameter:
  * the news items of the two media sources, the community counters of the
  * project source, and, for each tracked account and each mirror instance, the
  * RSS reply split into items. `Date.now()` is the parameter `now`, and
  * publication times are milliseconds (date parsing is not modelled).
  */
module News {
  import opened Common

  datatype NewsType = Project | Media | Onchain

  datatype NewsItem = NewsItem(
    title: string,
    description: string,
    url: string,
    source: string,
    publishedAt: int,
    kind: NewsType)

  /** The source label of Lookonchain's tweets, which are pinned to the top. */
  const OnchainLabel: string := "链上数据"
  const ExplorerSource: string := "区块链浏览器"
  const CoinGeckoHome: string := "https://www.coingecko.com"

  // ---------------------------------------------------------------------------
  // Symbol lookups
  // ---------------------------------------------------------------------------

  const CoinGeckoIds: map<string, string> := map[
    "BTC" := "bitcoin", "ETH" := "ethereum", "SOL" := "solana",
    "BNB" := "binancecoin", "XRP" := "ripple", "ADA" := "cardano",
    "DOGE" := "dogecoin", "AVAX" := "avalanche-2", "MATIC" := "matic-network",
    "DOT" := "polkadot", "LINK" := "chainlink", "UNI" := "uniswap",
    "ATOM" := "cosmos"]

  /** `getCoinGeckoId`: the id of the upper-cased symbol, or none outside the table. */
  function CoinGeckoId(symbol: string): (r: Option<string>)
    ensures r.Some? <==> Upper(symbol) in CoinGeckoIds
    ensures r.Some? ==> r.value == CoinGeckoIds[Upper(symbol)]
  {
    var key := Upper(symbol);
    if key in CoinGeckoIds && CoinGeckoIds[key] != "" then Some(CoinGeckoIds[key]) else None
  }

  /** `getBlockExplorerUrl`: a dedicated explorer for six symbols, CoinGecko otherwise. */
  function BlockExplorerUrl(symbol: string): (url: string)
    ensures url == CoinGeckoHome <==> Upper(symbol) !in {"BTC", "ETH", "SOL", "BNB", "AVAX", "MATIC"}
  {
    var symbolUpper := Upper(symbol);
    if symbolUpper == "BTC" then "https://www.blockchain.com/explorer"
    else if symbolUpper == "ETH" then "https://etherscan.io"
    else if symbolUpper == "SOL" then "https://solscan.io"
    else if symbolUpper == "BNB" then "https://bscscan.com"
    else if symbolUpper == "AVAX" then "https://snowtrace.io"
    else if symbolUpper == "MATIC" then "https://polygonscan.com"
    else CoinGeckoHome
  }

  /** The table read backwards, one id to one symbol. */
  const SymbolsById: map<string, string> := map[
    "bitcoin" := "BTC", "ethereum" := "ETH", "solana" := "SOL",
    "binancecoin" := "BNB", "ripple" := "XRP", "cardano" := "ADA",
    "dogecoin" := "DOGE", "avalanche-2" := "AVAX", "matic-network" := "MATIC",
    "polkadot" := "DOT", "chainlink" := "LINK", "uniswap" := "UNI",
    "cosmos" := "ATOM"]

  /** No two symbols share an id, so an id determines the symbol up to ASCII case. */
  lemma CoinGeckoIdsInjective(a: string, b: string)
    ensures CoinGeckoId(a).Some? && CoinGeckoId(a) == CoinGeckoId(b) ==> EqualsIgnoreCase(a, b)
  {
    forall k | k in CoinGeckoIds
      ensures CoinGeckoIds[k] in SymbolsById && SymbolsById[CoinGeckoIds[k]] == k
    {
      assert k in {"BTC", "ETH", "SOL", "BNB", "XRP", "ADA", "DOGE", "AVAX", "MATIC", "DOT", "LINK", "UNI", "ATOM"};
    }
  }

  /** Both lookups ignore ASCII case, and every symbol with a dedicated
      explorer also has a CoinGecko id. */
  lemma LookupsIgnoreCase(a: string, b: string)
    ensures EqualsIgnoreCase(a, b) ==> CoinGeckoId(a) == CoinGeckoId(b) && BlockExplorerUrl(a) == BlockExplorerUrl(b)
    ensures BlockExplorerUrl(a) != CoinGeckoHome ==> CoinGeckoId(a).Some?
    ensures CoinGeckoId("btc") == Some("bitcoin") && CoinGeckoId("Matic") == Some("matic-network")
    ensures CoinGeckoId("PEPE") == None && BlockExplorerUrl("pepe") == CoinGeckoHome
  {
    assert Upper("btc") == "BTC";
    assert Upper("Matic") == "MATIC";
    assert Upper("PEPE") == "PEPE";
    assert Upper("pepe") == "PEPE";
  }

  // ---------------------------------------------------------------------------
  // Items the route adds itself
  // ---------------------------------------------------------------------------

  /** The explorer item is added for BTC, ETH and SOL only. */
  predicate HasExplorerItem(symbol: string)
  {
    Upper(symbol) in {"BTC", "ETH", "SOL"}
  }

  function ExplorerItem(symbol: string, now: int): NewsItem
  {
    NewsItem(
      "🔗 " + symbol + " 链上数据追踪 - 区块链浏览器",
      "查看 " + symbol + " 的链上大额转账、巨鲸动向、交易所流入流出等数据，建议访问区块链浏览器查看实时链上活动。",
      BlockExplorerUrl(symbol),
      ExplorerSource,
      now,
      Onchain)
  }

  /** Community counters of the project source (missing counters read as 0);
      `description` is the formatted text, whose number formatting is not modelled. */
  datatype Community = Community(githubStars: int, twitterFollowers: int, redditSubscribers: int, description: string)

  predicate HasCommunityData(c: Community)
  {
    c.githubStars > 0 || c.twitterFollowers > 0 || c.redditSubscribers > 0
  }

  function ProjectItem(symbol: string, coinId: string, c: Community, now: int): NewsItem
  {
    NewsItem("📊 " + symbol + " 社区数据", c.description, "https://www.coingecko.com/zh/coins/" + coinId, "CoinGecko", now, Project)
  }

  // ---------------------------------------------------------------------------
  // Ordering: pinned on-chain tweets first, then newest first, stably
  // ---------------------------------------------------------------------------

  predicate Pinned(item: NewsItem)
  {
    item.source == OnchainLabel
  }

  predicate NotPinned(item: NewsItem)
  {
    !Pinned(item)
  }

  /** The comparator lets `a` stay before `b`: it is not positive. */
  predicate InOrder(a: NewsItem, b: NewsItem)
  {
    (Pinned(a) && !Pinned(b)) || (Pinned(a) == Pinned(b) && a.publishedAt >= b.publishedAt)
  }

  /** The comparator returns 0: neither item goes before the other. */
  predicate Tied(a: NewsItem, b: NewsItem)
  {
    Pinned(a) == Pinned(b) && a.publishedAt == b.publishedAt
  }

  function TiedWith(k: NewsItem): NewsItem -> bool
  {
    (item: NewsItem) => Tied(k, item)
  }

  predicate SortedNews(s: seq<NewsItem>)
  {
    forall i, j :: 0 <= i < j < |s| ==> InOrder(s[i], s[j])
  }

  /** Places `x` before the first item it may precede. */
  function Insert(x: NewsItem, s: seq<NewsItem>): seq<NewsItem>
  {
    if |s| == 0 then [x]
    else if InOrder(x, s[0]) then [x] + s
    else [s[0]] + Insert(x, s[1..])
  }

  /** `newsItems.sort(comparator)`: the stable sort (which is unique for a
      consistent comparator), written as an insertion sort. */
  function SortNews(s: seq<NewsItem>): seq<NewsItem>
  {
    if |s| == 0 then [] else Insert(s[0], SortNews(s[1..]))
  }

  lemma {:induction false} InsertPermutes(x: NewsItem, s: seq<NewsItem>)
    ensures multiset(Insert(x, s)) == multiset(s) + multiset{x}
  {
    if |s| > 0 && !InOrder(x, s[0]) {
      InsertPermutes(x, s[1..]);
      assert s == [s[0]] + s[1..];
    }
  }

  lemma {:induction false} InsertSorted(x: NewsItem, s: seq<NewsItem>)
    requires SortedNews(s)
    ensures SortedNews(Insert(x, s))
  {
    if |s| == 0 {
    } else if InOrder(x, s[0]) {
      forall z | z in s ensures InOrder(x, z) {
        var k :| 0 <= k < |s| && s[k] == z;
        assert k == 0 || InOrder(s[0], s[k]);
      }
      SortedCons(x, s);
    } else {
      var y, rest := s[0], s[1..];
      var t := Insert(x, rest);
      InsertSorted(x, rest);
      InsertPermutes(x, rest);
      forall z | z in t ensures InOrder(y, z) {
        assert z in multiset(t);
        if z != x {
          assert z in multiset(rest);
          var k :| 0 <= k < |rest| && rest[k] == z;
          assert s[k + 1] == z;
        }
      }
      SortedCons(y, t);
    }
  }

  /** An item that may precede every item of a sorted list extends it at the front. */
  lemma SortedCons(y: NewsItem, t: seq<NewsItem>)
    requires SortedNews(t)
    requires forall z :: z in t ==> InOrder(y, z)
    ensures SortedNews([y] + t)
  {
    var r := [y] + t;
    forall i, j | 0 <= i < j < |r| ensures InOrder(r[i], r[j]) {
      if i == 0 {
        assert r[j] == t[j - 1];
      } else {
        assert r[i] == t[i - 1] && r[j] == t[j - 1];
      }
    }
  }

  lemma {:induction false} SortPermutes(s: seq<NewsItem>)
    ensures multiset(SortNews(s)) == multiset(s)
  {
    if |s| > 0 {
      SortPermutes(s[1..]);
      InsertPermutes(s[0], SortNews(s[1..]));
      assert s == [s[0]] + s[1..];
    }
  }

  lemma {:induction false} SortSorts(s: seq<NewsItem>)
    ensures SortedNews(SortNews(s))
  {
    if |s| > 0 {
      SortSorts(s[1..]);
      InsertSorted(s[0], SortNews(s[1..]));
    }
  }

  lemma FilterCons<T>(y: T, ys: seq<T>, p: T -> bool)
    ensures Filter([y] + ys, p) == (if p(y) then [y] else []) + Filter(ys, p)
  {
    FilterAppend([y], ys, p);
    FilterSingle(y, p);
  }

  lemma {:induction false} InsertKeepsTies(x: NewsItem, s: seq<NewsItem>, k: NewsItem)
    ensures Filter(Insert(x, s), TiedWith(k)) == Filter([x] + s, TiedWith(k))
  {
    if |s| > 0 && !InOrder(x, s[0]) {
      var p := TiedWith(k);
      var y, rest := s[0], s[1..];
      assert s == [y] + rest;
      assert Insert(x, s) == [y] + Insert(x, rest);
      InsertKeepsTies(x, rest, k);
      FilterCons(y, Insert(x, rest), p);
      FilterCons(x, rest, p);
      FilterCons(y, rest, p);
      FilterCons(x, s, p);
      NotBothTied(x, y, k);
      SwapKept(x, y, Filter(rest, p), p);
    }
  }

  /** Two items that the comparator orders are not both tied with a third. */
  lemma NotBothTied(x: NewsItem, y: NewsItem, k: NewsItem)
    requires !InOrder(x, y)
    ensures !(TiedWith(k)(x) && TiedWith(k)(y))
  {
  }

  lemma SwapKept<T>(x: T, y: T, rest: seq<T>, p: T -> bool)
    requires !(p(x) && p(y))
    ensures (if p(y) then [y] else []) + ((if p(x) then [x] else []) + rest)
         == (if p(x) then [x] else []) + ((if p(y) then [y] else []) + rest)
  {
  }

  /** The sort is stable: items the comparator ties keep their input order. */
  lemma {:induction false} SortKeepsTies(s: seq<NewsItem>, k: NewsItem)
    ensures Filter(SortNews(s), TiedWith(k)) == Filter(s, TiedWith(k))
  {
    if |s| > 0 {
      var p := TiedWith(k);
      SortKeepsTies(s[1..], k);
      InsertKeepsTies(s[0], SortNews(s[1..]), k);
      FilterCons(s[0], SortNews(s[1..]), p);
      FilterCons(s[0], s[1..], p);
      assert s == [s[0]] + s[1..];
    }
  }

  /** In a sorted list every pinned item precedes every other item, and each
      group runs from newest to oldest. */
  lemma SortedMeaning(s: seq<NewsItem>, i: int, j: int)
    requires SortedNews(s) && 0 <= i < j < |s|
    ensures Pinned(s[j]) ==> Pinned(s[i])
    ensures Pinned(s[i]) == Pinned(s[j]) ==> s[i].publishedAt >= s[j].publishedAt
  {
    assert InOrder(s[i], s[j]);
  }

  // ---------------------------------------------------------------------------
  // Truncation
  // ---------------------------------------------------------------------------

  /** `xs.slice(0, end)`: a negative end counts back from the length. */
  function SliceTo<T>(xs: seq<T>, end: int): (r: seq<T>)
    ensures |r| <= |xs| && r == xs[..|r|]
    ensures end >= 0 ==> |r| == if end < |xs| then end else |xs|
    ensures end < 0 ==> |r| == if |xs| + end > 0 then |xs| + end else 0
  {
    var k := if end >= 0 then (if end < |xs| then end else |xs|)
             else (if |xs| + end > 0 then |xs| + end else 0);
    xs[..k]
  }

  lemma SliceKeepsOrder(s: seq<NewsItem>, end: int)
    requires SortedNews(s)
    ensures SortedNews(SliceTo(s, end))
  {
    var r := SliceTo(s, end);
    forall i, j | 0 <= i < j < |r| ensures InOrder(r[i], r[j]) {
      assert r[i] == s[i] && r[j] == s[j];
    }
  }

  // ---------------------------------------------------------------------------
  // Text clean-up of tweets
  // ---------------------------------------------------------------------------

  /** JavaScript's `\s`. */
  predicate IsSpace(c: char)
  {
    c == ' ' || c == '\t' || c == '\n' || c == '\U{B}' || c == '\U{C}' || c == '\r'
    || c == '\U{A0}' || c == '\U{1680}' || ('\U{2000}' <= c <= '\U{200A}')
    || c == '\U{2028}' || c == '\U{2029}' || c == '\U{202F}' || c == '\U{205F}'
    || c == '\U{3000}' || c == '\U{FEFF}'
  }

  /** Drops the leading whitespace. */
  function TrimStart(s: string): (r: string)
    ensures |r| <= |s| && r == s[|s| - |r|..]
    ensures |r| > 0 ==> !IsSpace(r[0])
    ensures forall i :: 0 <= i < |s| - |r| ==> IsSpace(s[i])
  {
    if |s| > 0 && IsSpace(s[0]) then TrimStart(s[1..]) else s
  }

  /** Drops the trailing whitespace. */
  function TrimEnd(s: string): (r: string)
    ensures |r| <= |s| && r == s[..|r|]
    ensures |r| > 0 ==> !IsSpace(r[|r| - 1])
    ensures forall i :: |r| <= i < |s| ==> IsSpace(s[i])
  {
    if |s| > 0 && IsSpace(s[|s| - 1]) then TrimEnd(s[..|s| - 1]) else s
  }

  /** `s.trim()`. */
  function Trim(s: string): string
  {
    TrimEnd(TrimStart(s))
  }

  /** Trimming keeps a middle slice, has no whitespace at either end, and
      trimming again changes nothing. */
  lemma TrimShape(s: string)
    ensures var r := Trim(s);
      && |r| <= |s|
      && (|r| > 0 ==> !IsSpace(r[0]) && !IsSpace(r[|r| - 1]))
      && Trim(r) == r
  {
    var r := Trim(s);
    var t := TrimStart(s);
    if |r| > 0 {
      assert r[0] == t[0];
    }
    assert TrimStart(r) == r;
  }

  /** The index of the first `c`, if any. */
  function IndexOf(s: string, c: char): (r: Option<nat>)
    ensures r.Some? ==> r.value < |s| && s[r.value] == c && forall j :: 0 <= j < r.value ==> s[j] != c
    ensures r.None? ==> c !in s
  {
    if |s| == 0 then None
    else if s[0] == c then Some(0)
    else match IndexOf(s[1..], c)
      case Some(k) => Some(k + 1)
      case None => None
  }

  /** `s.replace(/<[^>]*>/g, ' ')`: each `<` that has a `>` after it starts a
      tag, which runs to the first `>` and becomes one space. */
  function StripTags(s: string): (r: string)
    ensures |r| <= |s|
    ensures forall c :: c in r && c != ' ' ==> c in s
    ensures forall i, j :: 0 <= i < j < |r| && r[i] == '<' ==> r[j] != '>'
    decreases |s|
  {
    if |s| == 0 then []
    else if s[0] == '<' && IndexOf(s, '>').Some? then
      var k := IndexOf(s, '>').value;
      " " + StripTags(s[k + 1..])
    else
      var rest := StripTags(s[1..]);
      assert s[0] == '<' ==> '>' !in s[1..];
      [s[0]] + rest
  }

  /** `s.replace(/pat/g, rep)` for a literal pattern: left to right, no overlaps. */
  function ReplaceAll(s: string, pat: string, rep: string): (r: string)
    requires |pat| > 0
    ensures |rep| <= |pat| ==> |r| <= |s|
    ensures !Contains(s, pat) ==> r == s
    decreases |s|
  {
    if |s| < |pat| then s
    else if s[..|pat|] == pat then rep + ReplaceAll(s[|pat|..], pat, rep)
    else [s[0]] + ReplaceAll(s[1..], pat, rep)
  }

  /** A pattern with a character the text lacks is not replaced. */
  lemma {:induction false} ReplaceAbsent(s: string, pat: string, rep: string, c: char)
    requires |pat| > 0 && c in pat && c !in s
    ensures ReplaceAll(s, pat, rep) == s
    decreases |s|
  {
    if |s| >= |pat| {
      assert s[..|pat|] != pat by {
        var i :| 0 <= i < |pat| && pat[i] == c;
        assert s[..|pat|][i] != pat[i];
      }
      ReplaceAbsent(s[1..], pat, rep, c);
      assert s == [s[0]] + s[1..];
    }
  }

  /** The entity replacements, in the order the route applies them. */
  function DecodeEntities(s: string): (r: string)
    ensures |r| <= |s|
  {
    var s1 := ReplaceAll(s, "&nbsp;", " ");
    var s2 := ReplaceAll(s1, "&amp;", "&");
    var s3 := ReplaceAll(s2, "&lt;", "<");
    var s4 := ReplaceAll(s3, "&gt;", ">");
    var s5 := ReplaceAll(s4, "&quot;", "\"");
    var s6 := ReplaceAll(s5, "&#39;", "'");
    ReplaceAll(s6, "&apos;", "'")
  }

  /** `&amp;` is decoded before `&lt;`, so an escaped entity is decoded twice. */
  lemma AmpersandDecodedFirst()
    ensures DecodeEntities("&amp;lt;") == "<"
  {
    var s := "&amp;lt;";
    ReplaceAbsent(s, "&nbsp;", " ", 'n');
    assert s[..5] == "&amp;";
    assert s[5..] == "lt;";
    var s2 := ReplaceAll(s, "&amp;", "&");
    assert s2 == "&lt;";
    assert s2[..4] == "&lt;";
    assert s2[4..] == "";
    var s3 := ReplaceAll(s2, "&lt;", "<");
    assert s3 == "<";
    ReplaceAbsent(s3, "&gt;", ">", 'g');
    ReplaceAbsent(s3, "&quot;", "\"", 'q');
    ReplaceAbsent(s3, "&#39;", "'", '#');
    ReplaceAbsent(s3, "&apos;", "'", 'p');
  }

  /** `s.replace(/\s+/g, ' ')`: every run of whitespace becomes one space. */
  function CollapseSpaces(s: string): (r: string)
    ensures |r| <= |s|
    ensures |r| == 0 <==> |s| == 0
    ensures |s| > 0 ==> (IsSpace(r[0]) <==> IsSpace(s[0]))
    ensures forall i :: 0 <= i < |r| && IsSpace(r[i]) ==> r[i] == ' '
    ensures forall i :: 0 <= i < |r| - 1 ==> !(IsSpace(r[i]) && IsSpace(r[i + 1]))
    decreases |s|
  {
    if |s| == 0 then []
    else if IsSpace(s[0]) then
      var rest := TrimStart(s);
      assert |rest| < |s| by {
        assert |rest| > 0 ==> rest[0] == s[|s| - |rest|];
      }
      " " + CollapseSpaces(rest)
    else [s[0]] + CollapseSpaces(s[1..])
  }

  /** The description text of a tweet: trimmed, tags replaced, entities
      decoded, whitespace collapsed, trimmed again. */
  function CleanDescription(raw: string): string
  {
    Trim(CollapseSpaces(DecodeEntities(StripTags(Trim(raw)))))
  }

  /** A cleaned description is no longer than the raw one, has no whitespace
      at its ends, and its only whitespace is single spaces. */
  lemma CleanDescriptionShape(raw: string)
    ensures var text := CleanDescription(raw);
      && |text| <= |raw|
      && (|text| > 0 ==> !IsSpace(text[0]) && !IsSpace(text[|text| - 1]))
      && (forall i :: 0 <= i < |text| && IsSpace(text[i]) ==> text[i] == ' ')
      && (forall i :: 0 <= i < |text| - 1 ==> !(IsSpace(text[i]) && IsSpace(text[i + 1])))
  {
    var c := CollapseSpaces(DecodeEntities(StripTags(Trim(raw))));
    TrimShape(raw);
    TrimShape(c);
    TrimKeepsSpacing(c);
  }

  /** Whitespace in `s` is only single spaces. */
  predicate SingleSpaced(s: string)
  {
    && (forall i :: 0 <= i < |s| && IsSpace(s[i]) ==> s[i] == ' ')
    && (forall i :: 0 <= i < |s| - 1 ==> !(IsSpace(s[i]) && IsSpace(s[i + 1])))
  }

  /** Trimming a single-spaced text leaves it single-spaced. */
  lemma TrimKeepsSpacing(c: string)
    requires SingleSpaced(c)
    ensures SingleSpaced(Trim(c))
  {
    var t := TrimStart(c);
    SingleSpacedSuffix(c, |c| - |t|);
    SingleSpacedPrefix(t, |TrimEnd(t)|);
  }

  lemma SingleSpacedSuffix(s: string, lo: nat)
    requires SingleSpaced(s) && lo <= |s|
    ensures SingleSpaced(s[lo..])
  {
    var w := s[lo..];
    assert forall i :: 0 <= i < |w| ==> w[i] == s[lo + i];
  }

  lemma SingleSpacedPrefix(s: string, hi: nat)
    requires SingleSpaced(s) && hi <= |s|
    ensures SingleSpaced(s[..hi])
  {
    var w := s[..hi];
    assert forall i :: 0 <= i < |w| ==> w[i] == s[i];
  }

  /** `title.replace(/^[^:]+:\s*\/, '')`: drops a leading "name:" and the
      whitespace after it, when the name is not empty. */
  function StripAccountPrefix(t: string): (r: string)
    ensures |r| <= |t| && r == t[|t| - |r|..]
    ensures r != t ==> t[0] != ':' && ':' in t[..|t| - |r|] && (|r| == 0 || !IsSpace(r[0]))
  {
    var colon := IndexOf(t, ':');
    if colon.Some? && colon.value > 0 then
      TrimmedTail(t, colon.value);
      TrimStart(t[colon.value + 1..])
    else t
  }

  /** Trimming what follows position `c` leaves a suffix of `t` that does not
      reach back to `c`. */
  lemma TrimmedTail(t: string, c: nat)
    requires c < |t|
    ensures var r := TrimStart(t[c + 1..]);
      |r| < |t| - c && r == t[|t| - |r|..]
  {
    var rest := t[c + 1..];
    var r := TrimStart(rest);
    DropDrop(t, c + 1, |rest| - |r|);
  }

  lemma DropDrop(t: string, a: nat, k: nat)
    requires a + k <= |t|
    ensures t[a..][k..] == t[a + k..]
  {
  }

  /** A title "name: body" loses "name: " when the name is not empty and has no colon. */
  lemma AccountPrefixRemoved(name: string, body: string)
    requires |name| > 0 && ':' !in name
    requires |body| == 0 || !IsSpace(body[0])
    ensures StripAccountPrefix(name + ": " + body) == body
  {
    var s := name + ": " + body;
    assert forall j :: 0 <= j < |name| ==> s[j] == name[j];
    assert s[|name|] == ':';
    var colon := IndexOf(s, ':');
    assert colon.value == |name|;
    assert s[|name| + 1..] == " " + body by {
      assert forall i :: 0 <= i < |body| + 1 ==> s[|name| + 1 + i] == (" " + body)[i];
    }
    assert TrimStart(" " + body) == TrimStart(body);
  }

  /** A title without a colon, or starting with one, is kept. */
  lemma NoAccountPrefix(t: string)
    requires ':' !in t || t[0] == ':'
    ensures StripAccountPrefix(t) == t
  {
    var colon := IndexOf(t, ':');
    if colon.Some? {
      assert t[0] == ':';
      assert colon.value == 0;
    }
  }

  // ---------------------------------------------------------------------------
  // Tweet links and symbol matching
  // ---------------------------------------------------------------------------

  predicate IsDigit(c: char)
  {
    '0' <= c <= '9'
  }

  /** The longest run of digits that ends the string. */
  function TrailingDigits(s: string): (d: string)
    ensures |d| <= |s| && d == s[|s| - |d|..]
    ensures forall i :: 0 <= i < |d| ==> IsDigit(d[i])
    ensures |d| < |s| ==> !IsDigit(s[|s| - |d| - 1])
  {
    if |s| > 0 && IsDigit(s[|s| - 1]) then TrailingDigits(s[..|s| - 1]) + [s[|s| - 1]] else []
  }

  /** `link.match(/\/(\d+)$/)`: the digits after a final `/`. */
  function TweetId(link: string): Option<string>
  {
    var d := TrailingDigits(link);
    if 0 < |d| < |link| && link[|link| - |d| - 1] == '/' then Some(d) else None
  }

  /** A mirror link becomes an x.com status link when it ends in `/<digits>`,
      the account's x.com page otherwise; other links are kept. */
  function TwitterLink(link: string, username: string): (r: string)
    ensures !Contains(link, "nitter") ==> r == link
    ensures Contains(link, "nitter") ==> StartsWith(r, "https://x.com/" + username)
  {
    if Contains(link, "nitter") then
      match TweetId(link)
      case Some(id) => "https://x.com/" + username + "/status/" + id
      case None => "https://x.com/" + username
    else link
  }

  lemma TwitterLinkRule(prefix: string, id: string, link: string, username: string)
    requires |id| > 0 && forall i :: 0 <= i < |id| ==> IsDigit(id[i])
    ensures Contains(prefix + "/" + id, "nitter") ==>
      TwitterLink(prefix + "/" + id, username) == "https://x.com/" + username + "/status/" + id
    ensures !Contains(link, "nitter") ==> TwitterLink(link, username) == link
    ensures Contains(link, "nitter") && (|link| == 0 || IsDigit(link[|link| - 1]) == false) ==>
      TwitterLink(link, username) == "https://x.com/" + username
  {
    TrailingDigitsAfterSlash(prefix, id);
  }

  lemma {:induction false} TrailingDigitsAfterSlash(prefix: string, id: string)
    requires forall i :: 0 <= i < |id| ==> IsDigit(id[i])
    ensures TrailingDigits(prefix + "/" + id) == id
  {
    var s := prefix + "/" + id;
    if |id| > 0 {
      var init := id[..|id| - 1];
      assert s[..|s| - 1] == prefix + "/" + init;
      TrailingDigitsAfterSlash(prefix, init);
      assert id == init + [id[|id| - 1]];
    }
  }

  predicate IsWordChar(c: char)
  {
    'a' <= c <= 'z' || 'A' <= c <= 'Z' || '0' <= c <= '9' || c == '_'
  }

  predicate WordAt(s: string, i: int)
  {
    0 <= i < |s| && IsWordChar(s[i])
  }

  /** `\b` at position `i`. */
  predicate IsBoundary(s: string, i: int)
  {
    WordAt(s, i - 1) != WordAt(s, i)
  }

  /** `new RegExp('\\b' + symbolUpper + '\\b', 'i').test(text)`. */
  predicate MentionsSymbol(text: string, symbolUpper: string)
    ensures MentionsSymbol(text, symbolUpper) ==> |symbolUpper| <= |text|
  {
    exists i :: 0 <= i <= |text| - |symbolUpper|
      && EqualsIgnoreCase(text[i..i + |symbolUpper|], symbolUpper)
      && IsBoundary(text, i) && IsBoundary(text, i + |symbolUpper|)
  }

  lemma MentionsSymbolExamples()
    ensures MentionsSymbol("Whale moved 500 btc.", "BTC")
    ensures !MentionsSymbol("wbtc", "BTC")
  {
    var t := "Whale moved 500 btc.";
    assert t[16..19] == "btc";
    assert Upper("btc") == "BTC";
    assert IsBoundary(t, 16) && IsBoundary(t, 19);
    var u := "wbtc";
    forall i | 0 <= i <= |u| - 3 ensures !(IsBoundary(u, i) && IsBoundary(u, i + 3)) {
      assert WordAt(u, 0) && WordAt(u, 1) && WordAt(u, 2) && WordAt(u, 3);
    }
  }

  // ---------------------------------------------------------------------------
  // Tweet selection
  // ---------------------------------------------------------------------------

  datatype Account = Account(username: string, name: string)

  const Accounts: seq<Account> := [Account("EmberCN", "EmberCN"), Account("lookonchain", "Lookonchain")]

  /** The mirror instances tried for each account, in order. */
  const NitterInstances: seq<string> := [
    "https://nitter.net", "https://nitter.pussthecat.org", "https://nitter.42l.fr",
    "https://nitter.unixfox.eu", "https://nitter.privacydev.net"]

  /** An item's publication date: absent, or parsed; an unparsable date makes
      `toISOString` throw, which abandons the instance. */
  datatype PubDate = NoPubDate | ParsedDate(ms: int) | InvalidDate

  /** One RSS item: its raw text and the captured tag contents. */
  datatype RssItem = RssItem(
    content: string,
    title: Option<string>,
    link: Option<string>,
    pubDate: PubDate,
    description: Option<string>)

  /** A mirror's reply: unavailable (error, timeout, non-2xx), or a feed. */
  datatype FeedReply = Unavailable | Feed(text: string, items: seq<RssItem>)

  datatype Outcome = Skip | Keep(tweet: NewsItem) | Abort

  function SourceLabel(account: Account): string
  {
    if account.name == "Lookonchain" then OnchainLabel else account.name + " (Twitter)"
  }

  /** The tweet text: the cleaned description, or, when that is shorter than
      10 characters, the trimmed title without its account prefix. */
  function TweetText(description: Option<string>, title: string): (r: string)
    ensures |r| > 0 ==> !IsSpace(r[0])
    ensures |r| <= |title| || (description.Some? && |r| <= |description.value|)
  {
    var fromDescription := if description.Some? then CleanDescription(description.value) else "";
    TrimShape(title);
    if |fromDescription| < 10 then StripAccountPrefix(Trim(title))
    else
      CleanDescriptionShape(description.value);
      fromDescription
  }

  /** What one RSS item yields. */
  function ItemOutcome(account: Account, symbolUpper: string, item: RssItem, now: int): (o: Outcome)
    ensures o.Keep? ==>
      && item.title.Some? && item.link.Some?
      && MentionsSymbol(item.content, symbolUpper)
      && var text := TweetText(item.description, item.title.value);
      && MentionsSymbol(text, symbolUpper) && |text| > 15
      && o.tweet.description == Take(text, 600)
      && o.tweet.source == SourceLabel(account)
      && o.tweet.kind == Onchain
    ensures o.Abort? <==> MentionsSymbol(item.content, symbolUpper) && item.title.Some? && item.link.Some? && item.pubDate.InvalidDate?
    ensures o.Keep? <==>
      && MentionsSymbol(item.content, symbolUpper) && item.title.Some? && item.link.Some?
      && !item.pubDate.InvalidDate?
      && var text := TweetText(item.description, item.title.value);
      && MentionsSymbol(text, symbolUpper) && |text| > 15
    ensures o.Keep? ==>
      && o.tweet.title == "🔗 " + account.name + " - " + symbolUpper + " 链上追踪"
      && o.tweet.url == TwitterLink(Trim(item.link.value), account.username)
      && o.tweet.publishedAt == (if item.pubDate.ParsedDate? then item.pubDate.ms else now)
  {
    if !MentionsSymbol(item.content, symbolUpper) || item.title.None? || item.link.None? then Skip
    else
      var text := TweetText(item.description, item.title.value);
      var url := TwitterLink(Trim(item.link.value), account.username);
      var publishedAt := (match item.pubDate
        case ParsedDate(ms) => ms
        case _ => now);
      if item.pubDate.InvalidDate? then Abort
      else if MentionsSymbol(text, symbolUpper) && |text| > 15 then
        Keep(NewsItem("🔗 " + account.name + " - " + symbolUpper + " 链上追踪", Take(text, 600), url, SourceLabel(account), publishedAt, Onchain))
      else Skip
  }

  /** The first item that yields a tweet, unless an item throws first. */
  function FirstTweet(account: Account, symbolUpper: string, items: seq<RssItem>, now: int): Option<NewsItem>
  {
    if |items| == 0 then None
    else match ItemOutcome(account, symbolUpper, items[0], now)
      case Keep(t) => Some(t)
      case Abort => None
      case Skip => FirstTweet(account, symbolUpper, items[1..], now)
  }

  /** The tweet a mirror's reply yields: none unless the whole feed mentions the symbol. */
  function FeedTweet(account: Account, symbolUpper: string, reply: FeedReply, now: int): Option<NewsItem>
  {
    if reply.Feed? && MentionsSymbol(reply.text, symbolUpper) then FirstTweet(account, symbolUpper, reply.items, now) else None
  }

  /** The tweet of the first mirror that yields one. */
  function AccountTweet(account: Account, symbolUpper: string, replies: seq<FeedReply>, now: int): Option<NewsItem>
  {
    if |replies| == 0 then None
    else
      var t := FeedTweet(account, symbolUpper, replies[0], now);
      if t.Some? then t else AccountTweet(account, symbolUpper, replies[1..], now)
  }

  /** At most one tweet per account, in account order. An undated tweet is
      stamped when its item is read, so each account has its own clock
      reading `times[a]`. */
  function TweetsOf(accounts: seq<Account>, symbolUpper: string, feeds: seq<seq<FeedReply>>, times: seq<int>): seq<NewsItem>
    requires |feeds| == |accounts| && |times| == |accounts|
  {
    if |accounts| == 0 then []
    else
      var n := |accounts| - 1;
      var t := AccountTweet(accounts[n], symbolUpper, feeds[n], times[n]);
      TweetsOf(accounts[..n], symbolUpper, feeds[..n], times[..n]) + (if t.Some? then [t.value] else [])
  }

  /** The `while` over the items of one feed, stopping at the first tweet kept. */
  method ScanItems(account: Account, symbolUpper: string, items: seq<RssItem>, now: int) returns (tweet: Option<NewsItem>)
    ensures tweet == FirstTweet(account, symbolUpper, items, now)
  {
    tweet := None;
    var foundTweet := false;
    var i := 0;
    while i < |items| && !foundTweet
      invariant 0 <= i <= |items|
      invariant foundTweet <==> tweet.Some?
      invariant foundTweet ==> tweet == FirstTweet(account, symbolUpper, items, now)
      invariant !foundTweet ==> FirstTweet(account, symbolUpper, items, now) == FirstTweet(account, symbolUpper, items[i..], now)
    {
      assert items[i..][0] == items[i] && items[i..][1..] == items[i + 1..];
      var outcome := ItemOutcome(account, symbolUpper, items[i], now);
      if outcome.Abort? {
        return;
      }
      if outcome.Keep? {
        tweet := Some(outcome.tweet);
        foundTweet := true;
      }
      i := i + 1;
    }
  }

  /** The `for` over the mirror instances of one account, with its `foundTweet` flag. */
  method TryAccount(account: Account, symbolUpper: string, replies: seq<FeedReply>, now: int) returns (tweet: Option<NewsItem>)
    ensures tweet == AccountTweet(account, symbolUpper, replies, now)
  {
    tweet := None;
    var foundTweet := false;
    var k := 0;
    while k < |replies|
      invariant 0 <= k <= |replies|
      invariant foundTweet <==> tweet.Some?
      invariant foundTweet ==> tweet == AccountTweet(account, symbolUpper, replies, now)
      invariant !foundTweet ==> AccountTweet(account, symbolUpper, replies, now) == AccountTweet(account, symbolUpper, replies[k..], now)
    {
      if foundTweet {
        break;
      }
      assert replies[k..][0] == replies[k] && replies[k..][1..] == replies[k + 1..];
      var reply := replies[k];
      if reply.Feed? && MentionsSymbol(reply.text, symbolUpper) {
        tweet := ScanItems(account, symbolUpper, reply.items, now);
        foundTweet := tweet.Some?;
      }
      k := k + 1;
    }
  }

  /** `fetchTwitterOnchainData`, with the mirrors' replies as `feeds[account][instance]`. */
  method FetchTwitterOnchainData(symbol: string, feeds: seq<seq<FeedReply>>, times: seq<int>) returns (items: seq<NewsItem>)
    requires |feeds| == |Accounts| && |times| == |Accounts|
    requires forall a :: 0 <= a < |feeds| ==> |feeds[a]| == |NitterInstances|
    ensures items == TweetsOf(Accounts, Upper(symbol), feeds, times)
  {
    var symbolUpper := Upper(symbol);
    items := [];
    var a := 0;
    while a < |Accounts|
      invariant 0 <= a <= |Accounts|
      invariant items == TweetsOf(Accounts[..a], symbolUpper, feeds[..a], times[..a])
    {
      var tweet := TryAccount(Accounts[a], symbolUpper, feeds[a], times[a]);
      if tweet.Some? {
        items := items + [tweet.value];
      }
      assert Accounts[..a + 1][..a] == Accounts[..a] && feeds[..a + 1][..a] == feeds[..a] && times[..a + 1][..a] == times[..a];
      a := a + 1;
    }
    assert Accounts[..a] == Accounts && feeds[..a] == feeds && times[..a] == times;
  }

  /** Every kept tweet comes from a distinct account, carries that account's
      label, and has a description of 16 to 600 characters. */
  lemma {:induction false} TweetsShape(accounts: seq<Account>, symbolUpper: string, feeds: seq<seq<FeedReply>>, times: seq<int>)
    requires |feeds| == |accounts| && |times| == |accounts|
    ensures var r := TweetsOf(accounts, symbolUpper, feeds, times);
      && |r| <= |accounts|
      && (forall i :: 0 <= i < |r| ==> 16 <= |r[i].description| <= 600 && r[i].kind == Onchain)
      && (forall i :: 0 <= i < |r| ==> exists a :: 0 <= a < |accounts| && r[i].source == SourceLabel(accounts[a]))
  {
    if |accounts| > 0 {
      var n := |accounts| - 1;
      TweetsShape(accounts[..n], symbolUpper, feeds[..n], times[..n]);
      AccountTweetShape(accounts[n], symbolUpper, feeds[n], times[n]);
      var r0 := TweetsOf(accounts[..n], symbolUpper, feeds[..n], times[..n]);
      var r := TweetsOf(accounts, symbolUpper, feeds, times);
      forall i | 0 <= i < |r| ensures exists a :: 0 <= a < |accounts| && r[i].source == SourceLabel(accounts[a]) {
        if i < |r0| {
          var a :| 0 <= a < n && r0[i].source == SourceLabel(accounts[..n][a]);
          assert r[i].source == SourceLabel(accounts[a]);
        } else {
          assert r[i].source == SourceLabel(accounts[n]);
        }
      }
    }
  }

  lemma {:induction false} FirstTweetShape(account: Account, symbolUpper: string, items: seq<RssItem>, now: int)
    ensures var t := FirstTweet(account, symbolUpper, items, now);
      t.Some? ==> 16 <= |t.value.description| <= 600 && t.value.kind == Onchain && t.value.source == SourceLabel(account)
  {
    if |items| > 0 {
      FirstTweetShape(account, symbolUpper, items[1..], now);
    }
  }

  lemma {:induction false} AccountTweetShape(account: Account, symbolUpper: string, replies: seq<FeedReply>, now: int)
    ensures var t := AccountTweet(account, symbolUpper, replies, now);
      t.Some? ==> 16 <= |t.value.description| <= 600 && t.value.kind == Onchain && t.value.source == SourceLabel(account)
  {
    if |replies| > 0 {
      if replies[0].Feed? {
        FirstTweetShape(account, symbolUpper, replies[0].items, now);
      }
      AccountTweetShape(account, symbolUpper, replies[1..], now);
    }
  }

  /** Only Lookonchain's tweet is pinned, and the two accounts' labels differ,
      so at most one tweet per account is kept. */
  lemma PinnedOnlyForLookonchain()
    ensures SourceLabel(Accounts[1]) == OnchainLabel
    ensures SourceLabel(Accounts[0]) != OnchainLabel
    ensures SourceLabel(Accounts[0]) != ExplorerSource && SourceLabel(Accounts[1]) != ExplorerSource
  {
    assert SourceLabel(Accounts[0])[0] == 'E';
  }

  // ---------------------------------------------------------------------------
  // The route
  // ---------------------------------------------------------------------------

  /** `searchParams.get('symbol') || 'BTC'`. */
  function SymbolParam(p: Option<string>): (symbol: string)
    ensures p.Some? && p.value != "" ==> symbol == p.value
    ensures p.None? || p.value == "" ==> symbol == "BTC"
  {
    if p.Some? && p.value != "" then p.value else "BTC"
  }

  /** The list before sorting, in push order. */
  function Collected(symbol: string, coinGeckoNews: seq<NewsItem>, cryptoCompareNews: seq<NewsItem>,
                     tweets: seq<NewsItem>, community: Option<Community>, explorerTime: int, projectTime: int): seq<NewsItem>
  {
    var coinId := CoinGeckoId(symbol);
    (if coinId.Some? then coinGeckoNews else [])
    + cryptoCompareNews
    + Filter(tweets, Pinned) + Filter(tweets, NotPinned)
    + (if HasExplorerItem(symbol) then [ExplorerItem(symbol, explorerTime)] else [])
    + (if coinId.Some? && community.Some? && HasCommunityData(community.value)
       then [ProjectItem(symbol, coinId.value, community.value, projectTime)] else [])
  }

  /** The collected list holds the CoinGecko items (when the coin has an id),
      the CryptoCompare items, every tracked tweet exactly once, and the
      explorer and project items when they apply. */
  lemma CollectedItems(symbol: string, coinGeckoNews: seq<NewsItem>, cryptoCompareNews: seq<NewsItem>,
                       tweets: seq<NewsItem>, community: Option<Community>, explorerTime: int, projectTime: int)
    ensures var coinId := CoinGeckoId(symbol);
      multiset(Collected(symbol, coinGeckoNews, cryptoCompareNews, tweets, community, explorerTime, projectTime)) ==
        multiset(if coinId.Some? then coinGeckoNews else []) + multiset(cryptoCompareNews) + multiset(tweets)
        + multiset(if HasExplorerItem(symbol) then [ExplorerItem(symbol, explorerTime)] else [])
        + multiset(if coinId.Some? && community.Some? && HasCommunityData(community.value)
                   then [ProjectItem(symbol, coinId.value, community.value, projectTime)] else [])
  {
    FilterSplit(tweets, Pinned, NotPinned);
  }

  datatype NewsResponse = NewsResponse(symbol: string, news: seq<NewsItem>, count: nat)

  /** `GET`: collect, sort, truncate to `limit`. The source reads the clock
      separately for each account's undated tweet (`tweetTimes`), for the
      explorer item and for the project item, so each is its own parameter. */
  method GetNews(symbolParam: Option<string>, limit: int, coinGeckoNews: seq<NewsItem>, cryptoCompareNews: seq<NewsItem>,
                 feeds: seq<seq<FeedReply>>, community: Option<Community>,
                 tweetTimes: seq<int>, explorerTime: int, projectTime: int) returns (response: NewsResponse)
    requires |feeds| == |Accounts| && |tweetTimes| == |Accounts|
    requires forall a :: 0 <= a < |feeds| ==> |feeds[a]| == |NitterInstances|
    ensures var symbol := SymbolParam(symbolParam);
      && response.symbol == Upper(symbol)
      && response.news == SliceTo(SortNews(Collected(symbol, coinGeckoNews, cryptoCompareNews,
                                   TweetsOf(Accounts, Upper(symbol), feeds, tweetTimes), community, explorerTime, projectTime)), limit)
      && response.count == |response.news|
  {
    var symbol := SymbolParam(symbolParam);
    var newsItems: seq<NewsItem> := [];
    var coinId := CoinGeckoId(symbol);
    if coinId.Some? {
      newsItems := newsItems + coinGeckoNews;
      assert newsItems == coinGeckoNews;
    }
    newsItems := newsItems + cryptoCompareNews;
    var twitterData := FetchTwitterOnchainData(symbol, feeds, tweetTimes);
    var lookonchainTweets := Filter(twitterData, Pinned);
    var otherTweets := Filter(twitterData, NotPinned);
    newsItems := newsItems + lookonchainTweets;
    newsItems := newsItems + otherTweets;
    if HasExplorerItem(symbol) {
      newsItems := newsItems + [ExplorerItem(symbol, explorerTime)];
    }
    if coinId.Some? && community.Some? && HasCommunityData(community.value) {
      newsItems := newsItems + [ProjectItem(symbol, coinId.value, community.value, projectTime)];
    }
    assert newsItems == Collected(symbol, coinGeckoNews, cryptoCompareNews, twitterData, community, explorerTime, projectTime);
    var sorted := SortNews(newsItems);
    var limitedNews := SliceTo(sorted, limit);
    response := NewsResponse(Upper(symbol), limitedNews, |limitedNews|);
  }

  /** The returned list is the first `min(limit, n)` items of a sorted
      permutation of everything collected, so pinned tweets come first and
      each group is newest first. */
  lemma NewsOrdered(collected: seq<NewsItem>, limit: int)
    requires limit >= 0
    ensures var news := SliceTo(SortNews(collected), limit);
      && |news| == (if limit < |collected| then limit else |collected|)
      && news == SortNews(collected)[..|news|]
      && multiset(SortNews(collected)) == multiset(collected)
      && SortedNews(news)
  {
    SortPermutes(collected);
    SortSorts(collected);
    SliceKeepsOrder(SortNews(collected), limit);
    assert |SortNews(collected)| == |multiset(SortNews(collected))|;
  }

  lemma {:induction false} CountNone<T>(xs: seq<T>, p: T -> bool)
    requires forall i :: 0 <= i < |xs| ==> !p(xs[i])
    ensures CountWhere(xs, p) == 0
  {
    if |xs| > 0 {
      CountNone(xs[..|xs| - 1], p);
    }
  }

  predicate IsExplorerEntry(item: NewsItem)
  {
    item.source == ExplorerSource
  }

  /** No tracked tweet carries the explorer's label. */
  lemma TweetsNotExplorer(symbolUpper: string, feeds: seq<seq<FeedReply>>, times: seq<int>)
    requires |feeds| == |Accounts| && |times| == |Accounts|
    ensures forall t :: t in TweetsOf(Accounts, symbolUpper, feeds, times) ==> !IsExplorerEntry(t)
  {
    var tweets := TweetsOf(Accounts, symbolUpper, feeds, times);
    TweetsShape(Accounts, symbolUpper, feeds, times);
    PinnedOnlyForLookonchain();
    forall t | t in tweets ensures !IsExplorerEntry(t) {
      var i :| 0 <= i < |tweets| && tweets[i] == t;
      var a :| 0 <= a < |Accounts| && tweets[i].source == SourceLabel(Accounts[a]);
    }
  }

  lemma FetchedNotExplorer(g: seq<NewsItem>, c: seq<NewsItem>, tweets: seq<NewsItem>)
    requires forall t :: t in g ==> !IsExplorerEntry(t)
    requires forall t :: t in c ==> !IsExplorerEntry(t)
    requires forall t :: t in tweets ==> !IsExplorerEntry(t)
    ensures CountWhere(g + c + Filter(tweets, Pinned) + Filter(tweets, NotPinned), IsExplorerEntry) == 0
  {
    var pinned := Filter(tweets, Pinned);
    var others := Filter(tweets, NotPinned);
    CountNone(g, IsExplorerEntry);
    CountNone(c, IsExplorerEntry);
    CountNone(pinned, IsExplorerEntry);
    CountNone(others, IsExplorerEntry);
    CountAppend(g, c, IsExplorerEntry);
    CountAppend(g + c, pinned, IsExplorerEntry);
    CountAppend(g + c + pinned, others, IsExplorerEntry);
  }

  /** When no fetched item claims the explorer's label, the collected list
      holds one explorer item for BTC, ETH and SOL and none for other symbols. */
  lemma ExplorerItemOnlyForMajors(symbol: string, coinGeckoNews: seq<NewsItem>, cryptoCompareNews: seq<NewsItem>,
                                  feeds: seq<seq<FeedReply>>, community: Option<Community>,
                                  tweetTimes: seq<int>, explorerTime: int, projectTime: int)
    requires |feeds| == |Accounts| && |tweetTimes| == |Accounts|
    requires forall t :: t in coinGeckoNews ==> !IsExplorerEntry(t)
    requires forall t :: t in cryptoCompareNews ==> !IsExplorerEntry(t)
    ensures var c := Collected(symbol, coinGeckoNews, cryptoCompareNews, TweetsOf(Accounts, Upper(symbol), feeds, tweetTimes),
                               community, explorerTime, projectTime);
      CountWhere(c, IsExplorerEntry) == if HasExplorerItem(symbol) then 1 else 0
  {
    var tweets := TweetsOf(Accounts, Upper(symbol), feeds, tweetTimes);
    TweetsNotExplorer(Upper(symbol), feeds, tweetTimes);
    var coinId := CoinGeckoId(symbol);
    var g := if coinId.Some? then coinGeckoNews else [];
    var e := if HasExplorerItem(symbol) then [ExplorerItem(symbol, explorerTime)] else [];
    var p := if coinId.Some? && community.Some? && HasCommunityData(community.value)
             then [ProjectItem(symbol, coinId.value, community.value, projectTime)] else [];
    var front := g + cryptoCompareNews + Filter(tweets, Pinned) + Filter(tweets, NotPinned);
    FetchedNotExplorer(g, cryptoCompareNews, tweets);
    CountNone(p, IsExplorerEntry);
    CountAppend(front, e, IsExplorerEntry);
    CountAppend(front + e, p, IsExplorerEntry);
    if HasExplorerItem(symbol) {
      CountSingle(ExplorerItem(symbol, explorerTime), IsExplorerEntry);
    }
  }

  /** The explorer item of a listed symbol links to that chain's own explorer. */
  lemma ExplorerItemHasDedicatedUrl(symbol: string, now: int)
    requires HasExplorerItem(symbol)
    ensures ExplorerItem(symbol, now).url != CoinGeckoHome
    ensures CoinGeckoId(symbol).Some?
  {
  }
}

/** The advisory-result cache in front of the external analysis call.

    Results are kept per (symbol, timeframe, language) under the key
    `symbol_timeframe_language` and reused for four hours. The cache is a
    state transformer: one request takes the current map, the request time
    and the outcome the external call would have, and yields the next map and
    the reply. A reply served from the cache does not depend on that outcome,
    which is how "no external call is made" is stated here. */
module AnalysisCache {
  import opened Common
  import opened Types

  /** How long a stored result stays valid: four hours, in milliseconds. */
  const CacheDuration: int := 4 * 60 * 60 * 1000

  type Cache = map<string, TradingAnalysis>

  /** Splits a string at its last underscore. */
  function SplitLast(s: string): (r: Option<(string, string)>)
    ensures r.Some? ==> s == r.value.0 + "_" + r.value.1 && '_' !in r.value.1
    ensures r.None? ==> '_' !in s
    decreases |s|
  {
    if |s| == 0 then None
    else if s[|s| - 1] == '_' then Some((s[..|s| - 1], ""))
    else match SplitLast(s[..|s| - 1])
      case None => None
      case Some((a, b)) => Some((a, b + [s[|s| - 1]]))
  }

  lemma {:induction false} SplitLastAppend(a: string, b: string)
    requires '_' !in b
    ensures SplitLast(a + "_" + b) == Some((a, b))
    decreases |b|
  {
    var s := a + "_" + b;
    if |b| == 0 {
      assert s[..|s| - 1] == a;
    } else {
      var b' := b[..|b| - 1];
      assert s[..|s| - 1] == a + "_" + b';
      assert s[|s| - 1] == b[|b| - 1];
      assert '_' !in b' by {
        forall i | 0 <= i < |b'| ensures b'[i] != '_' { assert b'[i] == b[i]; }
      }
      SplitLastAppend(a, b');
      assert b' + [b[|b| - 1]] == b;
    }
  }

  /** Reference decoder of a cache key, reading the language and the
      timeframe from the right. */
  function ParseKey(key: string): Option<(string, Timeframe, Language)>
  {
    match SplitLast(key)
    case None => None
    case Some((rest, lang)) =>
      match SplitLast(rest)
      case None => None
      case Some((symbol, tf)) =>
        match (ParseTimeframe(tf), ParseLanguage(lang))
        case (Some(t), Some(l)) => Some((symbol, t, l))
        case _ => None
  }

  /** The cache key of a request. It decodes back to the request, whatever
      the symbol contains, because neither a timeframe name nor a language
      code contains an underscore. */
  function CacheKey(symbol: string, tf: Timeframe, lang: Language): (key: string)
    ensures ParseKey(key) == Some((symbol, tf, lang))
  {
    SplitLastAppend(symbol + "_" + TimeframeName(tf), LanguageCode(lang));
    SplitLastAppend(symbol, TimeframeName(tf));
    symbol + "_" + TimeframeName(tf) + "_" + LanguageCode(lang)
  }

  /** Distinct requests never share a cache entry. */
  lemma CacheKeyInjective(s1: string, t1: Timeframe, l1: Language, s2: string, t2: Timeframe, l2: Language)
    ensures CacheKey(s1, t1, l1) == CacheKey(s2, t2, l2) <==> s1 == s2 && t1 == t2 && l1 == l2
  {
  }

  /** The key of an analysis request for a snapshot. */
  function KeyOf(snapshot: MarketSnapshot, language: Language): string
  {
    CacheKey(snapshot.symbol, snapshot.timeframe, language)
  }

  /** The advisory answer as parsed, before it is stamped. */
  datatype Advice = Advice(
    thoughtProcess: string,
    decision: Decision,
    confidence: real,
    entryZone: string,
    stopLoss: string,
    takeProfit: string,
    leverage: string)

  /** The parsed answer with its time field set to the request time. */
  function Stamp(a: Advice, now: int): (t: TradingAnalysis)
    ensures t.timestamp == now
    ensures Advice(t.thoughtProcess, t.decision, t.confidence, t.entryZone,
                   t.stopLoss, t.takeProfit, t.leverage) == a
  {
    TradingAnalysis(a.thoughtProcess, a.decision, a.confidence, a.entryZone,
                    a.stopLoss, a.takeProfit, a.leverage, now)
  }

  /** What the external analysis call would yield: a parsed answer, a reply
      that does not parse, or a failure of the call itself. */
  datatype AdvisorOutcome = Parsed(advice: Advice) | Unparseable | RequestFailed

  datatype AnalysisError = ParseError | RequestError

  /** The reply to one request. */
  datatype Reply = FromCache(analysis: TradingAnalysis) | Computed(analysis: TradingAnalysis) | Failed(error: AnalysisError)

  /** The next cache and the reply. */
  datatype Step = Step(cache: Cache, reply: Reply)

  /** A stored entry is still valid at `now` while its age is strictly below
      the cache duration: it expires at the instant four hours after its
      timestamp, and from then on it is never valid again. */
  function IsFresh(entry: TradingAnalysis, now: int): (valid: bool)
    ensures valid <==> now < entry.timestamp + CacheDuration
  {
    now - entry.timestamp < CacheDuration
  }

  /** Validity is an interval of time: an entry valid at some time was valid
      at every earlier time, and the last valid millisecond is one before the
      expiry instant. */
  lemma FreshnessEndsAtExpiry(entry: TradingAnalysis, t1: int, t2: int)
    ensures t1 <= t2 && IsFresh(entry, t2) ==> IsFresh(entry, t1)
    ensures IsFresh(entry, entry.timestamp + CacheDuration - 1)
    ensures !IsFresh(entry, entry.timestamp + CacheDuration)
  {
  }

  /** One analysis request at time `now`. */
  function AnalyzeMarket(cache: Cache, snapshot: MarketSnapshot, language: Language,
                         now: int, outcome: AdvisorOutcome): (s: Step)
    ensures var key := KeyOf(snapshot, language);
      s.reply.FromCache? <==> key in cache && IsFresh(cache[key], now)
    ensures s.reply.FromCache? ==> s.reply.analysis == cache[KeyOf(snapshot, language)] && s.cache == cache
    ensures s.reply.Computed? <==> !s.reply.FromCache? && outcome.Parsed?
    ensures s.reply.Computed? ==>
      && s.reply.analysis == Stamp(outcome.advice, now)
      && s.cache == cache[KeyOf(snapshot, language) := s.reply.analysis]
    ensures s.reply.Failed? ==> s.cache == cache
    ensures s.reply.Failed? ==> (s.reply.error == ParseError <==> outcome.Unparseable?)
  {
    var key := CacheKey(snapshot.symbol, snapshot.timeframe, language);
    if key in cache && now - cache[key].timestamp < CacheDuration then
      Step(cache, FromCache(cache[key]))
    else
      match outcome
      case Parsed(advice) =>
        var stamped := Stamp(advice, now);
        Step(cache[key := stamped], Computed(stamped))
      case Unparseable => Step(cache, Failed(ParseError))
      case RequestFailed => Step(cache, Failed(RequestError))
  }

  /** A hit does not consult the external call: the step is the same whatever
      that call would have returned. */
  lemma HitMakesNoCall(cache: Cache, snapshot: MarketSnapshot, language: Language, now: int,
                       o1: AdvisorOutcome, o2: AdvisorOutcome)
    requires AnalyzeMarket(cache, snapshot, language, now, o1).reply.FromCache?
    ensures AnalyzeMarket(cache, snapshot, language, now, o1) == AnalyzeMarket(cache, snapshot, language, now, o2)
  {
  }

  /** After a successful request, the stored entry is the returned one, and
      every other key keeps its entry. */
  lemma StoreReplacesOnlyThatKey(cache: Cache, snapshot: MarketSnapshot, language: Language,
                                 now: int, outcome: AdvisorOutcome, other: string)
    requires AnalyzeMarket(cache, snapshot, language, now, outcome).reply.Computed?
    requires other != KeyOf(snapshot, language)
    ensures var s := AnalyzeMarket(cache, snapshot, language, now, outcome);
      && s.cache[KeyOf(snapshot, language)] == s.reply.analysis
      && s.reply.analysis.timestamp == now
      && (other in s.cache <==> other in cache)
      && (other in cache ==> s.cache[other] == cache[other])
  {
  }

  /** Two requests for the same key within the cache duration of a successful
      one get the identical entry, and the second makes no call. */
  lemma RepeatWithinDurationHits(cache: Cache, snapshot: MarketSnapshot, language: Language,
                                 t1: int, t2: int, o1: AdvisorOutcome, o2: AdvisorOutcome)
    requires AnalyzeMarket(cache, snapshot, language, t1, o1).reply.Computed?
    requires t2 - t1 < CacheDuration
    ensures var first := AnalyzeMarket(cache, snapshot, language, t1, o1);
      var second := AnalyzeMarket(first.cache, snapshot, language, t2, o2);
      second == Step(first.cache, FromCache(first.reply.analysis))
  {
  }

  /** An entry whose age has reached the cache duration, even exactly, is
      not reused: a parsed answer replaces it with one stamped `now`. */
  lemma ExpiredEntryRecomputed(cache: Cache, snapshot: MarketSnapshot, language: Language,
                               now: int, advice: Advice)
    requires KeyOf(snapshot, language) in cache
    requires now - cache[KeyOf(snapshot, language)].timestamp >= CacheDuration
    ensures var s := AnalyzeMarket(cache, snapshot, language, now, Parsed(advice));
      && s.reply == Computed(Stamp(advice, now))
      && s.cache[KeyOf(snapshot, language)].timestamp == now
  {
  }

  /** A request one millisecond past the duration of a stored entry misses. */
  lemma OneMillisecondPastDurationMisses(cache: Cache, snapshot: MarketSnapshot, language: Language,
                                         outcome: AdvisorOutcome)
    requires KeyOf(snapshot, language) in cache
    ensures var now := cache[KeyOf(snapshot, language)].timestamp + CacheDuration + 1;
      !AnalyzeMarket(cache, snapshot, language, now, outcome).reply.FromCache?
  {
  }

  /** A failure is not cached: the map is unchanged, so a retry at the same
      time misses again and can store a parsed answer. */
  lemma FailureNotCached(cache: Cache, snapshot: MarketSnapshot, language: Language,
                         now: int, failure: AdvisorOutcome, advice: Advice)
    requires !failure.Parsed?
    requires !AnalyzeMarket(cache, snapshot, language, now, failure).reply.FromCache?
    ensures var first := AnalyzeMarket(cache, snapshot, language, now, failure);
      && first.reply.Failed?
      && first.cache == cache
      && AnalyzeMarket(first.cache, snapshot, language, now, Parsed(advice)).reply == Computed(Stamp(advice, now))
  {
  }
}

/**
 * `SmartResearchAgent`: cache first, provider second. A lookup that hits is adapted to
 * the new keyword and returned without any provider call; a miss runs a fresh analysis
 * (one web search, one news search), writes it to the cache once, and returns it.
 */
module SmartResearch {
  import opened Util
  import opened Serp
  import opened ContentCache

  /** The similarity an agent demands of a cached topic unless told otherwise. */
  const DefaultThreshold: real := 0.82

  /** The number of web results a fresh analysis asks for unless told otherwise. */
  const DefaultNumResults: int := 10

  /** Where an analysis came from. */
  datatype Source = CacheAdapted | FreshApi

  /** The dictionary `smart_competitive_analysis` returns; only a cached one has adaptation info. */
  datatype SmartResult = SmartResult(
    source: Source,
    adaptationInfo: Option<AdaptationInfo>,
    topCompetitors: seq<Competitor>,
    peopleAlsoAsk: seq<string>,
    relatedSearches: seq<string>,
    trendingTopics: seq<TrendItem>)

  /**
   * The outside world during one call: the index's answer to the query for the keyword,
   * the search provider, the MD5 hex digest, the clock, and whether the store accepts a write.
   */
  datatype World = World(
    ranking: QueryOutcome,
    provider: Provider,
    md5: string -> string,
    clock: Clock,
    storeAccepts: bool)

  /** The result built from a cache hit: the adapted analysis, tagged `cache_adapted`. */
  function FromCache(cached: CachedAnalysis, keyword: string, adaptationDate: string): SmartResult {
    var a := Adapted(cached.originalTopic, keyword, cached, adaptationDate);
    SmartResult(CacheAdapted, Some(a.info), a.topCompetitors, a.peopleAlsoAsk,
                a.relatedSearches, a.trendingTopics)
  }

  /** The result of a fresh analysis: a web search, then a news search; either may raise. */
  function FreshAnalysis(keyword: string, numResults: int, provider: Provider)
    : Result<SmartResult, string>
  {
    match provider(WebSearch(keyword, numResults))
    case Err(e) => Err(e)
    case Ok(web) =>
      match provider(NewsSearch(TrendsQuery(keyword)))
      case Err(e) => Err(e)
      case Ok(news) =>
        Ok(SmartResult(FreshApi, None, TopCompetitors(web), Questions(web),
                       RelatedQueries(web), TrendItems(news)))
  }

  /** The analysis `smart_competitive_analysis` returns after a lookup that gave `found`. */
  function SmartAnalysis(found: LookupResult, keyword: string, numResults: int,
                         provider: Provider, adaptationDate: string)
    : Result<SmartResult, string>
  {
    match found
    case Hit(cached) => Ok(FromCache(cached, keyword, adaptationDate))
    case Miss => FreshAnalysis(keyword, numResults, provider)
  }

  /** The dictionary a fresh analysis hands to the cache. */
  function CacheInput(r: SmartResult): CompetitiveInput {
    CompetitiveInput(Some(r.topCompetitors), Some(r.peopleAlsoAsk), Some(r.relatedSearches))
  }

  /** The records after the call: one record more exactly when a fresh analysis succeeded and was stored. */
  function RecordsAfter(records: seq<Record>, found: LookupResult, result: Result<SmartResult, string>,
                        keyword: string, world: World): seq<Record>
  {
    if found.Miss? && result.Ok? && world.storeAccepts then
      records + [NewRecord(keyword, CacheInput(result.value), result.value.trendingTopics,
                           world.md5(keyword), world.clock)]
    else records
  }

  /** A hit is tagged `cache_adapted` and carries the adaptation of the cached analysis to the keyword. */
  lemma HitIsAdapted(cached: CachedAnalysis, keyword: string, numResults: int,
                     provider: Provider, adaptationDate: string)
    ensures
      var r := SmartAnalysis(Hit(cached), keyword, numResults, provider, adaptationDate);
      var a := Adapted(cached.originalTopic, keyword, cached, adaptationDate);
      r.Ok? && r.value.source == CacheAdapted && r.value.adaptationInfo == Some(a.info) &&
      r.value.adaptationInfo.value.basedOn == cached.originalTopic &&
      r.value.adaptationInfo.value.adaptedFor == keyword &&
      r.value.topCompetitors == a.topCompetitors && r.value.peopleAlsoAsk == a.peopleAlsoAsk &&
      r.value.relatedSearches == a.relatedSearches && r.value.trendingTopics == cached.trendingTopics
  {
  }

  /** A hit makes no provider call: its result is the same whatever the provider would answer. */
  lemma HitIgnoresProvider(cached: CachedAnalysis, keyword: string, numResults: int,
                           p1: Provider, p2: Provider, adaptationDate: string)
    ensures SmartAnalysis(Hit(cached), keyword, numResults, p1, adaptationDate) ==
            SmartAnalysis(Hit(cached), keyword, numResults, p2, adaptationDate)
  {
  }

  /**
   * A miss asks the provider exactly two things: the web search for the keyword and the
   * news search for its trends. Providers that agree on those give the same result.
   */
  lemma MissAsksTwoQueries(keyword: string, numResults: int, p1: Provider, p2: Provider,
                           adaptationDate: string)
    requires p1(WebSearch(keyword, numResults)) == p2(WebSearch(keyword, numResults))
    requires p1(NewsSearch(keyword + " 2024 trends")) == p2(NewsSearch(keyword + " 2024 trends"))
    ensures SmartAnalysis(Miss, keyword, numResults, p1, adaptationDate) ==
            SmartAnalysis(Miss, keyword, numResults, p2, adaptationDate)
  {
    assert TrendsQuery(keyword) == keyword + " 2024 trends";
  }

  /**
   * A successful miss is tagged `fresh_api`, has no adaptation info, at most five
   * competitors and trending items, and one question or related search per provider entry.
   */
  lemma MissIsFresh(keyword: string, numResults: int, provider: Provider, adaptationDate: string)
    requires provider(WebSearch(keyword, numResults)).Ok?
    requires provider(NewsSearch(TrendsQuery(keyword))).Ok?
    ensures
      var r := SmartAnalysis(Miss, keyword, numResults, provider, adaptationDate);
      var web := provider(WebSearch(keyword, numResults)).value;
      r.Ok? && r.value.source == FreshApi && r.value.adaptationInfo.None? &&
      |r.value.topCompetitors| <= 5 && |r.value.trendingTopics| <= 5 &&
      r.value.topCompetitors == TopCompetitors(web) &&
      |r.value.peopleAlsoAsk| == |web.peopleAlsoAsk.GetOr([])| &&
      |r.value.relatedSearches| == |web.relatedSearches.GetOr([])|
  {
  }

  /**
   * On a miss, either search may raise: a failed web search, or a failed news search after a
   * successful web search, reaches the caller with the provider's text, and nothing is cached.
   */
  lemma MissFailurePropagates(records: seq<Record>, keyword: string, numResults: int,
                              world: World, adaptationDate: string)
    ensures
      var r := SmartAnalysis(Miss, keyword, numResults, world.provider, adaptationDate);
      var web := world.provider(WebSearch(keyword, numResults));
      var news := world.provider(NewsSearch(TrendsQuery(keyword)));
      (web.Err? ==> r == Err(web.error)) &&
      (web.Ok? && news.Err? ==> r == Err(news.error)) &&
      (r.Err? <==> web.Err? || news.Err?) &&
      (r.Err? ==> RecordsAfter(records, Miss, r, keyword, world) == records)
  {
  }

  /** The agent: a similarity threshold and the cache it consults. */
  class SmartResearchAgent {
    const similarityThreshold: real
    const cache: SeoContentCache

    constructor (cache: SeoContentCache, similarityThreshold: real := DefaultThreshold)
      ensures this.cache == cache && this.similarityThreshold == similarityThreshold
    {
      this.cache := cache;
      this.similarityThreshold := similarityThreshold;
    }

    /**
     * `smart_competitive_analysis`: looks the keyword up with the agent's threshold; on a
     * hit returns the adapted cached analysis, on a miss the fresh one.
     */
    method SmartCompetitiveAnalysis(keyword: string, numResults: int, world: World)
      returns (r: Result<SmartResult, string>)
      requires DrawnFrom(world.ranking, cache.records)
      modifies cache
      ensures r == SmartAnalysis(Lookup(world.ranking, similarityThreshold), keyword, numResults,
                                 world.provider, world.clock.iso)
      ensures cache.records == RecordsAfter(old(cache.records), Lookup(world.ranking, similarityThreshold),
                                            r, keyword, world)
    {
      var found := cache.FindSimilarAnalysis(world.ranking, similarityThreshold);
      if found.Hit? {
        var cached := found.analysis;
        var adapted := cache.AdaptCachedData(cached.originalTopic, keyword, cached, world.clock.iso);
        r := Ok(SmartResult(CacheAdapted, Some(adapted.info), adapted.topCompetitors,
                            adapted.peopleAlsoAsk, adapted.relatedSearches, adapted.trendingTopics));
      } else {
        r := FreshCompetitiveAnalysis(keyword, numResults, world);
      }
    }

    /**
     * `_fresh_competitive_analysis`: the web search shaped into an analysis, the trending
     * topics, one cache write whose answer is ignored, and the result tagged `fresh_api`.
     */
    method FreshCompetitiveAnalysis(keyword: string, numResults: int, world: World)
      returns (r: Result<SmartResult, string>)
      modifies cache
      ensures r == FreshAnalysis(keyword, numResults, world.provider)
      ensures cache.records == RecordsAfter(old(cache.records), Miss, r, keyword, world)
    {
      var reply := world.provider(WebSearch(keyword, numResults));
      if reply.Err? {
        return Err(reply.error);
      }
      var web := reply.value;
      var competitors := CollectTopCompetitors(web);
      var analysis := CompetitiveInput(Some(competitors), Some(Questions(web)), Some(RelatedQueries(web)));

      var trending := FreshTrendingTopics(keyword, world.provider);
      if trending.Err? {
        return Err(trending.error);
      }

      var _ := cache.CacheSerpAnalysis(keyword, analysis, trending.value, world.md5, world.clock,
                                       world.storeAccepts);
      r := Ok(SmartResult(FreshApi, None, competitors, Questions(web), RelatedQueries(web),
                          trending.value));
    }

    /** `_fresh_trending_topics`: the news search for `<keyword> 2024 trends`, at most five items. */
    method FreshTrendingTopics(baseKeyword: string, provider: Provider)
      returns (r: Result<seq<TrendItem>, string>)
      ensures provider(NewsSearch(TrendsQuery(baseKeyword))).Err? ==>
        r == Err(provider(NewsSearch(TrendsQuery(baseKeyword))).error)
      ensures provider(NewsSearch(TrendsQuery(baseKeyword))).Ok? ==>
        r == Ok(TrendItems(provider(NewsSearch(TrendsQuery(baseKeyword))).value))
    {
      var reply := provider(NewsSearch(TrendsQuery(baseKeyword)));
      if reply.Err? {
        return Err(reply.error);
      }
      var items := CollectTrending(reply.value);
      r := Ok(items);
    }

    /** `force_fresh_analysis`: the fresh analysis whatever the cache holds, written back like a miss. */
    method ForceFreshAnalysis(keyword: string, numResults: int, world: World)
      returns (r: Result<SmartResult, string>)
      modifies cache
      ensures r == FreshAnalysis(keyword, numResults, world.provider)
      ensures cache.records == RecordsAfter(old(cache.records), Miss, r, keyword, world)
    {
      r := FreshCompetitiveAnalysis(keyword, numResults, world);
    }

    /** `competitive_analysis`: the smart analysis cut down to its three analysis keys. */
    method CompetitiveAnalysis(keyword: string, numResults: int, world: World)
      returns (r: Result<CompetitiveData, string>)
      requires DrawnFrom(world.ranking, cache.records)
      modifies cache
      ensures
        var s := SmartAnalysis(Lookup(world.ranking, similarityThreshold), keyword, numResults,
                               world.provider, world.clock.iso);
        (s.Err? ==> r == Err(s.error)) &&
        (s.Ok? ==> r == Ok(CompetitiveData(s.value.topCompetitors, s.value.peopleAlsoAsk,
                                           s.value.relatedSearches)))
      ensures cache.records == RecordsAfter(old(cache.records), Lookup(world.ranking, similarityThreshold),
        SmartAnalysis(Lookup(world.ranking, similarityThreshold), keyword, numResults,
                      world.provider, world.clock.iso), keyword, world)
    {
      var result := SmartCompetitiveAnalysis(keyword, numResults, world);
      if result.Err? {
        return Err(result.error);
      }
      var s := result.value;
      r := Ok(CompetitiveData(s.topCompetitors, s.peopleAlsoAsk, s.relatedSearches));
    }

    /**
     * `trending_topics`: on a hit the cached trending list as stored (not adapted), otherwise
     * a fresh news search, which is not written to the cache.
     */
    method TrendingTopics(baseKeyword: string, ranking: QueryOutcome, provider: Provider)
      returns (r: Result<seq<TrendItem>, string>)
      requires DrawnFrom(ranking, cache.records)
      ensures Lookup(ranking, similarityThreshold).Hit? ==>
        r == Ok(Lookup(ranking, similarityThreshold).analysis.trendingTopics)
      ensures Lookup(ranking, similarityThreshold).Miss? ==>
        var reply := provider(NewsSearch(TrendsQuery(baseKeyword)));
        (reply.Err? ==> r == Err(reply.error)) && (reply.Ok? ==> r == Ok(TrendItems(reply.value)))
    {
      var found := cache.FindSimilarAnalysis(ranking, similarityThreshold);
      if found.Hit? {
        r := Ok(found.analysis.trendingTopics);
      } else {
        r := FreshTrendingTopics(baseKeyword, provider);
      }
    }

    /** `get_cache_statistics`. */
    function GetCacheStatistics(): (s: CacheStats)
      reads cache
      ensures s.totalCachedTopics == |cache.records|
    {
      cache.GetCacheStats()
    }

    /** `clear_cache`. */
    method ClearCache(outcome: ClearOutcome) returns (ok: bool)
      modifies cache
      ensures ok <==> outcome == Cleared
      ensures cache.records == if outcome == DeleteFailed then old(cache.records) else []
    {
      ok := cache.ClearCache(outcome);
    }
  }
}

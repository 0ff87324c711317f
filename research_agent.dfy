/**
 * `ResearchAgent`: one provider search per analysis, shaped into the four-key
 * analysis dictionary, and one news search for trending topics. There is no cache.
 */
module Research {
  import opened Util
  import opened Serp

  /** The analysis dictionary: its four keys are always present. */
  datatype Analysis = Analysis(
    topCompetitors: seq<Competitor>,
    trendingTopics: seq<TrendItem>,
    peopleAlsoAsk: seq<string>,
    relatedSearches: seq<string>)

  /** The analysis of one web-search answer; this agent never fills `trending_topics`. */
  function AnalysisOf(results: SearchResults): (a: Analysis)
    ensures a.trendingTopics == []
    ensures |a.topCompetitors| <= ResultLimit
    ensures a.topCompetitors == TopCompetitors(results)
    ensures a.peopleAlsoAsk == Questions(results) && a.relatedSearches == RelatedQueries(results)
  {
    Analysis(TopCompetitors(results), [], Questions(results), RelatedQueries(results))
  }

  /**
   * `competitive_analysis`: one web search for the keyword; a provider failure
   * propagates to the caller unchanged.
   */
  method CompetitiveAnalysis(keyword: string, numResults: int, provider: Provider)
    returns (r: Result<Analysis, string>)
    ensures provider(WebSearch(keyword, numResults)).Err? ==>
      r == Err(provider(WebSearch(keyword, numResults)).error)
    ensures provider(WebSearch(keyword, numResults)).Ok? ==>
      r == Ok(AnalysisOf(provider(WebSearch(keyword, numResults)).value))
  {
    var reply := provider(WebSearch(keyword, numResults));
    if reply.Err? {
      return Err(reply.error);
    }
    var results := reply.value;
    var competitors := CollectTopCompetitors(results);
    r := Ok(Analysis(competitors, [], Questions(results), RelatedQueries(results)));
  }

  /** `trending_topics`: one news search for `<keyword> 2024 trends`, at most five items. */
  method TrendingTopics(baseKeyword: string, provider: Provider)
    returns (r: Result<seq<TrendItem>, string>)
    ensures provider(NewsSearch(TrendsQuery(baseKeyword))).Err? ==>
      r == Err(provider(NewsSearch(TrendsQuery(baseKeyword))).error)
    ensures provider(NewsSearch(TrendsQuery(baseKeyword))).Ok? ==>
      r == Ok(TrendItems(provider(NewsSearch(TrendsQuery(baseKeyword))).value))
  {
    var reply := provider(NewsSearch(baseKeyword + TrendsSuffix));
    if reply.Err? {
      return Err(reply.error);
    }
    var trending := CollectTrending(reply.value);
    r := Ok(trending);
  }
}

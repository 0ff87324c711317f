/**
 * The search provider's answers and how both research agents shape them into
 * competitive-analysis lists: at most five competitors and five news items, in the
 * provider's order, with a default for every missing field.
 */
module Serp {
  import opened Util

  /** The number of organic results and news results an analysis keeps (`[:5]`). */
  const ResultLimit: nat := 5

  /** Text appended to a keyword to ask for its trends. */
  const TrendsSuffix: string := " 2024 trends"

  /** A competitor entry; the two provenance fields are set only by cache adaptation. */
  datatype Competitor = Competitor(
    title: string,
    snippet: string,
    link: string,
    position: int,
    adaptedFrom: Option<string>,
    adaptationNote: Option<string>)

  /** The three lists of a competitive analysis, as the blog pipeline passes them on. */
  datatype CompetitiveData = CompetitiveData(
    topCompetitors: seq<Competitor>,
    peopleAlsoAsk: seq<string>,
    relatedSearches: seq<string>)

  /** A trending news item. */
  datatype TrendItem = TrendItem(title: string, source: string, date: string)

  // The provider's answer: every key of its dictionary may be missing.

  datatype OrganicResult = OrganicResult(
    title: Option<string>, snippet: Option<string>, link: Option<string>, position: Option<int>)

  datatype QuestionEntry = QuestionEntry(question: Option<string>)

  datatype RelatedEntry = RelatedEntry(query: Option<string>)

  datatype NewsResult = NewsResult(title: Option<string>, source: Option<string>, date: Option<string>)

  datatype SearchResults = SearchResults(
    organicResults: Option<seq<OrganicResult>>,
    peopleAlsoAsk: Option<seq<QuestionEntry>>,
    relatedSearches: Option<seq<RelatedEntry>>,
    newsResults: Option<seq<NewsResult>>)

  /** A web search for `query` asking for `num` results, or a news search. */
  datatype SearchRequest = WebSearch(query: string, num: int) | NewsSearch(query: string)

  /** The provider: answers a request, or raises with a message (network, quota, key). */
  type Provider = SearchRequest -> Result<SearchResults, string>

  /** The query the trending lookup sends for a keyword. */
  function TrendsQuery(keyword: string): (q: string)
    ensures |q| == |keyword| + 12
    ensures q[..|keyword|] == keyword && q[|keyword|..] == " 2024 trends"
  {
    keyword + TrendsSuffix
  }

  /** One organic result as a competitor: missing text fields become "", a missing position 0. */
  function ToCompetitor(o: OrganicResult): (c: Competitor)
    ensures c.adaptedFrom.None? && c.adaptationNote.None?
  {
    Competitor(o.title.GetOr(""), o.snippet.GetOr(""), o.link.GetOr(""), o.position.GetOr(0), None, None)
  }

  function ToTrendItem(n: NewsResult): TrendItem {
    TrendItem(n.title.GetOr(""), n.source.GetOr(""), n.date.GetOr(""))
  }

  /** The competitors of an analysis: the first five organic results, in order. */
  function TopCompetitors(results: SearchResults): (r: seq<Competitor>)
    ensures |r| <= ResultLimit
    ensures results.organicResults.None? ==> r == []
    ensures results.organicResults.Some? ==>
      var os := results.organicResults.value;
      |r| == Min(ResultLimit, |os|) &&
      forall i :: 0 <= i < |r| ==>
        r[i].title == os[i].title.GetOr("") && r[i].snippet == os[i].snippet.GetOr("") &&
        r[i].link == os[i].link.GetOr("") && r[i].position == os[i].position.GetOr(0) &&
        r[i].adaptedFrom.None? && r[i].adaptationNote.None?
  {
    var os := Take(results.organicResults.GetOr([]), ResultLimit);
    seq(|os|, i requires 0 <= i < |os| => ToCompetitor(os[i]))
  }

  /** The "people also ask" questions, one per provider entry, in order; "" for a missing one. */
  function Questions(results: SearchResults): (r: seq<string>)
    ensures results.peopleAlsoAsk.None? ==> r == []
    ensures results.peopleAlsoAsk.Some? ==>
      var qs := results.peopleAlsoAsk.value;
      |r| == |qs| && forall i :: 0 <= i < |r| ==> r[i] == qs[i].question.GetOr("")
  {
    match results.peopleAlsoAsk
    case None => []
    case Some(qs) => seq(|qs|, i requires 0 <= i < |qs| => qs[i].question.GetOr(""))
  }

  /** The related searches, one per provider entry, in order; "" for a missing one. */
  function RelatedQueries(results: SearchResults): (r: seq<string>)
    ensures results.relatedSearches.None? ==> r == []
    ensures results.relatedSearches.Some? ==>
      var rs := results.relatedSearches.value;
      |r| == |rs| && forall i :: 0 <= i < |r| ==> r[i] == rs[i].query.GetOr("")
  {
    match results.relatedSearches
    case None => []
    case Some(rs) => seq(|rs|, i requires 0 <= i < |rs| => rs[i].query.GetOr(""))
  }

  /** The trending items: the first five news results, in order, "" for a missing field. */
  function TrendItems(results: SearchResults): (r: seq<TrendItem>)
    ensures |r| <= ResultLimit
    ensures results.newsResults.None? ==> r == []
    ensures results.newsResults.Some? ==>
      var ns := results.newsResults.value;
      |r| == Min(ResultLimit, |ns|) &&
      forall i :: 0 <= i < |r| ==>
        r[i] == TrendItem(ns[i].title.GetOr(""), ns[i].source.GetOr(""), ns[i].date.GetOr(""))
  {
    var ns := Take(results.newsResults.GetOr([]), ResultLimit);
    seq(|ns|, i requires 0 <= i < |ns| => ToTrendItem(ns[i]))
  }

  /** The append loop over `organic_results[:5]`. */
  method CollectTopCompetitors(results: SearchResults) returns (competitors: seq<Competitor>)
    ensures competitors == TopCompetitors(results)
  {
    competitors := [];
    if results.organicResults.Some? {
      var first := Take(results.organicResults.value, ResultLimit);
      var i := 0;
      while i < |first|
        invariant 0 <= i <= |first|
        invariant |competitors| == i
        invariant forall j :: 0 <= j < i ==> competitors[j] == ToCompetitor(first[j])
      {
        competitors := competitors + [ToCompetitor(first[i])];
        i := i + 1;
      }
    }
  }

  /** The append loop over `news_results[:5]`. */
  method CollectTrending(results: SearchResults) returns (trending: seq<TrendItem>)
    ensures trending == TrendItems(results)
  {
    trending := [];
    if results.newsResults.Some? {
      var first := Take(results.newsResults.value, ResultLimit);
      var i := 0;
      while i < |first|
        invariant 0 <= i <= |first|
        invariant |trending| == i
        invariant forall j :: 0 <= j < i ==> trending[j] == ToTrendItem(first[j])
      {
        trending := trending + [ToTrendItem(first[i])];
        i := i + 1;
      }
    }
  }
}

/**
 * The semantic cache of competitive analyses (`SEOContentCache`).
 *
 * The vector index is foreign: a query answers with candidates ranked nearest first,
 * each carrying its id, the cached topic text, the stored metadata and a cosine
 * distance (a `real` here). What the model keeps is what the cache does with that
 * answer: the similarity cut-off, the first-match rule, the all-or-nothing decoding of
 * the stored JSON, the layout of a stored record, and the adaptation of a cached
 * analysis to a new topic by substituting its main term.
 */
module ContentCache {
  import opened Util
  import opened Text
  import opened Serp

  /** The words `_extract_main_term` skips. */
  const StopWords: seq<string> :=
    ["for", "in", "on", "with", "the", "a", "an", "and", "or", "but", "to", "of"]

  predicate IsStopWord(w: string) {
    Listed(w, StopWords)
  }

  /** How many nearest candidates a lookup asks the index for (`n_results`). */
  const QueryCandidates: nat := 3

  /** The name of the index collection. */
  const CollectionName: string := "seo_topics"

  /**
   * The wall clock at one moment: whole seconds since the epoch (`time.time()`), its
   * `isoformat()` text, and its `strftime("%Y-%m-%dT%H:%M:%S")` text.
   */
  datatype Clock = Clock(seconds: nat, iso: string, stamp: string)

  // ---------------------------------------------------------------- main term

  /** `k` is the position of the first word of `ws` that is not a stop word. */
  predicate IsFirstSignificant(ws: seq<string>, k: int) {
    0 <= k < |ws| && !IsStopWord(ws[k]) && forall j :: 0 <= j < k ==> IsStopWord(ws[j])
  }

  /**
   * `_extract_main_term`: the first word of the lower-cased topic that is not a stop
   * word; the topic itself, unchanged and not lower-cased, when every word is one.
   */
  function ExtractMainTerm(topic: string): (r: string)
    ensures r == topic || r in Words(Lower(topic))
  {
    var ws := Words(Lower(topic));
    var k := FirstWhere(ws, w => !IsStopWord(w));
    if k < |ws| then ws[k] else topic
  }

  /**
   * The main term is the first significant word of the lower-cased topic when there is
   * one, and the topic itself when every word is a stop word.
   */
  lemma MainTermIsFirstSignificant(topic: string)
    ensures var ws := Words(Lower(topic));
      (forall w :: w in ws ==> IsStopWord(w)) ==> ExtractMainTerm(topic) == topic
    ensures var ws := Words(Lower(topic));
      (exists w :: w in ws && !IsStopWord(w)) ==>
        exists k :: IsFirstSignificant(ws, k) && ws[k] == ExtractMainTerm(topic)
  {
    var ws := Words(Lower(topic));
    var k := FirstWhere(ws, w => !IsStopWord(w));
    if k < |ws| {
      assert ws[k] in ws && !IsStopWord(ws[k]);
      assert IsFirstSignificant(ws, k);
    } else {
      forall w | w in ws ensures IsStopWord(w) {
        var j :| 0 <= j < |ws| && ws[j] == w;
      }
    }
  }

  /** The main term is empty only for the empty topic. */
  lemma MainTermEmptyIff(topic: string)
    ensures ExtractMainTerm(topic) == "" <==> topic == ""
  {
    var ws := Words(Lower(topic));
    var k := FirstWhere(ws, w => !IsStopWord(w));
    if topic == "" {
      assert Lower(topic) == "";
      assert ws == [];
    } else if k < |ws| {
      WordsAreWords(Lower(topic));
      assert ws[k] in ws;
    }
  }

  /** Extracting the main term of a main term gives it back. */
  lemma MainTermIdempotent(topic: string)
    ensures ExtractMainTerm(ExtractMainTerm(topic)) == ExtractMainTerm(topic)
  {
    var ws := Words(Lower(topic));
    var k := FirstWhere(ws, w => !IsStopWord(w));
    if k < |ws| {
      var w := ws[k];
      WordsAreWords(Lower(topic));
      LowerHasNoUpper(topic);
      WordsOfLowercase(Lower(topic));
      assert w in ws;
      LowerOfLowercase(w);
      WordsOfWord(w);
      assert Words(Lower(w)) == [w];
    }
  }

  // ---------------------------------------------------------------- stored records

  /**
   * One metadata value as the index stores it: JSON text that decodes to `value`,
   * JSON text that does not decode, or a key that is not there at all.
   */
  datatype Field<T> = Encoded(value: T) | Corrupt | Absent

  datatype Metadata = Metadata(
    serpData: Field<seq<Competitor>>,
    competitors: Field<seq<Competitor>>,
    peopleAlsoAsk: Field<seq<string>>,
    relatedSearches: Field<seq<string>>,
    trendingTopics: Field<seq<TrendItem>>,
    date: Option<string>,
    topicHash: Option<string>)

  /** A stored cache entry: its id, the topic text that was embedded, and its metadata. */
  datatype Record = Record(id: string, document: string, metadata: Metadata)

  /** One candidate of a query answer. */
  datatype Candidate = Candidate(id: string, document: string, metadata: Metadata, distance: real)

  /** The index's answer to a query: candidates nearest first, or a failure of the store. */
  datatype QueryOutcome = QueryFailed | Ranked(candidates: seq<Candidate>)

  /** A decoded cache hit. */
  datatype CachedAnalysis = CachedAnalysis(
    similarity: real,
    originalTopic: string,
    serpData: seq<Competitor>,
    competitors: seq<Competitor>,
    peopleAlsoAsk: seq<string>,
    relatedSearches: seq<string>,
    trendingTopics: seq<TrendItem>,
    cachedDate: string,
    id: string)

  datatype LookupResult = Miss | Hit(analysis: CachedAnalysis)

  /** What the caller hands to `cache_serp_analysis`: a dictionary whose keys may be missing. */
  datatype CompetitiveInput = CompetitiveInput(
    topCompetitors: Option<seq<Competitor>>,
    peopleAlsoAsk: Option<seq<string>>,
    relatedSearches: Option<seq<string>>)

  /** `json.loads(metadata[key])`: fails on a missing key or text that does not decode. */
  function Load<T>(f: Field<T>): (r: Option<T>)
    ensures r.Some? <==> f.Encoded?
  {
    match f
    case Encoded(v) => Some(v)
    case _ => None
  }

  /** `json.loads(metadata.get(key, '[]'))`: a missing key decodes to the empty list. */
  function LoadOrEmpty<T>(f: Field<seq<T>>): (r: Option<seq<T>>)
    ensures f.Absent? ==> r == Some([])
    ensures f.Corrupt? ==> r.None?
  {
    match f
    case Encoded(v) => Some(v)
    case Corrupt => None
    case Absent => Some([])
  }

  /** Decoding a qualifying candidate: any failure on any key fails the whole decoding. */
  function Decode(c: Candidate): (r: Option<CachedAnalysis>)
    ensures r.Some? <==>
      c.metadata.serpData.Encoded? && c.metadata.competitors.Encoded? &&
      c.metadata.peopleAlsoAsk.Encoded? && c.metadata.relatedSearches.Encoded? &&
      !c.metadata.trendingTopics.Corrupt? && c.metadata.date.Some?
    ensures r.Some? ==>
      r.value.similarity == 1.0 - c.distance && r.value.originalTopic == c.document &&
      r.value.id == c.id
  {
    var m := c.metadata;
    match (Load(m.serpData), Load(m.competitors), Load(m.peopleAlsoAsk), Load(m.relatedSearches),
           LoadOrEmpty(m.trendingTopics), m.date)
    case (Some(serp), Some(comps), Some(paa), Some(related), Some(trending), Some(date)) =>
      Some(CachedAnalysis(1.0 - c.distance, c.document, serp, comps, paa, related, trending, date, c.id))
    case _ => None
  }

  /** A candidate qualifies when its similarity `1 - distance` reaches the threshold. */
  predicate Qualifies(c: Candidate, threshold: real) {
    1.0 - c.distance >= threshold
  }

  /** The candidates a lookup examines: the first `n_results` of the ranking. */
  function Examined(q: QueryOutcome): seq<Candidate> {
    match q
    case QueryFailed => []
    case Ranked(cs) => Take(cs, QueryCandidates)
  }

  /**
   * `find_similar_analysis`: the first examined candidate that qualifies, decoded; a miss
   * when the store fails, the answer is empty, none qualifies, or the first qualifying
   * one does not decode.
   */
  function Lookup(q: QueryOutcome, threshold: real): LookupResult {
    var cs := Examined(q);
    var k := FirstWhere(cs, c => Qualifies(c, threshold));
    if k == |cs| then Miss
    else match Decode(cs[k])
      case Some(a) => Hit(a)
      case None => Miss
  }

  /**
   * The index answers from the collection it holds: every candidate it ranks is one of the
   * stored records, with a distance attached.
   */
  predicate DrawnFrom(q: QueryOutcome, records: seq<Record>) {
    q.Ranked? ==> forall c :: c in q.candidates ==> Record(c.id, c.document, c.metadata) in records
  }

  /** A hit is the first qualifying candidate among the three nearest, in rank order. */
  lemma LookupHitIsFirstQualifying(q: QueryOutcome, threshold: real)
    requires Lookup(q, threshold).Hit?
    ensures q.Ranked?
    ensures exists k :: (0 <= k < Min(QueryCandidates, |q.candidates|) &&
      (forall j :: 0 <= j < k ==> !Qualifies(q.candidates[j], threshold)) &&
      Qualifies(q.candidates[k], threshold) &&
      Some(Lookup(q, threshold).analysis) == Decode(q.candidates[k]))
    ensures Lookup(q, threshold).analysis.similarity >= threshold
  {
    var cs := Examined(q);
    var k := FirstWhere(cs, c => Qualifies(c, threshold));
    assert k < |cs| && cs[k] == q.candidates[k];
  }

  /** A lookup misses exactly when no examined candidate qualifies or the first one to qualify does not decode. */
  lemma LookupMissIff(q: QueryOutcome, threshold: real)
    ensures Lookup(q, threshold) == Miss <==>
      (forall c :: c in Examined(q) ==> !Qualifies(c, threshold)) ||
      (exists k :: 0 <= k < |Examined(q)| && Qualifies(Examined(q)[k], threshold) &&
        (forall j :: 0 <= j < k ==> !Qualifies(Examined(q)[j], threshold)) &&
        Decode(Examined(q)[k]).None?)
  {
    var cs := Examined(q);
    var k := FirstWhere(cs, c => Qualifies(c, threshold));
    if k < |cs| {
      assert cs[k] in cs;
      forall k' | 0 <= k' < |cs| && Qualifies(cs[k'], threshold) &&
                  (forall j :: 0 <= j < k' ==> !Qualifies(cs[j], threshold))
        ensures k' == k
      {
      }
    } else {
      forall c | c in cs ensures !Qualifies(c, threshold) {
        var i :| 0 <= i < |cs| && cs[i] == c;
      }
    }
  }

  /**
   * A qualifying candidate whose metadata does not decode ends the lookup with a miss:
   * a later candidate that qualifies and decodes is not tried.
   */
  lemma CorruptFirstMatchMisses(c: Candidate, later: Candidate, threshold: real)
    requires Qualifies(c, threshold) && Decode(c).None?
    requires Qualifies(later, threshold) && Decode(later).Some?
    ensures Lookup(Ranked([c, later]), threshold) == Miss
  {
    assert Examined(Ranked([c, later])) == [c, later];
  }

  /** An empty index, or one whose store fails, never gives a hit. */
  lemma EmptyOrFailedLookupMisses(threshold: real)
    ensures Lookup(Ranked([]), threshold) == Miss
    ensures Lookup(QueryFailed, threshold) == Miss
  {
  }

  /** A hit is read from a stored record: its id and original topic are that record's. */
  lemma HitComesFromStore(q: QueryOutcome, records: seq<Record>, threshold: real)
    requires DrawnFrom(q, records) && Lookup(q, threshold).Hit?
    ensures exists rec :: (rec in records && rec.id == Lookup(q, threshold).analysis.id &&
      rec.document == Lookup(q, threshold).analysis.originalTopic)
  {
    var cs := Examined(q);
    var k := FirstWhere(cs, c => Qualifies(c, threshold));
    var c := q.candidates[k];
    assert c in q.candidates;
    assert Record(c.id, c.document, c.metadata) in records;
  }

  /** An index over an empty collection either fails or ranks nothing. */
  lemma DrawnFromNothing(q: QueryOutcome)
    ensures DrawnFrom(q, []) <==> q.QueryFailed? || q.candidates == []
  {
    if q.Ranked? && q.candidates != [] {
      assert q.candidates[0] in q.candidates;
    }
  }

  /** An index over an empty collection (a new cache, or one just cleared) never gives a hit. */
  lemma EmptyStoreMisses(q: QueryOutcome, threshold: real)
    requires DrawnFrom(q, [])
    ensures Lookup(q, threshold) == Miss
  {
    DrawnFromNothing(q);
  }

  /** `serp_<md5 of topic>_<seconds>`. */
  function SerpId(topicHash: string, seconds: nat): string {
    "serp_" + topicHash + "_" + Decimal(seconds)
  }

  /** Caching the same topic at two different seconds gives two different ids. */
  lemma SerpIdsDistinct(topicHash: string, s1: nat, s2: nat)
    requires s1 != s2
    ensures SerpId(topicHash, s1) != SerpId(topicHash, s2)
  {
    var p := "serp_" + topicHash + "_";
    DecimalInjective(s1, s2);
    assert SerpId(topicHash, s1)[|p|..] == Decimal(s1);
    assert SerpId(topicHash, s2)[|p|..] == Decimal(s2);
  }

  /**
   * The record `cache_serp_analysis` stores: `serp_data` and `competitors` both hold the
   * top competitors, every missing list is stored as an empty one.
   */
  function NewRecord(topic: string, data: CompetitiveInput, trending: seq<TrendItem>,
                     topicHash: string, clock: Clock): Record
  {
    var competitors := data.topCompetitors.GetOr([]);
    Record(
      SerpId(topicHash, clock.seconds),
      topic,
      Metadata(
        Encoded(competitors),
        Encoded(competitors),
        Encoded(data.peopleAlsoAsk.GetOr([])),
        Encoded(data.relatedSearches.GetOr([])),
        Encoded(trending),
        Some(clock.iso),
        Some(topicHash)))
  }

  /**
   * Round trip: a lookup whose nearest qualifying candidate is a freshly stored record
   * decodes exactly the analysis that was stored, with similarity `1 - distance`.
   */
  lemma StoredRecordDecodes(topic: string, data: CompetitiveInput, trending: seq<TrendItem>,
                            topicHash: string, clock: Clock, distance: real,
                            rest: seq<Candidate>, threshold: real)
    requires 1.0 - distance >= threshold
    ensures
      var rec := NewRecord(topic, data, trending, topicHash, clock);
      var competitors := data.topCompetitors.GetOr([]);
      Lookup(Ranked([Candidate(rec.id, rec.document, rec.metadata, distance)] + rest), threshold) ==
        Hit(CachedAnalysis(1.0 - distance, topic, competitors, competitors,
                           data.peopleAlsoAsk.GetOr([]), data.relatedSearches.GetOr([]),
                           trending, clock.iso, SerpId(topicHash, clock.seconds)))
  {
    var rec := NewRecord(topic, data, trending, topicHash, clock);
    var c := Candidate(rec.id, rec.document, rec.metadata, distance);
    var cs := Examined(Ranked([c] + rest));
    assert cs[0] == c;
  }

  /**
   * Insert, then look up: once `cache_serp_analysis` has appended its record, the index may
   * rank that record first, and a lookup that does gets back exactly the analysis stored.
   */
  lemma InsertThenLookup(records: seq<Record>, topic: string, data: CompetitiveInput,
                         trending: seq<TrendItem>, topicHash: string, clock: Clock,
                         distance: real, threshold: real)
    requires 1.0 - distance >= threshold
    ensures
      var rec := NewRecord(topic, data, trending, topicHash, clock);
      var q := Ranked([Candidate(rec.id, rec.document, rec.metadata, distance)]);
      var competitors := data.topCompetitors.GetOr([]);
      DrawnFrom(q, records + [rec]) &&
      Lookup(q, threshold) ==
        Hit(CachedAnalysis(1.0 - distance, topic, competitors, competitors,
                           data.peopleAlsoAsk.GetOr([]), data.relatedSearches.GetOr([]),
                           trending, clock.iso, SerpId(topicHash, clock.seconds)))
  {
    var rec := NewRecord(topic, data, trending, topicHash, clock);
    StoredRecordDecodes(topic, data, trending, topicHash, clock, distance, [], threshold);
    assert [Candidate(rec.id, rec.document, rec.metadata, distance)] + [] ==
           [Candidate(rec.id, rec.document, rec.metadata, distance)];
    assert rec in records + [rec];
  }

  // ---------------------------------------------------------------- adaptation

  datatype AdaptationInfo = AdaptationInfo(
    basedOn: string,
    adaptedFor: string,
    similarity: real,
    cachedDate: string,
    adaptationDate: string)

  /** The result of `adapt_cached_data`. */
  datatype AdaptedAnalysis = AdaptedAnalysis(
    info: AdaptationInfo,
    topCompetitors: seq<Competitor>,
    peopleAlsoAsk: seq<string>,
    relatedSearches: seq<string>,
    trendingTopics: seq<TrendItem>,
    serpData: seq<Competitor>)

  /** The note an adapted competitor carries. */
  function AdaptationNote(oldTerm: string): string {
    "Structure from " + oldTerm + " analysis"
  }

  /** The marker put in front of a question the substitution did not change. */
  function SimilarMarker(oldTerm: string): string {
    "[Similar to " + oldTerm + "] "
  }

  /** A competitor copied with its two provenance keys set. */
  function AdaptCompetitor(c: Competitor, originalTopic: string, oldTerm: string): Competitor {
    c.(adaptedFrom := Some(originalTopic), adaptationNote := Some(AdaptationNote(oldTerm)))
  }

  /** A question with the main term substituted, or marked when the substitution changes nothing. */
  function AdaptQuestion(q: string, oldTerm: string, newTerm: string): string
  {
    var a := Replace(q, oldTerm, newTerm);
    if a != q then a else SimilarMarker(oldTerm) + q
  }

  /**
   * A question containing the old term is rewritten, and differs from the original;
   * one that does not contain it, or any question when both terms are equal, is kept
   * behind the marker.
   */
  lemma AdaptQuestionCases(q: string, oldTerm: string, newTerm: string)
    ensures Contains(q, oldTerm) && newTerm != oldTerm ==>
      AdaptQuestion(q, oldTerm, newTerm) == Replace(q, oldTerm, newTerm) &&
      AdaptQuestion(q, oldTerm, newTerm) != q
    ensures !Contains(q, oldTerm) || newTerm == oldTerm ==>
      AdaptQuestion(q, oldTerm, newTerm) == SimilarMarker(oldTerm) + q
  {
    ReplaceUnchangedIff(q, oldTerm, newTerm);
  }

  function AdaptedCompetitors(cs: seq<Competitor>, originalTopic: string, oldTerm: string): seq<Competitor> {
    seq(|cs|, i requires 0 <= i < |cs| => AdaptCompetitor(cs[i], originalTopic, oldTerm))
  }

  function AdaptedQuestions(qs: seq<string>, oldTerm: string, newTerm: string): seq<string>
  {
    seq(|qs|, i requires 0 <= i < |qs| => AdaptQuestion(qs[i], oldTerm, newTerm))
  }

  function AdaptedSearches(rs: seq<string>, oldTerm: string, newTerm: string): seq<string>
  {
    seq(|rs|, i requires 0 <= i < |rs| => Replace(rs[i], oldTerm, newTerm))
  }

  /**
   * The specification of `adapt_cached_data`: competitors, questions and related searches
   * are rewritten one by one, everything else passes through.
   */
  function Adapted(originalTopic: string, newTopic: string, cached: CachedAnalysis,
                   adaptationDate: string): AdaptedAnalysis
  {
    var oldTerm := ExtractMainTerm(originalTopic);
    var newTerm := ExtractMainTerm(newTopic);
    AdaptedAnalysis(
      AdaptationInfo(originalTopic, newTopic, cached.similarity, cached.cachedDate, adaptationDate),
      AdaptedCompetitors(cached.competitors, originalTopic, oldTerm),
      AdaptedQuestions(cached.peopleAlsoAsk, oldTerm, newTerm),
      AdaptedSearches(cached.relatedSearches, oldTerm, newTerm),
      cached.trendingTopics,
      cached.serpData)
  }

  /**
   * What adaptation promises: every list keeps its length and order; each competitor is
   * its original with only the provenance keys changed; each question is rewritten or
   * marked; each related search is substituted with no marker; trending topics and SERP
   * data pass through; the provenance names both topics.
   */
  lemma AdaptedShape(originalTopic: string, newTopic: string, cached: CachedAnalysis,
                     adaptationDate: string)
    ensures
      var r := Adapted(originalTopic, newTopic, cached, adaptationDate);
      var oldTerm := ExtractMainTerm(originalTopic);
      var newTerm := ExtractMainTerm(newTopic);
      r.info.basedOn == originalTopic && r.info.adaptedFor == newTopic &&
      r.info.similarity == cached.similarity && r.info.cachedDate == cached.cachedDate &&
      r.trendingTopics == cached.trendingTopics && r.serpData == cached.serpData &&
      |r.topCompetitors| == |cached.competitors| &&
      (forall i :: 0 <= i < |r.topCompetitors| ==>
        var c, a := cached.competitors[i], r.topCompetitors[i];
        a.title == c.title && a.snippet == c.snippet && a.link == c.link &&
        a.position == c.position && a.adaptedFrom == Some(originalTopic) &&
        a.adaptationNote == Some("Structure from " + oldTerm + " analysis")) &&
      |r.peopleAlsoAsk| == |cached.peopleAlsoAsk| &&
      (forall i :: 0 <= i < |r.peopleAlsoAsk| ==>
        var q := cached.peopleAlsoAsk[i];
        (r.peopleAlsoAsk[i] == Replace(q, oldTerm, newTerm) && r.peopleAlsoAsk[i] != q) ||
        r.peopleAlsoAsk[i] == "[Similar to " + oldTerm + "] " + q) &&
      |r.relatedSearches| == |cached.relatedSearches| &&
      (forall i :: 0 <= i < |r.relatedSearches| ==>
        r.relatedSearches[i] == Replace(cached.relatedSearches[i], oldTerm, newTerm))
  {
    var r := Adapted(originalTopic, newTopic, cached, adaptationDate);
    var oldTerm := ExtractMainTerm(originalTopic);
    var newTerm := ExtractMainTerm(newTopic);
    assert r.topCompetitors == AdaptedCompetitors(cached.competitors, originalTopic, oldTerm);
    assert r.peopleAlsoAsk == AdaptedQuestions(cached.peopleAlsoAsk, oldTerm, newTerm);
    assert r.relatedSearches == AdaptedSearches(cached.relatedSearches, oldTerm, newTerm);
  }

  /** When both topics share their main term, every question gets the marker. */
  lemma SameTermMarksEveryQuestion(originalTopic: string, newTopic: string,
                                   cached: CachedAnalysis, adaptationDate: string)
    requires ExtractMainTerm(originalTopic) == ExtractMainTerm(newTopic)
    ensures
      var r := Adapted(originalTopic, newTopic, cached, adaptationDate);
      forall i :: 0 <= i < |r.peopleAlsoAsk| ==>
        r.peopleAlsoAsk[i] == SimilarMarker(ExtractMainTerm(originalTopic)) + cached.peopleAlsoAsk[i]
  {
    var term := ExtractMainTerm(originalTopic);
    var r := Adapted(originalTopic, newTopic, cached, adaptationDate);
    forall i | 0 <= i < |r.peopleAlsoAsk|
      ensures r.peopleAlsoAsk[i] == SimilarMarker(term) + cached.peopleAlsoAsk[i]
    {
      AdaptQuestionCases(cached.peopleAlsoAsk[i], term, term);
    }
  }

  /** The competitor loop of `adapt_cached_data`: copies each entry and sets its provenance. */
  method AdaptCompetitorList(cs: seq<Competitor>, originalTopic: string, oldTerm: string)
    returns (adapted: seq<Competitor>)
    ensures adapted == AdaptedCompetitors(cs, originalTopic, oldTerm)
  {
    adapted := [];
    var i := 0;
    while i < |cs|
      invariant 0 <= i <= |cs| && |adapted| == i
      invariant forall j :: 0 <= j < i ==> adapted[j] == AdaptCompetitor(cs[j], originalTopic, oldTerm)
    {
      var c := cs[i];
      adapted := adapted + [c.(adaptedFrom := Some(originalTopic),
                               adaptationNote := Some(AdaptationNote(oldTerm)))];
      i := i + 1;
    }
  }

  /** The question loop of `adapt_cached_data`: substitute, or mark when nothing changed. */
  method AdaptQuestionList(qs: seq<string>, oldTerm: string, newTerm: string)
    returns (adapted: seq<string>)
    ensures adapted == AdaptedQuestions(qs, oldTerm, newTerm)
  {
    adapted := [];
    var i := 0;
    while i < |qs|
      invariant 0 <= i <= |qs| && |adapted| == i
      invariant forall j :: 0 <= j < i ==> adapted[j] == AdaptQuestion(qs[j], oldTerm, newTerm)
    {
      var q := qs[i];
      var a := Replace(q, oldTerm, newTerm);
      if a != q {
        adapted := adapted + [a];
      } else {
        adapted := adapted + [SimilarMarker(oldTerm) + q];
      }
      i := i + 1;
    }
  }

  /** The related-search loop of `adapt_cached_data`: substitute, never mark. */
  method AdaptSearchList(rs: seq<string>, oldTerm: string, newTerm: string)
    returns (adapted: seq<string>)
    ensures adapted == AdaptedSearches(rs, oldTerm, newTerm)
  {
    adapted := [];
    var i := 0;
    while i < |rs|
      invariant 0 <= i <= |rs| && |adapted| == i
      invariant forall j :: 0 <= j < i ==> adapted[j] == Replace(rs[j], oldTerm, newTerm)
    {
      adapted := adapted + [Replace(rs[i], oldTerm, newTerm)];
      i := i + 1;
    }
  }

  // ---------------------------------------------------------------- the cache object

  /** How `clear_cache` went: done, the delete failed, or the re-creation after the delete failed. */
  datatype ClearOutcome = Cleared | DeleteFailed | RecreateFailed

  datatype CacheStats = CacheStats(totalCachedTopics: nat, cacheDirectory: string, collectionName: string)

  /** The cache: the records of its index collection, in insertion order. */
  class SeoContentCache {
    const cacheDir: string
    var records: seq<Record>

    /** Opens the persistent collection, which holds what earlier runs stored. */
    constructor (cacheDir: string, stored: seq<Record>)
      ensures this.cacheDir == cacheDir && records == stored
    {
      this.cacheDir := cacheDir;
      records := stored;
    }

    /** `find_similar_analysis` over the index's answer `q`, drawn from the stored records. */
    method FindSimilarAnalysis(q: QueryOutcome, threshold: real) returns (r: LookupResult)
      requires DrawnFrom(q, records)
      ensures r == Lookup(q, threshold)
      ensures records == [] ==> r == Miss
    {
      if records == [] {
        EmptyStoreMisses(q, threshold);
      }
      if q.QueryFailed? || q.candidates == [] {
        return Miss;
      }
      var cs := Take(q.candidates, QueryCandidates);
      var i := 0;
      while i < |cs|
        invariant 0 <= i <= |cs|
        invariant forall j :: 0 <= j < i ==> !Qualifies(cs[j], threshold)
      {
        if 1.0 - cs[i].distance >= threshold {
          assert FirstWhere(cs, c => Qualifies(c, threshold)) == i;
          var decoded := Decode(cs[i]);
          if decoded.Some? {
            return Hit(decoded.value);
          }
          return Miss;
        }
        i := i + 1;
      }
      return Miss;
    }

    /**
     * `cache_serp_analysis`: appends the record for `topic`; on a store error nothing is
     * stored and the answer is false. `md5` stands for the hex digest of the topic.
     */
    method CacheSerpAnalysis(topic: string, data: CompetitiveInput, trending: seq<TrendItem>,
                             md5: string -> string, clock: Clock, storeAccepts: bool)
      returns (ok: bool)
      modifies this
      ensures ok == storeAccepts
      ensures records == if ok then old(records) + [NewRecord(topic, data, trending, md5(topic), clock)]
                         else old(records)
    {
      var topicHash := md5(topic);
      var rec := NewRecord(topic, data, trending, topicHash, clock);
      if storeAccepts {
        records := records + [rec];
        ok := true;
      } else {
        ok := false;
      }
    }

    /** `adapt_cached_data`, with the three append loops of the source. */
    method AdaptCachedData(originalTopic: string, newTopic: string, cached: CachedAnalysis,
                           adaptationDate: string)
      returns (r: AdaptedAnalysis)
        ensures r == Adapted(originalTopic, newTopic, cached, adaptationDate)
    {
      var oldTerm := ExtractMainTerm(originalTopic);
      var newTerm := ExtractMainTerm(newTopic);

      var competitors := AdaptCompetitorList(cached.competitors, originalTopic, oldTerm);
      var questions := AdaptQuestionList(cached.peopleAlsoAsk, oldTerm, newTerm);
      var related := AdaptSearchList(cached.relatedSearches, oldTerm, newTerm);
      r := AdaptedAnalysis(
        AdaptationInfo(originalTopic, newTopic, cached.similarity, cached.cachedDate, adaptationDate),
        competitors, questions, related, cached.trendingTopics, cached.serpData);
    }

    /** `get_cache_stats`: the number of stored records and where they live. */
    function GetCacheStats(): (s: CacheStats)
      reads this
      ensures s.totalCachedTopics == |records| && s.collectionName == "seo_topics"
    {
      CacheStats(|records|, cacheDir, CollectionName)
    }

    /**
     * `clear_cache`: drops the collection and re-creates it empty. A failed delete leaves
     * the records; a failed re-creation leaves none but still answers false.
     */
    method ClearCache(outcome: ClearOutcome) returns (ok: bool)
      modifies this
      ensures ok <==> outcome == Cleared
      ensures records == if outcome == DeleteFailed then old(records) else []
    {
      match outcome
      case DeleteFailed =>
        ok := false;
      case RecreateFailed =>
        records := [];
        ok := false;
      case Cleared =>
        records := [];
        ok := true;
    }
  }
}

# SEO Manager: a verified model of the research cache and the blog pipeline

This project models the Python back end of the SEO Manager blog generator in Dafny.
It covers five pieces:

- the semantic cache of competitive analyses (`SEOContentCache`);
- the two research agents (`ResearchAgent`, and `SmartResearchAgent`, which checks the cache first);
- the `ManagerAgent` pipeline, including its file-name slug, tag list and Astro front matter;
- the FastAPI job registry that runs the pipeline in the background and reports on it;
- the request/response records of `models.py` that the registry uses.

Foreign parts are parameters of the model:

- **Vector index.** The ChromaDB index answers a query with a ranked candidate list (`QueryOutcome`). Every candidate it ranks is one of the cache's stored records (`ContentCache.DrawnFrom`).
- **Search provider.** SerpAPI is a total function from a search request to results or an error message (`Provider`).
- **Language models.** The three Gemini-backed agents are functions of their inputs (`Llm`).
- **Environment.** The MD5 digest, the wall clock and whether the store accepts a write are parameters (`World`, `Clock`). The clock carries its `isoformat()` text and its `%Y-%m-%dT%H:%M:%S` text separately.

Apart from the failures listed under "## Left out", the model covers what the Python code itself decides:

- which candidates are examined and which one wins;
- how stored JSON is decoded;
- how a cached analysis is adapted to a new topic;
- which searches a miss makes and what is written back;
- how the slug, tag list and front matter are built;
- which HTTP answer each job state gets.

Modules, one per source file:

| file | module | source |
|---|---|---|
| `util.dfy` | `Util` | Option/Result, `Take` (a slice `[:n]`), `FirstWhere` (the first element satisfying a test) |
| `text.dfy` | `Text` | ASCII `str.lower`, `capitalize`, `split`, `strip`, `replace`, `join` and decimal rendering |
| `serp.dfy` | `Serp` | search results and the shaping loops shared by both research agents |
| `content_cache.dfy` | `ContentCache` | `seo-manager-api/agents/content_cache.py` |
| `research_agent.dfy` | `Research` | `seo-manager-api/agents/research_agent.py` |
| `smart_research_agent.dfy` | `SmartResearch` | `seo-manager-api/agents/smart_research_agent.py` |
| `manager_agent.dfy` | `Manager` | `seo-manager-api/agents/manager_agent.py` |
| `app.dfy` | `App` | `seo-manager-api/app.py`, `seo-manager-api/models.py` |

Objects the source updates in place are classes with `modifies` clauses:

- the cache's record list is `ContentCache.SeoContentCache.records`;
- the job map is `App.JobRegistry.jobs`.

Each loop of the source becomes a method proved against a specification function. Examples: the top-five competitor loop, the question-adaptation loop, and the tag loop.

A qualifying candidate whose metadata does not decode ends the whole lookup with a miss, because one `except` covers the entire search (`seo-manager-api/agents/content_cache.py:37-68`). Later candidates are not tried (`ContentCache.CorruptFirstMatchMisses`).

## Model

| member | source | states |
|---|---|---|
| `Util.Take` | seo-manager-api/agents/smart_research_agent.py:86 | a slice `[:n]` has `min(n, len)` elements and is a prefix of the list |
| `Util.FirstWhere` | seo-manager-api/agents/content_cache.py:43-64 | the index of the first element passing the test, every earlier one failing it, or the length when none passes |
| `Text.Lower` | seo-manager-api/agents/content_cache.py:177 | `str.lower` keeps the length and lowers each ASCII letter in place |
| `Text.Capitalize` | seo-manager-api/agents/manager_agent.py:173 | `str.capitalize` upper-cases the first character and lower-cases the rest, keeping the length |
| `Text.ReplaceUnchangedIff` | seo-manager-api/agents/content_cache.py:138-146 | `str.replace` leaves a string unchanged exactly when the pattern does not occur or is replaced by itself, empty pattern included |
| `Text.ScanReplaceLength` | seo-manager-api/agents/content_cache.py:140 | replacing a non-empty pattern changes the length by the number of occurrences times the length difference |
| `Text.ReplaceCharIsMap` | seo-manager-api/agents/manager_agent.py:161 | replacing a one-character pattern maps each character independently |
| `Text.Strip` | seo-manager-api/agents/manager_agent.py:205 | `str.strip(chars)` is a slice of the input; every character cut from either end is in the set, and neither end of the result is |
| `Text.DecimalRoundTrip` | seo-manager-api/agents/content_cache.py:86 | the decimal rendering of a timestamp parses back to it |
| `Text.DecimalInjective` | seo-manager-api/agents/content_cache.py:86 | different timestamps render differently |
| `Text.WordsOfWord` | seo-manager-api/agents/content_cache.py:177 | `split()` of one word with no ASCII whitespace (space, `\t`, `\n`, `\v`, `\f`, `\r`, `\x1c`–`\x1f`) is that word alone |
| `Serp.TrendsQuery` | seo-manager-api/agents/smart_research_agent.py:130 | the news query is the keyword followed by ` 2024 trends` |
| `Serp.ToCompetitor` | seo-manager-api/agents/smart_research_agent.py:87-92 | a fresh competitor carries no adaptation keys |
| `Serp.TopCompetitors` | seo-manager-api/agents/smart_research_agent.py:85-93 | the first five organic results in order, missing text fields as "" and a missing position as 0; none when the key is absent |
| `Serp.Questions` | seo-manager-api/agents/smart_research_agent.py:96-100 | one question per "people also ask" entry, in order |
| `Serp.RelatedQueries` | seo-manager-api/agents/smart_research_agent.py:101-105 | one query per related-search entry, in order |
| `Serp.TrendItems` | seo-manager-api/agents/smart_research_agent.py:140-146 | the first five news results in order as title/source/date |
| `Serp.CollectTopCompetitors` | seo-manager-api/agents/research_agent.py:35-43 | the append loop over `organic_results[:5]` yields exactly `TopCompetitors` |
| `Serp.CollectTrending` | seo-manager-api/agents/research_agent.py:72-78 | the append loop over `news_results[:5]` yields exactly `TrendItems` |
| `ContentCache.ExtractMainTerm` | seo-manager-api/agents/content_cache.py:174-184 | the main term is the topic itself or one of the words of the lower-cased topic |
| `ContentCache.MainTermIsFirstSignificant` | seo-manager-api/agents/content_cache.py:177-184 | the main term is the first lower-cased word not in the stop list, or the topic unchanged when every word is a stop word |
| `ContentCache.MainTermEmptyIff` | seo-manager-api/agents/content_cache.py:174-184 | the main term is empty exactly for the empty topic |
| `ContentCache.MainTermIdempotent` | seo-manager-api/agents/content_cache.py:174-184 | the main term of a main term is itself |
| `ContentCache.Load` | seo-manager-api/agents/content_cache.py:55-58 | `json.loads(metadata[key])` succeeds exactly on a present, decodable value |
| `ContentCache.LoadOrEmpty` | seo-manager-api/agents/content_cache.py:59 | a missing `trending_topics` key decodes to the empty list; corrupt text fails |
| `ContentCache.Decode` | seo-manager-api/agents/content_cache.py:49-62 | decoding succeeds exactly when every required key decodes and the date is present; the hit's similarity is `1 - distance` |
| `ContentCache.LookupHitIsFirstQualifying` | seo-manager-api/agents/content_cache.py:36-64 | a hit comes from the first of the three nearest candidates whose similarity reaches the threshold |
| `ContentCache.LookupMissIff` | seo-manager-api/agents/content_cache.py:43-68 | a miss happens exactly when no examined candidate qualifies or the first qualifying one does not decode |
| `ContentCache.CorruptFirstMatchMisses` | seo-manager-api/agents/content_cache.py:48-68 | a corrupt first match ends the lookup: a later good match is not tried |
| `ContentCache.EmptyOrFailedLookupMisses` | seo-manager-api/agents/content_cache.py:43-68 | an empty index or a failing store gives no hit |
| `ContentCache.SerpIdsDistinct` | seo-manager-api/agents/content_cache.py:84-86 | ids for the same topic at different seconds differ |
| `ContentCache.HitComesFromStore` | seo-manager-api/agents/content_cache.py:36-64 | when the index answers from the stored records, a hit's id and original topic are those of a stored record |
| `ContentCache.DrawnFromNothing` | seo-manager-api/agents/content_cache.py:36-45 | an index over an empty collection fails or ranks nothing |
| `ContentCache.EmptyStoreMisses` | seo-manager-api/agents/content_cache.py:36-45 | a lookup in a new or cleared cache misses |
| `ContentCache.InsertThenLookup` | seo-manager-api/agents/content_cache.py:70-110 | after `cache_serp_analysis` appends its record, a lookup that ranks that record first and close enough gets back exactly the stored analysis |
| `ContentCache.StoredRecordDecodes` | seo-manager-api/agents/content_cache.py:70-110 | a stored record found as the nearest qualifying candidate decodes back to what was stored |
| `ContentCache.AdaptQuestionCases` | seo-manager-api/agents/content_cache.py:138-146 | a question containing the old term is rewritten and changed; otherwise, or when the terms agree, it gets the `[Similar to …]` marker |
| `ContentCache.AdaptedShape` | seo-manager-api/agents/content_cache.py:112-172 | adaptation keeps every list's length and order, sets only the provenance keys of competitors, rewrites or marks each question, substitutes each related search and passes trending topics and SERP data through |
| `ContentCache.SameTermMarksEveryQuestion` | seo-manager-api/agents/content_cache.py:138-146 | when both topics share their main term every question is marked |
| `ContentCache.AdaptCompetitorList` | seo-manager-api/agents/content_cache.py:129-135 | the competitor loop yields exactly the adapted competitors |
| `ContentCache.AdaptQuestionList` | seo-manager-api/agents/content_cache.py:138-146 | the question loop yields exactly the adapted questions |
| `ContentCache.AdaptSearchList` | seo-manager-api/agents/content_cache.py:149-152 | the related-search loop yields exactly the substituted searches |
| `ContentCache.SeoContentCache.constructor` | seo-manager-api/agents/content_cache.py:15-24 | the cache opens over the records already stored |
| `ContentCache.SeoContentCache.FindSimilarAnalysis` | seo-manager-api/agents/content_cache.py:26-68 | over an index answer drawn from the stored records, the lookup loop answers exactly `Lookup`, and a cache with no records misses |
| `ContentCache.SeoContentCache.CacheSerpAnalysis` | seo-manager-api/agents/content_cache.py:70-110 | one record appended when the store accepts, none otherwise; the answer says which |
| `ContentCache.SeoContentCache.AdaptCachedData` | seo-manager-api/agents/content_cache.py:112-172 | the three loops produce exactly `Adapted` |
| `ContentCache.SeoContentCache.GetCacheStats` | seo-manager-api/agents/content_cache.py:186-199 | the count is the number of stored records, in collection `seo_topics` |
| `ContentCache.SeoContentCache.ClearCache` | seo-manager-api/agents/content_cache.py:201-212 | true only when delete and re-creation both succeed; records kept only when the delete fails |
| `Research.AnalysisOf` | seo-manager-api/agents/research_agent.py:27-55 | the plain analysis holds the top five competitors, the questions and related searches, and an empty trending list |
| `Research.CompetitiveAnalysis` | seo-manager-api/agents/research_agent.py:14-57 | one web search; a provider error propagates, a reply is shaped by `AnalysisOf` |
| `Research.TrendingTopics` | seo-manager-api/agents/research_agent.py:59-80 | one news search for `<keyword> 2024 trends`; at most five items |
| `SmartResearch.HitIsAdapted` | seo-manager-api/agents/smart_research_agent.py:37-56 | a hit is tagged `cache_adapted` and returns the adaptation of the cached analysis to the keyword |
| `SmartResearch.HitIgnoresProvider` | seo-manager-api/agents/smart_research_agent.py:37-56 | a hit makes no provider call |
| `SmartResearch.MissAsksTwoQueries` | seo-manager-api/agents/smart_research_agent.py:65-148 | a miss depends only on the web search for the keyword and the news search for its trends |
| `SmartResearch.MissIsFresh` | seo-manager-api/agents/smart_research_agent.py:58-63 | a successful miss is tagged `fresh_api`, has no adaptation info and at most five competitors and trending items |
| `SmartResearch.MissFailurePropagates` | seo-manager-api/agents/smart_research_agent.py:65-137 | a miss fails exactly when the web search fails or, after it succeeds, the news search fails; that search's error reaches the caller and nothing is cached |
| `SmartResearch.SmartResearchAgent.constructor` | seo-manager-api/agents/smart_research_agent.py:13-19 | the agent keeps its threshold and cache |
| `SmartResearch.SmartResearchAgent.SmartCompetitiveAnalysis` | seo-manager-api/agents/smart_research_agent.py:21-63 | the answer is `SmartAnalysis` of the lookup; the cache gains one record exactly on a stored successful miss |
| `SmartResearch.SmartResearchAgent.FreshCompetitiveAnalysis` | seo-manager-api/agents/smart_research_agent.py:65-125 | web search, trending search, one cache write, result tagged `fresh_api` |
| `SmartResearch.SmartResearchAgent.FreshTrendingTopics` | seo-manager-api/agents/smart_research_agent.py:127-148 | the news search for the trends query, at most five items, errors propagate |
| `SmartResearch.SmartResearchAgent.ForceFreshAnalysis` | seo-manager-api/agents/smart_research_agent.py:154-157 | a fresh analysis whatever the cache holds, written back like a miss |
| `SmartResearch.SmartResearchAgent.CompetitiveAnalysis` | seo-manager-api/agents/smart_research_agent.py:164-173 | the smart analysis cut to its three analysis keys |
| `SmartResearch.SmartResearchAgent.TrendingTopics` | seo-manager-api/agents/smart_research_agent.py:175-183 | a hit returns the cached trending list unadapted; a miss runs the news search and caches nothing |
| `SmartResearch.SmartResearchAgent.GetCacheStatistics` | seo-manager-api/agents/smart_research_agent.py:150-152 | the cache's own statistics |
| `SmartResearch.SmartResearchAgent.ClearCache` | seo-manager-api/agents/smart_research_agent.py:159-161 | clears the cache with the cache's own outcome |
| `Manager.ResearchContext` | seo-manager-api/agents/manager_agent.py:61 | the research string is the topic, `, `, then the keyword |
| `Manager.SlugMatchesReference` | seo-manager-api/agents/manager_agent.py:161-162 | the chain of replacements and filtering equals the per-character slug: space and `-` become `-`, alphanumerics are lowered, all else is dropped |
| `Manager.SlugShape` | seo-manager-api/agents/manager_agent.py:161-163 | a slug holds only lower-case letters, digits and `-`, is no longer than the topic, and the file name is the slug plus `.md` |
| `Manager.SlugIdempotent` | seo-manager-api/agents/manager_agent.py:161-162 | slugging a slug changes nothing |
| `Manager.KeepSlugCharsAppend` | seo-manager-api/agents/manager_agent.py:162 | the character filter distributes over concatenation |
| `Util.ListedIff` | seo-manager-api/agents/manager_agent.py:203 | the word-list test used for the common words and the stop words is list membership |
| `Manager.MeaningfulWordsShape` | seo-manager-api/agents/manager_agent.py:205-206 | topic words are exactly the normalized forms of the meaningful words |
| `Manager.SingleWordTopic` | seo-manager-api/agents/manager_agent.py:205-206 | a one-word meaningful topic yields that word's normal form alone |
| `Manager.AddNewProperties` | seo-manager-api/agents/manager_agent.py:209-211 | appending only new words keeps the old list as a prefix, adds every word, adds nothing else and keeps the list duplicate-free |
| `Manager.AppendNewTags` | seo-manager-api/agents/manager_agent.py:209-211 | the tag loop yields exactly `AddNew` |
| `Manager.CoreTagsShape` | seo-manager-api/agents/manager_agent.py:196-211 | the tags before the generic ones start with the lower-cased keyword, are distinct, number at most four, and are exactly the keyword and the first three topic words |
| `Manager.CapDropsTutorial` | seo-manager-api/agents/manager_agent.py:214-217 | the five-tag cap keeps both generic tags under four core tags and drops "tutorial" at four |
| `Manager.GenericTagsDistinctIff` | seo-manager-api/agents/manager_agent.py:214 | appending "guide" and "tutorial" to a duplicate-free list keeps it duplicate-free exactly when neither is already there |
| `Manager.TagListDistinctIff` | seo-manager-api/agents/manager_agent.py:209-214 | the tag list repeats a tag exactly when a topic word was already "guide" or "tutorial" |
| `Manager.GuideTwice` | seo-manager-api/agents/manager_agent.py:199-214 | a one-word topic "guide" with no keyword yields "guide" twice |
| `Manager.FrontmatterThenPost` | seo-manager-api/agents/manager_agent.py:172-182 | the file content opens with the `---` fence and ends with the edited post unchanged |
| `Manager.AstroPostShape` | seo-manager-api/agents/manager_agent.py:157-187 | the post file is `<slug>.md`, starts with front matter and ends with the post |
| `Manager.ComposedPost` | seo-manager-api/agents/manager_agent.py:85-126 | a generated post carries its research unchanged, the editor's version of the writer's version of the outline, no slug, and URL `/blog/None` |
| `Manager.SmartPostProjection` | seo-manager-api/agents/manager_agent.py:63-71 | in smart mode the post holds exactly the smart result's three lists and trending topics |
| `Manager.ResearchFailureAborts` | seo-manager-api/agents/manager_agent.py:63-80 | a research failure aborts the pipeline with that failure |
| `Manager.ManagerAgent.constructor` | seo-manager-api/agents/manager_agent.py:27-44 | the manager keeps the research agent it was built with |
| `Manager.ManagerAgent.GenerateBlogPost` | seo-manager-api/agents/manager_agent.py:46-129 | the result is `Planned`; in smart mode the cache ends as `CacheAfter` says: one record more exactly after a successful, stored miss |
| `Manager.ManagerAgent.SaveToAstroBlog` | seo-manager-api/agents/manager_agent.py:157-192 | writes `AstroPostOf` and returns no slug |
| `Manager.ManagerAgent.GenerateTags` | seo-manager-api/agents/manager_agent.py:194-218 | the tag text is `TagsText` |
| `Manager.ManagerAgent.GetCacheStats` | seo-manager-api/agents/manager_agent.py:252-256 | statistics exactly in smart mode, counting the cache's records |
| `Manager.ManagerAgent.ClearCache` | seo-manager-api/agents/manager_agent.py:258-262 | false without a cache; otherwise the cache's own outcome |
| `App.StatusNameInjective` | seo-manager-api/models.py:46-50 | the four status names are different |
| `App.WrittenJobsWellFormed` | seo-manager-api/app.py:46-69 | every entry the handlers write is well formed; a job completes exactly when generation returns |
| `App.ToResponse` | seo-manager-api/app.py:154-177 | the response copies the result's fields, keeps four fields per competitor and reports the job id |
| `App.UnknownJobNotFound` | seo-manager-api/app.py:126-144 | an unknown id gets 404 "Job not found" from both readers |
| `App.StatusReportsEntry` | seo-manager-api/app.py:132-137 | status reports the stored status name, message and progress |
| `App.ResultOnlyWhenCompleted` | seo-manager-api/app.py:140-177 | on well-formed jobs a result is returned exactly for completed jobs, 400 names the current status, never 500 |
| `App.JobLifecycle` | seo-manager-api/app.py:46-152 | pending at 0, processing at 10, then completed at 100 with its result or error at 0 with its message |
| `App.JobRegistry.constructor` | seo-manager-api/app.py:43 | the job map starts empty and well formed |
| `App.JobRegistry.StartGeneration` | seo-manager-api/app.py:104-123 | registers the job as pending and answers with `/status/<id>`; only that entry changes |
| `App.JobRegistry.MarkProcessing` | seo-manager-api/app.py:49 | writes the processing entry |
| `App.JobRegistry.Finish` | seo-manager-api/app.py:58-69 | writes the completed or error entry |
| `App.JobRegistry.RunTask` | seo-manager-api/app.py:46-69 | the job ends as `FinishedJob` of the manager's outcome; only that entry changes; in smart mode the cache ends as `CacheAfter` says |
| `App.JobRegistry.GetJobStatus` | seo-manager-api/app.py:126-137 | 404 exactly for an unknown id, otherwise the stored status |
| `App.JobRegistry.GetBlogPostResult` | seo-manager-api/app.py:140-177 | 404 for an unknown id; a response only for a completed job, carrying that job's id; on a well-formed map, a response exactly for completed jobs and never 500 |
| `App.GenerateSync` | seo-manager-api/app.py:180-219 | a failure is answered 500 with its text; success with the response; in smart mode the cache ends as `CacheAfter` says |

## Left out

- Vector index: ChromaDB's embeddings, its persistence and its cosine ranking are not modelled. The index's answer is the `QueryOutcome` parameter. It is required to be drawn from the stored records (`DrawnFrom`), but which records it ranks, in which order and at what distance are not derived from them. So `FindSimilarAnalysis` does not check that the ranking is nearest first, and a stored record is not promised to be found.
- JSON: text is represented as `Field` (`Encoded`, `Corrupt`, `Absent`). The JSON codec itself is not modelled.
- MD5, clock and ids: the MD5 digest, the clock and `uuid.uuid4()` are parameters. `Clock.seconds` is `int(datetime.now().timestamp())`. `Clock.iso` is `isoformat()`, used for the cache and adaptation dates. `Clock.stamp` is the `strftime` text, used for `pubDate`. All three stand for one moment, though the source reads the clock separately each time.
- Search provider: the SerpAPI client and its network are the `Provider` function. A search that raises is an `Err` carrying its message.
- Language models: `content_agents.py` (the Gemini planner, writer and editor) is not part of this model. Each agent is a total function (`Llm`), so a language-model failure is not modelled.
- File and build side effects: `_save_results` writes three JSON/Markdown files, `_save_to_astro_blog` writes the Astro file and `_build_astro_project` runs npm. These are file-system and process side effects and are not modelled.
- `Manager.ManagerAgent.GenerateBlogPost`: `_save_results` (`seo-manager-api/agents/manager_agent.py:118`, `:131-155`) is outside any `try`. A failed write raises out of `generate_blog_post`, the background job then ends as "error", and `/generate-sync` answers 500. The model's `Planned` fails only in research, so this failure path is not modelled. `App.JobRegistry.RunTask` and `App.GenerateSync` inherit the gap.
- `Manager.ManagerAgent.SaveToAstroBlog`: returns the post it would write. A failing write is only logged by the source, so the result is the same.
- `Manager.ManagerAgent.GenerateBlogPost`: in plain mode the source's `competitive_analysis` entry is the research agent's whole dictionary, including its empty `trending_topics` key. `BlogResult` keeps only the three analysis keys, the ones the HTTP response reads. `Research.AnalysisOf` does record the empty list.
- `ContentCache.SeoContentCache.ClearCache`: after a failed re-creation the source still holds the deleted collection object. The model treats that as an empty record list.
- `ContentCache.SeoContentCache.GetCacheStats`: the `{'error': …}` answer when the store fails is not modelled.
- `Manager.ManagerAgent.GetCacheStats`: the `{"cache_enabled": False}` dictionary is modelled as `None`. Python's `hasattr` checks are always true for the smart agent and are not modelled.
- `Manager.IsCommon`, `ContentCache.IsStopWord`: the two word sets are lists, because only membership is used.
- `App.ResultOf`: a completed entry without a `result` raises a `KeyError` in the source, answered 500. The model keeps that branch, but the handlers never write such an entry.
- HTTP layer: FastAPI routing, CORS, request validation and the background scheduler are not modelled; requests are modelled one at a time. The health endpoints read environment variables and the clock only, so they are not modelled either.
- Logging is not modelled.
- Text: text is ASCII. Unicode case mapping, Unicode `isalnum` and whitespace outside ASCII (such as `\x85` and `\xa0`) are not modelled. The ASCII whitespace of `split()` is modelled in full, including `\x1c`–`\x1f`.
- Blog front end: the TypeScript blog site is not part of this model.

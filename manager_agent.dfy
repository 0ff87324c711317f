/**
 * `ManagerAgent`: the blog pipeline around the research agents. It researches
 * `"<topic>, <keyword>"` (through the cache in smart mode), hands the research to the
 * planner, writer and editor, derives the post's file name and tag list, and reports
 * the slug its save step returns.
 */
module Manager {
  import opened Util
  import opened Text
  import opened Serp
  import opened ContentCache
  import opened SmartResearch
  import Research

  // ---------------------------------------------------------------- research context

  /** The string both research modes are asked about. */
  function ResearchContext(topic: string, keyword: string): (ctx: string)
    ensures |ctx| == |topic| + 2 + |keyword|
    ensures ctx[..|topic|] == topic && ctx[|topic|..|topic| + 2] == ", " && ctx[|topic| + 2..] == keyword
  {
    topic + ", " + keyword
  }

  // ---------------------------------------------------------------- slug and file name

  /** The characters `_save_to_astro_blog` keeps: ASCII alphanumerics and `-`. */
  function KeepSlugChars(s: string): (r: string)
    ensures |r| <= |s|
  {
    if s == [] then [] else (if IsAlnum(s[0]) || s[0] == '-' then [s[0]] else []) + KeepSlugChars(s[1..])
  }

  /**
   * The topic slug as the source computes it: lower-case, spaces to `-`, apostrophes
   * and colons removed, then every character other than an alphanumeric or `-` dropped.
   */
  function TopicSlug(topic: string): string {
    KeepSlugChars(Replace(Replace(Replace(Lower(topic), " ", "-"), "'", ""), ":", ""))
  }

  /** The Markdown file the post is written to. */
  function Filename(topic: string): string {
    TopicSlug(topic) + ".md"
  }

  /** What one character of the topic becomes in the slug. */
  function SlugPiece(c: char): (p: string)
    ensures |p| <= 1
  {
    if c == ' ' || c == '-' then "-"
    else if IsAlnum(c) then [LowerChar(c)]
    else ""
  }

  /** The slug defined character by character: an independent reference for `TopicSlug`. */
  function SlugByChar(topic: string): (slug: string)
    ensures |slug| <= |topic|
  {
    if topic == [] then [] else SlugPiece(topic[0]) + SlugByChar(topic[1..])
  }

  predicate IsSlugChar(c: char) {
    ('a' <= c <= 'z') || ('0' <= c <= '9') || c == '-'
  }

  // The chain of rewrites after lower-casing, one character at a time.
  function SlugRewrite(s: string): string {
    KeepSlugChars(MapChar(MapChar(MapChar(s, ' ', "-"), '\'', ""), ':', ""))
  }

  lemma {:induction false} KeepSlugCharsAppend(a: string, b: string)
    ensures KeepSlugChars(a + b) == KeepSlugChars(a) + KeepSlugChars(b)
  {
    if a == [] {
      assert a + b == b;
    } else {
      var ab := a + b;
      assert ab[0] == a[0] && ab[1..] == a[1..] + b;
      KeepSlugCharsAppend(a[1..], b);
      var head := if IsAlnum(a[0]) || a[0] == '-' then [a[0]] else [];
      calc {
        KeepSlugChars(ab);
        head + KeepSlugChars(a[1..] + b);
        head + (KeepSlugChars(a[1..]) + KeepSlugChars(b));
        (head + KeepSlugChars(a[1..])) + KeepSlugChars(b);
      }
    }
  }

  lemma SlugRewriteAppend(a: string, b: string)
    ensures SlugRewrite(a + b) == SlugRewrite(a) + SlugRewrite(b)
  {
    MapCharAppend(a, b, ' ', "-");
    var a1, b1 := MapChar(a, ' ', "-"), MapChar(b, ' ', "-");
    MapCharAppend(a1, b1, '\'', "");
    var a2, b2 := MapChar(a1, '\'', ""), MapChar(b1, '\'', "");
    MapCharAppend(a2, b2, ':', "");
    KeepSlugCharsAppend(MapChar(a2, ':', ""), MapChar(b2, ':', ""));
  }

  lemma MapCharSingle(x: char, c: char, rep: string)
    ensures MapChar([x], c, rep) == if x == c then rep else [x]
  {
    assert [x][1..] == [];
    assert MapChar([x][1..], c, rep) == [];
  }

  lemma SlugRewriteChar(c: char)
    ensures SlugRewrite([LowerChar(c)]) == SlugPiece(c)
  {
    var x := LowerChar(c);
    MapCharSingle(x, ' ', "-");
    MapCharSingle('-', '\'', "");
    MapCharSingle('-', ':', "");
    MapCharSingle(x, '\'', "");
    MapCharSingle(x, ':', "");
    assert MapChar("", ':', "") == "";
    assert KeepSlugChars([]) == [];
    var kept := KeepSlugChars([x]);
    assert kept == if IsAlnum(x) || x == '-' then [x] else [] by {
      assert [x][1..] == [];
    }
    assert KeepSlugChars("-") == "-" by {
      assert "-"[1..] == [];
    }
  }

  lemma {:induction false} SlugRewriteOfLower(topic: string)
    ensures SlugRewrite(Lower(topic)) == SlugByChar(topic)
  {
    if topic == [] {
      assert Lower(topic) == [];
    } else {
      assert Lower(topic) == [LowerChar(topic[0])] + Lower(topic[1..]);
      SlugRewriteAppend([LowerChar(topic[0])], Lower(topic[1..]));
      SlugRewriteChar(topic[0]);
      SlugRewriteOfLower(topic[1..]);
    }
  }

  /** The source's chain of replacements and filter agrees with the per-character definition. */
  lemma SlugMatchesReference(topic: string)
    ensures TopicSlug(topic) == SlugByChar(topic)
  {
    var s0 := Lower(topic);
    ReplaceCharIsMap(s0, ' ', "-");
    var s1 := MapChar(s0, ' ', "-");
    ReplaceCharIsMap(s1, '\'', "");
    var s2 := MapChar(s1, '\'', "");
    ReplaceCharIsMap(s2, ':', "");
    SlugRewriteOfLower(topic);
  }

  lemma {:induction false} SlugByCharChars(topic: string)
    ensures forall i :: 0 <= i < |SlugByChar(topic)| ==> IsSlugChar(SlugByChar(topic)[i])
  {
    if topic != [] {
      SlugByCharChars(topic[1..]);
    }
  }

  lemma {:induction false} SlugByCharOfSlug(s: string)
    requires forall i :: 0 <= i < |s| ==> IsSlugChar(s[i])
    ensures SlugByChar(s) == s
  {
    if s != [] {
      SlugByCharOfSlug(s[1..]);
      assert SlugPiece(s[0]) == [s[0]];
    }
  }

  /**
   * A slug holds only lower-case ASCII letters, digits and `-`, is no longer than the
   * topic, and the file name is the slug followed by `.md`.
   */
  lemma SlugShape(topic: string)
    ensures var slug := TopicSlug(topic);
      |slug| <= |topic| && forall i :: 0 <= i < |slug| ==> IsSlugChar(slug[i])
    ensures var f := Filename(topic);
      |f| >= 3 && f[|f| - 3..] == ".md" && f[..|f| - 3] == TopicSlug(topic)
  {
    SlugMatchesReference(topic);
    SlugByCharChars(topic);
  }

  /** Slugging a slug changes nothing. */
  lemma SlugIdempotent(topic: string)
    ensures TopicSlug(TopicSlug(topic)) == TopicSlug(topic)
  {
    var slug := TopicSlug(topic);
    SlugShape(topic);
    SlugMatchesReference(slug);
    SlugByCharOfSlug(slug);
  }

  // ---------------------------------------------------------------- tags

  /** Topic words that never become tags (a set in the source: only membership matters). */
  const CommonWords: seq<string> := [
    "a", "an", "the", "and", "or", "but", "in", "on", "at", "to", "for", "of", "with", "by",
    "is", "are", "was", "were", "be", "been", "have", "has", "had", "do", "does", "did",
    "will", "would", "could", "should", "may", "might", "can", "about", "how", "what",
    "when", "where", "why", "who", "which"]

  predicate IsCommon(t: string) {
    Listed(t, CommonWords)
  }

  /** Punctuation stripped from both ends of a topic word. */
  const TagStripChars: set<char> := {'.', ',', '!', '?', ':', ';'}

  /** At most this many topic words are considered. */
  const MaxTopicTags: nat := 3

  /** At most this many tags are written. */
  const MaxTags: nat := 5

  /** The two tags every post gets after its keyword and topic tags. */
  const GenericTags: seq<string> := ["guide", "tutorial"]

  /** A topic word as a tag: lower-cased and stripped of `.,!?:;`. */
  function Normalize(w: string): string {
    Strip(Lower(w), TagStripChars)
  }

  /** A topic word is kept when its normalized form is not common and the raw word is longer than two characters. */
  predicate Meaningful(w: string) {
    !IsCommon(Normalize(w)) && |w| > 2
  }

  /** The normalized meaningful words of `ws`, in order. */
  function MeaningfulWords(ws: seq<string>): (r: seq<string>)
    ensures |r| <= |ws|
  {
    if ws == [] then []
    else (if Meaningful(ws[0]) then [Normalize(ws[0])] else []) + MeaningfulWords(ws[1..])
  }

  function TopicWords(topic: string): seq<string> {
    MeaningfulWords(Words(topic))
  }

  /**
   * Every topic tag is the normalized form of a meaningful word of the topic, so it is not a
   * common word; conversely every meaningful word of the topic yields a topic tag.
   */
  lemma {:induction false} MeaningfulWordsShape(ws: seq<string>)
    ensures forall t :: t in MeaningfulWords(ws) ==>
      !IsCommon(t) && exists w :: w in ws && Meaningful(w) && t == Normalize(w)
    ensures forall w :: w in ws && Meaningful(w) ==> Normalize(w) in MeaningfulWords(ws)
  {
    if ws != [] {
      MeaningfulWordsShape(ws[1..]);
      assert ws == [ws[0]] + ws[1..];
    }
  }

  /** A topic of one meaningful word yields that word's normal form as its only topic tag. */
  lemma SingleWordTopic(w: string)
    requires w != [] && NoSpace(w)
    requires Meaningful(w)
    ensures TopicWords(w) == [Normalize(w)]
  {
    WordsOfWord(w);
    assert [w][1..] == [];
  }

  /** The tag list before any topic word: the lower-cased keyword, when there is one. */
  function KeywordTags(keyword: string): (tags: seq<string>)
    ensures |tags| <= 1
  {
    if keyword != "" then [Lower(keyword)] else []
  }

  /** `tags` after appending, in order, each word of `ws` that is not already present. */
  function AddNew(tags: seq<string>, ws: seq<string>): seq<string> {
    if ws == [] then tags
    else
      var prior := AddNew(tags, ws[..|ws| - 1]);
      if ws[|ws| - 1] in prior then prior else prior + [ws[|ws| - 1]]
  }

  predicate Distinct(s: seq<string>) {
    forall i, j :: 0 <= i < j < |s| ==> s[i] != s[j]
  }

  /**
   * Appending only new words keeps the starting list as a prefix, adds every word,
   * adds nothing else, and introduces no duplicate.
   */
  lemma {:induction false} AddNewProperties(tags: seq<string>, ws: seq<string>)
    ensures var r := AddNew(tags, ws);
      tags <= r && |r| <= |tags| + |ws| &&
      (forall w :: w in ws ==> w in r) &&
      (forall x :: x in r ==> x in tags || x in ws) &&
      (Distinct(tags) ==> Distinct(r))
  {
    if ws != [] {
      var init := ws[..|ws| - 1];
      AddNewProperties(tags, init);
      var prior := AddNew(tags, init);
      assert forall w :: w in init ==> w in ws;
      assert ws == init + [ws[|ws| - 1]];
    }
  }

  /** The tags before the generic ones: the keyword, then up to three new topic words. */
  function CoreTags(topic: string, keyword: string): seq<string> {
    AddNew(KeywordTags(keyword), Take(TopicWords(topic), MaxTopicTags))
  }

  /** The whole tag list before the cap: the core tags, then "guide" and "tutorial" unconditionally. */
  function TagList(topic: string, keyword: string): seq<string> {
    CoreTags(topic, keyword) + GenericTags
  }

  function Quote(tag: string): string {
    "\"" + tag + "\""
  }

  /** A YAML flow list of quoted tags: `["a", "b"]`. */
  function FormatTags(tags: seq<string>): string {
    "[" + Join(", ", seq(|tags|, i requires 0 <= i < |tags| => Quote(tags[i]))) + "]"
  }

  /** The text `_generate_tags` returns. */
  function TagsText(topic: string, keyword: string): string {
    FormatTags(Take(TagList(topic, keyword), MaxTags))
  }

  /**
   * The core tags start with the lower-cased keyword when there is one, hold no duplicate,
   * number at most four, include every one of the first three topic words, and hold
   * nothing but the keyword and those words.
   */
  lemma CoreTagsShape(topic: string, keyword: string)
    ensures var core := CoreTags(topic, keyword);
      var first := Take(TopicWords(topic), MaxTopicTags);
      Distinct(core) && |core| <= 4 &&
      (keyword != "" ==> |core| >= 1 && core[0] == Lower(keyword)) &&
      (keyword == "" ==> |core| == 0 || core[0] == first[0]) &&
      (forall w :: w in first ==> w in core) &&
      (forall t :: t in core ==> (keyword != "" && t == Lower(keyword)) || t in first)
  {
    var first := Take(TopicWords(topic), MaxTopicTags);
    AddNewProperties(KeywordTags(keyword), first);
    if keyword == "" && |CoreTags(topic, keyword)| > 0 {
      CoreTagsStartWithFirstWord(first);
    }
  }

  lemma {:induction false} CoreTagsStartWithFirstWord(ws: seq<string>)
    requires |AddNew([], ws)| > 0
    ensures |ws| > 0 && AddNew([], ws)[0] == ws[0]
  {
    var init := ws[..|ws| - 1];
    if |init| == 0 {
      assert AddNew([], init) == [];
      assert AddNew([], ws) == [ws[0]];
    } else {
      AddNewProperties([], init);
      assert init[0] in init;
      CoreTagsStartWithFirstWord(init);
      assert init[0] == ws[0];
    }
  }

  /**
   * The cap of five keeps the whole list when the core has at most three tags; with four
   * core tags it keeps "guide" and drops "tutorial".
   */
  lemma CapDropsTutorial(topic: string, keyword: string)
    ensures var core := CoreTags(topic, keyword);
      var capped := Take(TagList(topic, keyword), MaxTags);
      (|core| <= 3 ==> capped == core + ["guide", "tutorial"]) &&
      (|core| == 4 ==> capped == core + ["guide"])
  {
    CoreTagsShape(topic, keyword);
    var core := CoreTags(topic, keyword);
    if |core| == 4 {
      assert TagList(topic, keyword)[..MaxTags] == core + ["guide"];
    }
  }

  /** Appending the generic tags to a duplicate-free list keeps it so exactly when neither is already there. */
  lemma GenericTagsDistinctIff(core: seq<string>)
    requires Distinct(core)
    ensures Distinct(core + GenericTags) <==> "guide" !in core && "tutorial" !in core
  {
    var all := core + GenericTags;
    assert all[|core|] == "guide" && all[|core| + 1] == "tutorial";
    if "guide" in core {
      var i :| 0 <= i < |core| && core[i] == "guide";
      assert all[i] == all[|core|];
    } else if "tutorial" in core {
      var i :| 0 <= i < |core| && core[i] == "tutorial";
      assert all[i] == all[|core| + 1];
    } else {
      forall i, j | 0 <= i < j < |all| ensures all[i] != all[j] {
        if j < |core| {
          assert all[i] == core[i] && all[j] == core[j];
        } else if i < |core| {
          assert all[i] == core[i];
        }
      }
    }
  }

  /**
   * The written tag list repeats a tag exactly when the topic words already gave "guide" or
   * "tutorial": the generic tags are appended without the duplicate check the topic words get.
   */
  lemma TagListDistinctIff(topic: string, keyword: string)
    ensures var core := CoreTags(topic, keyword);
      Distinct(TagList(topic, keyword)) <==> "guide" !in core && "tutorial" !in core
  {
    var core := CoreTags(topic, keyword);
    assert Distinct(core) by {
      CoreTagsShape(topic, keyword);
    }
    GenericTagsDistinctIff(core);
  }

  /** The core tags of a topic with one topic word and no keyword are that word alone. */
  lemma OneWordCore(ws: seq<string>)
    requires |ws| == 1
    ensures AddNew(KeywordTags(""), Take(ws, MaxTopicTags)) == ws
  {
    assert Take(ws, MaxTopicTags) == ws;
    assert ws[..0] == [];
  }

  /** A topic of one meaningful word whose normal form is "guide" gives that tag twice. */
  lemma GuideTwice(w: string)
    requires w != [] && NoSpace(w) && Meaningful(w) && Normalize(w) == "guide"
    ensures TagList(w, "") == ["guide", "guide", "tutorial"]
  {
    assert CoreTags(w, "") == ["guide"] by {
      SingleWordTopic(w);
      OneWordCore(TopicWords(w));
    }
  }

  // ---------------------------------------------------------------- the Astro post

  /** The Markdown file `_save_to_astro_blog` writes. */
  datatype AstroPost = AstroPost(filename: string, content: string)

  /** The line that opens and closes a front matter block. */
  const FrontmatterFence: string := "---\n"

  /** The front matter fields; `date` is the clock's `%Y-%m-%dT%H:%M:%S` rendering (`Clock.stamp`). */
  function FrontmatterFields(topic: string, date: string, tags: string): string {
    "title: \"" + Capitalize(topic) + "\"\ndescription: \"A comprehensive guide about " + topic +
    "\"\npubDate: \"" + date + "\"\nauthor: \"SEO Manager\"\ntags: " + tags + "\n"
  }

  function Frontmatter(topic: string, date: string, tags: string): string {
    FrontmatterFence + FrontmatterFields(topic, date, tags) + FrontmatterFence
  }

  function AstroPostOf(topic: string, keyword: string, finalPost: string, date: string): AstroPost {
    AstroPost(Filename(topic), Frontmatter(topic, date, TagsText(topic, keyword)) + finalPost)
  }

  /** Front matter followed by a post starts with the fence and ends with the post, unchanged. */
  lemma FrontmatterThenPost(topic: string, date: string, tags: string, finalPost: string)
    ensures var c := Frontmatter(topic, date, tags) + finalPost;
      |c| >= 4 + |finalPost| && c[..4] == "---\n" && c[|c| - |finalPost|..] == finalPost
  {
    var fields := FrontmatterFields(topic, date, tags);
    var c := Frontmatter(topic, date, tags) + finalPost;
    assert c == FrontmatterFence + (fields + FrontmatterFence + finalPost);
    assert c == (FrontmatterFence + fields + FrontmatterFence) + finalPost;
  }

  /** The post file is `<slug>.md`; it starts with a front matter block and ends with the edited post. */
  lemma AstroPostShape(topic: string, keyword: string, finalPost: string, date: string)
    ensures var p := AstroPostOf(topic, keyword, finalPost, date);
      |p.content| >= 4 + |finalPost| && p.content[..4] == "---\n" &&
      p.content[|p.content| - |finalPost|..] == finalPost &&
      p.filename == TopicSlug(topic) + ".md"
  {
    FrontmatterThenPost(topic, date, TagsText(topic, keyword), finalPost);
  }

  // ---------------------------------------------------------------- the blog pipeline

  /** What the planner is given. */
  datatype PlanInput = PlanInput(
    topic: string,
    keyword: string,
    tone: string,
    competitors: seq<Competitor>,
    peopleAsk: seq<string>,
    relatedSearches: seq<string>,
    trending: seq<TrendItem>)

  /** The three language-model agents, as functions of their inputs. */
  datatype Llm = Llm(
    planner: PlanInput -> string,
    writer: (string, string, string) -> string,
    editor: string -> string)

  /** The research the pipeline works from. */
  datatype ResearchData = ResearchData(competitive: CompetitiveData, trending: seq<TrendItem>)

  /** The dictionary `generate_blog_post` returns. */
  datatype BlogResult = BlogResult(
    topic: string,
    keyword: string,
    tone: string,
    outline: string,
    draft: string,
    finalPost: string,
    competitiveAnalysis: CompetitiveData,
    trendingTopics: seq<TrendItem>,
    blogSlug: Option<string>,
    blogUrl: string)

  /** Python's f-string rendering of an optional slug after `/blog/`. */
  function BlogUrl(slug: Option<string>): string {
    "/blog/" + (match slug case None => "None" case Some(s) => s)
  }

  /** Smart mode: the three analysis keys of the smart result, and its trending topics. */
  function SmartResearchData(s: SmartResult): ResearchData {
    ResearchData(CompetitiveData(s.topCompetitors, s.peopleAlsoAsk, s.relatedSearches), s.trendingTopics)
  }

  /** Smart mode research for `ctx`: the cache-first analysis with the agent's threshold. */
  function SmartOutcome(threshold: real, ctx: string, world: World): Result<ResearchData, string> {
    match SmartAnalysis(Lookup(world.ranking, threshold), ctx, DefaultNumResults, world.provider, world.clock.iso)
    case Err(e) => Err(e)
    case Ok(s) => Ok(SmartResearchData(s))
  }

  /** Plain mode research for `ctx`: a web search, then a news search. */
  function PlainOutcome(ctx: string, provider: Provider): Result<ResearchData, string> {
    match provider(WebSearch(ctx, DefaultNumResults))
    case Err(e) => Err(e)
    case Ok(web) =>
      var a := Research.AnalysisOf(web);
      match provider(NewsSearch(TrendsQuery(ctx)))
      case Err(e) => Err(e)
      case Ok(news) =>
        Ok(ResearchData(CompetitiveData(a.topCompetitors, a.peopleAlsoAsk, a.relatedSearches), TrendItems(news)))
  }

  /**
   * The post built from research: the planner sees the research context, the writer the
   * bare keyword. The save step returns nothing, so the slug is absent.
   */
  function Compose(topic: string, keyword: string, tone: string, llm: Llm, data: ResearchData): BlogResult {
    var outline := llm.planner(PlanInput(topic, ResearchContext(topic, keyword), tone,
                                         data.competitive.topCompetitors, data.competitive.peopleAlsoAsk,
                                         data.competitive.relatedSearches, data.trending));
    var draft := llm.writer(outline, keyword, tone);
    var finalPost := llm.editor(draft);
    BlogResult(topic, keyword, tone, outline, draft, finalPost, data.competitive, data.trending,
               None, BlogUrl(None))
  }

  function Assemble(topic: string, keyword: string, tone: string, llm: Llm,
                    outcome: Result<ResearchData, string>): Result<BlogResult, string>
  {
    match outcome
    case Err(e) => Err(e)
    case Ok(data) => Ok(Compose(topic, keyword, tone, llm, data))
  }

  /**
   * A generated post carries its research unchanged, the edited form of the written form
   * of the planned outline, no slug and the URL `/blog/None`.
   */
  lemma ComposedPost(topic: string, keyword: string, tone: string, llm: Llm, data: ResearchData)
    ensures var r := Compose(topic, keyword, tone, llm, data);
      r.competitiveAnalysis == data.competitive && r.trendingTopics == data.trending &&
      r.draft == llm.writer(r.outline, keyword, tone) && r.finalPost == llm.editor(r.draft) &&
      r.blogSlug.None? && r.blogUrl == "/blog/None"
  {
  }

  /**
   * In smart mode a successful post holds exactly the smart result's three analysis lists
   * and its trending topics; on a cache hit these are the adapted cached lists.
   */
  lemma SmartPostProjection(threshold: real, topic: string, keyword: string, tone: string,
                            llm: Llm, world: World)
    requires SmartAnalysis(Lookup(world.ranking, threshold), ResearchContext(topic, keyword),
                           DefaultNumResults, world.provider, world.clock.iso).Ok?
    ensures var s := SmartAnalysis(Lookup(world.ranking, threshold), ResearchContext(topic, keyword),
                                   DefaultNumResults, world.provider, world.clock.iso).value;
      var r := Assemble(topic, keyword, tone, llm, SmartOutcome(threshold, ResearchContext(topic, keyword), world));
      r.Ok? &&
      r.value.competitiveAnalysis == CompetitiveData(s.topCompetitors, s.peopleAlsoAsk, s.relatedSearches) &&
      r.value.trendingTopics == s.trendingTopics
  {
  }

  /** A research failure in either mode aborts the whole pipeline with that failure. */
  lemma ResearchFailureAborts(topic: string, keyword: string, tone: string, llm: Llm, e: string)
    ensures Assemble(topic, keyword, tone, llm, Err(e)) == Err(e)
  {
  }

  /** The loop of `_generate_tags` that appends each word not already in the list. */
  method AppendNewTags(start: seq<string>, words: seq<string>) returns (tags: seq<string>)
    ensures tags == AddNew(start, words)
  {
    tags := start;
    var i := 0;
    while i < |words|
      invariant 0 <= i <= |words|
      invariant tags == AddNew(start, words[..i])
    {
      assert words[..i + 1][..i] == words[..i];
      if words[i] !in tags {
        tags := tags + [words[i]];
      }
      i := i + 1;
    }
    assert words[..|words|] == words;
  }

  /** Which research agent the manager was built with. */
  datatype Researcher = Smart(agent: SmartResearchAgent) | Plain

  class ManagerAgent {
    const researcher: Researcher

    constructor (researcher: Researcher)
      ensures this.researcher == researcher
    {
      this.researcher := researcher;
    }

    /** The cache the manager may change: the smart agent's, or none. */
    function CacheFootprint(): set<object> {
      if researcher.Smart? then {researcher.agent.cache} else {}
    }

    /** The post `generate_blog_post` produces, or the research failure that aborts it. */
    function Planned(topic: string, keyword: string, tone: string, llm: Llm, world: World): Result<BlogResult, string> {
      var ctx := ResearchContext(topic, keyword);
      match researcher
      case Smart(agent) => Assemble(topic, keyword, tone, llm, SmartOutcome(agent.similarityThreshold, ctx, world))
      case Plain => Assemble(topic, keyword, tone, llm, PlainOutcome(ctx, world.provider))
    }

    /** In smart mode, the cache's records after `generate_blog_post` ran on `records`. */
    function CacheAfter(records: seq<Record>, topic: string, keyword: string, world: World): seq<Record>
      requires researcher.Smart?
    {
      var ctx := ResearchContext(topic, keyword);
      var found := Lookup(world.ranking, researcher.agent.similarityThreshold);
      RecordsAfter(records, found, SmartAnalysis(found, ctx, DefaultNumResults, world.provider, world.clock.iso),
                   ctx, world)
    }

    /**
     * `generate_blog_post`: research the context, plan, write, edit, save the post and
     * report the (absent) slug. In smart mode the cache gains the fresh analysis on a miss.
     */
    method GenerateBlogPost(topic: string, keyword: string, tone: string, llm: Llm, world: World)
      returns (r: Result<BlogResult, string>)
      requires researcher.Smart? ==> DrawnFrom(world.ranking, researcher.agent.cache.records)
      modifies CacheFootprint()
      ensures r == Planned(topic, keyword, tone, llm, world)
      ensures researcher.Smart? ==>
        researcher.agent.cache.records ==
          CacheAfter(old(researcher.agent.cache.records), topic, keyword, world)
    {
      var ctx := ResearchContext(topic, keyword);
      var data: ResearchData;
      match researcher {
        case Smart(agent) =>
          var s := agent.SmartCompetitiveAnalysis(ctx, DefaultNumResults, world);
          if s.Err? {
            return Err(s.error);
          }
          var smart := s.value;
          data := ResearchData(CompetitiveData(smart.topCompetitors, smart.peopleAlsoAsk, smart.relatedSearches),
                               smart.trendingTopics);
        case Plain =>
          var c := Research.CompetitiveAnalysis(ctx, DefaultNumResults, world.provider);
          if c.Err? {
            return Err(c.error);
          }
          var t := Research.TrendingTopics(ctx, world.provider);
          if t.Err? {
            return Err(t.error);
          }
          data := ResearchData(CompetitiveData(c.value.topCompetitors, c.value.peopleAlsoAsk,
                                               c.value.relatedSearches), t.value);
      }
      var outline := llm.planner(PlanInput(topic, ctx, tone, data.competitive.topCompetitors,
                                           data.competitive.peopleAlsoAsk, data.competitive.relatedSearches,
                                           data.trending));
      var draft := llm.writer(outline, keyword, tone);
      var finalPost := llm.editor(draft);
      var post, slug := SaveToAstroBlog(topic, keyword, finalPost, world.clock.stamp);
      r := Ok(BlogResult(topic, keyword, tone, outline, draft, finalPost, data.competitive, data.trending,
                         slug, BlogUrl(slug)));
    }

    /**
     * `_save_to_astro_blog`: the post file it writes (front matter, then the post) and its
     * return value, which is always absent because the source has no `return`.
     */
    method SaveToAstroBlog(topic: string, keyword: string, finalPost: string, date: string)
      returns (post: AstroPost, slug: Option<string>)
      ensures post == AstroPostOf(topic, keyword, finalPost, date)
      ensures slug.None?
    {
      var tags := GenerateTags(topic, keyword);
      post := AstroPost(Filename(topic), Frontmatter(topic, date, tags) + finalPost);
      slug := None;
    }

    /** `_generate_tags`: the keyword tag, the new topic words, the generic tags, then the cap and the formatting. */
    method GenerateTags(topic: string, keyword: string) returns (formatted: string)
      ensures formatted == TagsText(topic, keyword)
    {
      var tags: seq<string> := [];
      if keyword != "" {
        tags := tags + [Lower(keyword)];
      }
      assert tags == KeywordTags(keyword);
      tags := AppendNewTags(tags, Take(TopicWords(topic), MaxTopicTags));
      assert tags == CoreTags(topic, keyword);
      tags := tags + ["guide", "tutorial"];
      formatted := FormatTags(Take(tags, MaxTags));
    }

    /** `get_cache_stats`: the cache's statistics in smart mode; absent (`cache_enabled: False`) otherwise. */
    function GetCacheStats(): (s: Option<CacheStats>)
      reads CacheFootprint()
      ensures s.Some? <==> researcher.Smart?
      ensures researcher.Smart? ==> s.value.totalCachedTopics == |researcher.agent.cache.records|
    {
      match researcher
      case Smart(agent) => Some(agent.GetCacheStatistics())
      case Plain => None
    }

    /** `clear_cache`: clears the smart agent's cache; without one it reports `False`. */
    method ClearCache(outcome: ClearOutcome) returns (ok: bool)
      modifies CacheFootprint()
      ensures researcher.Plain? ==> !ok
      ensures researcher.Smart? ==> (ok <==> outcome == Cleared)
      ensures researcher.Smart? ==>
        researcher.agent.cache.records == if outcome == DeleteFailed then old(researcher.agent.cache.records) else []
    {
      match researcher {
        case Smart(agent) =>
          ok := agent.ClearCache(outcome);
        case Plain =>
          ok := false;
      }
    }
  }
}

/**
 * The HTTP layer's job registry: the in-memory map from job id to job state that
 * `/generate` fills, the background task advances, and `/status` and `/result` read.
 * Requests are modelled one at a time; job ids (UUIDs) are parameters.
 */
module App {
  import opened Util
  import opened Serp
  import opened SmartResearch
  import opened ContentCache
  import opened Manager

  /** A job's state; `Failed` is the source's `"error"`. */
  datatype Status = Pending | Processing | Completed | Failed

  /** The status text the API reports. */
  function StatusName(s: Status): string {
    match s
    case Pending => "pending"
    case Processing => "processing"
    case Completed => "completed"
    case Failed => "error"
  }

  lemma StatusNameInjective(a: Status, b: Status)
    requires a != b
    ensures StatusName(a) != StatusName(b)
  {
  }

  /** One entry of the job map; `message` and `result` are keys only some states have. */
  datatype Job = Job(status: Status, progress: int, message: Option<string>, result: Option<BlogResult>)

  /** The entry `/generate` inserts. */
  function PendingJob(): Job {
    Job(Pending, 0, None, None)
  }

  /** The entry the background task writes before it starts generating. */
  function ProcessingJob(): Job {
    Job(Processing, 10, None, None)
  }

  /** The entry the background task writes when generation returns or raises. */
  function FinishedJob(outcome: Result<BlogResult, string>): Job {
    match outcome
    case Ok(result) => Job(Completed, 100, None, Some(result))
    case Err(e) => Job(Failed, 0, Some(e), None)
  }

  /**
   * The shapes the handlers write: pending at 0, processing at 10, completed at 100 with a
   * result, error at 0 with a message. Only a completed job has a result, only a failed one a message.
   */
  predicate WellFormed(j: Job) {
    (j.result.Some? <==> j.status == Completed) &&
    (j.message.Some? <==> j.status == Failed) &&
    j.progress == (match j.status case Pending => 0 case Processing => 10 case Completed => 100 case Failed => 0)
  }

  /** Every entry the handlers write is well formed, and a finished job is completed exactly when generation returned. */
  lemma WrittenJobsWellFormed(outcome: Result<BlogResult, string>)
    ensures WellFormed(PendingJob()) && WellFormed(ProcessingJob()) && WellFormed(FinishedJob(outcome))
    ensures FinishedJob(outcome).status == Completed <==> outcome.Ok?
    ensures outcome.Ok? ==> FinishedJob(outcome).result == Some(outcome.value)
    ensures outcome.Err? ==> FinishedJob(outcome).message == Some(outcome.error)
  {
  }

  /** An `HTTPException`: a status code and its detail text. */
  datatype HttpError = HttpError(code: int, detail: string)

  const NotFound: HttpError := HttpError(404, "Job not found")

  /** The detail text of a 400 answer, before the current status. */
  const NotCompletedPrefix: string := "Job not completed. Current status: "

  /** The answer to `/generate`. */
  datatype Started = Started(jobId: string, status: string, message: string, checkStatusUrl: string)

  /** `BlogPostStatus`. */
  datatype StatusView = StatusView(status: string, message: Option<string>, progress: Option<int>)

  /** `CompetitorInfo`: the response keeps four fields of a competitor and ignores the rest. */
  datatype CompetitorInfo = CompetitorInfo(title: string, snippet: string, link: string, position: int)

  /** `BlogPostResponse`. */
  datatype BlogPostResponse = BlogPostResponse(
    topic: string,
    keyword: string,
    tone: string,
    finalPost: string,
    outline: string,
    topCompetitors: seq<CompetitorInfo>,
    peopleAlsoAsk: seq<string>,
    relatedSearches: seq<string>,
    trendingTopics: seq<TrendItem>,
    generationId: string)

  function ToInfo(c: Competitor): CompetitorInfo {
    CompetitorInfo(c.title, c.snippet, c.link, c.position)
  }

  /** The response built from a generation result and the id it is reported under. */
  function ToResponse(result: BlogResult, generationId: string): (r: BlogPostResponse)
    ensures r.generationId == generationId
    ensures |r.topCompetitors| == |result.competitiveAnalysis.topCompetitors|
    ensures forall i :: 0 <= i < |r.topCompetitors| ==>
      var c := result.competitiveAnalysis.topCompetitors[i];
      r.topCompetitors[i] == CompetitorInfo(c.title, c.snippet, c.link, c.position)
    ensures r.peopleAlsoAsk == result.competitiveAnalysis.peopleAlsoAsk
    ensures r.relatedSearches == result.competitiveAnalysis.relatedSearches
    ensures r.trendingTopics == result.trendingTopics
    ensures r.topic == result.topic && r.keyword == result.keyword && r.tone == result.tone
    ensures r.finalPost == result.finalPost && r.outline == result.outline
  {
    var cs := result.competitiveAnalysis.topCompetitors;
    BlogPostResponse(result.topic, result.keyword, result.tone, result.finalPost, result.outline,
                     seq(|cs|, i requires 0 <= i < |cs| => ToInfo(cs[i])),
                     result.competitiveAnalysis.peopleAlsoAsk, result.competitiveAnalysis.relatedSearches,
                     result.trendingTopics, generationId)
  }

  /** `/status/{job_id}` over a job map. */
  function StatusOf(jobs: map<string, Job>, jobId: string): Result<StatusView, HttpError> {
    if jobId !in jobs then Err(NotFound)
    else
      var job := jobs[jobId];
      Ok(StatusView(StatusName(job.status), job.message, Some(job.progress)))
  }

  /** `/result/{job_id}` over a job map. A completed entry without a result would raise a `KeyError`, answered with 500. */
  function ResultOf(jobs: map<string, Job>, jobId: string): Result<BlogPostResponse, HttpError> {
    if jobId !in jobs then Err(NotFound)
    else
      var job := jobs[jobId];
      if job.status != Completed then
        Err(HttpError(400, NotCompletedPrefix + StatusName(job.status)))
      else
        match job.result
        case None => Err(HttpError(500, "Internal Server Error"))
        case Some(result) => Ok(ToResponse(result, jobId))
  }

  /** An unknown id is answered 404 by both readers. */
  lemma UnknownJobNotFound(jobs: map<string, Job>, jobId: string)
    requires jobId !in jobs
    ensures StatusOf(jobs, jobId) == Err(HttpError(404, "Job not found"))
    ensures ResultOf(jobs, jobId) == Err(HttpError(404, "Job not found"))
  {
  }

  /** The status reader reports exactly the stored status, message and progress of a known job. */
  lemma StatusReportsEntry(jobs: map<string, Job>, jobId: string)
    requires jobId in jobs
    ensures StatusOf(jobs, jobId).Ok?
    ensures var v := StatusOf(jobs, jobId).value;
      v.status == StatusName(jobs[jobId].status) && v.message == jobs[jobId].message &&
      v.progress == Some(jobs[jobId].progress)
  {
  }

  /**
   * On a well-formed job map the result reader succeeds exactly for completed jobs, answers
   * 400 naming the current status for the others and 404 for unknown ids, and never 500.
   */
  lemma ResultOnlyWhenCompleted(jobs: map<string, Job>, jobId: string)
    requires forall id :: id in jobs ==> WellFormed(jobs[id])
    ensures ResultOf(jobs, jobId).Ok? <==> jobId in jobs && jobs[jobId].status == Completed
    ensures jobId in jobs && jobs[jobId].status != Completed ==>
      ResultOf(jobs, jobId) == Err(HttpError(400, NotCompletedPrefix + StatusName(jobs[jobId].status)))
    ensures ResultOf(jobs, jobId).Ok? ==>
      ResultOf(jobs, jobId).value == ToResponse(jobs[jobId].result.value, jobId)
    ensures ResultOf(jobs, jobId).Err? ==> ResultOf(jobs, jobId).error.code != 500
  {
  }

  /**
   * The life of one job as the client sees it: pending at 0 after `/generate`, processing at
   * 10 while generation runs, then completed at 100 or error at 0 with the failure's text.
   */
  lemma JobLifecycle(jobs: map<string, Job>, jobId: string, outcome: Result<BlogResult, string>)
    ensures StatusOf(jobs[jobId := PendingJob()], jobId) == Ok(StatusView("pending", None, Some(0)))
    ensures StatusOf(jobs[jobId := ProcessingJob()], jobId) == Ok(StatusView("processing", None, Some(10)))
    ensures outcome.Ok? ==>
      StatusOf(jobs[jobId := FinishedJob(outcome)], jobId) == Ok(StatusView("completed", None, Some(100))) &&
      ResultOf(jobs[jobId := FinishedJob(outcome)], jobId) == Ok(ToResponse(outcome.value, jobId))
    ensures outcome.Err? ==>
      StatusOf(jobs[jobId := FinishedJob(outcome)], jobId) == Ok(StatusView("error", Some(outcome.error), Some(0))) &&
      ResultOf(jobs[jobId := FinishedJob(outcome)], jobId) == Err(HttpError(400, "Job not completed. Current status: error"))
    ensures ResultOf(jobs[jobId := PendingJob()], jobId) == Err(HttpError(400, "Job not completed. Current status: pending"))
  {
    assert NotCompletedPrefix + "error" == "Job not completed. Current status: error";
    assert NotCompletedPrefix + "pending" == "Job not completed. Current status: pending";
  }

  /** The module-level `job_status` map and the handlers that change it. */
  class JobRegistry {
    var jobs: map<string, Job>

    constructor ()
      ensures jobs == map[] && Valid()
    {
      jobs := map[];
    }

    /** Every entry is in one of the shapes the handlers write. */
    predicate Valid()
      reads this
    {
      forall id :: id in jobs ==> WellFormed(jobs[id])
    }

    /** `/generate`: registers `jobId` as pending and tells the client where to poll. */
    method StartGeneration(jobId: string) returns (r: Started)
      modifies this
      ensures jobs == old(jobs)[jobId := PendingJob()]
      ensures r == Started(jobId, "started", "Blog post generation started", "/status/" + jobId)
      ensures old(Valid()) ==> Valid()
    {
      jobs := jobs[jobId := PendingJob()];
      r := Started(jobId, "started", "Blog post generation started", "/status/" + jobId);
    }

    /** The first write of the background task. */
    method MarkProcessing(jobId: string)
      modifies this
      ensures jobs == old(jobs)[jobId := ProcessingJob()]
      ensures old(Valid()) ==> Valid()
    {
      jobs := jobs[jobId := ProcessingJob()];
    }

    /** The last write of the background task: the result, or the failure's text. */
    method Finish(jobId: string, outcome: Result<BlogResult, string>)
      modifies this
      ensures jobs == old(jobs)[jobId := FinishedJob(outcome)]
      ensures old(Valid()) ==> Valid()
    {
      match outcome {
        case Ok(result) =>
          jobs := jobs[jobId := Job(Completed, 100, None, Some(result))];
        case Err(e) =>
          jobs := jobs[jobId := Job(Failed, 0, Some(e), None)];
      }
    }

    /**
     * `generate_blog_post_task`: marks the job processing, runs the manager, and records what
     * it returned or raised. Only this job's entry changes.
     */
    method RunTask(jobId: string, manager: ManagerAgent, topic: string, keyword: string, tone: string,
                   llm: Llm, world: World)
      requires manager.researcher.Smart? ==>
        DrawnFrom(world.ranking, manager.researcher.agent.cache.records)
      modifies this, manager.CacheFootprint()
      ensures jobs == old(jobs)[jobId := FinishedJob(manager.Planned(topic, keyword, tone, llm, world))]
      ensures old(Valid()) ==> Valid()
      ensures manager.researcher.Smart? ==>
        manager.researcher.agent.cache.records ==
          manager.CacheAfter(old(manager.researcher.agent.cache.records), topic, keyword, world)
    {
      MarkProcessing(jobId);
      var outcome := manager.GenerateBlogPost(topic, keyword, tone, llm, world);
      Finish(jobId, outcome);
    }

    /** `/status/{job_id}`. */
    function GetJobStatus(jobId: string): (r: Result<StatusView, HttpError>)
      reads this
      ensures jobId !in jobs <==> r == Err(NotFound)
      ensures jobId in jobs ==> r.Ok? && r.value.status == StatusName(jobs[jobId].status)
    {
      StatusOf(jobs, jobId)
    }

    /** `/result/{job_id}`. */
    function GetBlogPostResult(jobId: string): (r: Result<BlogPostResponse, HttpError>)
      reads this
      ensures jobId !in jobs ==> r == Err(NotFound)
      ensures r.Ok? ==> jobId in jobs && jobs[jobId].status == Completed && r.value.generationId == jobId
      ensures Valid() ==> (r.Ok? <==> jobId in jobs && jobs[jobId].status == Completed)
      ensures Valid() && r.Err? ==> r.error.code != 500
    {
      if Valid() then
        ResultOnlyWhenCompleted(jobs, jobId);
        ResultOf(jobs, jobId)
      else
        ResultOf(jobs, jobId)
    }
  }

  /** `/generate-sync`: runs the manager in the request; any failure is answered 500 with its text. */
  method GenerateSync(jobId: string, manager: ManagerAgent, topic: string, keyword: string, tone: string,
                      llm: Llm, world: World)
    returns (r: Result<BlogPostResponse, HttpError>)
    requires manager.researcher.Smart? ==>
      DrawnFrom(world.ranking, manager.researcher.agent.cache.records)
    modifies manager.CacheFootprint()
    ensures var planned := manager.Planned(topic, keyword, tone, llm, world);
      (planned.Err? ==> r == Err(HttpError(500, planned.error))) &&
      (planned.Ok? ==> r == Ok(ToResponse(planned.value, jobId)))
    ensures manager.researcher.Smart? ==>
      manager.researcher.agent.cache.records ==
        manager.CacheAfter(old(manager.researcher.agent.cache.records), topic, keyword, world)
  {
    var outcome := manager.GenerateBlogPost(topic, keyword, tone, llm, world);
    match outcome {
      case Err(e) =>
        r := Err(HttpError(500, e));
      case Ok(result) =>
        r := Ok(ToResponse(result, jobId));
    }
  }
}

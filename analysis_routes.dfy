/**
 * The analysis endpoints of the backend and the in-memory job table they
 * share. An upload creates a `processing` job; a background run moves it to
 * progress 10 and then either to `completed` with the analysis data or to
 * `failed` with an error. The analysis itself, the file system and unique-id
 * generation are inputs.
 */
module AnalysisRoutes {
  import opened Wrappers
  import Strings

  datatype JobStatus = Processing | Completed | Failed

  function StatusName(s: JobStatus): string {
    match s
    case Processing => "processing"
    case Completed => "completed"
    case Failed => "failed"
  }

  /** One entry of the job table; `data` and `error` are keys an entry may lack. */
  datatype Job = Job(status: JobStatus, filename: string, filePath: string, progress: int,
                     data: Option<string>, error: Option<string>)

  datatype UploadResponse = UploadResponse(analysisId: string, status: string, message: string, filename: string)

  datatype StatusResponse = StatusResponse(analysisId: string, status: string, filename: string, progress: int)

  /** What each stage of a job's life allows. */
  predicate ValidJob(j: Job) {
    match j.status
    case Processing => (j.progress == 0 || j.progress == 10) && j.data.None? && j.error.None?
    case Completed => j.progress == 100 && j.data.Some? && j.error.None?
    case Failed => j.progress == 10 && j.data.None? && j.error.Some?
  }

  /** Drawn from the job's status alone. */
  predicate StepAllowed(before: JobStatus, after: JobStatus) {
    before == after || (before == Processing && after != Processing)
  }

  class JobTable {
    var jobs: map<string, Job>

    ghost predicate Valid()
      reads this
    {
      forall id :: id in jobs ==> ValidJob(jobs[id])
    }

    constructor()
      ensures jobs == map[] && Valid()
    {
      jobs := map[];
    }

    /**
     * `POST /upload`. A name not ending in `.pdf` (case-sensitively) is refused
     * with 400 before anything happens. `newId` is the generated job id and
     * `writeError` the exception, if any, raised while saving the file: it
     * becomes a 500 and no job is created. Otherwise a `processing` job at
     * progress 0 is stored under `newId` and nothing else changes.
     */
    method Upload(filename: string, newId: string, writeError: Option<string>)
      returns (r: Result<UploadResponse, HttpError>)
      requires Valid()
      modifies this
      ensures Valid()
      ensures !Strings.EndsWith(filename, ".pdf") ==>
        r == Err(HttpError(400, "Only PDF files supported")) && jobs == old(jobs)
      ensures Strings.EndsWith(filename, ".pdf") && writeError.Some? ==>
        r == Err(HttpError(500, writeError.value)) && jobs == old(jobs)
      ensures Strings.EndsWith(filename, ".pdf") && writeError.None? ==>
        && jobs == old(jobs)[newId := Job(Processing, filename, "uploads/" + newId + ".pdf", 0, None, None)]
        && r == Ok(UploadResponse(newId, "processing", "Analysis started for " + filename, filename))
    {
      if !Strings.EndsWith(filename, ".pdf") {
        return Err(HttpError(400, "Only PDF files supported"));
      }
      if writeError.Some? {
        return Err(HttpError(500, writeError.value));
      }
      jobs := jobs[newId := Job(Processing, filename, "uploads/" + newId + ".pdf", 0, None, None)];
      r := Ok(UploadResponse(newId, "processing", "Analysis started for " + filename, filename));
    }

    /** `GET /{id}/status`: 404 for an unknown id, otherwise the job's status, name and progress. */
    function GetStatus(id: string): (r: Result<StatusResponse, HttpError>)
      reads this
      ensures id !in jobs <==> r == Err(HttpError(404, "Analysis not found"))
      ensures id in jobs ==>
        && r.Ok? && r.value.analysisId == id
        && r.value.status == StatusName(jobs[id].status)
        && r.value.filename == jobs[id].filename && r.value.progress == jobs[id].progress
    {
      if id !in jobs then Err(HttpError(404, "Analysis not found"))
      else
        var j := jobs[id];
        Ok(StatusResponse(id, StatusName(j.status), j.filename, j.progress))
    }

    /**
     * `GET /{id}/results`: 404 for an unknown id, 202 while processing, 500 with
     * the stored error (or "Analysis failed" when none is stored) after a
     * failure, and the stored data once completed.
     */
    function GetResults(id: string): (r: Result<string, HttpError>)
      reads this
      requires Valid()
      ensures id !in jobs ==> r == Err(HttpError(404, "Analysis not found"))
      ensures id in jobs && jobs[id].status == Processing ==> r == Err(HttpError(202, "Still processing"))
      ensures id in jobs && jobs[id].status == Failed ==>
        r == Err(HttpError(500, jobs[id].error.GetOr("Analysis failed")))
      ensures r.Ok? <==> id in jobs && jobs[id].status == Completed
      ensures r.Ok? ==> jobs[id].data == Some(r.value)
    {
      if id !in jobs then Err(HttpError(404, "Analysis not found"))
      else
        var j := jobs[id];
        match j.status
        case Processing => Err(HttpError(202, "Still processing"))
        case Failed => Err(HttpError(500, j.error.GetOr("Analysis failed")))
        case Completed => Ok(j.data.value)
    }

    /** The first step of the background run: progress 10, status unchanged. */
    method BeginAnalysis(id: string)
      requires Valid() && id in jobs && jobs[id].status == Processing
      modifies this
      ensures Valid()
      ensures jobs == old(jobs)[id := old(jobs)[id].(progress := 10)]
    {
      jobs := jobs[id := jobs[id].(progress := 10)];
    }

    /**
     * The end of the background run. `outcome` is what the analysis returned, or
     * the text of the exception it raised: success stores the data with
     * progress 100, failure stores the error and leaves progress at 10.
     */
    method EndAnalysis(id: string, outcome: Result<string, string>)
      requires Valid() && id in jobs && jobs[id].status == Processing && jobs[id].progress == 10
      modifies this
      ensures Valid()
      ensures outcome.Ok? ==>
        jobs == old(jobs)[id := old(jobs)[id].(status := Completed, progress := 100, data := Some(outcome.value))]
      ensures outcome.Err? ==>
        jobs == old(jobs)[id := old(jobs)[id].(status := Failed, error := Some(outcome.error))]
    {
      var j := jobs[id];
      match outcome {
        case Ok(d) => jobs := jobs[id := j.(status := Completed, progress := 100, data := Some(d))];
        case Err(e) => jobs := jobs[id := j.(status := Failed, error := Some(e))];
      }
    }

    /**
     * `run_analysis`, scheduled for a freshly uploaded job: only that job's entry
     * changes, its status moves from `processing` to `completed` or `failed`,
     * and its progress ends at 100 or 10.
     */
    method RunAnalysis(id: string, outcome: Result<string, string>)
      requires Valid() && id in jobs && jobs[id].status == Processing && jobs[id].progress == 0
      modifies this
      ensures Valid()
      ensures id in jobs && jobs.Keys == old(jobs).Keys
      ensures forall other :: other in old(jobs) && other != id ==> jobs[other] == old(jobs)[other]
      ensures StepAllowed(old(jobs)[id].status, jobs[id].status) && jobs[id].status != Processing
      ensures jobs[id].status == Completed <==> outcome.Ok?
      ensures jobs[id].progress == if outcome.Ok? then 100 else 10
      ensures jobs[id].filename == old(jobs)[id].filename
    {
      BeginAnalysis(id);
      EndAnalysis(id, outcome);
    }
  }

  /**
   * On any valid job the status endpoint reports a progress within [0, 100], as
   * its response schema demands, and the results endpoint answers with data
   * exactly when the status endpoint says `completed`.
   */
  lemma {:induction false} StatusAndResultsAgree(t: JobTable, id: string)
    requires t.Valid() && id in t.jobs
    ensures t.GetStatus(id).Ok? && 0 <= t.GetStatus(id).value.progress <= 100
    ensures t.GetResults(id).Ok? <==> t.GetStatus(id).value.status == "completed"
  {
    var j := t.jobs[id];
    assert ValidJob(j);
  }
}

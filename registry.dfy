/** The in-memory job table of the HTTP service (backend/app/main.py): job
    creation, the updates the background run makes, and the status, results,
    download, health and delete endpoints, without the HTTP layer. */
module Registry {
  import opened Wrappers
  import opened Measurements
  import Text
  import Analysis
  import Report
  import Workflow

  /** One job record. `aggregatedMetrics` and `pdfData` are None while they
      hold `{}` or are absent. */
  datatype Job = Job(
    jobId: string,
    status: string,
    progress: int,
    mainUrl: string,
    competitorUrls: seq<string>,
    lighthouseResults: seq<ToolRecord>,
    screenshots: seq<Workflow.CaptureRecord>,
    aggregatedMetrics: Option<Analysis.Aggregated>,
    recommendations: seq<Analysis.Recommendation>,
    errors: seq<string>,
    pdfData: Option<Report.ReportResult>)

  type Jobs = map<string, Job>

  datatype HttpError = HttpError(code: int, detail: string)

  /** The `AnalysisStatus` response; `results` is None for a null field and
      Some(None) for an empty aggregate. */
  datatype StatusView = StatusView(
    jobId: string, status: string, progress: int, currentStep: string,
    results: Option<Option<Analysis.Aggregated>>, error: Option<string>)

  datatype ResultsView = ResultsView(
    jobId: string, mainUrl: string, lighthouseResults: seq<ToolRecord>, screenshots: seq<Workflow.CaptureRecord>,
    aggregatedMetrics: Option<Analysis.Aggregated>, recommendations: seq<Analysis.Recommendation>,
    errors: seq<string>)

  /** The file response of a download. */
  datatype Download = Download(path: string, mediaType: string, filename: string)

  /** What the background run of the graph ended with. */
  datatype WorkflowOutcome = Finished(state: Workflow.StateView) | Crashed(message: string)

  // ---------------------------------------------------------------------------
  // Updates, as functions of the table
  // ---------------------------------------------------------------------------

  /** The record `start_analysis` stores. */
  function NewJob(jobId: string, mainUrl: string, competitorUrls: seq<string>): Job {
    Job(jobId, "queued", 0, mainUrl, competitorUrls, [], [], None, [], [], None)
  }

  /** The first step of `run_analysis`: running at 10, if the job still exists. */
  function Started(jobs: Jobs, jobId: string): (r: Jobs)
    ensures r.Keys == jobs.Keys
    ensures jobId in jobs ==> r[jobId] == jobs[jobId].(status := "running", progress := 10)
    ensures forall k :: k in jobs && k != jobId ==> r[k] == jobs[k]
  {
    if jobId in jobs then jobs[jobId := jobs[jobId].(status := "running", progress := 10)] else jobs
  }

  /** The end of `run_analysis`: the workflow's final state is copied in, or
      a crash marks the job failed at 0 with one more error line; a job
      deleted meanwhile stays deleted. */
  function Finish(jobs: Jobs, jobId: string, outcome: WorkflowOutcome): (r: Jobs)
    ensures r.Keys == jobs.Keys
    ensures forall k :: k in jobs && k != jobId ==> r[k] == jobs[k]
    ensures jobId in jobs && outcome.Finished? ==>
      var v, j := outcome.state, r[jobId];
      j.status == v.status && j.progress == v.progress && j.lighthouseResults == v.lighthouseResults &&
      j.screenshots == v.screenshots && j.aggregatedMetrics == v.aggregatedMetrics &&
      j.recommendations == v.recommendations && j.pdfData == v.pdfData && j.errors == v.errors &&
      j.mainUrl == jobs[jobId].mainUrl && j.jobId == jobs[jobId].jobId
    ensures jobId in jobs && outcome.Crashed? ==>
      r[jobId] == jobs[jobId].(status := "failed", progress := 0,
                               errors := jobs[jobId].errors + ["Workflow error: " + outcome.message])
  {
    if jobId !in jobs then jobs
    else
      var j := jobs[jobId];
      match outcome
      case Finished(v) =>
        jobs[jobId := j.(status := v.status, progress := v.progress, lighthouseResults := v.lighthouseResults,
                         screenshots := v.screenshots, aggregatedMetrics := v.aggregatedMetrics,
                         recommendations := v.recommendations, pdfData := v.pdfData, errors := v.errors)]
      case Crashed(e) =>
        jobs[jobId := j.(status := "failed", progress := 0, errors := j.errors + ["Workflow error: " + e])]
  }

  // ---------------------------------------------------------------------------
  // Reads
  // ---------------------------------------------------------------------------

  const NotFound: HttpError := HttpError(404, "Job not found")

  /** `get_status`: the aggregate only for a completed job, and the error
      lines joined by "; " when there are any. */
  function StatusOf(jobs: Jobs, jobId: string): (r: Result<StatusView, HttpError>)
    ensures r.Failure? <==> jobId !in jobs
    ensures r.Failure? ==> r.error == NotFound
    ensures r.Success? ==>
      var j := jobs[jobId];
      r.value.status == j.status && r.value.currentStep == j.status && r.value.progress == j.progress &&
      (r.value.results.Some? <==> j.status == "completed") &&
      (r.value.results.Some? ==> r.value.results.value == j.aggregatedMetrics) &&
      (r.value.error.None? <==> j.errors == []) &&
      (r.value.error.Some? ==> r.value.error.value == Text.Join(j.errors, "; "))
  {
    if jobId !in jobs then Failure(NotFound)
    else
      var j := jobs[jobId];
      Success(StatusView(jobId, j.status, j.progress, j.status,
                         if j.status == "completed" then Some(j.aggregatedMetrics) else None,
                         if j.errors != [] then Some(Text.Join(j.errors, "; ")) else None))
  }

  /** `get_results`: 404 for an unknown job, 400 until it completed. */
  function ResultsOf(jobs: Jobs, jobId: string): (r: Result<ResultsView, HttpError>)
    ensures r.Success? <==> jobId in jobs && jobs[jobId].status == "completed"
    ensures jobId !in jobs ==> r == Failure(NotFound)
    ensures jobId in jobs && jobs[jobId].status != "completed" ==> r == Failure(HttpError(400, "Analysis not completed"))
    ensures r.Success? ==> r.value.aggregatedMetrics == jobs[jobId].aggregatedMetrics &&
                           r.value.errors == jobs[jobId].errors
  {
    if jobId !in jobs then Failure(NotFound)
    else
      var j := jobs[jobId];
      if j.status != "completed" then Failure(HttpError(400, "Analysis not completed"))
      else Success(ResultsView(jobId, j.mainUrl, j.lighthouseResults, j.screenshots, j.aggregatedMetrics,
                               j.recommendations, j.errors))
  }

  /** The PDF path recorded for a job, when the report was written. */
  function PdfPath(j: Job): Option<string> {
    if j.pdfData.Some? && j.pdfData.value.ReportWritten? && j.pdfData.value.pdfPath != "" then
      Some(j.pdfData.value.pdfPath)
    else None
  }

  /** `download_report`: 404 for an unknown job, 400 until it completed,
      404 when no PDF path was recorded, else the file. */
  function DownloadOf(jobs: Jobs, jobId: string): (r: Result<Download, HttpError>)
    ensures r.Success? <==> jobId in jobs && jobs[jobId].status == "completed" && PdfPath(jobs[jobId]).Some?
    ensures jobId !in jobs ==> r == Failure(NotFound)
    ensures jobId in jobs && jobs[jobId].status != "completed" ==> r == Failure(HttpError(400, "Report not ready"))
    ensures jobId in jobs && jobs[jobId].status == "completed" && PdfPath(jobs[jobId]).None? ==>
      r == Failure(HttpError(404, "PDF not found"))
    ensures r.Success? ==> r.value.path == PdfPath(jobs[jobId]).value &&
                           r.value.filename == "performance_report_" + jobId + ".pdf"
  {
    if jobId !in jobs then Failure(NotFound)
    else
      var j := jobs[jobId];
      if j.status != "completed" then Failure(HttpError(400, "Report not ready"))
      else match PdfPath(j)
        case None => Failure(HttpError(404, "PDF not found"))
        case Some(path) => Success(Download(path, "application/pdf", "performance_report_" + jobId + ".pdf"))
  }

  /** A report can be downloaded only where the results can be read. */
  lemma DownloadNeedsResults(jobs: Jobs, jobId: string)
    ensures DownloadOf(jobs, jobId).Success? ==> ResultsOf(jobs, jobId).Success?
  {
  }

  predicate Active(j: Job) {
    j.status == "queued" || j.status == "running"
  }

  /** The ids of the jobs the health check counts. */
  function ActiveIds(jobs: Jobs): (r: set<string>)
    ensures forall k :: k in r <==> k in jobs && Active(jobs[k])
  {
    set k | k in jobs && Active(jobs[k])
  }

  /** Storing a new queued job adds one to the active count. */
  lemma StartCountsActive(jobs: Jobs, jobId: string, mainUrl: string, competitorUrls: seq<string>)
    requires jobId !in jobs
    ensures |ActiveIds(jobs[jobId := NewJob(jobId, mainUrl, competitorUrls)])| == |ActiveIds(jobs)| + 1
  {
    assert ActiveIds(jobs[jobId := NewJob(jobId, mainUrl, competitorUrls)]) == ActiveIds(jobs) + {jobId};
  }

  /** Deleting a job takes one off the active count exactly when it was
      active. */
  lemma DeleteCountsActive(jobs: Jobs, jobId: string)
    requires jobId in jobs
    ensures |ActiveIds(jobs - {jobId})| == |ActiveIds(jobs)| - (if Active(jobs[jobId]) then 1 else 0)
  {
    if Active(jobs[jobId]) {
      assert ActiveIds(jobs) == ActiveIds(jobs - {jobId}) + {jobId};
    } else {
      assert ActiveIds(jobs) == ActiveIds(jobs - {jobId});
    }
  }

  /** A job whose run raised nowhere completes at 100 and its aggregate is
      readable; if only the report stage raised, it fails and nothing can be
      downloaded. */
  lemma RunOutcomes(jobs: Jobs, jobId: string, mainUrl: string, competitorUrls: seq<string>,
                    inputs: Workflow.RunInputs)
    requires jobId in jobs
    requires Workflow.Sized(Workflow.Initial(jobId, mainUrl, competitorUrls), inputs)
    ensures var v := Workflow.Trace(Workflow.Initial(jobId, mainUrl, competitorUrls), inputs)[4];
      var after := Finish(Started(jobs, jobId), jobId, Finished(v));
      (inputs.analysisFailure.None? && inputs.reportFailure.None? ==>
         StatusOf(after, jobId).Success? && StatusOf(after, jobId).value.progress == 100 &&
         StatusOf(after, jobId).value.results.Some? && StatusOf(after, jobId).value.results.value.Some?) &&
      (inputs.reportFailure.Some? ==>
         StatusOf(after, jobId).value.status == "failed" && DownloadOf(after, jobId).Failure?)
  {
    var v0 := Workflow.Initial(jobId, mainUrl, competitorUrls);
    if inputs.analysisFailure.None? && inputs.reportFailure.None? {
      Workflow.ProgressOfSuccessfulRun(v0, inputs);
    }
  }

  // ---------------------------------------------------------------------------
  // The table
  // ---------------------------------------------------------------------------

  class JobRegistry {
    var jobs: Jobs

    constructor ()
      ensures jobs == map[]
    {
      jobs := map[];
    }

    /** `start_analysis`: stores the new queued record under `jobId` and
        answers queued at 0. */
    method StartAnalysis(jobId: string, mainUrl: string, competitorUrls: seq<string>) returns (st: StatusView)
      modifies this
      ensures jobs == old(jobs)[jobId := NewJob(jobId, mainUrl, competitorUrls)]
      ensures st == StatusView(jobId, "queued", 0, "Initializing analysis", None, None)
    {
      jobs := jobs[jobId := NewJob(jobId, mainUrl, competitorUrls)];
      st := StatusView(jobId, "queued", 0, "Initializing analysis", None, None);
    }

    /** `run_analysis`: marks the job running, runs the graph on a fresh
        state unless it crashes (`crash`), and records the outcome. */
    method RunAnalysis(jobId: string, mainUrl: string, competitorUrls: seq<string>, inputs: Workflow.RunInputs,
                       crash: Option<string>)
      requires Workflow.Sized(Workflow.Initial(jobId, mainUrl, competitorUrls), inputs)
      modifies this
      ensures crash.Some? ==> jobs == Finish(Started(old(jobs), jobId), jobId, Crashed(crash.value))
      ensures crash.None? ==>
        jobs == Finish(Started(old(jobs), jobId), jobId,
                       Finished(Workflow.Trace(Workflow.Initial(jobId, mainUrl, competitorUrls), inputs)[4]))
    {
      jobs := Started(jobs, jobId);
      if crash.Some? {
        jobs := Finish(jobs, jobId, Crashed(crash.value));
        return;
      }
      var state := new Workflow.AnalysisState(jobId, mainUrl, competitorUrls);
      Workflow.Run(state, inputs);
      jobs := Finish(jobs, jobId, Finished(state.View()));
    }

    function GetStatus(jobId: string): Result<StatusView, HttpError>
      reads this
    {
      StatusOf(jobs, jobId)
    }

    function GetResults(jobId: string): Result<ResultsView, HttpError>
      reads this
    {
      ResultsOf(jobs, jobId)
    }

    function DownloadReport(jobId: string): Result<Download, HttpError>
      reads this
    {
      DownloadOf(jobs, jobId)
    }

    /** `active_jobs` of the health check. */
    function ActiveJobs(): nat
      reads this
    {
      |ActiveIds(jobs)|
    }

    /** `delete_job`: removes exactly that key, or answers 404. */
    method DeleteJob(jobId: string) returns (r: Result<string, HttpError>)
      modifies this
      ensures r.Success? <==> jobId in old(jobs)
      ensures r.Success? ==> jobs == old(jobs) - {jobId} && r.value == "Job deleted successfully"
      ensures r.Failure? ==> jobs == old(jobs) && r.error == NotFound
    {
      if jobId in jobs {
        jobs := jobs - {jobId};
        return Success("Job deleted successfully");
      }
      return Failure(NotFound);
    }
  }
}

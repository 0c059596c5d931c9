/** The client job monitor page: duration formatting, the status badge, the guards that
    decide which controls appear and when the preview is fetched, and the page state the
    status poll updates. Responses of the workflow API are inputs. */
module JobMonitorPage {
  import opened Base
  import opened Workflow

  /** Minutes and seconds as `formatDuration` prints them (`${mins}m ${secs}s`). */
  datatype Duration = Duration(mins: int, secs: int)

  /** `formatDuration`: `Math.floor(s / 60)` minutes and `s % 60` seconds. For a
      non-negative count the two add back up to it with fewer than 60 seconds. */
  function FormatDuration(seconds: int): (d: Duration)
    ensures d.mins * 60 <= seconds < d.mins * 60 + 60
    ensures seconds >= 0 ==> d.mins * 60 + d.secs == seconds && 0 <= d.secs < 60
    ensures seconds < 0 ==> -60 < d.secs <= 0
  {
    Duration(seconds / 60, JsRem(seconds, 60))
  }

  /** `getStatusBadgeVariant`: four known statuses with their own variants, else default. */
  function BadgeVariant(status: string): (v: string)
    ensures v == "success" <==> status == "completed"
    ensures v == "primary" <==> status == "running"
    ensures v == "danger" <==> status == "failed"
    ensures v == "secondary" <==> status == "cancelled"
    ensures v == "default" <==> status !in {"completed", "running", "failed", "cancelled"}
  {
    match status
    case "completed" => "success"
    case "running" => "primary"
    case "failed" => "danger"
    case "cancelled" => "secondary"
    case _ => "default"
  }

  /** The preview is requested after a status poll only for a completed job whose preview
      is not yet held. */
  predicate ShouldFetchPreview(job: JobStatus, preview: Option<JobPreview>)
  {
    job.status == "completed" && preview.None?
  }

  /** The cancel button and the overall progress bar. */
  predicate ShowsRunningControls(job: JobStatus)
  {
    job.status == "running"
  }

  /** The download and preview actions. */
  predicate ShowsResultActions(job: JobStatus)
  {
    job.status == "completed" && job.result.Some?
  }

  /** A job never shows the running controls and the result actions together. */
  lemma ControlsExclusive(job: JobStatus)
    ensures !(ShowsRunningControls(job) && ShowsResultActions(job))
    ensures ShowsResultActions(job) ==> BadgeVariant(job.status) == "success"
    ensures ShowsRunningControls(job) ==> BadgeVariant(job.status) == "primary"
  {
  }

  /** `handleDownload`: the URL opened, or nothing without a job, a result or an output path. */
  function DownloadTarget(job: Option<JobStatus>): (url: Option<string>)
    ensures url.Some? <==> job.Some? && job.value.result.Some? && job.value.result.value.outputPath != ""
    ensures url.Some? ==> url.value == job.value.result.value.outputPath
  {
    if job.Some? && job.value.result.Some? && job.value.result.value.outputPath != "" then
      Some(job.value.result.value.outputPath)
    else None
  }

  /** The page's state variables. */
  class JobMonitorView {
    var job: Option<JobStatus>
    var preview: Option<JobPreview>
    var loading: bool

    constructor ()
      ensures job == None && preview == None && loading
    {
      job := None;
      preview := None;
      loading := true;
    }

    /** `fetchJobStatus`: nothing happens without a job id. Otherwise a successful poll
        stores the job and asks for the preview exactly when `ShouldFetchPreview` holds; a
        failed one keeps the job. Either way loading ends. */
    method FetchJobStatus(jobId: Option<string>, response: Result<JobStatus, string>)
      returns (fetchPreview: bool)
      modifies this
      ensures !TruthyStr(jobId) ==> !fetchPreview && unchanged(this)
      ensures TruthyStr(jobId) ==>
        && !loading && preview == old(preview)
        && (response.Ok? ==>
              job == Some(response.value) && (fetchPreview <==> ShouldFetchPreview(response.value, old(preview))))
        && (response.Err? ==> job == old(job) && !fetchPreview)
    {
      fetchPreview := false;
      if !TruthyStr(jobId) {
        return;
      }
      if response.Ok? {
        job := Some(response.value);
        fetchPreview := ShouldFetchPreview(response.value, preview);
      }
      loading := false;
    }

    /** `fetchPreview`: a fetched preview is stored; a failure leaves the page as it was. */
    method ReceivePreview(jobId: Option<string>, response: Result<JobPreview, string>)
      modifies this
      ensures TruthyStr(jobId) && response.Ok? ==> preview == Some(response.value)
      ensures !(TruthyStr(jobId) && response.Ok?) ==> preview == old(preview)
      ensures job == old(job) && loading == old(loading)
    {
      if TruthyStr(jobId) && response.Ok? {
        preview := Some(response.value);
      }
    }
  }
}

/** The admin jobs page: the job list kept current by `job:update` socket events, the log
    viewer fed by `job:log` events, and the status badge. A job row is an untyped JSON
    object, modelled as a map from field name to (string) value. */
module JobsPage {
  import opened Base

  type Row = map<string, string>

  /** `job.id === jobId`: a row without an id never matches. */
  predicate HasId(job: Row, jobId: string)
  {
    "id" in job && job["id"] == jobId
  }

  /** The `job:update` updater: every row with the event's id gets the update's fields
      spread over its own; all other rows are untouched, in place. */
  function MergeUpdate(jobs: seq<Row>, jobId: string, update: Row): (r: seq<Row>)
    ensures |r| == |jobs|
    ensures forall i :: 0 <= i < |jobs| ==>
      && (HasId(jobs[i], jobId) ==>
            && r[i].Keys == jobs[i].Keys + update.Keys
            && (forall k :: k in update ==> r[i][k] == update[k])
            && (forall k :: k in jobs[i] && k !in update ==> r[i][k] == jobs[i][k]))
      && (!HasId(jobs[i], jobId) ==> r[i] == jobs[i])
  {
    seq(|jobs|, i requires 0 <= i < |jobs| => if HasId(jobs[i], jobId) then jobs[i] + update else jobs[i])
  }

  /** Delivering the same update twice changes nothing further, and an update that does
      not rewrite `id` keeps every row's id. */
  lemma MergeUpdateIdempotent(jobs: seq<Row>, jobId: string, update: Row)
    ensures "id" !in update ==> forall i :: 0 <= i < |jobs| ==>
      (HasId(MergeUpdate(jobs, jobId, update)[i], jobId) <==> HasId(jobs[i], jobId))
    ensures "id" !in update ==>
      MergeUpdate(MergeUpdate(jobs, jobId, update), jobId, update) == MergeUpdate(jobs, jobId, update)
  {
    if "id" !in update {
      var once := MergeUpdate(jobs, jobId, update);
      var twice := MergeUpdate(once, jobId, update);
      forall i | 0 <= i < |jobs|
        ensures twice[i] == once[i]
      {
        if HasId(jobs[i], jobId) {
          assert HasId(once[i], jobId);
          assert twice[i] == once[i] + update;
        }
      }
    }
  }

  /** The `job:log` updater: a line is appended only for the job whose logs are open. */
  function AppendLog(logs: seq<string>, selectedJobId: Option<string>, eventJobId: string, log: string)
    : (r: seq<string>)
    ensures selectedJobId == Some(eventJobId) ==> r == logs + [log]
    ensures selectedJobId != Some(eventJobId) ==> r == logs
  {
    if selectedJobId == Some(eventJobId) then logs + [log] else logs
  }

  /** The `job:log` listener as the page registers it: it is set up once, on mount, and
      so compares against the `selectedJobId` of the first render, which is null. */
  function AppendLogAsRegistered(logs: seq<string>, eventJobId: string, log: string): (r: seq<string>)
    ensures r == logs
  {
    AppendLog(logs, None, eventJobId, log)
  }

  /** The registered listener drops every streamed line, even for the job whose logs are
      open, where reading the current selection appends it. */
  lemma StaleLogListener(logs: seq<string>, jobId: string, log: string)
    ensures AppendLogAsRegistered(logs, jobId, log) == logs
    ensures AppendLog(logs, Some(jobId), jobId, log) == logs + [log]
    ensures AppendLogAsRegistered(logs, jobId, log) != AppendLog(logs, Some(jobId), jobId, log)
  {
    assert |logs + [log]| == |logs| + 1;
  }

  /** The `logs` field of a job response, or the placeholder line when it is missing;
      an empty array is truthy in JavaScript and is kept. */
  function LogsOrPlaceholder(logs: Option<seq<string>>): (r: seq<string>)
    ensures logs.Some? ==> r == logs.value
    ensures logs.None? ==> r == ["No logs available"]
    ensures r != [] || logs == Some([])
  {
    match logs
    case Some(l) => l
    case None => ["No logs available"]
  }

  /** `Array.isArray(response.data) ? response.data : []`: None stands for a non-array body. */
  function JobsFromResponse(data: Option<seq<Row>>): (r: seq<Row>)
    ensures data.Some? ==> r == data.value
    ensures data.None? ==> r == []
  {
    data.GetOr([])
  }

  /** `getStatusVariant`: each of the three known statuses has its own variant and
      everything else is a warning. Each page keeps its own badge table; this one has
      the shape of `AuditLogs.ActionVariant` with the job statuses as keys. */
  function StatusVariant(status: string): (v: string)
    ensures v == "success" <==> status == "completed"
    ensures v == "danger" <==> status == "failed"
    ensures v == "info" <==> status == "running"
    ensures v == "warning" <==> status !in {"completed", "failed", "running"}
  {
    match status
    case "completed" => "success"
    case "failed" => "danger"
    case "running" => "info"
    case _ => "warning"
  }

  /** The log lines shown when the job request fails. */
  const DemoLogs: seq<string> := [
    "[2024-10-09 10:30:00] Job started",
    "[2024-10-09 10:30:15] Loading model...",
    "[2024-10-09 10:30:45] Training epoch 1/10...",
    "[2024-10-09 10:32:00] Training epoch 2/10..."]

  /** The two demo jobs shown when the list request fails; the timestamps are inputs. */
  function DemoJobs(now: string, dayAgo: string): seq<Row>
  {
    [map["id" := "job-001", "type" := "training", "model_slug" := "whisper-large-v3",
         "status" := "running", "progress" := "65", "created_at" := now],
     map["id" := "job-002", "type" := "evaluation", "model_slug" := "subtitle-align-bert",
         "status" := "completed", "progress" := "100", "created_at" := dayAgo]]
  }

  /** The page's state variables. */
  class JobsView {
    var jobs: seq<Row>
    var loading: bool
    var showLogsModal: bool
    var selectedJobLogs: seq<string>
    var selectedJobId: Option<string>

    constructor ()
      ensures jobs == [] && loading && !showLogsModal
      ensures selectedJobLogs == [] && selectedJobId == None
    {
      jobs := [];
      loading := true;
      showLogsModal := false;
      selectedJobLogs := [];
      selectedJobId := None;
    }

    /** `fetchJobs`: the list from the response (Err: the request failed), then loading ends. */
    method FetchJobs(response: Result<Option<seq<Row>>, string>, now: string, dayAgo: string)
      modifies this
      ensures response.Ok? ==> jobs == JobsFromResponse(response.value)
      ensures response.Err? ==> jobs == DemoJobs(now, dayAgo)
      ensures !loading
      ensures showLogsModal == old(showLogsModal) && selectedJobLogs == old(selectedJobLogs)
      ensures selectedJobId == old(selectedJobId)
    {
      loading := true;
      if response.Ok? {
        jobs := JobsFromResponse(response.value);
      } else {
        jobs := DemoJobs(now, dayAgo);
      }
      loading := false;
    }

    /** A `job:update` event. */
    method ReceiveJobUpdate(jobId: string, update: Row)
      modifies this
      ensures jobs == MergeUpdate(old(jobs), jobId, update)
      ensures loading == old(loading) && showLogsModal == old(showLogsModal)
      ensures selectedJobLogs == old(selectedJobLogs) && selectedJobId == old(selectedJobId)
    {
      jobs := MergeUpdate(jobs, jobId, update);
    }

    /** A `job:log` event. */
    method ReceiveLog(jobId: string, log: string)
      modifies this
      ensures selectedJobLogs == AppendLog(old(selectedJobLogs), selectedJobId, jobId, log)
      ensures jobs == old(jobs) && loading == old(loading) && showLogsModal == old(showLogsModal)
      ensures selectedJobId == old(selectedJobId)
    {
      selectedJobLogs := AppendLog(selectedJobLogs, selectedJobId, jobId, log);
    }

    /** `viewJobLogs`: select the job and open the modal with its logs (Err: the request
        failed, and the demo lines are shown). */
    method ViewJobLogs(jobId: string, response: Result<Option<seq<string>>, string>)
      modifies this
      ensures selectedJobId == Some(jobId) && showLogsModal
      ensures response.Ok? ==> selectedJobLogs == LogsOrPlaceholder(response.value)
      ensures response.Err? ==> selectedJobLogs == DemoLogs
      ensures jobs == old(jobs) && loading == old(loading)
    {
      selectedJobId := Some(jobId);
      if response.Ok? {
        selectedJobLogs := LogsOrPlaceholder(response.value);
      } else {
        selectedJobLogs := DemoLogs;
      }
      showLogsModal := true;
    }

    /** Closing the modal deselects the job and drops its logs. */
    method CloseLogs()
      modifies this
      ensures !showLogsModal && selectedJobId == None && selectedJobLogs == []
      ensures jobs == old(jobs) && loading == old(loading)
    {
      showLogsModal := false;
      selectedJobId := None;
      selectedJobLogs := [];
    }
  }
}

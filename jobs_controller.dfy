/** The job controller: `POST /models/run` validates the body and hands it to
    `publishJob`, mapping the outcome to 202 or to the error envelope; `GET /jobs/status`
    answers a fixed stub. The trace ids (uuids) are inputs. */
module JobsController {
  import opened Base
  import opened Orchestrator

  /** A JSON response body: the error envelope, the enqueue acknowledgement or the
      status report. */
  datatype Body =
    | Failure(code: string, message: string, traceId: string)
    | Accepted(jobId: string, status: string, enqueueTime: string)
    | StatusReport(jobId: string, status: string, percentComplete: int, manifestUrl: Option<string>)

  datatype Response = Response(status: nat, body: Body)

  /** A run request is admitted when a body is present with a truthy `input` and a truthy
      (hence non-zero) `media_duration_s`. */
  predicate Admissible(body: Option<RunRequest>)
  {
    body.Some? && TruthyStr(body.value.input) && TruthyInt(body.value.mediaDurationS)
  }

  /** The 400 answer to an inadmissible run request. */
  function InvalidRun(traceId: string): (resp: Response)
    ensures resp.status == 400 && resp.body.Failure? && resp.body.code == "ERR_INVALID_REQUEST"
    ensures resp.body.traceId == traceId
  {
    Response(400, Failure("ERR_INVALID_REQUEST", "input and media_duration_s required", traceId))
  }

  /** `modelsRun`. An inadmissible body is refused with 400 and nothing is enqueued; an
      admissible one is published exactly once for the request's tenant (or 'demo'),
      answering 202 with the job's id, status and time, or 500 ERR_JOB_ENQUEUE carrying
      the queue's error message. */
  method ModelsRun(broker: QueueBroker, body: Option<RunRequest>, tenantId: Option<string>,
                   traceId: string, jobUuid: string, now: string, failure: Option<string>)
    returns (resp: Response)
    modifies broker
    ensures !Admissible(body) ==> resp == InvalidRun(traceId) && broker.adds == old(broker.adds)
    ensures Admissible(body) && failure.None? ==>
      && resp == Response(202, Accepted("JOB-" + jobUuid, "queued", now))
      && broker.adds == old(broker.adds) + [EnqueueCall("JOB-" + jobUuid, OrStr(tenantId, "demo"), body.value)]
    ensures Admissible(body) && failure.Some? ==>
      && resp == Response(500, Failure("ERR_JOB_ENQUEUE", failure.value, traceId))
      && broker.adds == old(broker.adds)
  {
    if !Admissible(body) {
      return InvalidRun(traceId);
    }
    var job := PublishJob(broker, OrStr(tenantId, "demo"), body.value, jobUuid, now, failure);
    match job
    case Ok(j) =>
      resp := Response(202, Accepted(j.jobId, j.status, j.enqueueTime));
    case Err(message) =>
      resp := Response(500, Failure("ERR_JOB_ENQUEUE", message, traceId));
  }

  /** Admission fails exactly for a missing body, a missing or empty input, or a missing or
      zero duration. */
  lemma AdmissibleIff(body: Option<RunRequest>)
    ensures !Admissible(body) <==>
      || body.None?
      || body.value.input.None? || body.value.input.value == ""
      || body.value.mediaDurationS.None? || body.value.mediaDurationS.value == 0
  {
  }

  /** `jobStatus`: a missing or empty `job_id` is refused with 400; otherwise the stub
      echoes the id as queued, 0 percent complete and no manifest. */
  function JobStatus(jobId: Option<string>, traceId: string): (resp: Response)
    ensures !TruthyStr(jobId) ==>
      resp.status == 400 && resp.body == Failure("ERR_INVALID_REQUEST", "job_id required", traceId)
    ensures TruthyStr(jobId) ==>
      resp.status == 200 && resp.body == StatusReport(jobId.value, "queued", 0, None)
  {
    if !TruthyStr(jobId) then Response(400, Failure("ERR_INVALID_REQUEST", "job_id required", traceId))
    else Response(200, StatusReport(jobId.value, "queued", 0, None))
  }
}

/** Job admission on the backend: the lane-routing rule and the enqueue contract of
    `publishJob`. The BullMQ queues are abstracted as a recorder of `add` calls; the job
    uuid, the ISO timestamp and a failure of the queue are inputs. */
module Orchestrator {
  import opened Base

  /** The three processing lanes, named as the queues are named. */
  datatype Lane = Realtime | Standard | Bulk

  function LaneName(lane: Lane): (name: string)
    ensures name in {"realtime", "standard", "bulk"}
  {
    match lane
    case Realtime => "realtime"
    case Standard => "standard"
    case Bulk => "bulk"
  }

  /** Lanes ordered by the duration they are meant for. */
  function Rank(lane: Lane): nat
  {
    match lane
    case Realtime => 0
    case Standard => 1
    case Bulk => 2
  }

  /** Different lanes go to differently named queues. */
  lemma LaneNameInjective(a: Lane, b: Lane)
    ensures LaneName(a) == LaneName(b) <==> a == b
  {
  }

  /** `chooseQueue`: an explicit realtime class wins; otherwise up to 120 s is realtime,
      up to 900 s standard and anything longer bulk. */
  function ChooseQueue(mediaDurationS: int, latencyClass: string): (lane: Lane)
    ensures lane == Realtime <==> latencyClass == "realtime" || mediaDurationS <= 120
    ensures lane == Standard <==> latencyClass != "realtime" && 120 < mediaDurationS <= 900
    ensures lane == Bulk <==> latencyClass != "realtime" && 900 < mediaDurationS
  {
    if latencyClass == "realtime" || mediaDurationS <= 120 then Realtime
    else if mediaDurationS <= 900 then Standard
    else Bulk
  }

  /** For a fixed latency class, a longer medium never goes to a faster lane. */
  lemma ChooseQueueMonotone(d1: int, d2: int, latencyClass: string)
    requires d1 <= d2
    ensures Rank(ChooseQueue(d1, latencyClass)) <= Rank(ChooseQueue(d2, latencyClass))
  {
  }

  /** The body of a run request, carried unchanged as the job payload. */
  datatype RunRequest = RunRequest(
    input: Option<string>,
    mediaDurationS: Option<int>,
    latencyClass: Option<string>)

  /** The lane a payload is routed to. The class defaults to 'auto'; a missing duration
      compares false against both thresholds in JavaScript, so it lands in bulk unless
      the class is realtime. */
  function PayloadLane(payload: RunRequest): (lane: Lane)
    ensures payload.mediaDurationS.Some? ==>
      lane == ChooseQueue(payload.mediaDurationS.value, OrStr(payload.latencyClass, "auto"))
    ensures payload.mediaDurationS.None? ==>
      (lane == Realtime <==> OrStr(payload.latencyClass, "auto") == "realtime") && lane != Standard
  {
    var cls := OrStr(payload.latencyClass, "auto");
    match payload.mediaDurationS
    case Some(d) => ChooseQueue(d, cls)
    case None => if cls == "realtime" then Realtime else Bulk
  }

  datatype Backoff = Backoff(kind: string, delayMs: nat)

  datatype AddOptions = AddOptions(removeOnComplete: bool, attempts: nat, backoff: Backoff)

  datatype JobData = JobData(jobId: string, tenantId: string, payload: RunRequest)

  /** One `add` call on a named queue. */
  datatype AddCall = AddCall(queue: string, name: string, data: JobData, opts: AddOptions)

  /** What `publishJob` resolves to. */
  datatype PublishedJob = PublishedJob(jobId: string, status: string, enqueueTime: string, queue: string)

  /** Three attempts, exponential backoff from 2000 ms, removed once complete. */
  const RetryOptions: AddOptions := AddOptions(true, 3, Backoff("exponential", 2000))

  /** The queue connection, seen only through the `add` calls made on it. */
  class QueueBroker {
    var adds: seq<AddCall>

    constructor ()
      ensures adds == []
    {
      adds := [];
    }

    /** Enqueues one job on the named queue. */
    method Add(call: AddCall)
      modifies this
      ensures adds == old(adds) + [call]
    {
      adds := adds + [call];
    }
  }

  /** The add call `publishJob` makes for a job id, tenant and payload. */
  function EnqueueCall(jobId: string, tenantId: string, payload: RunRequest): (call: AddCall)
    ensures call.queue == LaneName(PayloadLane(payload))
    ensures call.name == "process_segment"
    ensures call.data.jobId == jobId && call.data.tenantId == tenantId && call.data.payload == payload
    ensures call.opts.attempts == 3 && call.opts.backoff == Backoff("exponential", 2000)
    ensures call.opts.removeOnComplete
  {
    AddCall(LaneName(PayloadLane(payload)), "process_segment", JobData(jobId, tenantId, payload), RetryOptions)
  }

  /** `publishJob`: one add on the chosen lane under the id "JOB-" + uuid, resolving to a
      queued job; when the queue rejects, nothing is recorded and the error is passed on. */
  method PublishJob(broker: QueueBroker, tenantId: string, payload: RunRequest, uuid: string,
                    now: string, failure: Option<string>)
    returns (r: Result<PublishedJob, string>)
    modifies broker
    ensures failure.Some? ==> r == Err(failure.value) && broker.adds == old(broker.adds)
    ensures failure.None? ==>
      && r == Ok(PublishedJob("JOB-" + uuid, "queued", now, LaneName(PayloadLane(payload))))
      && broker.adds == old(broker.adds) + [EnqueueCall("JOB-" + uuid, tenantId, payload)]
  {
    var jobId := "JOB-" + uuid;
    var queueName := LaneName(PayloadLane(payload));
    if failure.Some? {
      return Err(failure.value);
    }
    broker.Add(EnqueueCall(jobId, tenantId, payload));
    r := Ok(PublishedJob(jobId, "queued", now, queueName));
  }
}

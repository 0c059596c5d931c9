/** The `useJobMonitor` hook: three pure updaters applied to the held job status when a
    socket event arrives, and the effect that registers five listeners on the socket,
    subscribes to the job's room on connect and undoes both on cleanup. */
module UseJobMonitor {
  import opened Base
  import opened Workflow

  /** `job:update`: an event for the monitored job replaces the state wholesale. */
  function OnJobUpdate(jobId: string, prev: Option<JobStatus>, data: JobStatus): (next: Option<JobStatus>)
    ensures data.jobId == jobId ==> next == Some(data)
    ensures data.jobId != jobId ==> next == prev
  {
    if data.jobId == jobId then Some(data) else prev
  }

  /** `job:progress`: for the monitored job and a held status, only `progress` changes. */
  function OnJobProgress(jobId: string, prev: Option<JobStatus>, eventJobId: string, progress: int)
    : (next: Option<JobStatus>)
    ensures eventJobId != jobId || prev.None? ==> next == prev
    ensures eventJobId == jobId && prev.Some? ==>
      && next.Some? && next.value.progress == progress
      && next.value == prev.value.(progress := next.value.progress)
  {
    if eventJobId == jobId && prev.Some? then Some(prev.value.(progress := progress)) else prev
  }

  /** Sets status and progress on every stage with the given name; the rest is kept. */
  function UpdateStages(stages: seq<StageStatus>, name: string, status: string, progress: int)
    : (r: seq<StageStatus>)
    ensures |r| == |stages|
    ensures forall i :: 0 <= i < |stages| ==>
      r[i] == if stages[i].stage == name then stages[i].(status := status, progress := progress)
              else stages[i]
  {
    if stages == [] then []
    else
      var s := stages[0];
      [if s.stage == name then s.(status := status, progress := progress) else s]
        + UpdateStages(stages[1..], name, status, progress)
  }

  /** Stage names and order survive a stage update, and applying it twice is applying it once. */
  lemma UpdateStagesKeepsOrder(stages: seq<StageStatus>, name: string, status: string, progress: int)
    ensures var r := UpdateStages(stages, name, status, progress);
      && (forall i :: 0 <= i < |r| ==> r[i].stage == stages[i].stage)
      && UpdateStages(r, name, status, progress) == r
  {
  }

  /** `job:stage:update`: for the monitored job and a held status, only the stages list
      changes, through `UpdateStages`. */
  function OnStageUpdate(jobId: string, prev: Option<JobStatus>, eventJobId: string, stage: string,
                         status: string, progress: int)
    : (next: Option<JobStatus>)
    ensures eventJobId != jobId || prev.None? ==> next == prev
    ensures eventJobId == jobId && prev.Some? ==>
      && next.Some?
      && next.value == prev.value.(stages := next.value.stages)
      && next.value.stages == UpdateStages(prev.value.stages, stage, status, progress)
  {
    if eventJobId == jobId && prev.Some? then
      Some(prev.value.(stages := UpdateStages(prev.value.stages, stage, status, progress)))
    else prev
  }

  /** The five socket events the hook listens to. */
  const Events: seq<string> := ["connect", "disconnect", "job:update", "job:progress", "job:stage:update"]

  /** A message the client sends on the socket. */
  datatype Emit = Emit(event: string, jobId: string)

  /** The hook's state (`jobStatus`, `connected`) together with the part of the socket it
      touches: the listeners it registered and the messages it sent. */
  class JobMonitorHook {
    /** The job id the mounted effect captured; None while no effect is mounted. */
    var subscribedId: Option<string>
    var listeners: seq<string>
    var emitted: seq<Emit>
    var connected: bool
    var jobStatus: Option<JobStatus>

    /** Listeners are registered exactly while an effect with a job id is mounted. */
    ghost predicate Valid()
      reads this
    {
      && (subscribedId.None? ==> listeners == [])
      && (subscribedId.Some? ==> listeners == Events && subscribedId.value != "")
    }

    constructor ()
      ensures Valid()
      ensures subscribedId == None && listeners == [] && emitted == []
      ensures !connected && jobStatus == None
    {
      subscribedId := None;
      listeners := [];
      emitted := [];
      connected := false;
      jobStatus := None;
    }

    /** Connect handler: mark connected and subscribe to the job's room. */
    method OnConnect()
      requires Valid()
      modifies this
      ensures Valid()
      ensures old(subscribedId).None? ==> unchanged(this)
      ensures old(subscribedId).Some? ==>
        && connected
        && emitted == old(emitted) + [Emit("subscribe:job", old(subscribedId).value)]
        && subscribedId == old(subscribedId) && listeners == old(listeners)
        && jobStatus == old(jobStatus)
    {
      if subscribedId.Some? {
        connected := true;
        emitted := emitted + [Emit("subscribe:job", subscribedId.value)];
      }
    }

    /** Disconnect handler: only `connected` is cleared. */
    method OnDisconnect()
      requires Valid()
      modifies this
      ensures Valid()
      ensures old(subscribedId).None? ==> unchanged(this)
      ensures old(subscribedId).Some? ==>
        && !connected
        && subscribedId == old(subscribedId) && listeners == old(listeners)
        && emitted == old(emitted) && jobStatus == old(jobStatus)
    {
      if subscribedId.Some? {
        connected := false;
      }
    }

    /** The effect for `jobId`: nothing without an id; otherwise the five listeners are
        registered, and if the socket is already connected the connect handler runs. */
    method Mount(jobId: Option<string>, socketConnected: bool)
      requires Valid() && subscribedId.None?
      modifies this
      ensures Valid()
      ensures !TruthyStr(jobId) ==> unchanged(this)
      ensures TruthyStr(jobId) ==>
        && subscribedId == jobId && listeners == Events
        && jobStatus == old(jobStatus)
        && connected == (socketConnected || old(connected))
        && emitted == old(emitted) + (if socketConnected then [Emit("subscribe:job", jobId.value)] else [])
    {
      if !TruthyStr(jobId) {
        return;
      }
      subscribedId := jobId;
      listeners := Events;
      if socketConnected {
        OnConnect();
      }
    }

    /** Cleanup: unsubscribe from the job's room and remove all five listeners. */
    method Cleanup()
      requires Valid()
      modifies this
      ensures Valid()
      ensures old(subscribedId).None? ==> unchanged(this)
      ensures old(subscribedId).Some? ==>
        && emitted == old(emitted) + [Emit("unsubscribe:job", old(subscribedId).value)]
        && subscribedId == None && listeners == []
        && connected == old(connected) && jobStatus == old(jobStatus)
    {
      if subscribedId.Some? {
        emitted := emitted + [Emit("unsubscribe:job", subscribedId.value)];
        subscribedId := None;
        listeners := [];
      }
    }

    /** A `job:update` event reaches the updater only through a registered listener. */
    method ReceiveJobUpdate(data: JobStatus)
      requires Valid()
      modifies this
      ensures Valid()
      ensures old(subscribedId).None? ==> unchanged(this)
      ensures old(subscribedId).Some? ==>
        && jobStatus == OnJobUpdate(old(subscribedId).value, old(jobStatus), data)
        && subscribedId == old(subscribedId) && listeners == old(listeners)
        && emitted == old(emitted) && connected == old(connected)
    {
      if subscribedId.Some? {
        jobStatus := OnJobUpdate(subscribedId.value, jobStatus, data);
      }
    }

    /** A `job:progress` event. */
    method ReceiveJobProgress(eventJobId: string, progress: int)
      requires Valid()
      modifies this
      ensures Valid()
      ensures old(subscribedId).None? ==> unchanged(this)
      ensures old(subscribedId).Some? ==>
        && jobStatus == OnJobProgress(old(subscribedId).value, old(jobStatus), eventJobId, progress)
        && subscribedId == old(subscribedId) && listeners == old(listeners)
        && emitted == old(emitted) && connected == old(connected)
    {
      if subscribedId.Some? {
        jobStatus := OnJobProgress(subscribedId.value, jobStatus, eventJobId, progress);
      }
    }

    /** A `job:stage:update` event. */
    method ReceiveStageUpdate(eventJobId: string, stage: string, status: string, progress: int)
      requires Valid()
      modifies this
      ensures Valid()
      ensures old(subscribedId).None? ==> unchanged(this)
      ensures old(subscribedId).Some? ==>
        && jobStatus == OnStageUpdate(old(subscribedId).value, old(jobStatus), eventJobId, stage, status, progress)
        && subscribedId == old(subscribedId) && listeners == old(listeners)
        && emitted == old(emitted) && connected == old(connected)
    {
      if subscribedId.Some? {
        jobStatus := OnStageUpdate(subscribedId.value, jobStatus, eventJobId, stage, status, progress);
      }
    }
  }

  /** Events for another job leave the held status unchanged, whichever handler sees them. */
  lemma OtherJobIgnored(jobId: string, prev: Option<JobStatus>, data: JobStatus, other: string,
                        stage: string, status: string, progress: int)
    requires data.jobId != jobId && other != jobId
    ensures OnJobUpdate(jobId, prev, data) == prev
    ensures OnJobProgress(jobId, prev, other, progress) == prev
    ensures OnStageUpdate(jobId, prev, other, stage, status, progress) == prev
  {
  }
}

/** The job-status records the client receives over the socket and from the status API.
    Statuses are kept as strings: the socket handlers store whatever status an event
    carries. Progress values and durations are whole numbers here. */
module Workflow {
  import opened Base

  /** One pipeline stage of a job (asr, mt, context, align, qa). */
  datatype StageStatus = StageStatus(
    stage: string,
    status: string,
    progress: int,
    startedAt: Option<string>,
    completedAt: Option<string>,
    error: Option<string>)

  /** The result of a finished job. */
  datatype JobResult = JobResult(
    outputPath: string,
    subtitleFormat: string,
    duration: int,
    segmentCount: int)

  /** A job as reported to the client. */
  datatype JobStatus = JobStatus(
    jobId: string,
    status: string,
    progress: int,
    stages: seq<StageStatus>,
    createdAt: string,
    updatedAt: string,
    result: Option<JobResult>,
    error: Option<string>)

  /** A subtitle preview of a finished job. */
  datatype JobPreview = JobPreview(jobId: string, language: string, format: string)
}

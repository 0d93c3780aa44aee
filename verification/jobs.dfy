/** Jobs and the per-job results that queue and scheduler report. */
module Jobs {
  import opened Wrappers

  /** An integer in the source, with these named values and no others checked. */
  type Priority = int

  const UNSPECIFIED: Priority := 0
  const IMMEDIATE: Priority := 1
  const HIGH: Priority := 2
  const MEDIUM: Priority := 3
  const LOW: Priority := 4

  datatype Job = Job(id: string, producerId: string, jobType: string, priority: Priority, payload: seq<byte>,
                     runAt: int, traceId: string, maxRetries: int, createdAt: int, shadow: bool)

  datatype EnqueueResult = EnqueueResult(jobId: string, error: Option<string>)
}

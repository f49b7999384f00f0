/** How a job is named. */
module Jobs {

  // A job id is its chain's own; the same text may name another job on another chain.
  datatype JobKey = JobKey(chainId: int, jobId: string)
}

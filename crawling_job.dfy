/** The execution record of one crawling batch run.  The entity sets no
    starting status of its own: its creator passes one to the constructor.
    `Complete` and `Fail` record the end of the run.  Neither looks at the
    current status, so both may be called in any state and any number of
    times. */
module CrawlingJobEntity {
  import opened Wrappers
  import opened JavaTypes
  import opened JobStatusEnum

  class CrawlingJob {
    var id: Option<int>
    var jobName: string
    var targetUrl: Option<string>
    var status: JobStatus
    var startedAt: LocalDateTime
    var completedAt: Option<LocalDateTime>
    var totalCount: Option<int32>
    var successCount: Option<int32>
    var failCount: Option<int32>
    var errorMessage: Option<string>

    /** The all-arguments constructor the builder uses. */
    constructor (id: Option<int>, jobName: string, targetUrl: Option<string>, status: JobStatus,
                 startedAt: LocalDateTime, completedAt: Option<LocalDateTime>,
                 totalCount: Option<int32>, successCount: Option<int32>, failCount: Option<int32>,
                 errorMessage: Option<string>)
      ensures this.id == id && this.jobName == jobName && this.targetUrl == targetUrl
      ensures this.status == status && this.startedAt == startedAt && this.completedAt == completedAt
      ensures this.totalCount == totalCount && this.successCount == successCount && this.failCount == failCount
      ensures this.errorMessage == errorMessage
    {
      this.id := id;
      this.jobName := jobName;
      this.targetUrl := targetUrl;
      this.status := status;
      this.startedAt := startedAt;
      this.completedAt := completedAt;
      this.totalCount := totalCount;
      this.successCount := successCount;
      this.failCount := failCount;
      this.errorMessage := errorMessage;
    }

    /** `isRunning()`: the job has neither succeeded nor failed. */
    predicate IsRunning(): (r: bool)
      reads this
      ensures r <==> !(status == SUCCESS || status == FAILED)
    {
      status == RUNNING
    }

    /** `isSuccess()`: the job has neither failed nor is it still running. */
    predicate IsSuccess(): (r: bool)
      reads this
      ensures r <==> !(status == RUNNING || status == FAILED)
    {
      status == SUCCESS
    }

    /** `getExecutionTimeInSeconds()`: `null` until the job has an end time,
        then the whole seconds from its start to its end, rounded down. */
    function GetExecutionTimeInSeconds(): (r: Option<int>)
      reads this
      ensures r.None? <==> completedAt.None?
      ensures r.Some? ==> r.value * NanosPerSecond <= completedAt.value - startedAt < (r.value + 1) * NanosPerSecond
    {
      if completedAt.None? then None
      else Some(DurationSeconds(startedAt, completedAt.value))
    }

    /** `complete(successCount, failCount)` at time `now`: the job succeeds,
        ends now, and records both counts and their 32-bit sum; the error
        message of an earlier failure stays. */
    method Complete(successCount: int32, failCount: int32, now: LocalDateTime)
      modifies this
      ensures status == SUCCESS && completedAt == Some(now)
      ensures this.successCount == Some(successCount) && this.failCount == Some(failCount)
      ensures totalCount == Some(AddInt32(successCount, failCount))
      ensures errorMessage == old(errorMessage)
      ensures id == old(id) && jobName == old(jobName) && targetUrl == old(targetUrl) && startedAt == old(startedAt)
      ensures IsSuccess() && !IsRunning()
      ensures GetExecutionTimeInSeconds() == Some(DurationSeconds(startedAt, now))
    {
      status := SUCCESS;
      completedAt := Some(now);
      this.successCount := Some(successCount);
      this.failCount := Some(failCount);
      totalCount := Some(AddInt32(successCount, failCount));
    }

    /** `fail(errorMessage)` at time `now`: the job fails, ends now and keeps
        the message; the counts are left as they were. */
    method Fail(errorMessage: Option<string>, now: LocalDateTime)
      modifies this
      ensures status == FAILED && completedAt == Some(now) && this.errorMessage == errorMessage
      ensures totalCount == old(totalCount) && successCount == old(successCount) && failCount == old(failCount)
      ensures id == old(id) && jobName == old(jobName) && targetUrl == old(targetUrl) && startedAt == old(startedAt)
      ensures !IsSuccess() && !IsRunning()
      ensures GetExecutionTimeInSeconds() == Some(DurationSeconds(startedAt, now))
    {
      status := FAILED;
      completedAt := Some(now);
      this.errorMessage := errorMessage;
    }
  }

  /** A job is never both running and successful. */
  lemma RunningExcludesSuccess(job: CrawlingJob)
    ensures !(job.IsRunning() && job.IsSuccess())
  {
  }
}

/** One page as it was crawled, with its processing state.  The `MarkAs`
    methods move it between states without looking at the current one. */
module RawCrawledDataEntity {
  import opened Wrappers
  import opened JavaTypes
  import opened CrawlingStatusEnum

  class RawCrawledData {
    var id: Option<int>
    var sourceUrl: string
    var title: Option<string>
    var content: string
    var contentType: Option<string>
    var status: CrawlingStatus
    var crawledAt: LocalDateTime
    var processedAt: Option<LocalDateTime>
    var errorMessage: Option<string>

    /** The all-arguments constructor the builder uses. */
    constructor (id: Option<int>, sourceUrl: string, title: Option<string>, content: string,
                 contentType: Option<string>, status: CrawlingStatus, crawledAt: LocalDateTime,
                 processedAt: Option<LocalDateTime>, errorMessage: Option<string>)
      ensures this.id == id && this.sourceUrl == sourceUrl && this.title == title
      ensures this.content == content && this.contentType == contentType && this.status == status
      ensures this.crawledAt == crawledAt && this.processedAt == processedAt && this.errorMessage == errorMessage
    {
      this.id := id;
      this.sourceUrl := sourceUrl;
      this.title := title;
      this.content := content;
      this.contentType := contentType;
      this.status := status;
      this.crawledAt := crawledAt;
      this.processedAt := processedAt;
      this.errorMessage := errorMessage;
    }

    /** The fields no state change touches. */
    twostate predicate SameRecord()
      reads this
    {
      id == old(id) && sourceUrl == old(sourceUrl) && title == old(title)
      && content == old(content) && contentType == old(contentType) && crawledAt == old(crawledAt)
    }

    /** `isPending()`: processing has not started, ended or failed. */
    predicate IsPending(): (r: bool)
      reads this
      ensures r <==> !(status == PROCESSING || status == PROCESSED || status == FAILED)
    {
      status == PENDING
    }

    /** `isProcessed()`: neither waiting, in progress nor failed. */
    predicate IsProcessed(): (r: bool)
      reads this
      ensures r <==> !(status == PENDING || status == PROCESSING || status == FAILED)
    {
      status == PROCESSED
    }

    /** `markAsProcessed()` at time `now`: processed now; an earlier error
        message is not cleared. */
    method MarkAsProcessed(now: LocalDateTime)
      modifies this
      ensures status == PROCESSED && processedAt == Some(now)
      ensures errorMessage == old(errorMessage)
      ensures SameRecord()
      ensures IsProcessed() && !IsPending()
    {
      status := PROCESSED;
      processedAt := Some(now);
    }

    /** `markAsFailed(errorMessage)`: failed with the message; the time of an
        earlier processing stays. */
    method MarkAsFailed(errorMessage: Option<string>)
      modifies this
      ensures status == FAILED && this.errorMessage == errorMessage
      ensures processedAt == old(processedAt)
      ensures SameRecord()
      ensures !IsProcessed() && !IsPending()
    {
      status := FAILED;
      this.errorMessage := errorMessage;
    }

    /** `markAsProcessing()`: only the status changes. */
    method MarkAsProcessing()
      modifies this
      ensures status == PROCESSING
      ensures processedAt == old(processedAt) && errorMessage == old(errorMessage)
      ensures SameRecord()
      ensures !IsProcessed() && !IsPending()
    {
      status := PROCESSING;
    }
  }

  /** A record is never both pending and processed. */
  lemma PendingExcludesProcessed(data: RawCrawledData)
    ensures !(data.IsPending() && data.IsProcessed())
  {
  }
}

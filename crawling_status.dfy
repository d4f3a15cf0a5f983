/** The processing states of a piece of crawled data and their descriptions. */
module CrawlingStatusEnum {

  datatype CrawlingStatus = PENDING | PROCESSING | PROCESSED | FAILED
  {
    /** `getDescription()`: the description each constant was declared with,
        always one of the declared ones and never blank. */
    function GetDescription(): (d: string)
      ensures d in {"대기 중", "처리 중", "처리 완료", "실패"}
      ensures d != ""
    {
      match this
      case PENDING => "대기 중"
      case PROCESSING => "처리 중"
      case PROCESSED => "처리 완료"
      case FAILED => "실패"
    }
  }

  /** `CrawlingStatus.values()`, in declaration order. */
  const Values: seq<CrawlingStatus> := [PENDING, PROCESSING, PROCESSED, FAILED]

  /** There are exactly the four constants. */
  lemma ValuesComplete(s: CrawlingStatus)
    ensures s in Values
    ensures |Values| == 4
    ensures forall i, j :: 0 <= i < j < |Values| ==> Values[i] != Values[j]
  {
  }

  /** The descriptions as declared. */
  lemma DeclaredDescriptions()
    ensures PENDING.GetDescription() == "대기 중"
    ensures PROCESSING.GetDescription() == "처리 중"
    ensures PROCESSED.GetDescription() == "처리 완료"
    ensures FAILED.GetDescription() == "실패"
  {
  }

  /** The descriptions are pairwise distinct, so a description names one constant. */
  lemma DescriptionsDistinct(a: CrawlingStatus, b: CrawlingStatus)
    ensures a.GetDescription() == b.GetDescription() ==> a == b
  {
  }
}

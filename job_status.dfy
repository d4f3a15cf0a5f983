/** The execution states of a crawling job and their descriptions. */
module JobStatusEnum {

  datatype JobStatus = RUNNING | SUCCESS | FAILED
  {
    /** `getDescription()`: the description each constant was declared with,
        always one of the declared ones and never blank. */
    function GetDescription(): (d: string)
      ensures d in {"실행 중", "성공", "실패"}
      ensures d != ""
    {
      match this
      case RUNNING => "실행 중"
      case SUCCESS => "성공"
      case FAILED => "실패"
    }
  }

  /** `JobStatus.values()`, in declaration order. */
  const Values: seq<JobStatus> := [RUNNING, SUCCESS, FAILED]

  /** There are exactly the three constants. */
  lemma ValuesComplete(s: JobStatus)
    ensures s in Values
    ensures |Values| == 3 && Values[0] != Values[1] && Values[1] != Values[2] && Values[0] != Values[2]
  {
  }

  /** The descriptions as declared. */
  lemma DeclaredDescriptions()
    ensures RUNNING.GetDescription() == "실행 중"
    ensures SUCCESS.GetDescription() == "성공"
    ensures FAILED.GetDescription() == "실패"
  {
  }

  /** The descriptions are pairwise distinct, so a description names one constant. */
  lemma DescriptionsDistinct(a: JobStatus, b: JobStatus)
    ensures a.GetDescription() == b.GetDescription() ==> a == b
  {
  }
}

/** The three statuses of a video and how the overall one follows from the other two. */
module EvaluationStatus {
  import opened Wrappers

  type Time = nat

  datatype ManualStatus = ManualPending | ManualInProgress | ManualSubmitted

  datatype AiStatus = AiPending | AiProcessing | AiCompleted | AiFailed

  datatype OverallStatus = OverallPending | OverallInProgress | OverallCompleted | OverallFailed

  function ResolveOverall(manual: ManualStatus, ai: AiStatus): (r: OverallStatus)
    ensures r == OverallCompleted <==> manual == ManualSubmitted && ai == AiCompleted
    ensures r == OverallFailed <==> ai == AiFailed
    ensures r == OverallPending <==> manual == ManualPending && ai == AiPending
  {
    if ai.AiFailed? then OverallFailed
    else if manual.ManualSubmitted? && ai.AiCompleted? then OverallCompleted
    else if manual.ManualInProgress? || manual.ManualSubmitted? || ai.AiProcessing? || ai.AiCompleted? then
      OverallInProgress
    else OverallPending
  }

  function ResolveCompletedAt(overall: OverallStatus, now: Time): (r: Option<Time>)
    ensures r.Some? <==> overall == OverallCompleted
    ensures r.Some? ==> r.value == now
  {
    if overall != OverallCompleted then None else Some(now)
  }
}

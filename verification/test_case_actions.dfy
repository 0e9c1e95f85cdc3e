/** `generateOutput` as a whole, from the moment the problem has been found:
    it submits the reference solution with the caller's input, then polls
    for the verdict. The judge's replies are the given script. The returned
    text is decided by the last poll: the first terminal reply's stdout or
    stderr, or the timeout sentinel after ten pending replies; a failed
    request returns nothing. */
module TestCaseActions {
  import opened Wrappers
  import opened JudgeSubmission
  import opened JudgePolling

  /** What one call sends and how it ends. */
  datatype Exchange = Exchange(submitted: SubmitBody, run: Run)

  function GenerateOutput(problem: Problem, inputs: string, replies: seq<Reply>): (r: Exchange)
    ensures ProblemOf(r.submitted) == Some(problem)
    ensures r.submitted.stdin == inputs
    ensures 1 <= r.run.polls <= MaxPolls
    ensures PendingPrefix(replies, 0, r.run.polls - 1)
    ensures var last := r.run.polls - 1;
      if last == |replies| then
        r.run.outcome == Raised
      else if IsTerminal(replies[last]) then
        r.run.outcome == Returned(Interpret(replies[last]))
      else
        r.run.polls == MaxPolls && r.run.outcome == Returned(TimeLimitExceeded)
  {
    SubmitBodyRoundTrip(problem, inputs);
    Exchange(BuildSubmitBody(problem, inputs), Poll(replies))
  }
}

/** The poll loop of `generateOutput`: after the submission, the judge is
    asked for the job's status at most `MaxPolls` times; the first reply
    whose status is terminal decides the returned text, and when no reply is
    terminal the text is the timeout sentinel. The judge is modelled as the
    finite script of replies it gives to the successive polls; a poll past
    the end of the script is one whose request failed. */
module JudgePolling {

  /** Judge0's status identifier of an accepted run ("Accepted"). Lower
      identifiers (1 "In Queue", 2 "Processing") mean the job is not
      finished; higher ones are the failure verdicts. */
  const AcceptedStatus: int := 3

  /** The poll budget: the loop runs while the attempt counter is below it. */
  const MaxPolls: nat := 10

  /** The text returned when the budget is spent. It is an ordinary string,
      of the same type as the judge's stdout and stderr. */
  const TimeLimitExceeded: string := "Time limit exceeded"

  /** One reply to `GET /submissions/{token}?fields=stdout,stderr,status_id`. */
  datatype Reply = Reply(status: int, stdout: string, stderr: string)

  /** The three-way partition of the judge's status identifiers. */
  datatype Phase = Pending | Succeeded | Failed

  function Classify(status: int): (p: Phase)
    ensures p == Succeeded <==> status == AcceptedStatus
    ensures p == Failed <==> status > AcceptedStatus
    ensures p == Pending <==> status < AcceptedStatus
  {
    if status == AcceptedStatus then Succeeded
    else if status > AcceptedStatus then Failed
    else Pending
  }

  predicate IsTerminal(r: Reply)
  {
    Classify(r.status) != Pending
  }

  /** The text a terminal reply makes `generateOutput` return. */
  function Interpret(r: Reply): (text: string)
    requires IsTerminal(r)
    ensures r.status == AcceptedStatus ==> text == r.stdout
    ensures r.status > AcceptedStatus ==> text == r.stderr
  {
    if Classify(r.status) == Succeeded then r.stdout else r.stderr
  }

  /** How the call ends: it returns a string, or the promise rejects because
      a status request failed. */
  datatype Outcome = Returned(text: string) | Raised

  /** The outcome together with the number of status requests issued. */
  datatype Run = Run(outcome: Outcome, polls: nat)

  /** The first `n` replies exist and none of them is terminal. */
  ghost predicate PendingPrefix(replies: seq<Reply>, from: nat, n: nat)
  {
    n <= |replies| && forall i :: from <= i < n ==> !IsTerminal(replies[i])
  }

  /** The loop entered with attempt counter `tryCount`; the next poll reads
      `replies[tryCount]`; the counter is only ever reached after as many
      replies were read, so it never exceeds the script. When at least one poll is issued, the last one,
      `replies[run.polls - 1]`, is the first that ends the loop: it is
      terminal and its text is returned, or it is pending and was the last
      the budget allows, or it is past the end of the script and failed. */
  function PollFrom(replies: seq<Reply>, tryCount: nat): (run: Run)
    requires tryCount <= MaxPolls && tryCount <= |replies|
    ensures tryCount <= run.polls <= MaxPolls
    ensures tryCount < MaxPolls ==> tryCount < run.polls
    ensures tryCount < run.polls ==> PendingPrefix(replies, tryCount, run.polls - 1)
    ensures tryCount < run.polls ==>
      var last := run.polls - 1;
      if last == |replies| then
        run.outcome == Raised
      else if IsTerminal(replies[last]) then
        run.outcome == Returned(Interpret(replies[last]))
      else
        run.polls == MaxPolls && run.outcome == Returned(TimeLimitExceeded)
    decreases MaxPolls - tryCount
  {
    if tryCount == MaxPolls then
      Run(Returned(TimeLimitExceeded), tryCount)
    else if tryCount == |replies| then
      Run(Raised, tryCount + 1)
    else
      var reply := replies[tryCount];
      match Classify(reply.status)
      case Succeeded => Run(Returned(reply.stdout), tryCount + 1)
      case Failed => Run(Returned(reply.stderr), tryCount + 1)
      case Pending => PollFrom(replies, tryCount + 1)
  }

  /** The loop as `generateOutput` enters it, with the counter at 0: at
      least one and at most `MaxPolls` requests, every reply before the last
      one pending, and the last one deciding the outcome. */
  function Poll(replies: seq<Reply>): (run: Run)
    ensures 1 <= run.polls <= MaxPolls
    ensures PendingPrefix(replies, 0, run.polls - 1)
    ensures var last := run.polls - 1;
      if last == |replies| then
        run.outcome == Raised
      else if IsTerminal(replies[last]) then
        run.outcome == Returned(Interpret(replies[last]))
      else
        run.polls == MaxPolls && run.outcome == Returned(TimeLimitExceeded)
  {
    PollFrom(replies, 0)
  }

  /** The first terminal reply, the `k`-th poll, ends the loop: exactly
      `k + 1` requests are issued and its text is returned. */
  lemma FirstTerminalDecides(replies: seq<Reply>, k: nat)
    requires k < MaxPolls && k < |replies|
    requires PendingPrefix(replies, 0, k)
    requires IsTerminal(replies[k])
    ensures Poll(replies).polls == k + 1
    ensures replies[k].status == AcceptedStatus ==> Poll(replies).outcome == Returned(replies[k].stdout)
    ensures replies[k].status > AcceptedStatus ==> Poll(replies).outcome == Returned(replies[k].stderr)
  {
  }

  /** When every reply up to the budget is pending, the loop spends the
      whole budget and returns the sentinel. */
  lemma TimesOutAfterBudget(replies: seq<Reply>)
    requires PendingPrefix(replies, 0, MaxPolls)
    ensures Poll(replies) == Run(Returned(TimeLimitExceeded), MaxPolls)
  {
  }

  /** When the script ends inside the budget with every reply pending, the
      next request fails and the failure escapes; nothing is returned. */
  lemma FailedRequestPropagates(replies: seq<Reply>)
    requires |replies| < MaxPolls
    requires PendingPrefix(replies, 0, |replies|)
    ensures Poll(replies) == Run(Raised, |replies| + 1)
  {
  }

  /** Pending replies carry no information: swapping one pending reply for
      another leaves the run unchanged. */
  lemma PendingRepliesInterchangeable(replies: seq<Reply>, j: nat, r: Reply)
    requires j < |replies| && !IsTerminal(replies[j]) && !IsTerminal(r)
    ensures Poll(replies[j := r]) == Poll(replies)
  {
  }

  /** No request beyond the budget is issued: what the judge would answer
      from the eleventh poll on never matters. */
  lemma RepliesBeyondBudgetIgnored(a: seq<Reply>, b: seq<Reply>)
    requires MaxPolls <= |a| && MaxPolls <= |b| && a[..MaxPolls] == b[..MaxPolls]
    ensures Poll(a) == Poll(b)
  {
    SameRepliesSameRun(a, b, 0);
  }

  lemma {:induction false} SameRepliesSameRun(a: seq<Reply>, b: seq<Reply>, tryCount: nat)
    requires MaxPolls <= |a| && MaxPolls <= |b| && a[..MaxPolls] == b[..MaxPolls]
    requires tryCount <= MaxPolls
    ensures PollFrom(a, tryCount) == PollFrom(b, tryCount)
    decreases MaxPolls - tryCount
  {
    if tryCount < MaxPolls {
      assert a[tryCount] == a[..MaxPolls][tryCount] == b[tryCount];
      SameRepliesSameRun(a, b, tryCount + 1);
    }
  }

  /** The sentinel and a program's own output share one type, so a caller
      cannot tell a timeout from a run that printed the sentinel. */
  lemma TimeoutIndistinguishableFromOutput(stalled: seq<Reply>, printed: seq<Reply>)
    requires PendingPrefix(stalled, 0, MaxPolls)
    requires |printed| > 0 && printed[0] == Reply(AcceptedStatus, TimeLimitExceeded, "")
    ensures Poll(stalled).outcome == Poll(printed).outcome
    ensures Poll(stalled).polls == MaxPolls && Poll(printed).polls == 1
  {
  }

  /** The loop as written in the source, with its attempt counter. */
  method PollLoop(replies: seq<Reply>) returns (outcome: Outcome, polls: nat)
    ensures Run(outcome, polls) == Poll(replies)
    ensures 1 <= polls <= MaxPolls
  {
    var tryCount: nat := 0;
    while tryCount < MaxPolls
      invariant tryCount <= MaxPolls
      invariant PendingPrefix(replies, 0, tryCount)
      invariant PollFrom(replies, tryCount) == Poll(replies)
    {
      if tryCount == |replies| {
        return Raised, tryCount + 1;
      }
      var reply := replies[tryCount];
      var status := reply.status;
      if status == AcceptedStatus {
        return Returned(reply.stdout), tryCount + 1;
      } else if status > AcceptedStatus {
        return Returned(reply.stderr), tryCount + 1;
      }
      tryCount := tryCount + 1;
    }
    return Returned(TimeLimitExceeded), tryCount;
  }
}

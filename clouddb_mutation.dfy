/** The function both CloudDB enterprise resources hand to resource.Retry
    around a POST, PUT or DELETE: HTTP 403 means a background operation is
    running on the cluster and the call is tried again; any other error ends
    the retry with an error that names the request's query id and URL. */
module ClouddbMutation {
  import opened Errors
  import opened Api
  import opened Sdk

  /** What one attempt of a mutation of `url` tells resource.Retry. */
  function Classify<B>(url: string, reply: Reply<B>): RetryVerdict<B> {
    match reply
    case Replied(b) => Accepted(b)
    case Errored(e) =>
      if IsBusy(e) then Retryable(e) else NonRetryable(CallFailed(QueryId(e), url, e))
  }

  /** Classify as the closure given to resource.Retry. */
  function Verdict<B>(url: string): Reply<B> -> RetryVerdict<B> {
    reply => Classify(url, reply)
  }

  /** The reply is a 403 error. */
  predicate Busy<B>(reply: Reply<B>) {
    reply.Errored? && IsBusy(reply.err)
  }

  /** Every reply with index in [lo, hi) is a 403 error. */
  ghost predicate AllBusy<B>(answer: nat -> Reply<B>, lo: nat, hi: nat) {
    forall k :: lo <= k < hi ==> Busy(answer(k))
  }

  /** The outcome the first non-busy reply gives: its body, or the error naming the URL. */
  function Decided<B>(url: string, reply: Reply<B>): Result<B> {
    match reply
    case Replied(b) => Ok(b)
    case Errored(e) => Err(CallFailed(QueryId(e), url, e))
  }

  /** Exactly the 403 errors let the loop go on. */
  lemma ContinuesIffBusy<B>(url: string, reply: Reply<B>)
    ensures RetryStep(Verdict(url))(reply).Continue? <==> Busy(reply)
    ensures !Busy(reply) ==> RetryStep(Verdict(url))(reply) == Stop(Decided(url, reply))
  {
  }

  /** The first reply that is not a 403 decides the mutation, after as many
      attempts as its rank. */
  lemma FirstNonBusyDecides<B>(answer: nat -> Reply<B>, start: nat, bound: nat, url: string, stop: nat)
    requires start <= stop < start + bound
    requires AllBusy(answer, start, stop)
    requires !Busy(answer(stop))
    ensures RetryRun(answer, start, bound, Verdict(url)) == (Decided(url, answer(stop)), stop - start + 1)
  {
    forall k | start <= k < stop
      ensures RetryStep(Verdict(url))(answer(k)).Continue?
    {
      ContinuesIffBusy(url, answer(k));
    }
    ContinuesIffBusy(url, answer(stop));
    RunFindsStop(answer, start, bound, RetryStep(Verdict(url)), stop);
  }

  /** A remote that stays busy for the whole budget makes the retry time out. */
  lemma BusyThroughoutTimesOut<B>(answer: nat -> Reply<B>, start: nat, bound: nat, url: string)
    requires AllBusy(answer, start, start + bound)
    ensures RetryRun(answer, start, bound, Verdict(url)) == (Err(RetryTimedOut), bound)
  {
    forall k | start <= k < start + bound
      ensures RetryStep(Verdict(url))(answer(k)).Continue?
    {
      ContinuesIffBusy(url, answer(k));
    }
    RunExhausts(answer, start, bound, RetryStep(Verdict(url)));
  }

  /** Whatever the replies, the retry sent one attempt per 403 and then
      either stopped at the first other reply, with that reply's outcome, or
      spent its budget on 403s and timed out. */
  lemma RetryOutcome<B>(answer: nat -> Reply<B>, start: nat, bound: nat, url: string)
    ensures var (r, n) := RetryRun(answer, start, bound, Verdict(url));
      if r == Err(RetryTimedOut) then
        n == bound && AllBusy(answer, start, start + bound)
      else
        1 <= n <= bound && AllBusy(answer, start, start + n - 1)
        && !Busy(answer(start + n - 1)) && r == Decided(url, answer(start + n - 1))
  {
    var step := RetryStep(Verdict(url));
    RunStopsAtFirstStop(answer, start, bound, step);
    var (o, n) := Run(answer, start, bound, step);
    forall k | start <= k < start + bound && step(answer(k)).Continue?
      ensures Busy(answer(k))
    {
      ContinuesIffBusy(url, answer(k));
    }
    if o.Some? {
      ContinuesIffBusy(url, answer(start + n - 1));
    }
  }
}

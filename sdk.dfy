/** The two helpers of the Terraform plugin SDK that every resource here drives:
    resource.Retry and resource.StateChangeConf.WaitForState. Both call the
    remote again and again until a reply decides the outcome; the wall-clock
    timeout is a bound on the number of calls. */
module Sdk {
  import opened Errors
  import opened Api

  /** What one reply means to a loop: go on, or stop with an outcome. */
  datatype Step<T> = Continue | Stop(outcome: T)

  /** What WaitForState does with a status that is neither pending nor target. */
  datatype UnexpectedPolicy = KeepPolling | FailFast

  /** Call budgets standing in for the timeouts of resource.Retry and of
      StateChangeConf, and the policy for unexpected statuses. */
  datatype Budget = Budget(retries: nat, polls: nat, onUnexpected: UnexpectedPolicy)

  /** Every reply with index in [lo, hi) tells the loop to go on. */
  ghost predicate AllContinue<B, T>(answer: nat -> Reply<B>, step: Reply<B> -> Step<T>, lo: nat, hi: nat) {
    forall k :: lo <= k < hi ==> step(answer(k)).Continue?
  }

  /** The loop that sends one request up to `bound` times, starting with the
      reply numbered `start`: the outcome of the first reply that stops it
      (None when none does) and the number of requests it sent. */
  function Run<B, T>(answer: nat -> Reply<B>, start: nat, bound: nat, step: Reply<B> -> Step<T>): (res: (Option<T>, nat))
    ensures res.0.Some? ==> 1 <= res.1 <= bound
    ensures res.0.None? ==> res.1 == bound
    decreases bound
  {
    if bound == 0 then (None, 0)
    else match step(answer(start))
      case Stop(t) => (Some(t), 1)
      case Continue =>
        var (o, n) := Run(answer, start + 1, bound - 1, step);
        (o, n + 1)
  }

  /** The loop stops at the first stopping reply and at no earlier one. */
  lemma {:induction false} RunStopsAtFirstStop<B, T>(answer: nat -> Reply<B>, start: nat, bound: nat, step: Reply<B> -> Step<T>)
    ensures var (o, n) := Run(answer, start, bound, step);
      && (o.Some? ==> AllContinue(answer, step, start, start + n - 1) && step(answer(start + n - 1)) == Stop(o.value))
      && (o.None? ==> AllContinue(answer, step, start, start + bound))
    decreases bound
  {
    if bound > 0 && step(answer(start)).Continue? {
      RunStopsAtFirstStop(answer, start + 1, bound - 1, step);
    }
  }

  /** Conversely, a stopping reply within the bound after only continuing ones
      decides the loop, after exactly as many requests as that reply's rank. */
  lemma {:induction false} RunFindsStop<B, T>(answer: nat -> Reply<B>, start: nat, bound: nat, step: Reply<B> -> Step<T>, stop: nat)
    requires start <= stop < start + bound
    requires AllContinue(answer, step, start, stop)
    requires step(answer(stop)).Stop?
    ensures Run(answer, start, bound, step) == (Some(step(answer(stop)).outcome), stop - start + 1)
    decreases bound
  {
    if stop > start {
      RunFindsStop(answer, start + 1, bound - 1, step, stop);
    }
  }

  /** A loop that is never told to stop uses its whole budget and decides nothing. */
  lemma {:induction false} RunExhausts<B, T>(answer: nat -> Reply<B>, start: nat, bound: nat, step: Reply<B> -> Step<T>)
    requires AllContinue(answer, step, start, start + bound)
    ensures Run(answer, start, bound, step) == (None, bound)
    decreases bound
  {
    if bound > 0 {
      RunExhausts(answer, start + 1, bound - 1, step);
    }
  }

  /** The loop itself: sends `req` until a reply stops it or the bound is reached. */
  method Drive<P, B, T>(client: Client<P, B>, req: Request<P>, step: Reply<B> -> Step<T>, bound: nat) returns (o: Option<T>, calls: nat)
    modifies client
    ensures (o, calls) == Run(client.answer, |old(client.log)|, bound, step)
    ensures client.log == old(client.log) + Repeat(req, calls)
  {
    ghost var n0 := |client.log|;
    o, calls := None, 0;
    while o.None? && calls < bound
      invariant calls <= bound
      invariant client.log == old(client.log) + Repeat(req, calls)
      invariant o.None? ==> AllContinue(client.answer, step, n0, n0 + calls)
      invariant o.Some? ==> calls >= 1 && AllContinue(client.answer, step, n0, n0 + calls - 1)
                            && step(client.answer(n0 + calls - 1)) == Stop(o.value)
      decreases bound - calls, o.None?
    {
      var reply := client.Call(req.verb, req.url, req.payload);
      RepeatSnoc(req, calls);
      calls := calls + 1;
      match step(reply) {
        case Stop(t) => o := Some(t);
        case Continue =>
      }
    }
    if o.Some? {
      RunFindsStop(client.answer, n0, bound, step, n0 + calls - 1);
    } else {
      RunExhausts(client.answer, n0, bound, step);
    }
  }

  // ---------------------------------------------------------------- resource.Retry

  /** What the function given to resource.Retry returns for one attempt:
      nil, RetryableError(cause) or NonRetryableError(error). */
  datatype RetryVerdict<B> = Accepted(body: B) | Retryable(cause: ClientError) | NonRetryable(error: Error)

  function RetryStep<B>(f: Reply<B> -> RetryVerdict<B>): Reply<B> -> Step<Result<B>> {
    reply =>
      match f(reply)
      case Accepted(b) => Stop(Ok(b))
      case Retryable(_) => Continue
      case NonRetryable(e) => Stop(Err(e))
  }

  /** resource.Retry: the first accepted or non-retryable attempt decides; a
      budget spent on retryable attempts is a timeout. */
  function RetryRun<B>(answer: nat -> Reply<B>, start: nat, bound: nat, f: Reply<B> -> RetryVerdict<B>): (Result<B>, nat) {
    var (o, n) := Run(answer, start, bound, RetryStep(f));
    (if o.Some? then o.value else Err(RetryTimedOut), n)
  }

  method Retry<P, B>(client: Client<P, B>, req: Request<P>, f: Reply<B> -> RetryVerdict<B>, bound: nat) returns (r: Result<B>, calls: nat)
    modifies client
    ensures (r, calls) == RetryRun(client.answer, |old(client.log)|, bound, f)
    ensures client.log == old(client.log) + Repeat(req, calls)
  {
    var o;
    o, calls := Drive(client, req, RetryStep(f), bound);
    r := if o.Some? then o.value else Err(RetryTimedOut);
  }

  // ---------------------------------------------------------------- StateChangeConf

  /** What a Refresh function returns: the current status, or an error. */
  datatype Refreshed = Observed(status: string) | RefreshFailed(cause: ClientError)

  /** The Pending and Target lists of a StateChangeConf. */
  datatype StateChangeConf = StateChangeConf(pending: set<string>, target: set<string>)

  /** One poll: a refresh error ends the wait with that error, a target status
      ends it successfully, a pending status goes on, and any other status
      goes on or fails as the policy says. */
  function PollStep<B>(refresh: Reply<B> -> Refreshed, conf: StateChangeConf, policy: UnexpectedPolicy): Reply<B> -> Step<Result<string>> {
    reply =>
      match refresh(reply)
      case RefreshFailed(e) => Stop(Err(Remote(e)))
      case Observed(s) =>
        if s in conf.target then Stop(Ok(s))
        else if s in conf.pending || policy == KeepPolling then Continue
        else Stop(Err(UnexpectedState(s)))
  }

  /** WaitForState: the status that ended the wait (or why it failed) and the number of polls. */
  function WaitRun<B>(answer: nat -> Reply<B>, start: nat, refresh: Reply<B> -> Refreshed, conf: StateChangeConf, b: Budget): (Result<string>, nat) {
    var (o, n) := Run(answer, start, b.polls, PollStep(refresh, conf, b.onUnexpected));
    (if o.Some? then o.value else Err(PollTimedOut), n)
  }

  /** The reply at index k observes a pending status that is not a target. */
  ghost predicate StillPending<B>(answer: nat -> Reply<B>, refresh: Reply<B> -> Refreshed, conf: StateChangeConf, k: nat) {
    refresh(answer(k)).Observed? && refresh(answer(k)).status in conf.pending
    && refresh(answer(k)).status !in conf.target
  }

  /** A wait succeeds only with a target status, the one the last poll observed. */
  lemma WaitOutcome<B>(answer: nat -> Reply<B>, start: nat, refresh: Reply<B> -> Refreshed, conf: StateChangeConf, b: Budget)
    ensures var (w, n) := WaitRun(answer, start, refresh, conf, b);
      w.Ok? ==> (1 <= n <= b.polls && w.value in conf.target
                 && refresh(answer(start + n - 1)) == Observed(w.value))
  {
    RunStopsAtFirstStop(answer, start, b.polls, PollStep(refresh, conf, b.onUnexpected));
  }

  /** Polls that observe pending statuses and then a target status within
      the budget make the wait succeed with that status. */
  lemma WaitReachesTarget<B>(answer: nat -> Reply<B>, start: nat, refresh: Reply<B> -> Refreshed, conf: StateChangeConf, b: Budget, stop: nat)
    requires start <= stop < start + b.polls
    requires forall k :: start <= k < stop ==> StillPending(answer, refresh, conf, k)
    requires refresh(answer(stop)).Observed? && refresh(answer(stop)).status in conf.target
    ensures WaitRun(answer, start, refresh, conf, b) == (Ok(refresh(answer(stop)).status), stop - start + 1)
  {
    PendingPollsContinue(answer, refresh, conf, b.onUnexpected, start, stop);
    RunFindsStop(answer, start, b.polls, PollStep(refresh, conf, b.onUnexpected), stop);
  }

  /** Polls that observe pending statuses and then a refresh error within
      the budget make the wait fail with that error at that poll. */
  lemma WaitFailsOnRefreshError<B>(answer: nat -> Reply<B>, start: nat, refresh: Reply<B> -> Refreshed, conf: StateChangeConf, b: Budget, stop: nat)
    requires start <= stop < start + b.polls
    requires forall k :: start <= k < stop ==> StillPending(answer, refresh, conf, k)
    requires refresh(answer(stop)).RefreshFailed?
    ensures WaitRun(answer, start, refresh, conf, b) == (Err(Remote(refresh(answer(stop)).cause)), stop - start + 1)
  {
    PendingPollsContinue(answer, refresh, conf, b.onUnexpected, start, stop);
    RunFindsStop(answer, start, b.polls, PollStep(refresh, conf, b.onUnexpected), stop);
  }

  /** A poll that observes a pending status tells the wait to go on, whatever the policy. */
  lemma PendingPollsContinue<B>(answer: nat -> Reply<B>, refresh: Reply<B> -> Refreshed, conf: StateChangeConf, policy: UnexpectedPolicy, start: nat, stop: nat)
    requires forall k :: start <= k < stop ==> StillPending(answer, refresh, conf, k)
    ensures AllContinue(answer, PollStep(refresh, conf, policy), start, stop)
  {
    forall k | start <= k < stop
      ensures PollStep(refresh, conf, policy)(answer(k)).Continue?
    {
      assert StillPending(answer, refresh, conf, k);
    }
  }

  /** WaitForState with a Refresh function that GETs `url` and reads the status from the reply. */
  method WaitForState<P, B>(client: Client<P, B>, url: string, refresh: Reply<B> -> Refreshed, conf: StateChangeConf, b: Budget)
    returns (r: Result<string>, calls: nat)
    modifies client
    ensures (r, calls) == WaitRun(client.answer, |old(client.log)|, refresh, conf, b)
    ensures client.log == old(client.log) + Repeat(Request(Get, url, None), calls)
  {
    var o;
    o, calls := Drive(client, Request(Get, url, None), PollStep(refresh, conf, b.onUnexpected), b.polls);
    r := if o.Some? then o.value else Err(PollTimedOut);
  }
}

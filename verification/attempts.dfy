/** One call of the hook's internal execute, split at its `await`:
    `Begin` is everything before the server action is awaited,
    `Settle` everything after it resolves. */
module Attempts {
  import opened JsValues
  import opened HookState

  /** Ids come from `Math.floor(Math.random() * 10000)`; the caller supplies one. */
  type MintedId = i: int | 0 <= i < 10000

  /** What `Begin` does: drop a superseded retry (the call returns `null`),
      or start the attempt whose id is the new `lastRetryId`. */
  datatype BeginOutcome = Dropped | Begun(state: State, events: seq<Event>)

  /** A retry timer armed by `Settle`: fire after `delay` ms, carrying `token`. */
  datatype ScheduledRetry = ScheduledRetry(delay: int, token: int)

  datatype Settlement = Settlement(state: State, events: seq<Event>, retry: Option<ScheduledRetry>)

  /** A call is a retry exactly when its `isFromRetryId` is truthy. */
  predicate IsRetry(fromRetryId: Option<int>) {
    TruthyNumber(fromRetryId)
  }

  /** A retry is stale when its token is not the live generation token. */
  predicate Stale(s: State, fromRetryId: Option<int>) {
    IsRetry(fromRetryId) && s.lastRetryId != fromRetryId.value
  }

  /** `onStart` fires, if supplied, before `isExecuting` is raised. */
  function StartEvents(opts: HookOptions): seq<Event> {
    if opts.callbacks.onStart then [Started] else []
  }

  /** The start of an attempt: the stale-retry check, the retry-counter reset
      of a fresh call, minting the new token, `onStart`, and `isExecuting`. */
  function Begin(opts: HookOptions, s: State, fromRetryId: Option<int>, minted: MintedId): (b: BeginOutcome)
    ensures b.Dropped? <==> Stale(s, fromRetryId)
    ensures b.Begun? ==>
      && b.state.isExecuting
      && b.state.lastRetryId == minted
      && b.state.retryCount == (if IsRetry(fromRetryId) then s.retryCount else 0)
      && b.state.result == s.result
      && b.state.parked == s.parked
      && b.events == StartEvents(opts)
  {
    if IsRetry(fromRetryId) && s.lastRetryId != fromRetryId.value then
      Dropped
    else
      var count := if !IsRetry(fromRetryId) then 0 else s.retryCount;
      Begun(s.(retryCount := count, lastRetryId := minted, isExecuting := true), StartEvents(opts))
  }

  /** The delay before a retry: the delay function's value for the given
      attempt number, else a truthy number, else 0. */
  function RetryDelay(policy: Option<RetryPolicy>, attempt: nat, err: JsValue): (d: int)
    ensures policy.Some? && policy.value.delay.Computed? ==> d == policy.value.delay.f(attempt, err)
    ensures policy.Some? && policy.value.delay.Millis? ==> d == policy.value.delay.ms
    ensures policy.None? || policy.value.delay.NoDelay? ==> d == 0
  {
    if policy.None? then 0
    else match policy.value.delay
      case Computed(f) => f(attempt, err)
      case Millis(ms) => if Truthy(Num(ms)) then ms else 0
      case NoDelay => 0
  }

  /** Whether a failed attempt schedules another one. */
  predicate ShouldRetry(opts: HookOptions, s: State) {
    opts.retry.Some? && s.retryCount < opts.retry.value.maxAttempts
  }

  /** The end of the attempt whose id is `attemptId`, applied to the state
      current when the server action resolves. */
  function Settle(opts: HookOptions, s: State, attemptId: int, o: Outcome): (st: Settlement)
    ensures !st.state.isExecuting
    ensures st.state.lastRetryId == s.lastRetryId
    // success: commit the data and clear the park
    ensures !Errored(o) ==>
      && st.state.result == ActionResult(false, Undefined, OrUndefined(o.data))
      && st.state.parked == Empty
      && st.state.retryCount == s.retryCount
      && st.retry == None
      && st.events == (if opts.callbacks.onSuccess then [Succeeded(o.data)] else [])
    // failure: `onError` fires whatever happens next
    ensures Errored(o) ==>
      st.events == (if opts.callbacks.onError then [Failed(o.err)] else [])
    // failure with a retry left: count it, arm a timer with this attempt's id, touch no result
    ensures Errored(o) && ShouldRetry(opts, s) ==>
      && st.retry == Some(ScheduledRetry(RetryDelay(opts.retry, s.retryCount + 1, o.err), attemptId))
      && st.state.retryCount == s.retryCount + 1
      && st.state.result == s.result
      && st.state.parked == s.parked
    // final failure: roll back to the park if there is one, else commit the error
    ensures Errored(o) && !ShouldRetry(opts, s) ==>
      && st.retry == None
      && st.state.retryCount == s.retryCount
      && st.state.parked == Empty
      && st.state.result == (if s.parked.Filled? then s.parked.result else ActionResult(true, o.err, Undefined))
    ensures st.retry.Some? <==> Errored(o) && ShouldRetry(opts, s)
  {
    if Errored(o) then
      var events := if opts.callbacks.onError then [Failed(o.err)] else [];
      var s1 := s.(isExecuting := false);
      var delay := RetryDelay(opts.retry, s1.retryCount + 1, o.err);
      if ShouldRetry(opts, s1) then
        Settlement(s1.(retryCount := s1.retryCount + 1), events, Some(ScheduledRetry(delay, attemptId)))
      else
        var restored := if s1.parked.Filled? then s1.parked.result else ErrorResult(o.err);
        Settlement(s1.(result := restored, parked := Empty), events, None)
    else
      var events := if opts.callbacks.onSuccess then [Succeeded(o.data)] else [];
      Settlement(s.(result := SuccessResult(o.data), isExecuting := false, parked := Empty), events, None)
  }

  /** Both steps keep the invariant. */
  lemma BeginKeepsInv(opts: HookOptions, s: State, fromRetryId: Option<int>, minted: MintedId)
    requires Inv(opts, s)
    ensures Begin(opts, s, fromRetryId, minted).Begun? ==> Inv(opts, Begin(opts, s, fromRetryId, minted).state)
  {
  }

  lemma SettleKeepsInv(opts: HookOptions, s: State, attemptId: int, o: Outcome)
    requires Inv(opts, s)
    ensures Inv(opts, Settle(opts, s, attemptId, o).state)
  {
  }
}

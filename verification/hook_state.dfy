/** The state `useServerAction` keeps between renders, its static options,
    and the callback events it emits. */
module HookState {
  import opened JsValues

  /** The committed result `{isError, error, data}`. */
  datatype ActionResult = ActionResult(isError: bool, error: JsValue, data: JsValue)

  /** The parked snapshot used to roll back an optimistic update. */
  datatype Parked = Empty | Filled(result: ActionResult)

  /** All mutable state of one hook instance. `lastRetryId` is the retry
      generation token; `retryCount` counts retries since the last fresh call. */
  datatype State = State(
    result: ActionResult,
    parked: Parked,
    isExecuting: bool,
    lastRetryId: int,
    retryCount: nat)

  /** The `delay` option of the retry policy: absent, a number of
      milliseconds, or a function of (attempt number, error). */
  datatype Delay =
    | NoDelay
    | Millis(ms: int)
    | Computed(f: (nat, JsValue) -> int)

  datatype RetryPolicy = RetryPolicy(maxAttempts: int, delay: Delay)

  /** Which of `onStart`, `onSuccess`, `onError` the caller supplied. */
  datatype Callbacks = Callbacks(onStart: bool, onSuccess: bool, onError: bool)

  datatype HookOptions = HookOptions(
    callbacks: Callbacks,
    initialData: JsValue,
    retry: Option<RetryPolicy>)

  /** A callback invocation, in the order the hook makes them. */
  datatype Event = Started | Succeeded(data: JsValue) | Failed(err: JsValue)

  /** The `[data, err]` tuple an awaited server action resolves to. */
  datatype Outcome = Outcome(data: JsValue, err: JsValue)

  predicate Errored(o: Outcome) {
    Truthy(o.err)
  }

  /** The "no result yet" value. */
  const EmptyResult := ActionResult(false, Undefined, Undefined)

  function SuccessResult(data: JsValue): ActionResult {
    ActionResult(false, Undefined, OrUndefined(data))
  }

  function ErrorResult(err: JsValue): ActionResult {
    ActionResult(true, err, Undefined)
  }

  /** A result that one of the hook's own writes can produce: an error result
      carries a truthy error and no data, a non-error result carries no error,
      and data is never `null` (every write coalesces it). */
  predicate ResultWf(r: ActionResult) {
    && r.data != Null
    && (r.isError ==> Truthy(r.error) && r.data == Undefined)
    && (!r.isError ==> r.error == Undefined)
  }

  /** The state invariant every step keeps: both results well formed, and
      while a snapshot is parked the committed result is the optimistic,
      non-error one. */
  predicate Wf(s: State) {
    && ResultWf(s.result)
    && (s.parked.Filled? ==> ResultWf(s.parked.result) && !s.result.isError)
  }

  /** The largest value `retryCount` can reach under the options. */
  function RetryCap(opts: HookOptions): nat {
    if opts.retry.Some? && opts.retry.value.maxAttempts > 0 then opts.retry.value.maxAttempts else 0
  }

  /** The full invariant: well formed, and the retry counter within its cap. */
  predicate Inv(opts: HookOptions, s: State) {
    Wf(s) && s.retryCount <= RetryCap(opts)
  }

  /** The state on first render: the initial data if it is truthy, else empty. */
  function Initial(opts: HookOptions): (s: State)
    ensures Inv(opts, s)
    ensures !s.isExecuting && s.parked == Empty && s.lastRetryId == 0 && s.retryCount == 0
    ensures !s.result.isError && s.result.error == Undefined
    ensures Truthy(opts.initialData) ==> s.result.data == opts.initialData
    ensures !Truthy(opts.initialData) ==> s.result == EmptyResult
  {
    var result := if !Truthy(opts.initialData) then EmptyResult
                  else ActionResult(false, Undefined, opts.initialData);
    State(result, Empty, false, 0, 0)
  }
}

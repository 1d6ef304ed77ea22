/** The two synchronous operations the hook exposes besides execute:
    an optimistic overwrite of the result, and a reset. */
module Overlay {
  import opened JsValues
  import opened HookState

  /** The argument of `setOptimistic`: a replacement value, or a function
      of the data it is to replace. */
  datatype OptimisticArg = Literal(v: JsValue) | Updater(f: JsValue -> JsValue)

  /** The data an updater sees: the parked baseline if there is one,
      else the current data. */
  function BaselineData(s: State): JsValue {
    if s.parked.Empty? then s.result.data else s.parked.result.data
  }

  /** Park the current result unless a park exists, then commit the
      optimistic data as a success result. */
  function SetOptimistic(s: State, arg: OptimisticArg): (t: State)
    ensures s.parked.Empty? ==> t.parked == Filled(s.result)
    ensures s.parked.Filled? ==> t.parked == s.parked
    ensures arg.Literal? ==> t.result == ActionResult(false, Undefined, OrUndefined(arg.v))
    ensures arg.Updater? ==> t.result == ActionResult(false, Undefined, OrUndefined(arg.f(BaselineData(s))))
    ensures t.isExecuting == s.isExecuting && t.lastRetryId == s.lastRetryId && t.retryCount == s.retryCount
  {
    var data := match arg
      case Updater(f) => f(if s.parked.Empty? then s.result.data else s.parked.result.data)
      case Literal(v) => v;
    var parked := if s.parked.Empty? then Filled(s.result) else s.parked;
    s.(parked := parked, result := SuccessResult(data))
  }

  /** Clear every field; no callback fires. */
  function Reset(s: State): (t: State)
    ensures t.result == EmptyResult && t.parked == Empty
    ensures !t.isExecuting && t.lastRetryId == 0 && t.retryCount == 0
  {
    State(EmptyResult, Empty, false, 0, 0)
  }

  lemma SetOptimisticKeepsInv(opts: HookOptions, s: State, arg: OptimisticArg)
    requires Inv(opts, s)
    ensures Inv(opts, SetOptimistic(s, arg))
  {
  }

  /** Reset is idempotent, and it yields the first-render state of a hook
      without initial data. */
  lemma ResetIdempotent(opts: HookOptions, s: State)
    ensures Reset(Reset(s)) == Reset(s)
    ensures !Truthy(opts.initialData) ==> Reset(s) == Initial(opts)
    ensures Inv(opts, Reset(s))
  {
  }

  /** Optimistic calls never overwrite a park: after any two of them the park
      holds the result from before the first. */
  lemma ParkNeverOverwritten(s: State, a1: OptimisticArg, a2: OptimisticArg)
    requires s.parked.Empty?
    ensures SetOptimistic(SetOptimistic(s, a1), a2).parked == Filled(s.result)
  {
  }
}

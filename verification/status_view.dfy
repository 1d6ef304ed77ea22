/** The status object the hook returns on every render: a pure projection
    of the state, evaluated as an ordered chain of cases (first match wins). */
module StatusView {
  import opened JsValues
  import opened HookState

  datatype Tag = Idle | Pending | Success | Error

  datatype Status = Status(
    status: Tag,
    isPending: bool,
    isOptimistic: bool,
    isSuccess: bool,
    isError: bool,
    data: JsValue,
    error: JsValue)

  /** The first case of the chain: a call in flight with nothing parked. */
  predicate PlainPending(s: State) {
    s.isExecuting && s.parked.Empty?
  }

  /** The second case: a call in flight over an optimistic update with truthy data. */
  predicate OptimisticPending(s: State) {
    s.isExecuting && s.parked.Filled? && Truthy(s.result.data)
  }

  function Project(s: State): (v: Status)
    // the flags agree with the tag
    ensures v.isPending <==> v.status == Pending
    ensures v.isSuccess <==> v.status == Success
    ensures v.isError <==> v.status == Error
    ensures v.isOptimistic ==> v.isPending
    // first-match order of the cases
    ensures v.status == Pending <==> PlainPending(s) || OptimisticPending(s)
    ensures v.isOptimistic <==> OptimisticPending(s)
    ensures v.status == Success <==>
      !PlainPending(s) && !OptimisticPending(s) && !s.result.isError && Truthy(s.result.data)
    ensures v.status == Error <==> !PlainPending(s) && !OptimisticPending(s) && s.result.isError
    // what each case exposes
    ensures v.data == (if v.isOptimistic || v.isSuccess then s.result.data else Undefined)
    ensures v.error == (if v.isError then s.result.error else Undefined)
    ensures v.data == Undefined || Truthy(v.data)
  {
    if s.isExecuting && s.parked.Empty? then
      Status(Pending, true, false, false, false, Undefined, Undefined)
    else if s.isExecuting && s.parked.Filled? && Truthy(s.result.data) then
      Status(Pending, true, true, false, false, s.result.data, Undefined)
    else if !s.result.isError && Truthy(s.result.data) then
      Status(Success, false, false, true, false, s.result.data, Undefined)
    else if s.result.isError then
      Status(Error, false, false, false, true, Undefined, s.result.error)
    else
      Status(Idle, false, false, false, false, Undefined, Undefined)
  }

  /** An idle-gated precedence: the same chain, except that success and
      error are only read once no call is in flight. */
  function IdleGatedTag(s: State): Tag {
    if s.isExecuting && s.parked.Empty? then Pending
    else if s.isExecuting && s.parked.Filled? && Truthy(s.result.data) then Pending
    else if !s.isExecuting && !s.result.isError && Truthy(s.result.data) then Success
    else if !s.isExecuting && s.result.isError then Error
    else Idle
  }

  /** On every well-formed state the code's chain, which never tests
      `isExecuting` after the first two cases, agrees with the idle-gated chain. */
  lemma ProjectMatchesIdleGated(s: State)
    requires Wf(s)
    ensures Project(s).status == IdleGatedTag(s)
  {
  }

  /** Without the invariant the two differ: an error result under a park
      while a call is in flight reads as `error` in the code. */
  lemma ProjectDiffersOffInvariant()
    ensures exists s: State :: Project(s).status == Error && IdleGatedTag(s) == Idle
  {
    var s := State(ErrorResult(Str("E")), Filled(EmptyResult), true, 0, 0);
    assert Project(s).status == Error && IdleGatedTag(s) == Idle;
  }

  /** A well-formed error status always carries a truthy error. */
  lemma ErrorStatusCarriesError(s: State)
    requires Wf(s)
    ensures Project(s).isError ==> Truthy(Project(s).error)
  {
  }
}

/** Worked runs of the hook. */
module Scenarios {
  import opened JsValues
  import opened HookState
  import opened Attempts
  import opened Overlay
  import opened StatusView

  const NoCallbacks := Callbacks(false, false, false)

  /** No retry policy; the action answers "Hello, Bob": idle, pending, success. */
  lemma GreetingSucceeds()
    ensures var opts := HookOptions(NoCallbacks, Undefined, None);
            var s0 := Initial(opts);
            var s1 := Begin(opts, s0, None, 42).state;
            var s2 := Settle(opts, s1, 42, Outcome(Str("Hello, Bob"), Null)).state;
            && Project(s0).status == Idle
            && Project(s1).status == Pending
            && Project(s2).status == Success
            && Project(s2).data == Str("Hello, Bob")
  {
  }

  /** `maxAttempts: 2, delay: 100`, every call fails with the same error:
      two retries are armed 100 ms out, the third failure is final. */
  lemma RetriesExhaust()
    ensures var opts := HookOptions(Callbacks(false, false, true), Undefined, Some(RetryPolicy(2, Millis(100))));
            var e := Str("E");
            var fail := Outcome(Undefined, e);
            var a1 := Settle(opts, Begin(opts, Initial(opts), None, 11).state, 11, fail);
            var a2 := Settle(opts, Begin(opts, a1.state, Some(11), 12).state, 12, fail);
            var a3 := Settle(opts, Begin(opts, a2.state, Some(12), 13).state, 13, fail);
            && a1.retry == Some(ScheduledRetry(100, 11)) && a1.state.retryCount == 1
            && a2.retry == Some(ScheduledRetry(100, 12)) && a2.state.retryCount == 2
            && a3.retry == None && a3.state.retryCount == 2
            && a1.events == [Failed(e)] && a3.events == [Failed(e)]
            && Project(a3.state).status == Error && Project(a3.state).error == e
  {
  }

  /** Committed data 5, then `setOptimistic(v => v + 1)` with no call in
      flight: success with 6, 5 parked; `reset` clears both. */
  lemma OptimisticIncrement()
    ensures var inc := (v: JsValue) => if v.Num? then Num(v.n + 1) else v;
            var s := State(ActionResult(false, Undefined, Num(5)), Empty, false, 0, 0);
            var t := SetOptimistic(s, Updater(inc));
            && Project(t).status == Success && Project(t).data == Num(6)
            && t.parked == Filled(ActionResult(false, Undefined, Num(5)))
            && Reset(t).parked == Empty && Reset(t).result == EmptyResult
  {
  }

  /** A call in flight over a park holding 5, with optimistic data 7
      committed: pending, optimistic, data 7. */
  lemma OptimisticWhilePending()
    ensures var s := State(ActionResult(false, Undefined, Num(5)), Empty, true, 9, 0);
            var t := SetOptimistic(s, Literal(Num(7)));
            Project(t) == Status(Pending, true, true, false, false, Num(7), Undefined)
  {
  }
}

/** Properties that relate several operations of the hook. */
module Lifecycle {
  import opened JsValues
  import opened HookState
  import opened Attempts
  import opened Overlay
  import opened StatusView
  import opened Traces

  /** The retry a failed attempt schedules carries that attempt's own id,
      so firing it right away passes the check and keeps the counter. */
  lemma ScheduledRetryIsLive(opts: HookOptions, s: State, fromRetryId: Option<int>, id: MintedId,
                             o: Outcome, next: MintedId)
    requires id != 0 && !Stale(s, fromRetryId)
    requires Errored(o) && ShouldRetry(opts, Begin(opts, s, fromRetryId, id).state)
    ensures var st := Settle(opts, Begin(opts, s, fromRetryId, id).state, id, o);
            && st.retry.Some? && st.retry.value.token == id
            && Begin(opts, st.state, Some(st.retry.value.token), next).Begun?
            && Begin(opts, st.state, Some(st.retry.value.token), next).state.retryCount == st.state.retryCount
  {
  }

  /** Round trip: an optimistic update made before a call whose final
      failure schedules no retry is rolled back to exactly the result
      from before the update. */
  lemma OptimisticThenFailureRollsBack(opts: HookOptions, s: State, arg: OptimisticArg,
                                       fromRetryId: Option<int>, id: MintedId, o: Outcome)
    requires s.parked.Empty? && Errored(o)
    requires !Stale(SetOptimistic(s, arg), fromRetryId)
    requires !ShouldRetry(opts, Begin(opts, SetOptimistic(s, arg), fromRetryId, id).state)
    ensures var st := Settle(opts, Begin(opts, SetOptimistic(s, arg), fromRetryId, id).state, id, o);
            st.state.result == s.result && st.state.parked == Empty && !st.state.isExecuting
  {
  }

  /** The same round trip when the optimistic update is made while the call
      is already in flight. */
  lemma FailureAfterInFlightOptimisticRollsBack(opts: HookOptions, s: State, arg: OptimisticArg,
                                                 fromRetryId: Option<int>, id: MintedId, o: Outcome)
    requires s.parked.Empty? && Errored(o)
    requires !Stale(s, fromRetryId)
    requires !ShouldRetry(opts, Begin(opts, s, fromRetryId, id).state)
    ensures var st := Settle(opts, SetOptimistic(Begin(opts, s, fromRetryId, id).state, arg), id, o);
            st.state.result == s.result && st.state.parked == Empty
  {
  }

  /** After any settle the status is no longer pending, and it reports
      what was committed: success data, or the error when nothing was
      parked. */
  lemma SettledStatus(opts: HookOptions, s: State, id: int, o: Outcome)
    ensures Project(Settle(opts, s, id, o).state).status != Pending
    ensures !Errored(o) && Truthy(o.data) ==>
      Project(Settle(opts, s, id, o).state) == Status(Success, false, false, true, false, o.data, Undefined)
    ensures Errored(o) && !ShouldRetry(opts, s) && s.parked.Empty? ==>
      Project(Settle(opts, s, id, o).state) == Status(Error, false, false, false, true, Undefined, o.err)
  {
  }

  /** The status while an attempt runs: plain pending when nothing is
      parked, optimistic pending over truthy optimistic data. Over a park
      with falsy data (`setOptimistic(0)` or `setOptimistic("")`) the chain
      falls through both pending cases, so a running call reads as idle. */
  lemma BegunStatus(opts: HookOptions, s: State, fromRetryId: Option<int>, id: MintedId)
    requires !Stale(s, fromRetryId)
    ensures var v := Project(Begin(opts, s, fromRetryId, id).state);
            && (s.parked.Empty? ==> v.isPending && !v.isOptimistic && v.data == Undefined)
            && (s.parked.Filled? && Truthy(s.result.data) ==>
                  v.isPending && v.isOptimistic && v.data == s.result.data)
            && (s.parked.Filled? && !Truthy(s.result.data) ==>
                  v.status == (if s.result.isError then Error else Idle))
  {
  }

  /** A falsy optimistic value hides a running call: from committed data 5,
      `setOptimistic(0)` and a fresh call give a well-formed state whose
      status is idle while the call is in flight. */
  lemma FalsyOptimisticHidesPending(opts: HookOptions, id: MintedId)
    ensures var s := State(ActionResult(false, Undefined, Num(5)), Empty, false, 0, 0);
            var t := Begin(opts, SetOptimistic(s, Literal(Num(0))), None, id).state;
            && Inv(opts, t) && t.isExecuting && Project(t).status == Idle
  {
  }

  /** Reset leaves the idle status, and a later retry with a non-zero token
      is dropped. */
  lemma ResetIsIdleAndCancels(s: State, opts: HookOptions, token: int, id: MintedId)
    requires token != 0
    ensures Project(Reset(s)).status == Idle
    ensures Begin(opts, Reset(s), Some(token), id) == Dropped
  {
  }

  /** An attempt minted id 0 arms a retry whose token is falsy: when it
      fires it is taken for a fresh call, escapes the stale check even
      after a reset or a newer call, and restarts the counter at 0. */
  lemma ZeroIdRetryActsFresh(opts: HookOptions, s: State, id: MintedId)
    ensures Begin(opts, s, Some(0), id).Begun?
    ensures Begin(opts, s, Some(0), id).state.retryCount == 0
  {
  }

  /** Ids collide: a fresh call that happens to mint the token of an armed
      retry revives that retry. From the first render with `maxAttempts` 2,
      attempt 7 fails and arms a retry, a reset makes it stale, and a new
      call minting 7 again makes it live: when it fires it is not dropped. */
  lemma CollidingIdRevivesRetry()
    ensures var opts := HookOptions(Callbacks(false, false, false), Undefined, Some(RetryPolicy(2, NoDelay)));
            var t := ScheduledRetry(0, 7);
            var w2 := Apply(opts, Apply(opts, Mount(opts), Execute(7)), Resolve(7, Outcome(Undefined, Str("E"))));
            var w3 := Apply(opts, w2, ResetHook);
            var w5 := Apply(opts, Apply(opts, w3, Execute(7)), FireRetry(t, 8));
            && t in w3.timers && w3.state.lastRetryId == 0
            && w5.state.lastRetryId == 8 && w5.state.isExecuting
  {
    var opts := HookOptions(Callbacks(false, false, false), Undefined, Some(RetryPolicy(2, NoDelay)));
    var t := ScheduledRetry(0, 7);
    var fail := Outcome(Undefined, Str("E"));
    var w1 := Apply(opts, Mount(opts), Execute(7));
    assert w1.inFlight == multiset{7} && w1.timers == multiset{} && w1.state.retryCount == 0;
    var w2 := Apply(opts, w1, Resolve(7, fail));
    assert w2.timers == multiset{t} by {
      assert Settle(opts, w1.state, 7, fail).retry == Some(t);
    }
    var w3 := Apply(opts, w2, ResetHook);
    assert w3.timers == multiset{t};
    var w4 := Apply(opts, w3, Execute(7));
    assert w4.state.lastRetryId == 7 && t in w4.timers;
  }

  /** Settling does not compare tokens: an attempt overtaken by a newer
      call still commits its outcome and clears `isExecuting` while the
      newer call is in flight. */
  lemma SupersededAttemptStillCommits()
    ensures var opts := HookOptions(Callbacks(false, false, false), Undefined, None);
            var r := Run(opts, Mount(opts), [Execute(1), Execute(2), Resolve(1, Outcome(Str("A"), Null))]);
            && r.inFlight == multiset{2}
            && r.state.lastRetryId == 2
            && r.state.result.data == Str("A")
            && !r.state.isExecuting
  {
  }

  /** Two fresh calls in flight from the first render, the second one live. */
  lemma TwoCallsInFlight(opts: HookOptions)
    ensures var w2 := Apply(opts, Apply(opts, Mount(opts), Execute(1)), Execute(2));
            && w2.state == Initial(opts).(isExecuting := true, lastRetryId := 2)
            && w2.inFlight == multiset{1, 2}
            && w2.timers == multiset{}
  {
    var w1 := Apply(opts, Mount(opts), Execute(1));
    assert w1.inFlight == multiset{1};
  }

  /** The retry counter is shared: with `maxAttempts` 1, a failure of an
      overtaken attempt spends the budget, so the live call's own failure
      arms no retry (only the stale timer of the overtaken attempt is armed). */
  lemma SupersededFailureSpendsBudget()
    ensures var opts := HookOptions(Callbacks(false, false, false), Undefined, Some(RetryPolicy(1, NoDelay)));
            var fail := Outcome(Undefined, Str("E"));
            var w2 := Apply(opts, Apply(opts, Mount(opts), Execute(1)), Execute(2));
            var w3 := Apply(opts, w2, Resolve(1, fail));
            var w4 := Apply(opts, w3, Resolve(2, fail));
            && w3.state.retryCount == 1
            && w4.timers == multiset{ScheduledRetry(0, 1)}
            && w4.state.lastRetryId == 2
            && w4.state.result == ErrorResult(Str("E"))
  {
    var opts := HookOptions(Callbacks(false, false, false), Undefined, Some(RetryPolicy(1, NoDelay)));
    var fail := Outcome(Undefined, Str("E"));
    TwoCallsInFlight(opts);
    var w2 := Apply(opts, Apply(opts, Mount(opts), Execute(1)), Execute(2));
    var w3 := Apply(opts, w2, Resolve(1, fail));
    assert w3.state.retryCount == 1 && w3.state.lastRetryId == 2 by {
      assert Settle(opts, w2.state, 1, fail).retry == Some(ScheduledRetry(0, 1));
    }
    assert w3.timers == multiset{ScheduledRetry(0, 1)} && w3.inFlight == multiset{2} by {
      assert Settle(opts, w2.state, 1, fail).retry == Some(ScheduledRetry(0, 1));
    }
    assert 2 in w3.inFlight;
    assert Settle(opts, w3.state, 2, fail).retry == None;
  }

  /** A final failure of an overtaken attempt rolls back the optimistic
      update and clears the park while the newer call is still in flight. */
  lemma SupersededFailureClearsPark()
    ensures var opts := HookOptions(Callbacks(false, false, false), Undefined, None);
            var s := State(ActionResult(false, Undefined, Num(5)), Empty, false, 0, 0);
            var w := World(s, multiset{}, multiset{}, [], {});
            var w2 := Run(opts, w, [Execute(1), Optimistic(Literal(Num(6))), Execute(2)]);
            var w3 := Apply(opts, w2, Resolve(1, Outcome(Undefined, Str("E"))));
            && w2.state.parked == Filled(ActionResult(false, Undefined, Num(5)))
            && w3.inFlight == multiset{2}
            && w3.state.parked == Empty
            && w3.state.result.data == Num(5)
            && !w3.state.isExecuting
  {
    assert [Execute(1), Optimistic(Literal(Num(6))), Execute(2)][1..][1..][1..] == [];
  }

  /** A step of a lineage that has not succeeded: a call starting, a retry
      firing, or an attempt failing. */
  predicate FailureOnly(step: Step) {
    match step
    case Execute(_) => true
    case FireRetry(_, _) => true
    case Resolve(_, o) => Errored(o)
    case _ => false
  }

  /** Along failures only, the park either still holds the baseline or has
      been cleared: no step writes a different snapshot. */
  lemma {:induction false} FailuresKeepBaseline(opts: HookOptions, w: World, steps: seq<Step>, base: ActionResult)
    requires w.state.parked == Filled(base) || w.state.parked == Empty
    requires forall i :: 0 <= i < |steps| ==> FailureOnly(steps[i])
    ensures Run(opts, w, steps).state.parked == Filled(base) || Run(opts, w, steps).state.parked == Empty
    decreases |steps|
  {
    if |steps| > 0 {
      var w1 := Apply(opts, w, steps[0]);
      assert FailureOnly(steps[0]);
      assert w1.state.parked == Filled(base) || w1.state.parked == Empty;
      assert forall i :: 0 <= i < |steps[1..]| ==> FailureOnly(steps[1..][i]) by {
        forall i | 0 <= i < |steps[1..]| ensures FailureOnly(steps[1..][i]) {
          assert steps[1..][i] == steps[i + 1];
        }
      }
      FailuresKeepBaseline(opts, w1, steps[1..], base);
    }
  }

  /** An optimistic update over an empty park parks the current result. */
  lemma OptimisticStepParks(opts: HookOptions, w: World, arg: OptimisticArg)
    requires w.state.parked.Empty?
    ensures Apply(opts, w, Optimistic(arg)).state.parked == Filled(w.state.result)
  {
  }

  /** A final failure of an in-flight attempt over a park restores it. */
  lemma FinalFailureRestores(opts: HookOptions, w: World, base: ActionResult, a: int, o: Outcome)
    requires w.state.parked == Filled(base) && a in w.inFlight
    requires Errored(o) && !ShouldRetry(opts, w.state)
    ensures Apply(opts, w, Resolve(a, o)).state.result == base
    ensures Apply(opts, w, Resolve(a, o)).state.parked == Empty
  {
  }

  /** Round trip over a whole lineage: an optimistic update over an empty
      park, then any run of starts, retries and failures that keeps the park,
      then a final failure: the result is exactly the one from before the
      update, and nothing is parked. */
  lemma LineageRollsBack(opts: HookOptions, w: World, arg: OptimisticArg, steps: seq<Step>,
                         mid: World, a: int, o: Outcome)
    requires w.state.parked.Empty?
    requires forall i :: 0 <= i < |steps| ==> FailureOnly(steps[i])
    requires mid == Run(opts, Apply(opts, w, Optimistic(arg)), steps)
    requires mid.state.parked.Filled? && a in mid.inFlight
    requires Errored(o) && !ShouldRetry(opts, mid.state)
    ensures Apply(opts, mid, Resolve(a, o)).state.result == w.state.result
    ensures Apply(opts, mid, Resolve(a, o)).state.parked == Empty
  {
    OptimisticStepParks(opts, w, arg);
    FailuresKeepBaseline(opts, Apply(opts, w, Optimistic(arg)), steps, w.state.result);
    FinalFailureRestores(opts, mid, w.state.result, a, o);
  }
}

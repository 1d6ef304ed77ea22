# useServerAction execution state machine, modelled in Dafny

This project models the client-side state machine behind the `useServerAction` React hook of zsa
(`packages/zsa-react/src/index.ts`). The hook wraps an opaque async server action that resolves to a
`[data, err]` tuple. It keeps five pieces of state:

- the committed `result` `{isError, error, data}`;
- a parked snapshot `oldResult` (`empty` or `filled`) used to roll back optimistic updates;
- `isExecuting`;
- the retry generation token `lastRetryId`;
- `retryCount`.

It exposes `execute`, `setOptimistic`, `reset` and a status object derived from the state on every render.

## Structure

- `js_values.dfy` (`JsValues`): JavaScript values as the hook uses them, with explicit truthiness
  (`Truthy`, `TruthyNumber`) and `?? undefined` (`OrUndefined`).
- `hook_state.dfy` (`HookState`): the state record, the options (callbacks, initial data, retry policy
  with a fixed or computed delay), the callback events, the first-render state, and the invariant `Inv`.
- `attempts.dfy` (`Attempts`): one internal execute, split at its `await`.
  - `Begin` covers the stale-retry check, the counter reset, minting the token, `onStart` and raising `isExecuting`.
  - `Settle` covers the success and failure branches, the retry decision and its delay.
- `overlay.dfy` (`Overlay`): `SetOptimistic` and `Reset`.
- `status_view.dfy` (`StatusView`): the ordered status projection `Project`, and an idle-gated variant
  of the chain that reads success and error only when no call is in flight (`IdleGatedTag`).
- `traces.dfy` (`Traces`): arbitrary interleavings of fresh calls, timer firings, resolutions,
  optimistic updates and resets over a world of in-flight attempts and armed retry timers; the
  cancellation-by-token theorems and the per-lineage retry bound.
- `lifecycle.dfy` (`Lifecycle`): properties relating several operations (rollback round trips,
  settled status, edge cases of id minting).
- `scenarios.dfy` (`Scenarios`): four worked runs.

Modelling choices:

- Timers and `Math.random` become parameters. A scheduled retry is a value `(delay, token)`. Firing
  it is a `FireRetry` step at any later point of a trace. The id that line 94 would mint is supplied
  by the caller, in `0..9999`.
- Callbacks are recorded in an event log, in the order the hook makes them.
- Each step reads the current state.

Behaviours of the code worth knowing:

- A failure sets `isExecuting` to false even when it schedules a retry (line 110). So between a failed
  attempt and its retry the status is not pending.
- A new id is minted on every attempt that passes the token check, retries included (line 94). A
  retry arms its follow-up with its own id.
- After the two pending cases, the status chain does not test `isExecuting` again (lines 245 and 256).
  `ProjectMatchesIdleGated` proves this agrees with the idle-gated chain on every well-formed state.
  `ProjectDiffersOffInvariant` shows the one shape where it would not.
- Settling compares no token. An attempt overtaken by a newer call still commits its outcome and
  clears `isExecuting` while the newer call is in flight (`SupersededAttemptStillCommits`). Only armed
  retry timers are cancelled by the token.
- The retry counter is shared by all attempts. A failure of an overtaken attempt spends the live
  call's retry budget (`SupersededFailureSpendsBudget`). When that failure is final, it rolls back the
  optimistic update and clears the park while the newer call is still in flight
  (`SupersededFailureClearsPark`). The per-lineage bound still holds: the retries that pass the token
  check since the last fresh call or reset never exceed `maxAttempts` (`LineageBound`).
- An updater passed to `setOptimistic` sees the parked data when a park exists, not the current data
  (line 196).
- An optimistic value that is falsy (`setOptimistic(0)` or `setOptimistic("")`) hides a running call.
  With a park and falsy data, the chain skips both pending cases (line 235 tests `result.data`) and
  the success case, so the status is idle while `isExecuting` is true (`BegunStatus`,
  `FalsyOptimisticHidesPending`).
- Ids are random, so two edge cases exist:
  - an attempt minted id 0 arms a retry with a falsy token, which is then treated as a fresh call
    (`ZeroIdRetryActsFresh`);
  - a fresh call minting an armed retry's token revives that retry (`CollidingIdRevivesRetry`).

  For this reason the cancellation theorems assume fresh, non-zero ids (`FreshRun`).

## Model

| member | source | states |
|---|---|---|
| JsValues.OrUndefined | packages/zsa-react/src/index.ts:159-163 | `?? undefined` never yields null, keeps every non-null value, and preserves truthiness |
| HookState.Initial | packages/zsa-react/src/index.ts:57-72 | first render: data is the initial data when it is truthy, else the empty result; nothing parked, not executing, token and counter 0; the invariant holds |
| Attempts.Begin | packages/zsa-react/src/index.ts:81-99 | a call is dropped exactly when its retry token is truthy and differs from the live token; otherwise the new id becomes the token, a fresh call zeroes the counter and a retry keeps it, `isExecuting` rises, result and park are untouched, and `onStart` fires if supplied |
| Attempts.RetryDelay | packages/zsa-react/src/index.ts:118-124 | the delay is the delay function's value for the attempt number, else a truthy fixed number, else 0 |
| Attempts.Settle | packages/zsa-react/src/index.ts:101-172 | `isExecuting` falls and the token is kept. Success commits `{false, undefined, data ?? undefined}`, clears the park and fires `onSuccess`. Failure fires `onError`. A retry is scheduled iff a policy exists and the counter is below `maxAttempts`; it carries this attempt's id, increments the counter by one and leaves result and park unchanged. Otherwise the park is restored, or the error committed, and the park cleared |
| Attempts.BeginKeepsInv | packages/zsa-react/src/index.ts:88-99 | starting an attempt keeps the state well formed and the counter within its cap |
| Attempts.SettleKeepsInv | packages/zsa-react/src/index.ts:110-170 | settling keeps well-formedness, and the counter never passes `maxAttempts` |
| Overlay.SetOptimistic | packages/zsa-react/src/index.ts:184-210 | parks the current result only when nothing is parked; an updater gets the parked data if any, else the current data; the result becomes a non-error with the new data; executing flag, token and counter unchanged |
| Overlay.Reset | packages/zsa-react/src/index.ts:215-221 | clears result and park, executing false, token and counter 0 |
| Overlay.SetOptimisticKeepsInv | packages/zsa-react/src/index.ts:195-210 | an optimistic update keeps the invariant: a parked state always shows a non-error result |
| Overlay.ResetIdempotent | packages/zsa-react/src/index.ts:215-221 | reset twice equals reset once, equals the first-render state of a hook without initial data, and satisfies the invariant |
| Overlay.ParkNeverOverwritten | packages/zsa-react/src/index.ts:199-204 | after two optimistic updates the park still holds the result from before the first |
| StatusView.Project | packages/zsa-react/src/index.ts:223-278 | first-match order: pending when executing with nothing parked; optimistic pending when executing over a park with truthy data; success for non-error truthy data; error for an error result; else idle. `isPending`, `isSuccess` and `isError` each hold iff the tag says so. Only optimistic pending and success expose data, only error exposes the error |
| StatusView.ProjectMatchesIdleGated | packages/zsa-react/src/index.ts:245-266 | on well-formed states the chain equals the idle-gated chain, where success and error are read only when no call is in flight |
| StatusView.ProjectDiffersOffInvariant | packages/zsa-react/src/index.ts:256-266 | a state outside the invariant (error under a park while executing) reads as error in the code but idle in the idle-gated chain |
| StatusView.ErrorStatusCarriesError | packages/zsa-react/src/index.ts:140 | a well-formed error status carries a truthy error |
| Traces.Launch | packages/zsa-react/src/index.ts:83-99 | a stale retry leaves the world unchanged; otherwise the attempt is in flight under its new id, which is recorded as minted and becomes the live token |
| Traces.Apply | packages/zsa-react/src/index.ts:126-134 | one step of any interleaving; the callback log only grows and minted ids are never forgotten |
| Traces.Run | packages/zsa-react/src/index.ts:129-133 | a whole trace; the log of the result extends the starting log |
| Traces.RunKeepsInv | packages/zsa-react/src/index.ts:112-128 | along any trace the state stays well formed and `retryCount` never exceeds `maxAttempts` (0 without a policy) |
| Traces.MountedRunKeepsInv | packages/zsa-react/src/index.ts:60-72 | the invariant holds in every state reachable from the first render |
| Traces.FreshStepKeepsTokensKnown | packages/zsa-react/src/index.ts:93-95 | with fresh ids, every live token, in-flight id and armed retry token is a minted non-zero id |
| Traces.StaysSuperseded | packages/zsa-react/src/index.ts:93-95 | with fresh ids, a minted token that is not the live token never becomes live again |
| Traces.MountTokensKnown | packages/zsa-react/src/index.ts:69-72 | at first render the live token is 0, nothing is in flight or armed, and no id has been minted |
| Traces.FreshRunKeepsTokensKnown | packages/zsa-react/src/index.ts:93-95 | along any trace with fresh ids every live, in-flight and armed token stays a minted non-zero id |
| Traces.StepKeepsBudget | packages/zsa-react/src/index.ts:88-133 | one step with a fresh id keeps retries already run in the lineage, plus one for an armed live retry, within the counter |
| Traces.LineageBound | packages/zsa-react/src/index.ts:112-133 | along any trace with fresh ids, the retries that pass the token check since the last fresh call or reset never exceed `maxAttempts` (0 without a policy) |
| Traces.MountedLineageBound | packages/zsa-react/src/index.ts:112-133 | from the first render, with fresh ids, no lineage runs more retries than `maxAttempts` allows |
| Traces.StaleTimerIsNoOp | packages/zsa-react/src/index.ts:83-86 | firing a timer whose token is not live removes the timer and changes nothing else: no field and no callback |
| Traces.FreshExecuteCancelsRetries | packages/zsa-react/src/index.ts:84-95 | after a fresh execute and any further trace with fresh ids, every retry armed before it is a no-op when it fires |
| Traces.ResetCancelsRetries | packages/zsa-react/src/index.ts:215-221 | after a reset and any further trace with fresh ids, every retry armed before it is a no-op when it fires |
| Lifecycle.ScheduledRetryIsLive | packages/zsa-react/src/index.ts:126-134 | the retry a failure schedules carries the failed attempt's id, and firing it next passes the check without touching the counter |
| Lifecycle.OptimisticThenFailureRollsBack | packages/zsa-react/src/index.ts:136-147 | optimistic update, then a call whose failure is final: the result is exactly the one from before the update, nothing parked, not executing |
| Lifecycle.FailureAfterInFlightOptimisticRollsBack | packages/zsa-react/src/index.ts:136-147 | the same round trip when the update is made while the call is in flight |
| Lifecycle.FailuresKeepBaseline | packages/zsa-react/src/index.ts:99-147 | along any trace of starts, retry firings and failures, a park holding a baseline either keeps it or is cleared; nothing overwrites it |
| Lifecycle.LineageRollsBack | packages/zsa-react/src/index.ts:126-147 | optimistic update over an empty park, then any run of starts, retries and failures that keeps the park, then a final failure: the result is exactly the one before the update and nothing is parked |
| Lifecycle.SettledStatus | packages/zsa-react/src/index.ts:136-170 | after any settle the status is not pending. Success with truthy data reads as success with that data. A final failure with nothing parked reads as error with that error |
| Lifecycle.BegunStatus | packages/zsa-react/src/index.ts:225-266 | while a begun attempt runs: plain pending with no data when nothing is parked; optimistic pending with the data over a park with truthy data; over a park with falsy data the chain falls through to idle (error only for an error result) |
| Lifecycle.FalsyOptimisticHidesPending | packages/zsa-react/src/index.ts:195-245 | from data 5, `setOptimistic(0)` then a fresh call gives a well-formed state that is executing yet reads as idle |
| Lifecycle.ResetIsIdleAndCancels | packages/zsa-react/src/index.ts:215-221 | after reset the status is idle and any retry with a non-zero token is dropped |
| Lifecycle.ZeroIdRetryActsFresh | packages/zsa-react/src/index.ts:84-94 | a retry carrying token 0 is never dropped and restarts the counter at 0 |
| Lifecycle.CollidingIdRevivesRetry | packages/zsa-react/src/index.ts:84-95 | from the first render with `maxAttempts` 2: attempt 7 fails and arms a retry, a reset makes it stale, a new call minting 7 again makes it live, and firing it starts a call under id 8 |
| Lifecycle.SupersededAttemptStillCommits | packages/zsa-react/src/index.ts:101-172 | an attempt overtaken by a newer call still commits its data and clears `isExecuting` while the newer call is in flight |
| Lifecycle.SupersededFailureSpendsBudget | packages/zsa-react/src/index.ts:112-141 | with `maxAttempts` 1, an overtaken attempt's failure raises the shared counter to 1, so the live call's failure arms no retry and commits the error |
| Lifecycle.SupersededFailureClearsPark | packages/zsa-react/src/index.ts:136-147 | an overtaken attempt's final failure restores the parked result and empties the park while the newer call is in flight |
| Scenarios.GreetingSucceeds | packages/zsa-react/src/index.ts:153-172 | no retry policy, the action answers "Hello, Bob": idle, pending, then success with that data |
| Scenarios.RetriesExhaust | packages/zsa-react/src/index.ts:112-148 | `maxAttempts` 2, delay 100, always failing: retries armed at counters 1 and 2, then the third failure is final and the status is error with that error |
| Scenarios.OptimisticIncrement | packages/zsa-react/src/index.ts:195-210 | data 5, updater `v + 1`, nothing in flight: success with 6, 5 parked; reset clears both |
| Scenarios.OptimisticWhilePending | packages/zsa-react/src/index.ts:235-244 | in flight, 5 parked, 7 committed optimistically: pending, optimistic, data 7 |

## Left out

- The React runtime: `useState` batching and render timing, and the unused `useTransition` (line 59).
  Also left out are stale closures from `useCallback` dependency lists (lines 174, 212, 221); the model
  reads the current state at every step. In the source, `setOptimistic` (dependencies `[execute]`)
  can read `result` and `oldResult` from an earlier render (lines 196, 199, 202). With a stable
  `serverAction`, `internalExecute` (dependencies `[serverAction]`) always sees the first render's
  empty park, so the rollback at lines 137-138 does not run in the memoised code.
- Lifecycle.OptimisticThenFailureRollsBack, Lifecycle.FailureAfterInFlightOptimisticRollsBack and
  Overlay.ParkNeverOverwritten hold only when each step reads the current state, as above.
- Real timers and randomness: `setTimeout` (line 129) becomes a `FireRetry` step at any point of a
  trace, and `Math.random` (line 94) becomes a caller-supplied id.
- The server action, its input, zod validation and the `ZSAError` structure: an attempt's outcome is an
  opaque `[data, err]` pair chosen by the trace. The return value of `execute` is that pair, or `null`
  for a dropped retry, and is not modelled separately.
- Exceptions. A server action whose promise rejects (line 101) is represented by an attempt that
  never resolves, which leaves the same hook state: `isExecuting` stays true, no callback fires, no
  retry is armed and the park stays. Throwing `onStart`, `onSuccess` or `onError` callbacks, a
  throwing delay function and a throwing updater are not modelled; each would stop its operation
  part-way (for `onStart`, after the counter and token have changed but before `isExecuting` rises).
- The side effects of `onStart`, `onSuccess` and `onError`: only their invocation is logged. The delay
  function is treated as pure; the source also calls it when no retry follows.
- JavaScript numbers: integers only. There are no NaN, fractional or negative-zero values, and no
  truthiness of NaN.
- packages/zsa-react-query/src/index.ts: adapters over an external query library. Their logic is to
  throw the error or return the data, and the behaviour lives in that library.
- examples/showcase/content/examples/use-form-state/actions.ts: an example server handler. It appears
  only as the opaque "Hello, Bob" outcome in `Scenarios.GreetingSucceeds`.
- TypeScript type-level inference.

/** Arbitrary interleavings of the hook's events. A world holds the hook
    state, the attempts whose server action has not resolved yet, the armed
    retry timers, the callback log, and every id minted so far. */
module Traces {
  import opened JsValues
  import opened HookState
  import opened Attempts
  import opened Overlay

  datatype World = World(
    state: State,
    inFlight: multiset<int>,
    timers: multiset<ScheduledRetry>,
    log: seq<Event>,
    minted: set<int>)

  /** One event: a fresh `execute`, a timer firing, a server action
      resolving, a `setOptimistic`, or a `reset`. Minted ids are supplied
      with the event that mints them. A step naming no armed timer or no
      in-flight attempt does nothing. */
  datatype Step =
    | Execute(id: MintedId)
    | FireRetry(timer: ScheduledRetry, id: MintedId)
    | Resolve(attempt: int, outcome: Outcome)
    | Optimistic(arg: OptimisticArg)
    | ResetHook

  function Mount(opts: HookOptions): World {
    World(Initial(opts), multiset{}, multiset{}, [], {})
  }

  /** Run `Begin`; a begun attempt is in flight under its id. */
  function Launch(opts: HookOptions, w: World, fromRetryId: Option<int>, id: MintedId): (r: World)
    ensures r.timers == w.timers
    ensures Stale(w.state, fromRetryId) ==> r == w
    ensures !Stale(w.state, fromRetryId) ==>
      && r.inFlight == w.inFlight + multiset{id as int}
      && r.minted == w.minted + {id as int}
      && r.state.lastRetryId == id
  {
    match Begin(opts, w.state, fromRetryId, id)
    case Dropped => w
    case Begun(s, evs) =>
      w.(state := s, inFlight := w.inFlight + multiset{id as int}, log := w.log + evs,
         minted := w.minted + {id as int})
  }

  function Apply(opts: HookOptions, w: World, step: Step): (r: World)
    ensures w.log <= r.log
    ensures w.minted <= r.minted
  {
    match step
    case Execute(id) => Launch(opts, w, None, id)
    case FireRetry(t, id) =>
      if t !in w.timers then w
      else Launch(opts, w.(timers := w.timers - multiset{t}), Some(t.token), id)
    case Resolve(a, o) =>
      if a !in w.inFlight then w
      else
        var st := Settle(opts, w.state, a, o);
        var timers := if st.retry.Some? then w.timers + multiset{st.retry.value} else w.timers;
        w.(state := st.state, inFlight := w.inFlight - multiset{a}, timers := timers, log := w.log + st.events)
    case Optimistic(arg) => w.(state := SetOptimistic(w.state, arg))
    case ResetHook => w.(state := Reset(w.state))
  }

  /** The world after a whole trace. The log only grows, and so does the
      set of minted ids. */
  function Run(opts: HookOptions, w: World, steps: seq<Step>): (r: World)
    ensures w.log <= r.log
    ensures w.minted <= r.minted
    decreases |steps|
  {
    if |steps| == 0 then w else Run(opts, Apply(opts, w, steps[0]), steps[1..])
  }

  lemma ApplyKeepsInv(opts: HookOptions, w: World, step: Step)
    requires Inv(opts, w.state)
    ensures Inv(opts, Apply(opts, w, step).state)
  {
    match step
    case Execute(id) => BeginKeepsInv(opts, w.state, None, id);
    case FireRetry(t, id) => BeginKeepsInv(opts, w.state, Some(t.token), id);
    case Resolve(a, o) => SettleKeepsInv(opts, w.state, a, o);
    case Optimistic(arg) => SetOptimisticKeepsInv(opts, w.state, arg);
    case ResetHook => ResetIdempotent(opts, w.state);
  }

  /** Every reachable state is well formed and the shared retry counter
      never exceeds `maxAttempts`. */
  lemma {:induction false} RunKeepsInv(opts: HookOptions, w: World, steps: seq<Step>)
    requires Inv(opts, w.state)
    ensures Inv(opts, Run(opts, w, steps).state)
    decreases |steps|
  {
    if |steps| > 0 {
      ApplyKeepsInv(opts, w, steps[0]);
      RunKeepsInv(opts, Apply(opts, w, steps[0]), steps[1..]);
    }
  }

  lemma MountedRunKeepsInv(opts: HookOptions, steps: seq<Step>)
    ensures Inv(opts, Run(opts, Mount(opts), steps).state)
  {
    RunKeepsInv(opts, Mount(opts), steps);
  }

  /** Every token the world can compare against is an id it has minted,
      and 0 never was minted. */
  predicate TokensKnown(w: World) {
    && 0 !in w.minted
    && (w.state.lastRetryId == 0 || w.state.lastRetryId in w.minted)
    && (forall a :: a in w.inFlight ==> a in w.minted)
    && (forall t :: t in w.timers ==> t.token in w.minted)
  }

  /** An id is fresh when it is non-zero and has not been minted before. */
  predicate FreshId(w: World, id: int) {
    id != 0 && id !in w.minted
  }

  predicate FreshStep(w: World, step: Step) {
    match step
    case Execute(id) => FreshId(w, id)
    case FireRetry(_, id) => FreshId(w, id)
    case _ => true
  }

  /** Every id minted along the trace is fresh when it is minted. */
  predicate FreshRun(opts: HookOptions, w: World, steps: seq<Step>)
    decreases |steps|
  {
    |steps| == 0 || (FreshStep(w, steps[0]) && FreshRun(opts, Apply(opts, w, steps[0]), steps[1..]))
  }

  /** Starting an attempt under a fresh id keeps every token known. */
  lemma LaunchKeepsTokensKnown(opts: HookOptions, w: World, fromRetryId: Option<int>, id: MintedId)
    requires TokensKnown(w) && FreshId(w, id)
    ensures TokensKnown(Launch(opts, w, fromRetryId, id))
  {
    var r := Launch(opts, w, fromRetryId, id);
    if !Stale(w.state, fromRetryId) {
      forall a | a in r.inFlight ensures a in r.minted {
        if a != id as int {
          assert a in w.inFlight;
        }
      }
    }
  }

  /** Settling an in-flight attempt keeps every token known: an armed
      retry carries the settled attempt's id. */
  lemma ResolveKeepsTokensKnown(opts: HookOptions, w: World, a: int, o: Outcome)
    requires TokensKnown(w)
    ensures TokensKnown(Apply(opts, w, Resolve(a, o)))
  {
    if a in w.inFlight {
      var r := Apply(opts, w, Resolve(a, o));
      var st := Settle(opts, w.state, a, o);
      assert r.minted == w.minted && r.state.lastRetryId == w.state.lastRetryId;
      forall b | b in r.inFlight ensures b in r.minted {
        assert b in w.inFlight;
      }
      forall t | t in r.timers ensures t.token in r.minted {
        if t !in w.timers {
          assert t == st.retry.value;
        }
      }
    }
  }

  lemma FreshStepKeepsTokensKnown(opts: HookOptions, w: World, step: Step)
    requires TokensKnown(w) && FreshStep(w, step)
    ensures TokensKnown(Apply(opts, w, step))
  {
    match step
    case Execute(id) => LaunchKeepsTokensKnown(opts, w, None, id);
    case FireRetry(t, id) =>
      if t in w.timers {
        var w' := w.(timers := w.timers - multiset{t});
        assert TokensKnown(w') by {
          forall u | u in w'.timers ensures u.token in w'.minted {
            assert u in w.timers;
          }
        }
        LaunchKeepsTokensKnown(opts, w', Some(t.token), id);
      }
    case Resolve(a, o) => ResolveKeepsTokensKnown(opts, w, a, o);
    case Optimistic(arg) =>
    case ResetHook =>
  }

  /** A token that has been superseded stays superseded along any trace with
      fresh ids: the live token only ever becomes a new id or 0. */
  lemma {:induction false} StaysSuperseded(opts: HookOptions, w: World, steps: seq<Step>, token: int)
    requires TokensKnown(w) && FreshRun(opts, w, steps)
    requires token in w.minted && token != w.state.lastRetryId
    ensures TokensKnown(Run(opts, w, steps))
    ensures token != Run(opts, w, steps).state.lastRetryId
    decreases |steps|
  {
    if |steps| > 0 {
      var w1 := Apply(opts, w, steps[0]);
      FreshStepKeepsTokensKnown(opts, w, steps[0]);
      assert token != w1.state.lastRetryId;
      StaysSuperseded(opts, w1, steps[1..], token);
    }
  }

  /** Firing a timer whose token is not the live token removes the timer and
      does nothing else: no field changes and no callback fires. */
  lemma StaleTimerIsNoOp(opts: HookOptions, w: World, t: ScheduledRetry, id: MintedId)
    requires TokensKnown(w) && t in w.timers && t.token != w.state.lastRetryId
    ensures Apply(opts, w, FireRetry(t, id)) == w.(timers := w.timers - multiset{t})
  {
  }

  /** A fresh `execute` cancels every retry armed before it: if such a timer
      fires after any further trace with fresh ids, it is a no-op. */
  lemma FreshExecuteCancelsRetries(opts: HookOptions, w: World, id: MintedId, steps: seq<Step>,
                                   t: ScheduledRetry, later: MintedId)
    requires TokensKnown(w) && t in w.timers
    requires FreshRun(opts, w, [Execute(id)] + steps)
    requires t in Run(opts, w, [Execute(id)] + steps).timers
    ensures var r := Run(opts, w, [Execute(id)] + steps);
            Apply(opts, r, FireRetry(t, later)) == r.(timers := r.timers - multiset{t})
  {
    var w1 := Apply(opts, w, Execute(id));
    assert ([Execute(id)] + steps)[1..] == steps;
    assert w1.state.lastRetryId == id;
    FreshStepKeepsTokensKnown(opts, w, Execute(id));
    StaysSuperseded(opts, w1, steps, t.token);
    StaleTimerIsNoOp(opts, Run(opts, w1, steps), t, later);
  }

  /** `reset` cancels every armed retry in the same way. */
  lemma ResetCancelsRetries(opts: HookOptions, w: World, steps: seq<Step>, t: ScheduledRetry, later: MintedId)
    requires TokensKnown(w) && t in w.timers
    requires FreshRun(opts, w, [ResetHook] + steps)
    requires t in Run(opts, w, [ResetHook] + steps).timers
    ensures var r := Run(opts, w, [ResetHook] + steps);
            Apply(opts, r, FireRetry(t, later)) == r.(timers := r.timers - multiset{t})
  {
    var w1 := Apply(opts, w, ResetHook);
    assert ([ResetHook] + steps)[1..] == steps;
    StaysSuperseded(opts, w1, steps, t.token);
    StaleTimerIsNoOp(opts, Run(opts, w1, steps), t, later);
  }

  /** The first render knows every token it could compare against. */
  lemma MountTokensKnown(opts: HookOptions)
    ensures TokensKnown(Mount(opts))
  {
  }

  /** Along a trace with fresh ids every token stays a minted, non-zero id,
      so the cancellation theorems apply to every such run from the first
      render. */
  lemma {:induction false} FreshRunKeepsTokensKnown(opts: HookOptions, w: World, steps: seq<Step>)
    requires TokensKnown(w) && FreshRun(opts, w, steps)
    ensures TokensKnown(Run(opts, w, steps))
    decreases |steps|
  {
    if |steps| > 0 {
      FreshStepKeepsTokensKnown(opts, w, steps[0]);
      FreshRunKeepsTokensKnown(opts, Apply(opts, w, steps[0]), steps[1..]);
    }
  }

  /** 1 when a retry timer carrying the live token is armed, else 0. */
  function LiveArmed(w: World): nat {
    if exists t :: t in w.timers && t.token == w.state.lastRetryId then 1 else 0
  }

  /** Retries of the live lineage that passed the token check: the count `h`
      carried in, reset by every fresh call and every reset, and raised by
      every timer firing that is not dropped. */
  function LineageRetries(opts: HookOptions, w: World, steps: seq<Step>, h: nat): nat
    decreases |steps|
  {
    if |steps| == 0 then h
    else
      var h' := match steps[0]
        case Execute(_) => 0
        case ResetHook => 0
        case FireRetry(t, _) =>
          if t in w.timers && !Stale(w.state, Some(t.token)) then h + 1 else h
        case _ => h;
      LineageRetries(opts, Apply(opts, w, steps[0]), steps[1..], h')
  }

  /** The lineage budget: retries already run plus an armed live retry never
      exceed the counter. One step with a fresh id keeps it. */
  predicate WithinBudget(w: World, h: nat) {
    h + LiveArmed(w) <= w.state.retryCount
  }

  lemma StepKeepsBudget(opts: HookOptions, w: World, step: Step, h: nat)
    requires TokensKnown(w) && FreshStep(w, step) && WithinBudget(w, h)
    ensures var r := Apply(opts, w, step);
            var h' := LineageRetries(opts, w, [step], h);
            WithinBudget(r, h')
  {
    var r := Apply(opts, w, step);
    assert [step][1..] == [];
    match step
    case Execute(id) =>
      assert LiveArmed(r) == 0 by {
        forall t | t in r.timers ensures t.token != r.state.lastRetryId {
          assert t.token in w.minted;
        }
      }
    case ResetHook =>
      assert LiveArmed(r) == 0 by {
        forall t | t in r.timers ensures t.token != r.state.lastRetryId {
          assert t.token in w.minted;
        }
      }
    case FireRetry(t, id) =>
      if t in w.timers && !Stale(w.state, Some(t.token)) {
        assert t.token in w.minted;
        assert LiveArmed(w) == 1;
        assert LiveArmed(r) == 0 by {
          forall u | u in r.timers ensures u.token != r.state.lastRetryId {
            assert u in w.timers;
            assert u.token in w.minted;
          }
        }
      } else if t in w.timers {
        assert LiveArmed(r) <= LiveArmed(w) by {
          if LiveArmed(r) == 1 {
            var u :| u in r.timers && u.token == r.state.lastRetryId;
            assert u in w.timers;
          }
        }
      }
    case Resolve(a, o) =>
      if a in w.inFlight {
        var st := Settle(opts, w.state, a, o);
        if st.retry.None? {
          assert r.timers == w.timers;
        } else {
          assert r.state.retryCount == w.state.retryCount + 1;
        }
      }
    case Optimistic(arg) =>
  }

  /** No lineage runs more retries than `maxAttempts` allows: along a trace
      with fresh ids, the timer firings that pass the token check since the
      last fresh call or reset never number more than the cap. */
  lemma {:induction false} LineageBound(opts: HookOptions, w: World, steps: seq<Step>, h: nat)
    requires Inv(opts, w.state) && TokensKnown(w) && FreshRun(opts, w, steps)
    requires WithinBudget(w, h)
    ensures LineageRetries(opts, w, steps, h) <= RetryCap(opts)
    decreases |steps|
  {
    if |steps| == 0 {
    } else {
      var w1 := Apply(opts, w, steps[0]);
      var h1 := LineageRetries(opts, w, [steps[0]], h);
      StepKeepsBudget(opts, w, steps[0], h);
      ApplyKeepsInv(opts, w, steps[0]);
      FreshStepKeepsTokensKnown(opts, w, steps[0]);
      assert LineageRetries(opts, w, steps, h) == LineageRetries(opts, w1, steps[1..], h1);
      LineageBound(opts, w1, steps[1..], h1);
    }
  }

  /** From the first render, with fresh ids, no lineage exceeds the cap. */
  lemma MountedLineageBound(opts: HookOptions, steps: seq<Step>)
    requires FreshRun(opts, Mount(opts), steps)
    ensures LineageRetries(opts, Mount(opts), steps, 0) <= RetryCap(opts)
  {
    MountTokensKnown(opts);
    LineageBound(opts, Mount(opts), steps, 0);
  }
}

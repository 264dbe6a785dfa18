# tinyrx in Dafny

A model of xandris/tinyrx, a small reactive-streams library in one JavaScript
module (`index.js`), with proofs about the model.

In tinyrx an `Observable` wraps a producer function. `subscribe(n, e, c)`
wraps the user's handlers, runs the producer and hands back
`{unsubscribe}`. While the producer is still running, `unsubscribe` holds a
sentinel function that throws. Terminating during that synchronous phase
therefore aborts the producer, and `subscribe` catches the sentinel and
tears down. Once `subscribe` has returned, terminating runs the producer's
teardown. The operators `map`, `filter`, `take` and `drop` are built on
`_intercept`: a new producer that replaces the `next` handler.

`merge(num)` subscribes at most `num` inner Observables at once. It keeps
the rest in a FIFO queue `q` and counts live inners in `active`. It
remembers teardowns in `resources`, and calls `c()` once the outer has
completed and nothing is active or queued. `mergeAll`, `concat`, `flatMap`
and `concatMap` are instances of `merge`. There are two synchronous
schedulers: `Scheduler.immediate` runs a task at once, and
`Scheduler.currentThread` is a trampoline that queues reentrant tasks and
drains them in order. `Scheduler.default` turns a delay (a number or a
`Date`) into a timer delay.

How the model is built:

- **Producers as scripts.** A producer is a `Producer`: the handler calls
  it makes synchronously, in order, then whether it returns a value or
  throws. The producers of `of`, `empty` and the `_intercept` operators do
  not catch anything, so they are aborted by the first exception thrown
  into them, and the model feeds a script only up to that exception. The
  merged producer of `merge` does catch: see the `SynchronousUnsubscription`
  line under "Left out".
- **Closure state.** `subscribe` and `merge` keep per-subscription
  variables. Each is a pure transition function over a state datatype
  (`SubState`, `MState`). It is also a class (`Subscription`, `Merger`)
  whose methods update fields, and each method is proved equal to the
  matching transition.
- **Counters and schedulers.** The `take` and `drop` counters are objects
  (`TakeHandler`, `DropHandler`). The schedulers are classes holding a run
  log.
- **Trampoline queue.** The queue array is an object (`TaskQueue`). The
  cancel function closes over it.

Modules, one per concern of `index.js`:

| module | file | models |
|---|---|---|
| `Resources` | resources.dfy | `noop`, `catchAll`, calling a teardown, the `noop` default |
| `JsArrays` | arrays.dfy | `indexOf`, `splice(i, 1)` |
| `Signals` | signals.dfy | handler-call traces |
| `Schedulers` | schedulers.dfy | `Scheduler.immediate`, `Scheduler.currentThread` |
| `Delay` | delay.dfy | the delay arithmetic of `Scheduler.default` |
| `Subscriptions` | subscriptions.dfy | `Observable.prototype.subscribe` |
| `Operators` | operators.dfy | `empty`, `of`, `_intercept`, `map`, `filter`, `take`, `drop` |
| `MergeOperator` | merge.dfy | `merge`, `mergeAll`, `concat`, `flatMap`, `concatMap` |

Behaviour of the code that a user might not expect, which the model follows:

- **A synchronous handler error is swallowed.** After `subscribe` has
  returned, an exception from a user handler propagates
  (`NextErrorPropagates`). But while the producer runs, `err` calls
  `unsubscribe`, which is still the sentinel. The sentinel
  replaces the user's exception, and `subscribe` returns normally
  (`SyncHandlerErrorIsNotRethrown`).
- **A synchronous cancel releases nothing.** The producer never returned its
  teardown, so there is nothing to run.
- **The merge teardown does not unsubscribe live inners.** `resources`
  holds their `{unsubscribe}` objects, which are not functions, so
  `catchAll` only swallows a TypeError. Such an inner keeps running, and its
  later completion drives `active` below zero (`InnerOutlivesTeardown`).
- **An inner that errors keeps its slot.** So does an inner whose
  `subscribe` throws. In both cases the completion callback never runs.
- **The outer of a merge is not wrapped by `subscribe`.** Calls it makes
  after its own `complete` still take effect.
- **The trampoline's cancel removes nothing.** `q.indexOf()` searches for
  `undefined`.
- **An omitted periodic delay starts the interval at once.** `undefined -
  Date.now()` is NaN, which is falsy. A fractional delay such as 0.5 is
  truthy and goes through `scheduleFuture`.
- **A task that throws leaves the trampoline stuck.** The exception leaves
  `schedule` before `this.q=null`, so the queue with the tasks not yet run
  stays in place. Every later `schedule` only appends to it, and no task
  runs again (`StuckAfterThrow`).

## Model

| member | source | states |
|---|---|---|
| `Resources.Invoke` | index.js:9 | A call runs at most one teardown, and runs one exactly for a callable. It returns normally exactly for `noop` and for a teardown that does not fail; a non-function handle or `undefined` throws a TypeError. |
| `Resources.DefaultingRemovesOnlyTheUndefinedCall` | index.js:127-141 | Defaulting with `noop` runs the same teardowns as the raw value and removes exactly the TypeError of calling `undefined`. |
| `Resources.OrNoop` | index.js:127 | A falsy (`undefined`) value becomes `noop`; anything truthy is kept as it is. |
| `Resources.CallableIdsAppend` | index.js:197 | The teardowns released by a sweep over two lists are those of the first list, then those of the second. |
| `Resources.CallableIdsMembers` | index.js:197 | Every callable in a list is released by a sweep over it. A sweep releases at most one teardown per entry. |
| `Resources.NoCallableNothingReleased` | index.js:197 | A list holding no callable releases nothing. |
| `Resources.ReleaseAll` | index.js:197 | `forEach(catchAll)` calls every entry in order and goes on past failures. Each callable entry's teardown runs. |
| `JsArrays.IndexOf` | index.js:168 | The result is the first position holding the value, or -1 exactly when the value is absent. |
| `JsArrays.RemoveAt` | index.js:170 | `splice(i, 1)` removes exactly element `i`, keeps the others in order, and leaves the multiset less that one element. |
| `Signals.Nexts` | index.js:79-80 | One `next` call per value, in order. |
| `Signals.Cut` | index.js:120-122 | The calls up to the first terminal call form a prefix of the trace. |
| `Signals.ValuesAppend` | index.js:120 | The values of a concatenated trace are the values of its parts, concatenated. |
| `Signals.CompletionsAppend` | index.js:122 | Completion counts add up over concatenation. |
| `Signals.ValuesOfNexts` | index.js:79-82 | A run of `next` calls carries exactly its values and no completion. |
| `Signals.NextsAppend` | index.js:79-80 | `next` calls for two lists of values are those for the first list, then those for the second. |
| `Signals.CutIsWellFormed` | index.js:120-122 | What a subscription lets through ends at its first terminal call. Cutting is idempotent and leaves a well-formed trace unchanged. |
| `Signals.CutOfNexts` | index.js:79-82 | Values before a trace's first terminal call all pass the cut. |
| `Schedulers.DrainStepShrinks` | index.js:35-36 | Running the front task leaves strictly less work, so the drain loop ends. |
| `Schedulers.Drain` | index.js:35-36 | Reference run order of the trampoline: take the front task, run it (its schedules go to the back), until the queue is empty or a task throws. The lemmas below state its properties. |
| `Schedulers.PreOrder` | index.js:22-25 | Reference run order of the immediate scheduler: a task, then each task it schedules in full, up to the first exception. The lemmas below state its properties. |
| `Schedulers.PreOrderAllAppend` | index.js:23 | Immediate execution of two task lists runs the first list up to its first exception, and the second only if the first did not throw. The combined list throws exactly when one of the parts does. |
| `Schedulers.PreOrderIsEvery` | index.js:22-25 | Without an exception, the immediate scheduler runs every task of the tree exactly once. |
| `Schedulers.PreOrderAllIsEvery` | index.js:22-25 | Without an exception, immediate execution of a task list runs every task of its trees exactly once. |
| `Schedulers.DrainStartsWithQueue` | index.js:35-36 | The first `m` queued tasks run first, in queue order (FIFO), if none of the first `m - 1` throws. |
| `Schedulers.DrainAppendedRunsLater` | index.js:31-32 | A task appended behind queued tasks that do not throw runs right after them. |
| `Schedulers.DrainRunsEachTaskOnce` | index.js:29-37 | Every task of the queued trees, reentrant schedules included, has either run exactly once or is still in the queue an exception left behind. Without an exception nothing is left behind. |
| `Schedulers.DrainStallsIffTreeThrows` | index.js:35-36 | The drain ends in an exception exactly when some task of the queued trees throws, which is exactly when the immediate scheduler would throw. |
| `Schedulers.DrainMatchesImmediate` | index.js:21-37 | Without an exception the trampoline runs the same multiset of tasks as the immediate scheduler and leaves the queue empty. |
| `Schedulers.DrainLength` | index.js:35-36 | The tasks run, plus those left in the queue, are all the tasks of the queued trees. |
| `Schedulers.ChainRunsInOrder` | index.js:29-37 | A chain of tasks, each scheduling the next reentrantly, runs in submission order on the trampoline. |
| `Schedulers.TrampolineRunsBreadthFirst` | index.js:29-37 | On the trampoline, a task's reentrant schedules run only after the tasks queued before them (0, 1, 2, 3 for the sample tree). |
| `Schedulers.ImmediateRunsDepthFirst` | index.js:22-25 | The immediate scheduler runs each scheduled task in full before the next (0, 1, 3, 2 for the same tree). |
| `Schedulers.ImmediateScheduler.constructor` | index.js:21 | A fresh scheduler has run nothing. |
| `Schedulers.ImmediateScheduler.Schedule` | index.js:22-25 | The task and everything it schedules run before `schedule` returns, depth first, up to the first exception. `schedule` throws exactly when a task of the tree throws, and otherwise returns the no-op cancel. |
| `Schedulers.ImmediateScheduler.RunTask` | index.js:23 | The task runs, then each task it schedules runs in full, in order. The first exception stops the body, which throws exactly when its tree does. |
| `Schedulers.TaskQueue.constructor` | index.js:34 | The trampoline's queue starts as `[fn]`. |
| `Schedulers.AQueuedTaskIsNeverUndefined` | index.js:39 | `q.indexOf()` never finds a queued task. |
| `Schedulers.CurrentThreadScheduler.constructor` | index.js:28 | A fresh trampoline has no queue and has run nothing. |
| `Schedulers.CurrentThreadScheduler.Schedule` | index.js:29-40 | With a queue in place (a drain in progress, or one an exception abandoned), `schedule` only appends and runs nothing. Otherwise it drains a fresh queue in FIFO order, running everything scheduled meanwhile. It throws exactly when the drain stalls, and then the queue with the tasks not yet run stays in place; otherwise the field is reset to null and the queue is empty. |
| `Schedulers.CurrentThreadScheduler.RunTask` | index.js:36 | A queued task runs once, appends its reentrant schedules to the queue in order, then returns or throws. |
| `Schedulers.CurrentThreadScheduler.CancelTask` | index.js:39 | The returned cancel leaves the queue unchanged. |
| `Schedulers.StuckAfterThrow` | index.js:29-37 | After a task throws on the trampoline, a later `schedule` returns normally, the abandoned queue stays in place, and the later task never runs. |
| `Delay.Normalize` | index.js:50 | A normalised delay is never negative. It is NaN exactly when the delay is omitted, a NaN number or an invalid `Date`. It is truthy exactly when the number, or the `Date` minus the clock, is positive. Its value is `Math.max(0, x)` of the number, or of the `Date` minus the clock: a positive number is kept, a past `Date` gives 0 and a future one its distance from the clock. |
| `Delay.NormalizeIsIdempotent` | index.js:57-60 | `scheduleFuture` re-normalising an already normalised delay changes nothing, whatever the clock reads. |
| `Delay.FractionalDelayIsTruthy` | index.js:57-58 | A fractional delay between 0 and 1 is truthy. |
| `Delay.PeriodicPlan` | index.js:55-66 | A truthy normalised delay first arms `scheduleFuture` with that positive delay, then re-enters with no delay and the interval `Math.max(0, interval)`. A falsy (zero or NaN) delay arms that interval at once. |
| `Delay.PeriodicIntervalIsClamped` | index.js:55-63 | The interval handed to `setInterval` is never negative, and is NaN exactly when the given interval is NaN. Clamping it again on re-entry changes nothing. |
| `Delay.NoDelayRepeatsAtOnce` | index.js:57-64 | An omitted, NaN, non-positive or past delay arms the interval immediately. |
| `Delay.CancelStopsEitherPhase` | index.js:45-64 | Over the host's timer table, a periodic schedule arms one timer at a time: the interval at once when the delay is falsy, otherwise the delay's timeout and, once it fired, the interval. Its cancel clears exactly that timer and leaves every other timer armed, in either phase; a delay cancelled before it fired can no longer fire. |
| `Subscriptions.RealUnsubscribeStep` | index.js:141 | `realUnsubscribe` as a transition; `UnsubscribeIsIdempotent` states its properties. |
| `Subscriptions.CallUnsubscribeStep` | index.js:121-123 | Calling whatever `unsubscribe` holds: the sentinel throws, `realUnsubscribe` tears down. `TerminationCleansUp` and `TerminationThrowsSentinelWhileRunning` state both cases. |
| `Subscriptions.ErrStep` | index.js:140 | `err`: unsubscribe, then throw the argument, unless the unsubscribe threw the sentinel first. |
| `Subscriptions.N2Step` | index.js:120 | `n2` as a transition; `NextErrorPropagates` and `SyncHandlerErrorIsNotRethrown` state its two phases. |
| `Subscriptions.TerminateStep` | index.js:121-122 | The shared tail of `e2` and `c2`: unsubscribe, or `err` on any exception. |
| `Subscriptions.E2Step` | index.js:121 | `e2` as a transition; `TerminationCleansUp` states it. |
| `Subscriptions.C2Step` | index.js:122 | `c2` as a transition; `TerminationCleansUp` states it. |
| `Subscriptions.Wire` | index.js:120-122 | One producer call, on `n2`, `e2` or `c2`. |
| `Subscriptions.Feed` | index.js:127 | The producer's calls in order, up to the first exception; `FeedWhileSentinel` states what reaches the user. |
| `Subscriptions.Subscribe` | index.js:126-138 | `subscribe` from the producer call on; `SubscribeBehaviour` states it against `Visible`. |
| `Subscriptions.Visible` | index.js:120-122 | Reference description of what the user's handlers receive while the producer runs, independent of the wrapper state. |
| `Subscriptions.FeedWhileSentinel` | index.js:120-123 | While `unsubscribe` is the sentinel, the user sees exactly the reference `Visible` calls. The run ends in the sentinel exactly when it is cut short. |
| `Subscriptions.SubscribeBehaviour` | index.js:119-142 | The user sees exactly what `Visible` describes. A producer cut short is torn down before `subscribe` returns and releases nothing. Otherwise the return value (or `noop`) is kept as the teardown, or the producer's own exception is rethrown. |
| `Subscriptions.VisibleEndsAtTermination` | index.js:120-122 | Nothing reaches the user after an `error` or a `complete`. |
| `Subscriptions.VisibleToPlainObserver` | index.js:120-122 | Handlers that never throw see the calls up to the first terminal one. The producer is cut short exactly when that prefix ends in a terminal call. |
| `Subscriptions.SyncHandlerErrorIsNotRethrown` | index.js:120-140 | A user `next` handler that throws while the producer runs does not make `subscribe` throw; the subscription is torn down instead. |
| `Subscriptions.UnsubscribeIsIdempotent` | index.js:141 | `realUnsubscribe` silences the handlers and resets `res`, runs the teardown at most once, and a second call changes nothing. |
| `Subscriptions.InertIgnoresCalls` | index.js:120-122 | After unsubscribing, every handler call is ignored. |
| `Subscriptions.TerminationCleansUp` | index.js:121-122 | After `subscribe` returned, `error` or `complete` runs the handler, then tears down. It throws exactly when the user's handler threw, and never the sentinel. |
| `Subscriptions.NextErrorPropagates` | index.js:120 | After `subscribe` returned, a throwing `next` handler tears down and its exception propagates. |
| `Subscriptions.TerminationThrowsSentinelWhileRunning` | index.js:121-123 | While the producer runs, `error` and `complete` always end in the sentinel and keep the handlers. |
| `Subscriptions.Subscription.constructor` | index.js:119-124 | Entering `subscribe`: the handlers are captured, `unsubscribe` is the sentinel and `res` is `noop`. |
| `Subscriptions.Subscription.RealUnsubscribe` | index.js:141 | The new state is the `realUnsubscribe` transition of the old. |
| `Subscriptions.Subscription.CallUnsubscribe` | index.js:121-123 | Calling whatever `unsubscribe` holds: the sentinel throws, `realUnsubscribe` tears down. |
| `Subscriptions.Subscription.Err` | index.js:140 | `err` unsubscribes, then throws its argument; a sentinel thrown first wins. |
| `Subscriptions.Subscription.N2` | index.js:120 | `n2` calls `n` and goes through `err` if `n` throws. |
| `Subscriptions.Subscription.Terminate` | index.js:121-122 | The shared tail of `e2` and `c2`: unsubscribe, or `err` on any exception. |
| `Subscriptions.Subscription.E2` | index.js:121 | `e2` is the error handler followed by the unsubscribe. |
| `Subscriptions.Subscription.C2` | index.js:122 | `c2` is the complete handler followed by the unsubscribe. |
| `Subscriptions.Subscription.Run` | index.js:126-138 | The producer's calls are fed in order until the first exception. The new state and the rethrown value are exactly those of `Subscribe`. |
| `Subscriptions.SubscribeTo` | index.js:119-142 | A fresh subscription state ends as `Subscribe` describes. |
| `Subscriptions.UnsubscribeTwice` | index.js:136-141 | Unsubscribing twice runs the teardown once and leaves the subscription inert. |
| `Operators.Intercept` | index.js:144 | The downstream calls of a producer whose `next` handler is replaced by a stateful step; `error` and `complete` pass through. |
| `Operators.InterceptProducer` | index.js:144 | `_intercept(nfn)`: the replaced handler starts from its initial state for each subscription, and the return value passes through. |
| `Operators.Of` | index.js:72-83 | `of(...xs)`: one `next` per value, then `complete`; `OfCompletesSync` and `OfMapDoubles` state it. |
| `Operators.Map` | index.js:146 | `map(fn)`; `MapIsPointwise` states it. |
| `Operators.Filter` | index.js:147 | `filter(fn)`; `FilterIsPointwise`, `FilterSees` and `FilterKeepsAccepted` state it. |
| `Operators.TakeStep` | index.js:148 | `take`'s handler; `TakeUnfold`, `TakeLastValue` and `TakeEarlierValue` state it. |
| `Operators.Take` | index.js:148 | `take(num)`; `TakeBehaviour` and `TakeForwardsQuota` state it. |
| `Operators.DropStep` | index.js:149 | `drop`'s handler; `DropSkipsValues` and `DropPassesValues` state it. |
| `Operators.Drop` | index.js:149 | `drop(num)`; `DropBehaviour` states it. |
| `Operators.Empty` | index.js:70 | `empty()` completes at once, with no values. |
| `Operators.MapIsPointwise` | index.js:144-146 | `map(fn)` makes one downstream call per source call: `fn(x)` for each value, `error` and `complete` unchanged. The source's return value passes through. |
| `Operators.InterceptAppend` | index.js:144 | The intercepted output of a concatenation is the output of the first part followed by that of the second, run on from the handler state the first part left. |
| `Operators.FilterIsPointwise` | index.js:147 | `filter` handles each call on its own, in order: a rejected value is dropped, every other call passes, and the output distributes over any split of the trace. |
| `Operators.FilterSees` | index.js:144-147 | What a subscriber sees through `filter(fn)` is `filter` applied to what it would see from the source, so terminal calls keep their place among the values; the source's return value passes through. |
| `Operators.FilterKeepsAccepted` | index.js:144-147 | `filter(fn)` forwards exactly the values `fn` accepts, in order, and every terminal call unchanged. |
| `Operators.TerminalsAppend` | index.js:144 | The terminal calls of a concatenated trace are those of its parts. |
| `Operators.TakeUnfold` | index.js:148 | `take`'s handler forwards a value, then calls `complete` once its counter drops to 0 or below. |
| `Operators.TakeLastValue` | index.js:148 | The value that exhausts the counter is forwarded and followed by `complete`. |
| `Operators.TakeEarlierValue` | index.js:148 | A value that leaves the counter positive is forwarded, and the rest goes on from the decremented counter. |
| `Operators.TakeTerminal` | index.js:144-148 | An `error` or `complete` passes through `take` unchanged and ends the stream. |
| `Operators.TakeForwardsQuota` | index.js:144-148 | Through `take` with counter `i`, the user sees the first `max(i, 1)` values and then `complete`, or everything the source delivers if it ends first. |
| `Operators.TakeBehaviour` | index.js:148 | `take(k)` with `k >= 1` delivers the first `k` values and completes after the `k`-th. `take(0)` still forwards one value. A negative `k` is `empty()`. |
| `Operators.DropSkipsValues` | index.js:149 | `drop` with counter `i >= 0` suppresses exactly the first `i` values of a run. |
| `Operators.DropPassesValues` | index.js:149 | Once the counter is 0, `drop` forwards every value. |
| `Operators.DropAfterValues` | index.js:144-149 | `drop` passes `error` and `complete` through, and goes on with the later calls from the same counter. |
| `Operators.DropBehaviour` | index.js:149 | `drop(k)` with `k >= 0` delivers the values after the first `k`, then `complete`. A negative `k` returns the source itself. |
| `Operators.TakeOnValues` | index.js:148 | `take(m)` over a finite run of at least `m` values then `complete` delivers the first `m` and completes. |
| `Operators.DropThenTake` | index.js:148-149 | `drop(n)` then `take(m)` over `0..len-1` delivers `n .. n+m-1`, then `complete`. |
| `Operators.OfMapDoubles` | index.js:72-83 | `of(1,2,3).map(x => 2*x)` delivers 2, 4, 6, then `complete`. |
| `Operators.TakeHandler.constructor` | index.js:148 | Each subscription to `take(num)` starts its own counter at `num`. |
| `Operators.TakeHandler.OnNext` | index.js:148 | A value is forwarded first. `complete` follows exactly when the decremented counter is 0 or below. |
| `Operators.DropHandler.constructor` | index.js:149 | Each subscription to `drop(num)` starts its own counter at `num`. |
| `Operators.DropHandler.OnNext` | index.js:149 | A value is suppressed exactly while the counter is positive, and that decrements it. |
| `MergeOperator.InnerOutcome` | index.js:159-181 | Reference description of an inner's `subscribe` by its producer's calls alone; `SubscribeInnerBehaviour` proves the library's `subscribe` agrees with it. |
| `MergeOperator.StartF` | index.js:158-181 | One iteration of the pump loop; `StartBehaviour`, `StartKeepsCap` and `StartKeepsLive` state it. |
| `MergeOperator.OuterNextF` | index.js:188 | The outer's `next`: push onto `q`, then pump; `StepKeepsOrder` states it. |
| `MergeOperator.OuterErrorF` | index.js:189 | The outer's `error` is the downstream `e`. |
| `MergeOperator.OuterCompleteF` | index.js:190 | The outer's `complete`: set `done`, then pump; `CompleteWhenIdle` states it. |
| `MergeOperator.CallbackF` | index.js:164-171 | The completion callback with `sync` set, up to its `pump()`; `CallbackKeepsLive` states it. |
| `MergeOperator.InnerCompleteF` | index.js:163-173 | A live inner's later `complete`; `LaterCompletionFreesSlot` states it. |
| `MergeOperator.TeardownF` | index.js:193-199 | The returned teardown; `TeardownBehaviour` and `TeardownIsIdempotent` state it. |
| `MergeOperator.StepF` | index.js:150-200 | One event of the merge; `StepKeepsCap`, `StepKeepsLive` and `CompleteOnlyWhenDrained` state it. |
| `MergeOperator.Merge` | index.js:150-200 | `merge(num)` as a producer; `MergeRunAdmission` and `SyncSourcesConcatenate` state it. |
| `MergeOperator.MergeAll` | index.js:203-205 | `mergeAll()` is `merge(Infinity)`; `MergeAllAndConcatOfSources` states it. |
| `MergeOperator.Concat` | index.js:207-209 | `concat()` is `merge(1)`; `MergeAllAndConcatOfSources` states it. |
| `MergeOperator.FlatMap` | index.js:211-213 | `flatMap(fn)` is `map(fn).mergeAll()`; `FlatMapOfSyncInners` states it. |
| `MergeOperator.ConcatMap` | index.js:215-217 | `concatMap(fn)` is `map(fn).merge(1)`; `FlatMapOfSyncInners` states it. |
| `MergeOperator.SubscribeInnerBehaviour` | index.js:161-181 | Subscribing an inner with the forwarding handlers agrees with the reference `InnerOutcome`. The inner forwards its calls up to the first terminal one. It then completes synchronously, errors, rethrows, or stays open with its own teardown. |
| `MergeOperator.ForwardedHasNoCompletion` | index.js:163 | An inner's `complete` goes to the merge's callback, never downstream. |
| `MergeOperator.CompletionsOfWellFormed` | index.js:163 | A well-formed trace completes once exactly when it ends in `complete`. |
| `MergeOperator.StartFrame` | index.js:158-159 | Starting an inner moves it from the queue to the started list; `done` is untouched. |
| `MergeOperator.PumpF` | index.js:157-185 | `pump` starts queued inners in queue order, and stops only when the queue is empty or every slot is taken. It leaves `done` as it was. |
| `MergeOperator.RunAppend` | index.js:150-200 | Running two event lists is running the first, then the second. |
| `MergeOperator.OuterEvents` | index.js:187-191 | One merge event per call of the outer producer. |
| `MergeOperator.OuterRunIsRun` | index.js:187-191 | The outer producer's calls are the matching events, and none of them is the teardown. |
| `MergeOperator.OuterRunAppend` | index.js:187-191 | The outer's calls take effect one after the other. |
| `MergeOperator.StartKeepsCap` | index.js:158-162 | Starting an inner when a slot is free keeps `active <= num`. |
| `MergeOperator.PumpKeepsCap` | index.js:157-185 | `pump` never makes `active` exceed `num`. |
| `MergeOperator.StepKeepsCap` | index.js:150-200 | Every event, the teardown included, keeps `active <= num`. |
| `MergeOperator.InnerCompleteKeepsCap` | index.js:163-173 | A later inner completion keeps `active <= num`. |
| `MergeOperator.RunKeepsCap` | index.js:150-200 | Any run of events keeps `active <= num`. |
| `MergeOperator.StartKeepsLive` | index.js:158-178 | A start keeps every live inner holding a slot and its handle in `resources`. |
| `MergeOperator.PumpKeepsLive` | index.js:157-185 | `pump` keeps every live inner holding a slot and a handle. |
| `MergeOperator.CallbackKeepsLive` | index.js:163-171 | The completing inner's handle is found, and removing it keeps every other live inner's handle. |
| `MergeOperator.LaterCompletionFreesSlot` | index.js:163-173 | A later inner completion frees exactly one slot and removes exactly its own handle. The queue and the output are untouched until the pump, and the inner's own teardown runs after the pump. |
| `MergeOperator.InnerCompleteKeepsLive` | index.js:163-173 | A later inner completion keeps the live-inner invariant. |
| `MergeOperator.InnerErrorKeepsLive` | index.js:163-181 | A later inner error keeps the live-inner invariant. |
| `MergeOperator.StepKeepsLive` | index.js:150-191 | Every event other than the teardown keeps the live-inner invariant. |
| `MergeOperator.RunKeepsLive` | index.js:150-191 | Until the teardown, every live inner holds a slot and its handle. |
| `MergeOperator.Admission` | index.js:157-185 | From a fresh subscription, `active` stays within `num`. Until the teardown, `active` counts at least the live inners, so `concat` never has two inners live at once. |
| `MergeOperator.StepKeepsOrder` | index.js:157-188 | The outer's `next` appends to the queue; no other event reorders the started-then-queued list. |
| `MergeOperator.QueueOrder` | index.js:157-188 | Until the teardown, the inners started so far followed by those still queued are exactly the outer's values in arrival order (FIFO). |
| `MergeOperator.StartAddsNoCompletion` | index.js:161-181 | Starting an inner never calls `c()`. |
| `MergeOperator.PumpCompletesIffDrained` | index.js:157-185 | `pump` calls `c()` exactly when it leaves the merge done, with nothing active and nothing queued. |
| `MergeOperator.CompleteOnlyWhenDrained` | index.js:150-200 | No event calls `c()` more than once. An event that calls it leaves the merge done, drained and idle. |
| `MergeOperator.StartBehaviour` | index.js:159-181 | Starting an inner takes a slot and forwards its calls. A synchronous completion gives the slot back. A synchronous error keeps the slot and the handle. An exception from `subscribe` is forwarded to `e` and keeps the slot. Only an open inner is recorded with its teardown. |
| `MergeOperator.OnlyOuterTeardownsRun` | index.js:197 | `catchAll` over `resources` runs exactly the outer's callable return values, in order. |
| `MergeOperator.TeardownBehaviour` | index.js:193-199 | The teardown sets `done`, sets `active` to 0, empties `q` and `resources`, and runs the outer's teardown. It leaves live inners live and the output untouched. |
| `MergeOperator.TeardownIsIdempotent` | index.js:193-199 | A second teardown changes nothing. |
| `MergeOperator.InnerOutlivesTeardown` | index.js:163-199 | An inner live at teardown is not released. Its later completion drives `active` to -1, and only then its own teardown runs. |
| `MergeOperator.OfCompletesSync` | index.js:72-83 | A source of values completes during its own `subscribe`, forwarding its values. |
| `MergeOperator.SyncSourceStep` | index.js:163-188 | With the merge idle, an inner that completes synchronously only appends its calls and leaves the merge idle. |
| `MergeOperator.OffersAreOuterRun` | index.js:187-188 | The outer's `next` calls offer the inners one after the other. |
| `MergeOperator.FirstOffer` | index.js:163-188 | The first synchronous offer to an idle merge leaves it idle, with the inner's calls appended. |
| `MergeOperator.IdleRun` | index.js:157-188 | Offering inners that each complete synchronously concatenates their calls and leaves the merge idle. |
| `MergeOperator.SourcesCompleteSync` | index.js:72-83 | Each source built by `of` completes synchronously with its own values. |
| `MergeOperator.CompleteWhenIdle` | index.js:183-190 | The outer's `complete` with nothing active or queued completes downstream. |
| `MergeOperator.MergeOfSyncInners` | index.js:150-200 | Merging an outer that offers synchronous inners and then completes delivers the inners' calls back to back, then `complete`. |
| `MergeOperator.SyncSourcesConcatenate` | index.js:150-200 | `merge(num)` with `num > 0` of `of(of(...xs0), of(...xs1), ...)` delivers all the values in order, then `complete`. |
| `MergeOperator.MergeAllAndConcatOfSources` | index.js:203-209 | `mergeAll()` and `concat()` of synchronous sources both concatenate them. |
| `MergeOperator.OffersPointwise` | index.js:188 | One outer `next` call per inner, in order. |
| `MergeOperator.AllSyncPointwise` | index.js:163-176 | Inners that complete synchronously one by one form a synchronous list. |
| `MergeOperator.FlatMapOfSyncInners` | index.js:211-217 | `flatMap(fn)` and `concatMap(fn)` over a source of values, where `fn` gives inners that complete synchronously, deliver the inners' calls one after the other, then `complete`. |
| `MergeOperator.MergeRunAdmission` | index.js:150-191 | When the merged producer's run returns, `active` is within `num` and every live inner holds a slot. For `concat`, at most one inner is live. |
| `MergeOperator.SubscribeForwarding` | index.js:163-173 | Subscribing an inner with the forwarding handlers ends as the reference `InnerOutcome` says. |
| `MergeOperator.Merger.constructor` | index.js:152-155 | Initially `done` is false, `active` is 0, and `q` and `resources` are empty. |
| `MergeOperator.Merger.StartNext` | index.js:159-181 | One iteration of the pump loop after `q.shift()` performs exactly the start transition. |
| `MergeOperator.Merger.Pump` | index.js:157-185 | The `pump` loop performs exactly the `PumpF` transition. |
| `MergeOperator.Merger.OnOuterNext` | index.js:188 | The outer's `next` pushes onto `q` and pumps. |
| `MergeOperator.Merger.OnOuterError` | index.js:189 | The outer's `error` goes downstream unchanged. |
| `MergeOperator.Merger.OnOuterComplete` | index.js:190 | The outer's `complete` sets `done` and pumps. |
| `MergeOperator.Merger.Attach` | index.js:187 | The outer producer's return value is pushed onto `resources` as it is. |
| `MergeOperator.Merger.OnInnerNext` | index.js:163 | A live inner's `next` goes downstream; a finished inner's is ignored. |
| `MergeOperator.Merger.OnInnerError` | index.js:163 | A live inner's `error` goes downstream and its own teardown runs; its slot stays taken. |
| `MergeOperator.Merger.Callback` | index.js:163-173 | The completion callback with `sync` already set frees a slot, removes the inner's handle and pumps. |
| `MergeOperator.Merger.OnInnerComplete` | index.js:163-173 | A live inner's later `complete` runs the callback, then the inner's own teardown. |
| `MergeOperator.Merger.Teardown` | index.js:193-199 | The returned teardown performs exactly the teardown transition. |
| `MergeOperator.RunMerge` | index.js:151-191 | Subscribing the merged producer runs the outer's calls in order, then keeps its return value or propagates its exception. |

## Left out

- Host timers are modelled only as a table of armed ids (`Delay.Timers`): `setTimeout` and `setInterval` add an id, the `clear` functions remove one. When a timer fires, and the callbacks it runs, are not modelled, and neither is the `root` global.
- `Scheduler.default.schedule` is left out: it only arms a zero-delay timer.
- The `Scheduler` base class is left out: its methods only throw "Not implemented".
- `Observable.interval` is left out: it depends on host timers.
- `range` is left out: it relies on generators. `Operators.Range` only supplies finite lists of values.
- The iterator protocol in `from` is left out. `of` is modelled over finite lists.
- The Promise branch of `from` is left out: it is asynchronous.
- The dynamic dispatch in `from` on its argument's shape is left out. Inners are always producers.
- `SynchronousUnsubscription` is one global, but every subscription here has its own sentinel. In the source, a `subscribe` nested inside another's producer catches the outer subscription's sentinel as if it were its own. The merged producer is such a case: when a downstream `e` or `c` runs during the merge's synchronous run, the inner's `subscribe` catches the sentinel it throws and `merge` keeps pumping, so later calls in `out` still reach the user's handlers. For `of(A, of(1)).mergeAll()` with `A` calling `e(42)`, the user sees `E(42)` and then `N(1)`; the model stops at `E(42)`.
- JavaScript exceptions are not modelled as control flow. They become explicit outcomes (a `Reaction`, an `Outcome`, a task's `throws` flag), and thrown values are integers.
- A producer is only its synchronous run. Calls it makes after `subscribe` returned are separate events, given to the wrapper one at a time (`InertIgnoresCalls`, `TerminationCleansUp`).
- Once a producer has been aborted by an exception, it makes no further calls in the model.
- `Operators.MapIsPointwise`: `fn` in `map` is a total Dafny function. A mapping function that throws is not modelled.
- `Operators.FilterKeepsAccepted`: the predicate of `filter` is a total Dafny function, and only its truthiness is kept. A predicate that throws is not modelled.
- `MergeOperator.SubscribeInnerBehaviour`: inners are subscribed with downstream handlers that never throw. The merge records the downstream calls in `out` instead of calling user code.
- `Subscriptions.Handler`: a user handler's reaction depends only on the value it is given. A handler with state of its own, such as one that throws on its third call with the same value, cannot be represented.
- `Operators.Take`, `Operators.Drop`, `MergeOperator.Merge`: `num` is an integer (or `Unbounded` for `merge`), while JavaScript accepts any number. A fractional `num` above zero behaves like its ceiling, because the counters and `active < num` compare against it; a negative fraction behaves like `-1`. `NaN` fails `num>=0`, so `take(NaN)` is `take(-1)`, `drop(NaN)` is `drop(-1)` and `merge(NaN)` is `Bound(0)`. `take(Infinity)` and `drop(Infinity)` behave like a counter larger than the trace; only `merge` has an `Infinity` case of its own.
- `merge()` with `num` undefined is left out. Since `active < undefined` is false, it behaves like `Bound(0)`, which the model also covers.
- Inner subscription handles, and the `open`, `started`, `released` and `nextHandle` fields of the merge state, are bookkeeping for stating properties. The source keeps the `{unsubscribe}` object itself.
- `Delay.Normalize`: a delay argument that is neither a number nor a `Date` (a string, say) is coerced by `-` in ways the model does not follow; only numbers, `Date` time values and an omitted delay are modelled.
- `Delay.PeriodicPlan`: the interval is a number; a non-number interval coerced by `Math.max` is not modelled. JavaScript numbers are modelled as reals, infinities and NaN, without rounding to double precision.

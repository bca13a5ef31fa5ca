# mockeasy, modelled in Dafny

mockeasy replaces every exported function of a loaded Node module with a
programmable mock. Each mock keeps a FIFO queue of scheduled behaviours
(`{times, callback}`) and an `alwaysOn` lock. Calling the mock uses up one
unit of the head behaviour and runs its callback. `times`, `once`, `always`
and `never` append to the queue, and `reset` empties it. Failures are
classified as fatal or not; under the default `exitOnFatalError` policy a
fatal one ends the process with status 999.

The project has these modules:

- `MockEasyErrors` (`mock_easy_error.dfy`): the four kind tags, `getMessage`, and the error value with `where()` and `toString()`.
- `Outcomes` (`outcomes.dfy`): what a thrown value is, how a callback ends, and the escalation rule.
- `Schedule` (`schedule.dfy`): the mock's state machine as values. It holds the queue invariant, one invocation (`Advance`), `times` (`TimesStep`), and a reference schedule (`ServedAt`) that the FIFO lemmas compare against.
- `Mockeasy` (`mockeasy.dfy`): the imperative engine. `Mock` is a class whose fields are the closure state `queue` and `alwaysOn`. `Engine` holds the process-wide `wasMocked` registry and the `exitOnFatalError` flag. `Module` holds a module's properties. `ResetModules` is module-level `reset`.
- `Scenarios` (`scenarios.dfy`): client methods in the shape of the test suite. Each builds a fresh engine and mock and states what the calls return.

Modelling choices:

- A count is `Finite(n)` or `Unbounded`, which stands for `Infinity`. Decrementing `Unbounded` leaves it `Unbounded`, as `Infinity - 1` does.
- A callback is opaque. `User(id)` is run through a total function `run(id, args)`, which gets exactly the invocation's arguments. `Never(m, f)` is the engine's own callback, installed by `never()`.
- Kind tags are strings, as in the source, so the default `'General Error'` branch is reachable.
- A mock reads the fatal-error policy from the `Engine` it is called with, at the moment it is called.
- `stub` takes the module's resolved path and base name as parameters.
- `times` checks the lock before the count (`lib/index.js:131-137`).

## Model

| member | source | states |
|---|---|---|
| MockEasyErrors.GetMessage | lib/MockEasyError.js:2-15 | the message is `'General Error'` exactly when the tag is none of the four kinds |
| MockEasyErrors.MockEasyError.Where | lib/MockEasyError.js:34-36 | the location is the module name, then `.`, then the function name, each recoverable by position |
| MockEasyErrors.Create | lib/MockEasyError.js:25-33 | the constructor stores module and function names unchanged, and `toString()` is the kind's message |
| MockEasyErrors.KindsDistinct | lib/MockEasyError.js:39-42 | the four kind tags are pairwise distinct |
| MockEasyErrors.MessageEmbedsLocation | lib/MockEasyError.js:4-9 | each location-naming message is its template's lead, then `where()`, then its template's tail |
| MockEasyErrors.IncorrectTimeMessageIsConstant | lib/MockEasyError.js:10-11 | the incorrect-time-definition message is `'times must be equal or greater than 1'` for any names |
| MockEasyErrors.LocationMessagesDiffer | lib/MockEasyError.js:4-9 | two location-naming kinds never produce the same message, whatever the names |
| MockEasyErrors.MessageIdentifiesKind | lib/MockEasyError.js:2-15 | equal messages of known kinds imply equal kinds, so comparing messages identifies the broken rule |
| MockEasyErrors.MessageIdentifiesLocation | lib/MockEasyError.js:4-9 | for one location-naming kind, equal messages imply equal `where()` |
| Outcomes.Escalate | lib/index.js:79-101 | the result is an exit with 999 exactly when the policy is exit-on-fatal and the error is a MockEasyError or a TypeError; otherwise the original error is rethrown |
| Outcomes.Deliver | lib/index.js:77-101 | a callback's return value reaches the caller unchanged; a throw goes through the error handler |
| Outcomes.RunCallback | lib/index.js:119-122 | a user callback gets exactly the invocation's arguments; the `never()` callback throws illegal-invocation for its mock |
| Schedule.Consume | lib/index.js:70-75 | only the head's count goes down by one; the head is removed exactly when its count was 1; the other entries stay unchanged; an unbounded head is never removed |
| Schedule.Advance | lib/index.js:65-75 | an invocation keeps the lock, leaves an empty queue alone, and preserves the queue invariant |
| Schedule.Respond | lib/index.js:61-102 | an empty queue gives a not-defined error for this mock, escalated; otherwise the head callback's outcome on the same arguments |
| Schedule.TimesStep | lib/index.js:130-148 | rejects when locked, before checking the count; then rejects a count below 1; otherwise appends exactly one entry at the tail and sets the lock iff the count is unbounded; preserves the invariant |
| Schedule.ServedAfterAdvance | lib/index.js:70-75 | one invocation shifts the reference schedule by one position |
| Schedule.ServedInOrder | lib/index.js:65-77 | the k-th invocation runs exactly the callback that the count-based reference schedule assigns to position k (FIFO) |
| Schedule.RunKeepsLock | lib/index.js:70-75 | any number of invocations keeps the lock flag and the queue invariant |
| Schedule.FiniteScheduleExhausts | lib/index.js:70-75 | with the lock unset, the queue runs out exactly after as many invocations as its counts add up to |
| Schedule.LockedScheduleNeverRunsOut | lib/index.js:70-75 | with the lock set, no invocation is not-defined, and past the finite counts every invocation runs the unbounded last entry |
| Schedule.TimesThenExhausted | lib/index.js:130-148 | `times(cb, n)` on a reset mock serves `cb` to exactly the next n invocations and then leaves the queue empty |
| Schedule.OnceThenAlwaysOrder | lib/index.js:114-128 | `once(a).always(b)` on a reset mock runs a on the first invocation and b on every later one |
| Schedule.NeverForbidsInvocation | lib/index.js:119-124 | after `never()`, once the earlier entries are used up, every invocation with any arguments meets illegal-invocation, escalated |
| Mockeasy.Mock.constructor | lib/index.js:54-59 | a new mock has an empty queue and no lock, and carries its module and function names |
| Mockeasy.Mock.Invoke | lib/index.js:61-102 | the new state is one `Advance` of the old one, whatever the callback does (the unit is used before the callback runs); the result is `Respond` on the old state under the engine's current policy; the invariant is kept |
| Mockeasy.Mock.Reset | lib/index.js:104-108 | the queue becomes empty and the lock unset; returns the mock |
| Mockeasy.Mock.Times | lib/index.js:130-148 | a rejection (lock first, then count below 1) leaves the state unchanged; a success appends `{count, callback}`, sets the lock iff the count is unbounded, and returns the mock |
| Mockeasy.Mock.Once | lib/index.js:114-117 | behaves as `times(callback, 1)` |
| Mockeasy.Mock.Always | lib/index.js:126-128 | behaves as `times(callback, Infinity)` |
| Mockeasy.Mock.Never | lib/index.js:119-124 | behaves as `times` with Infinity and the illegal-invocation callback |
| Mockeasy.Engine.constructor | lib/index.js:8-9 | initially no path is stubbed and the policy is exit-on-fatal |
| Mockeasy.Engine.IgnoreFatalErrors | lib/index.js:12-15 | only clears the exit-on-fatal flag; returns the engine |
| Mockeasy.Engine.Stub | lib/index.js:17-38 | a path already stubbed is rejected, and neither the registry nor any property changes; otherwise the path is recorded and every function property is replaced by a fresh unscheduled mock named after it; other properties stay unchanged |
| Mockeasy.ResetModules | lib/index.js:40-52 | every mock among the function properties of every given module ends unscheduled; nothing else is modified |
| Scenarios.ArgumentsForwarded | test/mockeasy.spec.js:19-26 | `always(cb)` then a call: the caller gets `cb`'s outcome on exactly the call's arguments |
| Scenarios.TimesTwiceThenNotDefined | test/mockeasy.spec.js:41-53 | `times(cb, 2)`: two calls run `cb`, and the third raises not-defined |
| Scenarios.OnceThenAlways | test/mockeasy.spec.js:87-107 | `once(a).always(b)`: the first call runs a, and the next calls run b |
| Scenarios.AlwaysLocks | test/mockeasy.spec.js:69-78 | `once` after `always` is rejected as invocation-will-never-be-reached |
| Scenarios.CountBelowOneRejected | lib/index.js:135-137 | `times(cb, 0)` and `times(cb, -1)` raise incorrect-time-definition, and `times(cb, 1)` succeeds |
| Scenarios.NeverRejectsInvocation | test/mockeasy.spec.js:80-85 | a call after `never()` raises illegal-invocation |
| Scenarios.ResetForgetsSchedule | test/mockeasy.spec.js:109-120 | `always(cb).reset()`, then a call raises not-defined |
| Scenarios.DefaultPolicyExits | lib/index.js:94-98 | under the default policy, calling an unscheduled mock exits with 999 |
| Scenarios.StubTwiceRejected | lib/index.js:22-26 | the second `stub` of one path is rejected with `'[mockeasy Error] already stubbed ' + path` |
| Scenarios.ResetModuleClearsAll | test/mockeasy.spec.js:123-137 | after module-level `reset`, both stubbed functions raise not-defined |

## Left out

- Module identification through `require.cache` and `path.basename` is not modelled. `Engine.Stub` takes the resolved path and base name directly. The failure when no cache entry holds the module is not modelled either.
- `_.functions` and `_.isFunction` are not modelled as reflection. A module is a map from names to properties: a mock, a plain function, or a non-function value. A plain function that carries its own function-valued `reset` property (which module-level `reset` would call) is not represented.
- `Engine.Stub` replaces properties in an unspecified order. The source replaces them in enumeration order, which only shows in its console output.
- `console.warn`, `console.error` and `error.stack` are not modelled: logging has no functional effect. `process.exit(999)` becomes the result value `Exit(999)`.
- Counts are integers or `Unbounded`. JavaScript's `NaN` and fractional counts (such as 1.5) are not modelled: they pass the `count < 1` check but never reach `=== 0`.
- Callbacks are modelled as stateless: `run(id, args)` depends only on the callback and the arguments. A callback whose result or side effects differ from one call to the next (a counter, or the test suite's `wasInvoked` flags) is not represented, and `Scenarios.TimesTwiceThenNotDefined` equates its first two results only under this abstraction.
- A callback's own behaviour is abstracted by `run`. A callback that calls back into the engine (re-entrant invocation, rescheduling, `ignoreFatalErrors`) is not modelled.
- `Error.captureStackTrace` and the `extends Error` machinery are not modelled.
- The initial `queue = null` is merged with `[]`. `_.isEmpty` treats them alike, and `times` replaces `null` by `[]` before pushing.
- Concurrency is not modelled: the model is single-threaded, as the source is.

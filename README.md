# codeface pool worker — a Dafny model

codeface keeps a warm pool of idled editor apps on Heroku so that a user can
claim one without waiting for a cold deploy. The worker (`worker/worker.go`)
reconciles that pool on a timer. Each cycle has two phases:

- the add phase lists the pool and deploys up to `BatchSize` new apps, so
  that the number of apps built from the current template approaches
  `PoolSize`;
- the remove phase lists the pool again and deletes up to `BatchSize` apps
  built from an outdated template, oldest-listed first.

This project models that reconciliation and proves what it promises.

- `remote.dfy` (module `Remote`): the platform as abstract state. The class
  `Platform` holds the idled apps split into `current` and `other`, the id
  the next deploy gets, and the trace of every call made on it. Whether a
  call succeeds is fixed in advance by a fault script: the k-th call fails
  exactly when k is in `faults`. Its three methods, `List`, `Deploy` and
  `Delete`, stand for `editor.AllIdledApps`, `DeployEditorAndScaleDown` and
  `editor.DeleteApp`. A fourth, `RunGroup`, gives what the deploy group's
  `Run` returns; that outcome is scripted too (`groupErrors`), and a group
  without actors returns nil.
- `capacity.dfy` (module `Capacity`): the count arithmetic of both phases,
  written as in the code. The count is not clamped at zero, and the loop
  bound is what makes a negative count mean no deploy.
- `reconcile.dfy` (module `Reconcile`): one add phase, one remove phase, one
  cycle and a run of cycles, as functions of the platform state. It also
  holds the lemmas about them.
- `worker.dfy` (module `Worker`): the class `Worker` with `AddAppsToPool`,
  `RemoveOutdatedApps`, `Work` (the `work` closure) and `Start`. These are
  imperative methods with loops over the platform. Each is proved to leave
  the platform exactly as the matching `Reconcile` function says.

`Start`'s ticker and context are a sequence of events, `Tick` or `Done`.
`os.Stat` on the template directory is a boolean parameter, `templateExists`.

Three places where the code is easy to misread:

- The remove phase makes its own listing call (worker/worker.go:77). It does
  not reuse the add phase's snapshot.
- The remove phase is skipped when the add phase returns an error
  (worker/worker.go:52-55).
- The addition count is not saturated at zero. For a non-negative batch size
  this launches the same number of deploys as the saturating formula
  (`Capacity.DeploysMatchPlanner`).

## Model

| member | source | states |
|---|---|---|
| `Capacity.AddCount` | worker/worker.go:102-106 | the add count is at most `BatchSize` and at most `PoolSize - len(current)`, and equals one of them (the minimum, possibly negative) |
| `Capacity.RemoveCount` | worker/worker.go:82-86 | the remove count is at most `BatchSize` and at most `len(other)`, equals one of them, and is non-negative when `BatchSize` is |
| `Capacity.DeploysLaunched` | worker/worker.go:102-111 | the loop launches no deploy exactly when `BatchSize <= 0` or the pool is full; otherwise it launches `BatchSize` or the deficit |
| `Capacity.DeploysBounded` | worker/worker.go:102-111 | a full pool gets no deploy; otherwise the deploys never exceed the deficit; they never exceed a non-negative `BatchSize`; a negative `BatchSize` launches none |
| `Capacity.DeploysMatchPlanner` | worker/worker.go:102-111 | for `BatchSize >= 0` the deploys launched equal `min(BatchSize, max(0, PoolSize - len(current)))`; for a negative one the code launches none where that formula is negative |
| `Capacity.RemovalsBounded` | worker/worker.go:82-89 | for `BatchSize >= 0` the removal count is a valid slice bound `0 <= n <= len(other)`, is at most `BatchSize`, and falls below it only when it takes all outdated apps |
| `Remote.Platform.List` | worker/worker.go:77 | a listing either fails or returns the current and outdated apps as they stand, and is recorded in the trace |
| `Remote.Platform.Deploy` | worker/worker.go:113-115 | a successful deploy appends one fresh app to the current apps; a failed one changes no app; outdated apps are never touched |
| `Remote.Platform.Delete` | worker/worker.go:90 | a deletion removes that app if it succeeds, reports nothing to the caller, and leaves the pool alone when the app is not in it |
| `Remote.Platform.RunGroup` | worker/worker.go:121 | `g.Run()` returns the scripted group outcome, and nil for a group without actors |
| `Remote.ListApps` | worker/worker.go:97-100 | a listing succeeds exactly when the script says so, returns the current and outdated apps as they stand, changes no app and records one call |
| `Remote.DeployApp` | worker/worker.go:113-115 | a successful deploy appends one fresh id to the current apps; a failed one changes no app; outdated apps are never touched; one call is recorded |
| `Remote.DeleteApp` | worker/worker.go:90 | a successful deletion removes the app from the pool; a failed one changes nothing; no app is ever added; one call is recorded |
| `Reconcile.AddPhase` | worker/worker.go:96-126 | the add phase returns the listing error exactly when its listing fails, never touches outdated apps, only appends to the current apps and to the trace, and returns a deploy error only when its `n` is positive |
| `Reconcile.RemovePhase` | worker/worker.go:76-94 | the remove phase returns an error exactly when its listing call fails, and that error is the listing's; failed deletions never make it fail; it only appends to the trace |
| `Reconcile.Cycle` | worker/worker.go:51-60 | a cycle makes at least its first listing call and keeps every earlier call as it was |
| `Reconcile.Cycles` | worker/worker.go:65-72 | `k` cycles in a row make at least `k` calls and keep every earlier call |
| `Reconcile.TicksBeforeDone` | worker/worker.go:66-72 | the ticks counted are exactly the events before the first `Done`: all of them are ticks, the next one is `Done`, and there is one exactly when `Done` occurs |
| `Reconcile.DeployBatchTrace` | worker/worker.go:109-123 | `Reconcile.DeployBatch`, the `k` deploy actors: exactly `k` deploy calls, outdated apps left alone, at most `k` apps appended to the current apps, exactly `k` when every attempt succeeded |
| `Reconcile.AddPhaseListFailure` | worker/worker.go:97-100 | a failed listing ends the add phase with that error; no other call is made |
| `Reconcile.AddPhaseDeploys` | worker/worker.go:96-125 | after a successful listing the add phase makes exactly `max(0, min(BatchSize, PoolSize - len(current)))` deploy calls, none when the pool is full; it adds at most that many apps, so a pool at or below `PoolSize` never goes past it; an error is possible only when some deploy was launched |
| `Reconcile.AddPhaseNilDespiteFailedDeploy` | worker/worker.go:121-125 | the add phase returns what `g.Run()` returns, so it can return nil although a deploy attempt failed |
| `Reconcile.DeleteAllTrace` | worker/worker.go:89-91 | `Reconcile.DeleteAll`, the loop over the apps to delete: one delete call per app, for exactly those apps, in that order |
| `Reconcile.DeleteAllKeepsRest` | worker/worker.go:89-91 | deleting apps outside a tail of the outdated apps keeps that tail at the end, adds no app and leaves the current apps unchanged |
| `Reconcile.RemovePhaseListFailure` | worker/worker.go:77-80 | a failed listing ends the remove phase with that error, before any deletion |
| `Reconcile.RemovePhaseDeletesPrefix` | worker/worker.go:82-93 | after a successful listing exactly the first `min(BatchSize, len(other))` outdated apps are deleted, in listing order, each once; later outdated apps and all current apps are untouched; the phase returns nil |
| `Reconcile.CycleAddFailureSkipsRemoval` | worker/worker.go:51-55 | when the add phase returns an error the cycle ends with the add phase's state and makes no deletion |
| `Reconcile.CycleRemovesAfterAdd` | worker/worker.go:57-59 | when the add phase returns nil the cycle runs the remove phase, which starts with a listing call of its own |
| `Reconcile.CycleValid` | worker/worker.go:51-60 | a cycle keeps the pool a partition of distinct apps with ids below the next fresh id |
| `Reconcile.CyclesValid` | worker/worker.go:65-72 | any number of cycles in a row keep the pool a partition |
| `Reconcile.CyclesExtendTrace` | worker/worker.go:65-72 | the trace only grows: the calls of the first `j` cycles are a prefix of those of the first `k`, and each later cycle makes at least one call |
| `Worker.Worker.constructor` | worker/worker.go:24-36 | a worker holds its configuration and the platform it acts on |
| `Worker.Worker.AddAppsToPool` | worker/worker.go:96-126 | the add method, with its `for j := 0; j < n` loop, leaves the platform and returns the error exactly as `Reconcile.AddPhase` says |
| `Worker.Worker.RemoveOutdatedApps` | worker/worker.go:76-94 | the remove method deletes `otherVersion[0:n]` one app at a time and ends exactly as `Reconcile.RemovePhase` says |
| `Worker.Worker.Work` | worker/worker.go:51-60 | one run of the `work` closure leaves the platform as `Reconcile.Cycle` says |
| `Worker.Worker.Start` | worker/worker.go:44-74 | a missing template directory gives an error, zero cycles and no call; otherwise `1 +` (ticks before the first `Done`) cycles run one after another, and the result is cancellation (nil) exactly when `Done` arrives |

## Left out

- HTTP client and credentials (worker/worker.go:24-36), logging, `CheckInterval` and wall-clock timing: not modelled. The ticker is the `Tick` events. The configuration keeps only `BatchSize` and `PoolSize`.
- `os.Stat` on the template directory is the boolean `templateExists`. Errors from `os.Stat` other than "does not exist" are not distinguished.
- `Worker.Worker.Start`: without a `Done` event the source blocks forever. The model stops when the events run out and returns `Waiting`.
- `Worker.Worker.Start`: `time.NewTicker` (worker/worker.go:62) panics when `CheckInterval` is not positive, after the template check and before the first cycle. The model has no interval and assumes a positive one.
- `Capacity.AddCount`: Go's `int` is 64 bits, so `PoolSize - len(currentVersion)` (worker/worker.go:102) can wrap for an extreme `PoolSize`. The model's integers are unbounded and do not wrap.
- When a tick and cancellation are both ready, Go's `select` picks one at random. The event sequence fixes that choice in advance.
- The deploy fan-out: the `run.Group`, `context.WithCancel` and the `cancel()` interrupt (worker/worker.go:109-123) are concurrent. The model makes the `n` attempts one after another, each with its own outcome from the fault script. The interrupt calls `cancel()` whatever the exiting actor returned, so a sibling may be cut short by another actor's exit, successful or not; such an attempt counts as a failed attempt in the script.
- `Reconcile.AddPhaseDeploys`: what `g.Run()` returns is decided by the `oklog/run` library, which is not part of this model. The group's result is a scripted outcome of its own (`groupErrors`), except that a group without actors returns nil. So the model does not promise that a nil add phase means every deploy succeeded, nor that a failed attempt makes the phase fail (`Reconcile.AddPhaseNilDespiteFailedDeploy`).
- The `editor` package is not part of this model: `AllIdledApps`, `DeleteApp`, `NewDeployer` and `DeployEditorAndScaleDown`. Listing, deploy and delete are abstract calls with scripted outcomes. How apps are split into current and other is taken as given.
- A deploy that fails or is cancelled leaves no app in the model. The real platform may keep a half-created app.
- The platform changes only through the worker's calls. Other writers, such as a user claiming an app between two listings, are not modelled.
- A negative `BatchSize` makes the slice `otherVersion[0:n]` panic in Go. `BatchSize >= 0` is therefore a precondition of `RemoveOutdatedApps`, `Work` and `Start`. The add phase alone needs no such precondition, and with a negative `BatchSize` it deploys nothing.
- `cmd/cf-client/main.go`: a one-shot deploy command with no reconciliation logic. Not modelled.

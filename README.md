# invoker: the task orchestrator, modelled in Dafny

The Go package `invoker` runs a group of tasks together. Each task is a function
of a context that returns an error. The group runs in one of three modes:

- Run: wait for every task and return the first error.
- Race: return the first result, nil or not, and cancel the rest.
- Repeat: Run, flanked by a task (`Wait`) that keeps the group open until
  something fails or the context is cancelled.

The heart of the package is the `Tasks` struct in `tasks.go`. Its lifecycle is
Init → one live mode → Done. A mutex protects its fields, and a capacity-1
channel `done` carries the result to the caller.

The project has four files.

- `wrappers.dfy`: `Option`. `None` stands for Go's `nil`.
- `orchestrator.dfy`: module `Orchestrator`. The struct's fields, plus three ghost counters, form one value `State`. Each locked section is a step function on it:
  - `Add`;
  - the admission part of `do`, as `Start`;
  - `report`.

  So is the final receive of `do`, as `Await`, which runs outside the mutex.

  `Valid` is the invariant every reachable state keeps. For example, `running` equals the number of launched tasks that have not reported yet, and `done` is written at most once, exactly when the mode becomes Done.
- `traces.dfy`: module `Traces`. It covers any history of one orchestrator, meaning any interleaving of these steps as the mutex serialises them. It proves the following:
  - modes only move forward;
  - Done is final;
  - a recorded error or race result sticks;
  - Repeat only ends on an error;
  - what Run, Race and Repeat deliver once every launched task has reported, in any order.
- `invoker.dfy`: module `Invoker`. This is the class `Tasks`, with the struct's fields. Each method is written step by step as the Go code is, and is proved to move the object's state exactly as the matching step function does. `Add`, `Report` and the admission part of `Do` run under the mutex in Go. The launch loop of `do` (`LaunchAll`, `tasks.go:115-120`) and its final receive (`Await`, `tasks.go:127`) run after the unlock at `tasks.go:113`. The model treats each of those as one step too. After the class come client methods that replay the package's test situations with one admissible order of reports.

Launching a goroutine is modelled as adding the task to the ghost multiset
`inFlight`. Such a task is counted in `running` and reports exactly once.
Calling `ts.cancel()` is modelled as setting the boolean `cancelled`.

## Behaviour worth knowing

- Run and Repeat deliver the first error result (`tasks.go:66`, `tasks.go:76`), not the first outcome. A report is recorded only while no error is recorded yet (`tasks.go:162-164`), so a nil from an early task is overwritten by a later error. Race is different: it keeps the first outcome, nil or not (`tasks.go:170-173`). See `Orchestrator.Report`, `Traces.FirstError` and `Traces.DrainRunOrRepeat`.
- A Run or Race started with no tasks stays live. `do` sets the mode (`tasks.go:106`) before it finds there is nothing to run (`tasks.go:115-124`). The start returns ErrNoTasks, and the orchestrator is left in the live mode with `running == 0`, so any later start answers ErrRunning. `Orchestrator.Start` states this outright. Repeat never takes this path, because it always launches at least `Wait`.
- The cancel is deferred, so it also runs when `do` returns ErrNoTasks (`tasks.go:96`), and again after the final receive. Both the empty-start path and `Await` set `cancelled`.

## Model

| member | source | states |
|---|---|---|
| Orchestrator.New | tasks.go:42-46 | A new orchestrator is in Init, with exactly the given tasks pending, nothing running and no result, and it satisfies the invariant. |
| Orchestrator.Add | tasks.go:50-64 | In Init the tasks are appended, in order, to the pending list, and nothing is launched. In any other mode, Done included, `running` grows by the number of tasks and each one is launched, while the pending list is unchanged. Mode, recorded error, cancellation and channel never change. The invariant is kept. |
| Orchestrator.Launched | tasks.go:98-104 | A start launches exactly the pending tasks, in order. In Repeat it launches one more, a `Wait` appended at the end, even when a `Wait` is already pending. |
| Orchestrator.Start | tasks.go:81-124 | After Done a start answers ErrFinished, and in a live mode it answers ErrRunning, changing nothing in either case. From Init the start empties `pending`, enters the requested mode, sets `first`, counts and launches exactly the pending tasks (plus `Wait` in Repeat), and clears error and channel. It answers ErrNoTasks, with the deferred cancel done, exactly when nothing is launched. That happens only for Run and Race, and leaves the object live with `running == 0`. The invariant is kept. |
| Orchestrator.Report | tasks.go:154-191 | A report removes one launched task and decrements `running`. In Run/Repeat it keeps an already-recorded error, otherwise records the outcome, and cancels on every error. In Race the first report's outcome, nil or not, is the one kept, and every report cancels. In Done only the count changes. The result is sent if and only if the mode was live, nothing is left running and, in Repeat, an error is recorded. That send happens once, carries the recorded error and moves the mode to Done. Otherwise the mode and channel are untouched. The invariant is kept. |
| Orchestrator.Await | tasks.go:126-127 | The value received is the recorded result. Afterwards the channel is empty, the deferred cancel has run and the mode is Done. The invariant is kept. |
| Orchestrator.Outcome | tasks.go:130-152 | A returned error, or nil, is reported unchanged. A panic is reported as ErrPanic carrying its payload when panics are caught. With the package's `Panic` flag set, the deferred report runs with the nil error. |
| Traces.Step | tasks.go:50-191 | Every locked section keeps the invariant, moves the mode only forward and never takes back a send. |
| Traces.Replay | tasks.go:186-190 | Over any feasible history the invariant holds at the end, and the channel has been written at most once and read at most as often as written. |
| Traces.ModeMonotone | tasks.go:84-111 | Over any history the mode goes from Init to one live mode to Done, and never back. |
| Traces.DoneIsFinal | tasks.go:176-178 | Once Done, any history keeps the mode Done and the recorded error and sends nothing more, and every later start is refused with ErrFinished. |
| Traces.FirstErrorSticks | tasks.go:161-168 | In Run or Repeat, once an error is recorded, no later history replaces it. |
| Traces.RaceResultSticks | tasks.go:169-175 | In Race, once the first report is in, its outcome is the recorded result for every later history. |
| Traces.RepeatEndsOnlyOnError | tasks.go:185-190 | A Repeat either stays in Repeat or ends in Done with a non-nil error. It never finishes with nil. |
| Traces.FirstError | tasks.go:162-164 | The error kept from a report sequence is nil if and only if every outcome is nil. Otherwise it is the outcome of a report that only nil outcomes precede, that is, the earliest non-nil outcome. |
| Traces.ReportAll | tasks.go:154-158 | Applying a sequence of reports by launched tasks keeps the invariant, removes exactly those tasks from the in-flight multiset and lowers `running` by their number. |
| Traces.DrainIsReplay | tasks.go:154-191 | Reports by launched tasks, one after another, form a feasible history, and replaying it is applying the reports. |
| Traces.DrainRunOrRepeat | tasks.go:160-190 | When every in-flight task of a Run or Repeat reports, the recorded result is the earlier error if there is one, otherwise the first non-nil outcome. Cancellation happened if and only if some error was reported or it had already happened. A Run always ends Done with that result in the channel. A Repeat ends Done if and only if that result is an error, and otherwise stays in Repeat with nothing running and nothing sent. |
| Traces.DrainRace | tasks.go:169-190 | When every in-flight task of a Race reports, the result sent is the first report's outcome, nil or not, or the one already recorded if a report came earlier. The race is cancelled and Done. |
| Traces.RunDelivers | tasks.go:67-69 | For any non-empty task list and any order of their reports, a Run is admitted and ends Done with the first non-nil outcome as its result. |
| Traces.RaceDelivers | tasks.go:72-74 | For any non-empty task list and any order of their reports, a Race is admitted and ends Done with the first report's outcome as its result. |
| Traces.RepeatDelivers | tasks.go:77-79 | A Repeat is always admitted, even with no tasks, and launches the tasks plus `Wait`. Once all of them report, it ends Done with the first error if any task failed. If none failed it stays open, with nothing running and nothing sent. If `Wait` reports its cancellation, it ends Done. |
| Invoker.Tasks.constructor | tasks.go:42-46 | The new object's state is `Orchestrator.New` of the tasks. |
| Invoker.Tasks.Launch | tasks.go:61-63 | After the loop every one of the tasks is in flight, added to those already in flight. |
| Invoker.Tasks.LaunchAll | tasks.go:115-120 | Launching `tasks[1..]` on goroutines and then `tasks[0]` puts exactly the tasks in flight. |
| Invoker.Tasks.Add | tasks.go:50-64 | The object moves exactly as `Orchestrator.Add`, and keeps the invariant. |
| Invoker.Tasks.TakePending | tasks.go:98-111 | The launched list is the old pending list, plus `Wait` in Repeat. The object is live in the requested mode, with that many running, an empty pending list, `first` set and an empty channel. |
| Invoker.Tasks.Do | tasks.go:81-124 | The object and the answer are exactly `Orchestrator.Start`, and the invariant is kept. |
| Invoker.Tasks.Run | tasks.go:67-69 | `do` in Run mode: exactly `Orchestrator.Start` with Run. |
| Invoker.Tasks.Race | tasks.go:72-74 | `do` in Race mode: exactly `Orchestrator.Start` with Race. |
| Invoker.Tasks.Repeat | tasks.go:77-79 | `do` in Repeat mode: exactly `Orchestrator.Start` with Repeat. |
| Invoker.Tasks.Forget | tasks.go:158 | One running task fewer, and this one is no longer in flight. Nothing else changes. |
| Invoker.Tasks.Record | tasks.go:160-179 | The mode switch of `report` changes the object exactly as `Orchestrator.Record`. |
| Invoker.Tasks.Settle | tasks.go:181-190 | The end of `report` changes the object exactly as `Orchestrator.Settle`. |
| Invoker.Tasks.Report | tasks.go:154-191 | The object moves exactly as `Orchestrator.Report`, and keeps the invariant. |
| Invoker.Tasks.RunTask | tasks.go:130-152 | Running a task reports once, with `Orchestrator.Outcome` of how its body ended, and keeps the invariant. |
| Invoker.Tasks.Await | tasks.go:126-127 | The value received and the new state are exactly `Orchestrator.Await`. |

The client methods at the end of `invoker.dfy` carry no contract of their own.
Their assertions check concrete situations:

- `AddPendingScenario`: pending adds accumulate.
- `RunErrorScenario`: the first error wins and cancels.
- `RunAddScenario`: an add during a Run is launched and can decide it.
- `ReuseScenario`: a live object refuses a second start, and a finished one refuses reuse.
- `EmptyScenario`: an empty start answers ErrNoTasks and leaves the object live.
- `RaceFirstScenario`: a nil first result wins a race.
- `RepeatScenario`: Repeat is held open by `Wait`.
- `PanicScenario`: a caught panic becomes an ErrPanic result.

## Left out

- Goroutines, the mutex and the blocking receive on `done` are left out. Each locked section is one atomic step, and the interleavings are the histories of `Traces`. `Await` requires a value in the channel instead of blocking for one.
- Contexts are left out. The derived context, its parent and what a task observes of cancellation are not modelled. `cancel()` is the boolean `cancelled`, and a task's outcome is a parameter of `Report`/`RunTask`.
- Task bodies are left out, including `Wait`'s, which returns the context's error once cancelled. A task is an opaque identity, and what it returns is chosen by the caller of `Report`.
- The ordering in `do` is left out. `tasks[0]` runs on the caller's goroutine before the receive on `done`, but the model only records it as launched. Its report is one more event.
- The launch in `do` runs after the unlock (`tasks.go:113-120`), but the model puts every launched task in flight in the start step itself. An `Add` or a report can therefore not fall between the unlock and a launch. `running` already counts the tasks not yet launched (`tasks.go:111`), so no such report could send the result early.
- Invoker.Tasks.RunTask: with the `Panic` flag set, the model stops after the deferred report. Re-raising the panic is not modelled. On a spawned goroutine it ends the program. For `tasks[0]`, which runs on the caller's goroutine (`tasks.go:120`), it leaves `do`, and the caller may recover it.
- The stack that `debug.Stack()` captures and the `Error()`/`Stack()` methods of ErrPanic (`panic.go:14-20`) are left out. A panic's value is a number.
- The error message strings (`tasks.go:11-13`) are left out. Errors are the constructors of `Orchestrator.Error`.
- `running` is Go's `int`, but the model uses unbounded integers. A 64-bit overflow would need more than 2^63 tasks.
- Traces.DrainRunOrRepeat, Traces.DrainRace, Traces.RunDelivers, Traces.RaceDelivers, Traces.RepeatDelivers: these cover drains without an interleaved `Add`. Histories that mix adds and reports are covered only by the trace lemmas (`Step`, `Replay`, `ModeMonotone`, `DoneIsFinal`, the sticking lemmas).
- The rest of the package is not part of this model, because it is built on the orchestrator without changing it:
  - the top-level `Run`/`Race` helpers and `Wait` in `invoker.go`;
  - the tasks in `sleep.go`, `time.go`, `signal.go` and `context.go`.

# Task supervisor: a Dafny model

This project models the task supervisor of the Atlan API service, found in `handlers/tasks.go`. The supervisor starts long-running tasks, each identified by a UUID handle. Callers steer each task with three control signals: `start` (2), `pause` (1) and `kill` (0). Each signal goes over the task's own buffered channel.

The supervisor (`TaskHandler`) keeps two maps. `workers` maps a handle to its channel; `states` maps it to the last state the supervisor recorded. The runner goroutine `task` performs `cnt` steps. Before each step it looks at its channel:

- If the channel is empty, the step runs.
- A queued `start` is consumed and the step runs.
- A queued `kill` starts a rollback and ends the runner.
- A queued `pause` makes the runner receive until something other than `pause` arrives; that signal is then handled in the same way.

On every exit a deferred `closeRoutine` leaves the wait group and removes the handle from both maps. At shutdown, `main.go` sends `kill` to every task and waits on the wait group.

The model has three modules:

- **`Protocol`** (`protocol.dfy`) is the runner's signal handling as pure functions, with lemmas.
  - `Poll` is the check before a step. `Await` is the loop that blocks while paused.
  - `Execute(i, cnt, waiting, q, slice)` runs the step loop from index `i` against the channel contents `q`. It runs for at most `slice` iterations, after which the scheduler preempts it.
  - A runner that is paused and finds its channel empty returns `Wait` (`Suspended`); in Go it would block in the receive.
- **`Supervisor`** (`supervisor.dfy`) is the class `TaskHandler`.
  - Fields: `workers: map<string, seq<Signal>>` (each channel as a FIFO queue) and `states: map<string, Signal>`.
  - `runners` holds the locals of each task's goroutine: its ordinal, `cnt`, the loop index, and whether it is blocked in the pause loop.
  - `wg` is the wait-group counter, `counter` the package-level ordinal, and `rollbacks` the log of completed rollbacks.
  - There is one method per Go function. The invariant `Valid` says three things: the three maps have the same keys, `wg` equals the number of live runners, and every runner's frame is sound.
  - `Task(uuid, slice)` is the goroutine `task` given the processor for `slice` loop iterations. Runner progress therefore interleaves with supervisor calls at any loop boundary.
  - `Receive` and `RunSteps` are the loop bodies as heap-free methods, proved against `Poll` and `Execute`.
- **`Scenarios`** (`scenarios.dfy`) holds client sequences on a fresh handler, verified against the method contracts:
  - create, then pause, resume and kill, with the runner interleaved;
  - pausing twice;
  - pausing a task that has already been killed.

## Model

| member | source | states |
|---|---|---|
| Protocol.Await | handlers/tasks.go:133-145 | The pause loop blocks (`Wait`) exactly when only pauses are queued. Otherwise it consumes at least one signal. When it resumes, a kill is still queued after it exactly when one was queued before. |
| Protocol.Poll | handlers/tasks.go:131-146 | An empty channel of a runner that is not blocked lets the step run with nothing consumed. The runner blocks exactly when it is paused, or has a signal queued, and only pauses are queued. |
| Protocol.Execute | handlers/tasks.go:129-157 | The loop never goes past `cnt` and runs at most `slice` steps. It reports `Finished` exactly when the index reached `cnt`, and is preempted only once the slice is used up. A blocked runner has an empty channel. |
| Protocol.AwaitSkipsPauses | handlers/tasks.go:135-137 | Once a pause has been received, any number of further queued pauses are consumed without effect. |
| Protocol.AwaitFindsFirstNonPause | handlers/tasks.go:135-146 | The pause loop stops at the first signal that is not a pause. That signal decides the outcome: kill aborts, start resumes. The signals after it stay queued. |
| Protocol.KillStopsRunner | handlers/tasks.go:140-145 | A kill behind any number of pauses, whether the runner is blocked or not, aborts the runner before the step at its current index. No further step runs. |
| Protocol.PauseResumeKeepsProgress | handlers/tasks.go:129-148 | After a pause followed by a start, the runner continues with the step at its current index, not from step 0. This matches receiving the start directly. |
| Protocol.EmptyChannelRunsToEnd | handlers/tasks.go:129-131 | With nothing queued, a runner that is not blocked runs all its remaining steps and completes. |
| Protocol.SliceSplit | handlers/tasks.go:129-157 | Preemption between iterations is invisible. A slice of `a` followed by a slice of `b` gives the same result as one slice of `a + b`. A run that ended for another reason is not changed by a longer slice. |
| Protocol.KillQueuedRunnerExits | handlers/tasks.go:129-145 | A runner with a kill anywhere in its channel, and enough iterations for its remaining steps, always exits (completes or aborts). It never stays blocked. |
| Supervisor.RegisterKeepsConsistent | handlers/tasks.go:62-64 | Adding a fresh handle to all three maps, with one more wait-group member, keeps the registry invariant. |
| Supervisor.DeregisterKeepsConsistent | handlers/tasks.go:115-120 | Removing a registered handle from all three maps, with one fewer wait-group member, keeps the registry invariant. |
| Supervisor.UpdateKeepsConsistent | handlers/tasks.go:129-138 | Changing a registered handle's queue and runner frame (to a sound frame) keeps the registry invariant. |
| Supervisor.Receive | handlers/tasks.go:131-138 | The receive at the head of the loop body, including the nested `for state == pause` loop, gives the reaction `Poll` specifies for the queue as it was. |
| Supervisor.RunSteps | handlers/tasks.go:129-157 | The runner's `for` loop ends exactly as `Execute` specifies. |
| Supervisor.TaskHandler.constructor | handlers/tasks.go:51-55 | NewTaskHandler: both maps are empty, no runner is live, and the invariant holds. The wait group and the ordinal, which the handler shares with main and the package, start at zero as they do at process start. |
| Supervisor.TaskHandler.Send | handlers/tasks.go:82 | A send appends the signal to the back of that handle's queue and changes nothing else. |
| Supervisor.TaskHandler.CreateTask | handlers/tasks.go:58-70 | With a fresh handle: registers the queue `[start]`, the state start and a runner at step 0 whose id is the old ordinal. The wait group and the ordinal each go up by one. Other handles are unchanged, and the response carries the handle. |
| Supervisor.TaskHandler.PauseTask | handlers/tasks.go:73-86 | A task whose state is pause is answered "Already paused", with no signal sent and no change. Otherwise pause is appended to its queue and becomes its state. No other handle is touched. |
| Supervisor.TaskHandler.ResumeTask | handlers/tasks.go:89-102 | A task whose state is start is answered "Already runnning", with no change. Otherwise start is appended and becomes its state. No other handle is touched. |
| Supervisor.TaskHandler.DeleteTask | handlers/tasks.go:105-113 | Whatever the prior state (kill included), kill is appended to the queue and becomes the state, and the response is a success. |
| Supervisor.TaskHandler.CloseRoutine | handlers/tasks.go:115-120 | The handle leaves `workers`, `states` and the runners, and the wait group goes down by one. The invariant is kept. |
| Supervisor.TaskHandler.RollBack | handlers/tasks.go:162-169 | The rollback is logged and the wait group is back where it was (+1 then −1). Nothing else changes. |
| Supervisor.TaskHandler.Task | handlers/tasks.go:123-160 | The runner's result is `Execute` of its frame and queue. On completion or kill, the deferred closeRoutine has deregistered the handle, with the wait group down by exactly one. A rollback is logged on the kill path and only there. A blocked or preempted runner stays registered, with its index and remaining queue recorded. |
| Supervisor.TaskHandler.KillAllTask | handlers/tasks.go:172-176 | Every registered handle gets kill appended to its queue. The set of handles, the states and everything else are unchanged. |
| Supervisor.TaskHandler.Shutdown | main.go:53-55 | KillAllTask followed by waiting for every runner to exit leaves both maps and the runners empty, and the wait group at zero. The ordinal is unchanged. The rollback log keeps its old entries, and its new entries are exactly the handles whose runner aborts on the kill (`AbortsOnKill` of its old frame and queue), each once. |
| Supervisor.TaskHandler.Drain | handlers/tasks.go:123-160 | One runner with a kill queued, given the processor until it exits, deregisters. It rolls back exactly when `Execute` says it aborts. |
| Supervisor.StartDraining | handlers/tasks.go:172-176 | Right after KillAllTask, every handle holds its old queue plus the kill and its old frame, and no rollback is new yet. |
| Supervisor.DrainKeepsDraining | handlers/tasks.go:115-120 | One runner exiting during shutdown leaves the maps and joins the rollback log exactly when it aborts, so each handle is logged at most once. |
| Supervisor.PausedRunnerAbortsOnKill | handlers/tasks.go:129-145 | A runner with nothing but pauses queued, blocked or not, rolls back on the shutdown kill exactly when it has steps left. |
| Supervisor.TaskHandler.MiddlewareCheckTask | handlers/tasks.go:182-201 | An unknown id is answered "task for given uuid does not exits" and nothing changes. For a known id the endpoint runs: the task then holds the endpoint's target state. A pause or resume that finds that state already set sends nothing; every other call appends the target signal. |
| Scenarios.FirstSliceRunsStepZero | handlers/tasks.go:129-151 | A fresh runner given one iteration consumes the start that CreateTask sent and runs step 0. |
| Scenarios.PausedRunnerBlocks | handlers/tasks.go:133-137 | A runner that receives a pause with nothing behind it blocks before its next step. |
| Scenarios.ResumedRunnerContinues | handlers/tasks.go:135-151 | A runner blocked before step 1 that is sent start runs steps 1, 2 and 3. |
| Scenarios.KilledRunnerStops | handlers/tasks.go:140-145 | A runner that receives kill stops before its next step. |
| Scenarios.KilledThenPausedRunnerAborts | handlers/tasks.go:131-145 | With `[start, kill, pause]` queued, the runner runs step 0 and then aborts on the kill. The later pause is left unread. |
| Scenarios.PauseResumeKill | handlers/tasks.go:58-201 | Create; one step; pause; block; resume; three steps; kill; abort. Pause, resume and kill all succeed. The runner blocks before step 1, resumes at step 1 and is killed before step 4. It rolls back once, the wait group drains to zero, and a later pause on the id is rejected as unknown. |
| Scenarios.CreateAndStep | handlers/tasks.go:58-70 | Creating a task and giving its runner one iteration leaves it registered with state start, an empty queue and the next step 1. |
| Scenarios.PauseRunning | handlers/tasks.go:73-86 | Pausing that task and letting the runner run leaves it blocked before step 1, with state pause. |
| Scenarios.ResumeBlocked | handlers/tasks.go:89-102 | Resuming the blocked task and giving it three iterations leaves it at step 4 and no longer blocked. |
| Scenarios.KillRunning | handlers/tasks.go:105-120 | Killing the task before step 4 and running it makes the runner abort, roll back and deregister. A later pause is rejected as unknown. |
| Scenarios.PauseTwice | handlers/tasks.go:73-86 | The second pause answers "Already paused". Exactly one pause is queued after the initial start. |
| Scenarios.KillThenPause | handlers/tasks.go:75-109 | A killed task that is still registered can be paused again; the call succeeds and its state becomes pause. The runner still sees the kill first and aborts. |

Behaviour of the code that the model keeps, although a supervisor is usually expected to treat kill as final:

- Kill is not terminal. In the code, `PauseTask` tests only `== pause` and `ResumeTask` only `== start`, so a killed task that is still registered moves back to pause or start (`Scenarios.KillThenPause`). `DeleteTask` sends kill again on a task that was already killed.
- `KillAllTask` does not update `states`.
- The handlers behind the middleware assume the id is registered. `PauseTask`, `ResumeTask` and `DeleteTask` therefore require it, and `MiddlewareCheckTask` models the unknown-id path.

## Left out

- The channel's capacity of one (tasks.go:62). A Go send into a full channel blocks the sender. Here each channel is an unbounded queue, so a second signal sent before the runner receives the first does not block the HTTP handler or `KillAllTask`.
- The blocking receive while paused (tasks.go:135-137). A runner that finds its channel empty while paused returns `Suspended`. Calling `Task` again after more signals were sent resumes that receive.
- Goroutine scheduling. Runner progress interleaves with supervisor calls only between loop iterations, through `Task`'s `slice`, and each supervisor call is atomic. The unsynchronised map accesses and the races they allow are not modelled.
- `runtime.Gosched` (tasks.go:151) is covered only by the `slice` bound.
- Supervisor.TaskHandler.CreateTask: the runner's own `wg.Add(1)` (tasks.go:125) runs inside the goroutine, some time after `go t.task(...)`. The model counts it at creation. For the same reason, the rollback's `wg.Add(1)` (tasks.go:163) is counted at once when the rollback starts. The window in which `wg.Wait` could return before either goroutine has joined the wait group is therefore not represented.
- Supervisor.TaskHandler.RollBack: the rollback runs to completion in one atomic step. It does not run concurrently with the runner's `closeRoutine`.
- Supervisor.TaskHandler.constructor: NewTaskHandler receives the wait group from main (main.go:18-21), and the ordinal `counter` is a package-level variable (tasks.go:40) that NewTaskHandler does not touch. The model folds both into the handler and starts them at zero. This assumes one handler per process, which is how main.go uses it.
- Supervisor.TaskHandler.Shutdown: this stands for `wg.Wait` by running each runner until it exits. The 30-second shutdown timeout and the server shutdown (main.go:57-61) are left out.
- UUID generation (tasks.go:60-61) is a call into an external library. `CreateTask` takes the fresh handle as a parameter, with the precondition that it is not registered yet.
- `time.Sleep` (tasks.go:155, 167) and all logging. The step body itself is only a log line, so a step is just the index increment.
- HTTP and JSON: `JSONResponse`, the status codes, `mux.Vars` and the request context (tasks.go:25-38, 182-200). What remains is the `Response` record with its success flag, uuid, error and message strings.
- The router setup, server start and OS signal handling in main.go.

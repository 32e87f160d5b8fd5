/**
 Client sequences over the supervisor, each starting from a fresh handler:
 what the caller of the HTTP endpoints and the runner goroutine observe when
 their steps interleave in a given order. The runs of the runner that the
 sequences need are stated first.
 */
module Scenarios {
  import opened Protocol
  import opened Supervisor

  /** A fresh runner given one iteration runs step 0 on the start it was sent. */
  lemma FirstSliceRunsStepZero()
    ensures Execute(0, TaskSteps, false, [Start], 1) == Run(Preempted, 1, false, [])
  {
  }

  /** A runner that receives a pause with nothing behind it blocks before its next step. */
  lemma PausedRunnerBlocks()
    ensures Execute(1, TaskSteps, false, [Pause], TaskSteps) == Run(Suspended, 1, true, [])
  {
  }

  /** A blocked runner that is sent a start goes on with the step it was blocked before. */
  lemma ResumedRunnerContinues()
    ensures Execute(1, TaskSteps, true, [Start], 3) == Run(Preempted, 4, false, [])
  {
  }

  /** A runner that receives a kill stops before its next step. */
  lemma KilledRunnerStops()
    ensures Execute(4, TaskSteps, false, [Kill], TaskSteps) == Run(Aborted, 4, false, [])
  {
  }

  /** A runner killed and then paused still sees the kill first, after one step on the start. */
  lemma KilledThenPausedRunnerAborts()
    ensures Execute(0, TaskSteps, false, [Start, Kill, Pause], TaskSteps) == Run(Aborted, 1, false, [Pause])
  {
  }

  /**
   Create a task, let its runner take one step, pause it, let the runner run
   into the pause, resume it, let it take three more steps, kill it and let
   it see the kill. The runner blocks before step 1 and resumes with step 1
   (not step 0), is killed before step 4, rolls back once and deregisters,
   after which the id is unknown and the wait group is drained.
   */
  method PauseResumeKill() returns (paused: Response, first: Run, blocked: Run, resumed: Response,
                                     second: Run, killed: Response, last: Run, again: Response,
                                     rolled: seq<string>, pending: int)
    ensures paused == Ok && resumed == Ok && killed == Ok && again == NotFound
    ensures first == Run(Preempted, 1, false, [])
    ensures blocked == Run(Suspended, 1, true, [])
    ensures second == Run(Preempted, 4, false, [])
    ensures last == Run(Aborted, 4, false, [])
    ensures rolled == ["a"] && pending == 0
  {
    var t := new TaskHandler();
    first := CreateAndStep(t);
    paused, blocked := PauseRunning(t);
    resumed, second := ResumeBlocked(t);
    killed, last, again := KillRunning(t);
    rolled, pending := t.rollbacks, t.wg;
  }

  /** Creating the task "a" and giving its runner one iteration. */
  method CreateAndStep(t: TaskHandler) returns (first: Run)
    requires t.Valid() && "a" !in t.workers
    modifies t
    ensures first == Run(Preempted, 1, false, [])
    ensures t.Valid() && "a" in t.workers && t.workers["a"] == [] && t.states["a"] == Start
    ensures t.runners["a"] == Frame(old(t.counter), TaskSteps, 1, false)
    ensures t.wg == old(t.wg) + 1 && t.rollbacks == old(t.rollbacks)
  {
    var created := t.CreateTask("a");
    FirstSliceRunsStepZero();
    first := t.Task("a", 1);
  }

  /** Pausing the running task "a", due at step 1, and letting its runner run into the pause. */
  method PauseRunning(t: TaskHandler) returns (paused: Response, blocked: Run)
    requires t.Valid() && "a" in t.workers && t.workers["a"] == [] && t.states["a"] == Start
    requires t.runners["a"] == Frame(t.runners["a"].id, TaskSteps, 1, false)
    modifies t
    ensures paused == Ok && blocked == Run(Suspended, 1, true, [])
    ensures t.Valid() && "a" in t.workers && t.workers["a"] == [] && t.states["a"] == Pause
    ensures t.runners["a"] == Frame(old(t.runners["a"].id), TaskSteps, 1, true)
    ensures t.wg == old(t.wg) && t.rollbacks == old(t.rollbacks)
  {
    paused := t.MiddlewareCheckTask(PauseEndpoint, "a");
    PausedRunnerBlocks();
    blocked := t.Task("a", TaskSteps);
  }

  /** Resuming the task "a", blocked before step 1, and giving its runner three iterations. */
  method ResumeBlocked(t: TaskHandler) returns (resumed: Response, run: Run)
    requires t.Valid() && "a" in t.workers && t.workers["a"] == [] && t.states["a"] == Pause
    requires t.runners["a"] == Frame(t.runners["a"].id, TaskSteps, 1, true)
    modifies t
    ensures resumed == Ok && run == Run(Preempted, 4, false, [])
    ensures t.Valid() && "a" in t.workers && t.workers["a"] == [] && t.states["a"] == Start
    ensures t.runners["a"] == Frame(old(t.runners["a"].id), TaskSteps, 4, false)
    ensures t.wg == old(t.wg) && t.rollbacks == old(t.rollbacks)
  {
    resumed := t.MiddlewareCheckTask(ResumeEndpoint, "a");
    ResumedRunnerContinues();
    run := t.Task("a", 3);
  }

  /** Killing the running task "a" before step 4, letting its runner see it, and asking for "a" again. */
  method KillRunning(t: TaskHandler) returns (killed: Response, run: Run, again: Response)
    requires t.Valid() && "a" in t.workers && t.workers["a"] == [] && t.states["a"] == Start
    requires t.runners["a"] == Frame(t.runners["a"].id, TaskSteps, 4, false)
    modifies t
    ensures killed == Ok && run == Run(Aborted, 4, false, []) && again == NotFound
    ensures t.Valid() && "a" !in t.workers
    ensures t.wg == old(t.wg) - 1 && t.rollbacks == old(t.rollbacks) + ["a"]
  {
    killed := t.MiddlewareCheckTask(DeleteEndpoint, "a");
    KilledRunnerStops();
    run := t.Task("a", TaskSteps);
    again := t.MiddlewareCheckTask(PauseEndpoint, "a");
  }

  /** Pausing twice: the second call answers "Already paused", and exactly one pause is sent. */
  method PauseTwice() returns (once: Response, twice: Response, queued: seq<Signal>)
    ensures once == Ok && twice == AlreadyPaused
    ensures queued == [Start, Pause]
  {
    var t := new TaskHandler();
    var created := t.CreateTask("a");
    once := t.MiddlewareCheckTask(PauseEndpoint, "a");
    twice := t.MiddlewareCheckTask(PauseEndpoint, "a");
    queued := t.workers["a"];
  }

  /**
   Kill is not terminal for the supervisor: a task killed but not yet
   deregistered can be paused again and its state becomes pause. The runner
   still receives the kill first and aborts.
   */
  method KillThenPause() returns (paused: Response, state: Signal, run: Run)
    ensures paused == Ok && state == Pause
    ensures run == Run(Aborted, 1, false, [Pause])
  {
    var t := new TaskHandler();
    var created := t.CreateTask("a");
    var killed := t.MiddlewareCheckTask(DeleteEndpoint, "a");
    paused := t.MiddlewareCheckTask(PauseEndpoint, "a");
    state := t.states["a"];
    assert t.workers["a"] == [Start, Kill, Pause];
    KilledThenPausedRunnerAborts();
    run := t.Task("a", TaskSteps);
  }
}

/**
 The task supervisor of handlers/tasks.go: the `TaskHandler` registry, its
 HTTP-facing operations with the envelope stripped to the `Response` record,
 and the per-task runner goroutine.

 Each task's channel is a FIFO queue held in `workers`; `states` holds the
 supervisor's last-known state of each task. The goroutine that runs a task
 keeps its locals (the loop index and whether it is blocked in the pause
 loop) in `runners`, so that runner progress can be
 interleaved with supervisor calls. The wait group is the integer `wg`.
 */
module Supervisor {
  import opened Protocol

  /** The number of steps CreateTask asks every runner to perform (`cnt`). */
  const TaskSteps: nat := 10

  /**
   The locals of one runner goroutine: the ordinal `id` it was started with,
   its step count `cnt`, the index `i` of its next step (steps `0` to `i - 1`
   have run), and whether it is blocked in the pause loop.
   */
  datatype Frame = Frame(id: int, cnt: nat, i: nat, waiting: bool)

  /** A runner never passes its step count, and blocks only before one of its steps. */
  predicate FrameOk(f: Frame)
  {
    f.i <= f.cnt && (f.waiting ==> f.i < f.cnt)
  }

  /** The JSON envelope sent back to the client, without the HTTP status. */
  datatype Response = Response(success: bool, uuid: string, err: string, message: string)

  const Ok := Response(true, "", "", "")
  const AlreadyPaused := Response(true, "", "", "Already paused")
  const AlreadyRunning := Response(true, "", "", "Already runnning")
  const NotFound := Response(false, "", "task for given uuid does not exits", "")

  /** The handlers the router places behind the id check. */
  datatype Endpoint = PauseEndpoint | ResumeEndpoint | DeleteEndpoint

  /** The signal an endpoint sends and the state it leaves the task in. */
  function Target(e: Endpoint): Signal
  {
    match e
    case PauseEndpoint => Pause
    case ResumeEndpoint => Start
    case DeleteEndpoint => Kill
  }

  /**
   Every registered handle has a channel, a state and a live runner, every
   runner's frame is sound, and the wait group counts exactly those runners.
   */
  predicate Consistent(workers: map<string, seq<Signal>>, states: map<string, Signal>, runners: map<string, Frame>, wg: int)
  {
    && workers.Keys == states.Keys
    && runners.Keys == workers.Keys
    && wg == |runners.Keys|
    && forall h :: h in runners ==> FrameOk(runners[h])
  }

  /** Registering a fresh handle with a sound frame, and one more wait-group member, keeps the registry consistent. */
  lemma RegisterKeepsConsistent(workers: map<string, seq<Signal>>, states: map<string, Signal>, runners: map<string, Frame>, wg: int,
                                h: string, q: seq<Signal>, s: Signal, f: Frame)
    requires Consistent(workers, states, runners, wg) && h !in workers && FrameOk(f)
    ensures Consistent(workers[h := q], states[h := s], runners[h := f], wg + 1)
  {
  }

  /** Removing a registered handle from all three maps, and one wait-group member, keeps the registry consistent. */
  lemma DeregisterKeepsConsistent(workers: map<string, seq<Signal>>, states: map<string, Signal>, runners: map<string, Frame>, wg: int, h: string)
    requires Consistent(workers, states, runners, wg) && h in workers
    ensures Consistent(workers - {h}, states - {h}, runners - {h}, wg - 1)
  {
  }

  /**
   Whether a runner with locals `f` and queue `q`, sent one more kill and
   given the processor until it exits, aborts (and so rolls back) rather than
   completes its steps.
   */
  predicate AbortsOnKill(f: Frame, q: seq<Signal>)
  {
    Execute(f.i, f.cnt, f.waiting, q + [Kill], f.cnt).exit.Aborted?
  }

  /**
   A runner with steps left and nothing but pauses queued, blocked or not,
   aborts on the kill of a shutdown; a runner whose steps are all done never
   does.
   */
  lemma {:induction false} PausedRunnerAbortsOnKill(f: Frame, q: seq<Signal>)
    requires FrameOk(f) && AllPause(q)
    ensures AbortsOnKill(f, q) <==> f.i < f.cnt
  {
    if f.i < f.cnt {
      assert q == Pauses(|q|);
      assert q + [Kill] == Pauses(|q|) + [Kill] + [];
      KillStopsRunner(f.i, f.cnt, f.waiting, |q|, [], f.cnt);
    }
  }

  /** Replacing the queue and the frame of a registered handle with a sound frame keeps the registry consistent. */
  lemma UpdateKeepsConsistent(workers: map<string, seq<Signal>>, states: map<string, Signal>, runners: map<string, Frame>, wg: int,
                              h: string, q: seq<Signal>, f: Frame)
    requires Consistent(workers, states, runners, wg) && h in workers && FrameOk(f)
    ensures Consistent(workers[h := q], states, runners[h := f], wg)
  {
  }

  /**
   Shutdown part-way through: `w0`, `r0` and `log0` are the channels, runner
   locals and rollback log before the kill was sent to every channel. Each
   handle still registered holds its old queue plus the kill and its old
   locals; the log keeps `log0` as a prefix, and its new entries are the
   handles already gone whose runner aborted on the kill, each once.
   */
  ghost predicate Draining(w0: map<string, seq<Signal>>, r0: map<string, Frame>, log0: seq<string>,
                           workers: map<string, seq<Signal>>, runners: map<string, Frame>, log: seq<string>)
  {
    && w0.Keys == r0.Keys && workers.Keys <= w0.Keys
    && (forall h :: h in workers ==> h in runners && workers[h] == w0[h] + [Kill] && runners[h] == r0[h])
    && |log0| <= |log| && log[..|log0|] == log0
    && (forall h :: h in log[|log0|..] <==> h in r0 && h !in workers && AbortsOnKill(r0[h], w0[h]))
    && (forall j, k :: |log0| <= j < k < |log| ==> log[j] != log[k])
  }

  /** Right after the kill was sent to every channel, shutdown has drained nothing. */
  lemma StartDraining(w0: map<string, seq<Signal>>, r0: map<string, Frame>, log0: seq<string>, workers: map<string, seq<Signal>>)
    requires w0.Keys == r0.Keys == workers.Keys
    requires forall h :: h in workers ==> workers[h] == w0[h] + [Kill]
    ensures Draining(w0, r0, log0, workers, r0, log0)
  {
  }

  /**
   Letting one registered runner exit keeps the shutdown bookkeeping: its
   handle leaves the maps and joins the log exactly when it aborts.
   */
  lemma DrainKeepsDraining(w0: map<string, seq<Signal>>, r0: map<string, Frame>, log0: seq<string>,
                           workers: map<string, seq<Signal>>, runners: map<string, Frame>, log: seq<string>, h: string)
    requires Draining(w0, r0, log0, workers, runners, log) && h in workers
    ensures var aborted := Execute(runners[h].i, runners[h].cnt, runners[h].waiting, workers[h], runners[h].cnt).exit.Aborted?;
      Draining(w0, r0, log0, workers - {h}, runners - {h}, if aborted then log + [h] else log)
  {
    var aborted := Execute(runners[h].i, runners[h].cnt, runners[h].waiting, workers[h], runners[h].cnt).exit.Aborted?;
    assert aborted == AbortsOnKill(r0[h], w0[h]);
    var log' := if aborted then log + [h] else log;
    assert log'[..|log0|] == log[..|log0|];
    assert log'[|log0|..] == if aborted then log[|log0|..] + [h] else log[|log0|..];
  }

  /**
   The signal check at the head of the runner's loop body: when a signal is
   queued, or the runner is blocked in the pause loop, it receives, and after
   a pause it keeps receiving until a signal other than pause arrives. The
   reaction is the one `Poll` specifies, and what it leaves queued is what was
   not received.
   */
  method Receive(waiting: bool, q: seq<Signal>) returns (p: Reaction)
    ensures p == Poll(waiting, q)
  {
    var state: Signal;
    var ch := q;
    if waiting {
      state := Pause;
    } else if |ch| == 0 {
      return Proceed(ch);
    } else {
      state, ch := ch[0], ch[1..];
    }
    while state == Pause && |ch| > 0
      invariant state == Pause ==> Await(ch) == Poll(waiting, q)
      invariant state == Kill ==> Abort(ch) == Poll(waiting, q)
      invariant state == Start ==> Proceed(ch) == Poll(waiting, q)
      decreases |ch|
    {
      state, ch := ch[0], ch[1..];
    }
    if state == Pause {
      p := Wait;
    } else if state == Kill {
      p := Abort(ch);
    } else {
      p := Proceed(ch);
    }
  }

  /**
   The loop `for i < cnt { check the channel; step; i++ }` of the runner,
   from index `i` with channel contents `q`, for at most `slice` iterations.
   It ends as `Execute` specifies.
   */
  method RunSteps(i: nat, cnt: nat, waiting: bool, q: seq<Signal>, slice: nat) returns (r: Run)
    ensures r == Execute(i, cnt, waiting, q, slice)
  {
    var at, blocked, ch, left := i, waiting, q, slice;
    var stopped := false;
    r := Run(Finished, at, blocked, ch);
    while !stopped && at < cnt
      invariant i <= at
      invariant !stopped ==> Execute(at, cnt, blocked, ch, left) == Execute(i, cnt, waiting, q, slice)
      invariant stopped ==> r == Execute(i, cnt, waiting, q, slice)
      decreases if stopped then 0 else left + 1
    {
      if left == 0 {
        r, stopped := Run(Preempted, at, blocked, ch), true;
      } else {
        var p := Receive(blocked, ch);
        match p
        case Wait =>
          r, stopped := Run(Suspended, at, true, []), true;
        case Abort(rest) =>
          r, stopped := Run(Aborted, at, false, rest), true;
        case Proceed(rest) =>
          // the step itself (logging "value: i"), then i++
          at, blocked, ch, left := at + 1, false, rest, left - 1;
      }
    }
    if !stopped {
      r := Run(Finished, at, blocked, ch);
    }
  }

  class TaskHandler {
    var workers: map<string, seq<Signal>>
    var states: map<string, Signal>
    var runners: map<string, Frame>
    var wg: int
    /** The package-level task ordinal, used only for logging. */
    var counter: int
    /** The handles whose rollback has run, in order. */
    var rollbacks: seq<string>

    /** The registry invariant holds of the current maps and wait group. */
    ghost predicate Valid()
      reads this
    {
      Consistent(workers, states, runners, wg)
    }

    /** NewTaskHandler: empty maps, and a wait group and ordinal that start at zero. */
    constructor ()
      ensures Valid()
      ensures workers == map[] && states == map[] && runners == map[]
      ensures wg == 0 && counter == 0 && rollbacks == []
    {
      workers, states, runners := map[], map[], map[];
      wg, counter, rollbacks := 0, 0, [];
    }

    /** A send `t.workers[uuid] <- s`: the signal joins the back of the handle's queue. */
    method Send(uuid: string, s: Signal)
      requires uuid in workers
      modifies this
      ensures workers == old(workers)[uuid := old(workers[uuid]) + [s]]
      ensures states == old(states) && runners == old(runners)
      ensures wg == old(wg) && counter == old(counter) && rollbacks == old(rollbacks)
    {
      workers := workers[uuid := workers[uuid] + [s]];
    }

    /**
     CreateTask with the freshly generated handle `uuid`: registers a channel
     and the state start, starts the runner (which joins the wait group), sends
     start and bumps the ordinal. Entries of other handles are unchanged.
     */
    method CreateTask(uuid: string) returns (r: Response)
      requires Valid() && uuid !in workers
      modifies this
      ensures Valid()
      ensures r == Response(true, uuid, "", "")
      ensures workers == old(workers)[uuid := [Start]]
      ensures states == old(states)[uuid := Start]
      ensures runners == old(runners)[uuid := Frame(old(counter), TaskSteps, 0, false)]
      ensures wg == old(wg) + 1 && counter == old(counter) + 1 && rollbacks == old(rollbacks)
    {
      var f := Frame(counter, TaskSteps, 0, false);
      RegisterKeepsConsistent(workers, states, runners, wg, uuid, [Start], Start, f);
      // a fresh channel holding the start sent to it, the state start, and the
      // runner `go t.task(counter, ...)`, which joins the wait group on entry
      workers, states, runners, wg := workers[uuid := [Start]], states[uuid := Start], runners[uuid := f], wg + 1;
      counter := counter + 1;
      r := Response(true, uuid, "", "");
    }

    /**
     PauseTask on a registered handle: a task already in the state pause is
     left alone and answered "Already paused"; otherwise pause is sent and
     becomes its state. No other handle is touched.
     */
    method PauseTask(uuid: string) returns (r: Response)
      requires Valid() && uuid in workers
      modifies this
      ensures Valid()
      ensures old(states[uuid]) == Pause ==> r == AlreadyPaused && workers == old(workers) && states == old(states)
      ensures old(states[uuid]) != Pause ==>
        && r == Ok
        && workers == old(workers)[uuid := old(workers[uuid]) + [Pause]]
        && states == old(states)[uuid := Pause]
      ensures runners == old(runners) && wg == old(wg) && counter == old(counter) && rollbacks == old(rollbacks)
    {
      if states[uuid] == Pause {
        return AlreadyPaused;
      }
      Send(uuid, Pause);
      states := states[uuid := Pause];
      r := Ok;
    }

    /**
     ResumeTask on a registered handle: a task already in the state start is
     answered "Already runnning"; otherwise start is sent and becomes its state.
     */
    method ResumeTask(uuid: string) returns (r: Response)
      requires Valid() && uuid in workers
      modifies this
      ensures Valid()
      ensures old(states[uuid]) == Start ==> r == AlreadyRunning && workers == old(workers) && states == old(states)
      ensures old(states[uuid]) != Start ==>
        && r == Ok
        && workers == old(workers)[uuid := old(workers[uuid]) + [Start]]
        && states == old(states)[uuid := Start]
      ensures runners == old(runners) && wg == old(wg) && counter == old(counter) && rollbacks == old(rollbacks)
    {
      if states[uuid] == Start {
        return AlreadyRunning;
      }
      Send(uuid, Start);
      states := states[uuid := Start];
      r := Ok;
    }

    /** DeleteTask on a registered handle: sends kill and records it, whatever the state was. */
    method DeleteTask(uuid: string) returns (r: Response)
      requires Valid() && uuid in workers
      modifies this
      ensures Valid()
      ensures r == Ok
      ensures workers == old(workers)[uuid := old(workers[uuid]) + [Kill]]
      ensures states == old(states)[uuid := Kill]
      ensures runners == old(runners) && wg == old(wg) && counter == old(counter) && rollbacks == old(rollbacks)
    {
      Send(uuid, Kill);
      states := states[uuid := Kill];
      r := Ok;
    }

    /**
     closeRoutine, deferred by every runner: leaves the wait group and removes
     the handle from both maps (closing its channel).
     */
    method CloseRoutine(uuid: string)
      requires Valid() && uuid in workers
      modifies this
      ensures Valid()
      ensures workers == old(workers) - {uuid} && states == old(states) - {uuid}
      ensures runners == old(runners) - {uuid}
      ensures wg == old(wg) - 1 && counter == old(counter) && rollbacks == old(rollbacks)
    {
      DeregisterKeepsConsistent(workers, states, runners, wg, uuid);
      wg := wg - 1;
      workers := workers - {uuid};
      states := states - {uuid};
      runners := runners - {uuid};
    }

    /** rollBack: joins the wait group, performs the compensation, and leaves it again. */
    method RollBack(uuid: string)
      modifies this
      ensures rollbacks == old(rollbacks) + [uuid] && wg == old(wg)
      ensures workers == old(workers) && states == old(states) && runners == old(runners)
      ensures counter == old(counter)
    {
      wg := wg + 1;
      rollbacks := rollbacks + [uuid];
      wg := wg - 1;
    }

    /**
     The runner goroutine `task`, given the processor for at most `slice`
     iterations of its loop. Its result is the one `Execute` specifies for the
     runner's locals and queue as they were. When the loop completes or a kill
     is received, the deferred closeRoutine deregisters the handle and leaves
     the wait group exactly once, and a rollback runs only on the kill path.
     When the runner blocks in the pause loop or is preempted it stays
     registered with its progress kept.
     */
    method Task(uuid: string, slice: nat) returns (r: Run)
      requires Valid() && uuid in runners
      modifies this
      ensures Valid()
      ensures r == Execute(old(runners[uuid]).i, old(runners[uuid]).cnt, old(runners[uuid]).waiting, old(workers[uuid]), slice)
      ensures r.exit.Finished? || r.exit.Aborted? ==>
        && workers == old(workers) - {uuid} && states == old(states) - {uuid}
        && runners == old(runners) - {uuid} && wg == old(wg) - 1
      ensures r.exit.Suspended? || r.exit.Preempted? ==>
        && workers == old(workers)[uuid := r.rest] && states == old(states)
        && runners == old(runners)[uuid := old(runners[uuid]).(i := r.at, waiting := r.waiting)]
        && wg == old(wg)
      ensures rollbacks == if r.exit.Aborted? then old(rollbacks) + [uuid] else old(rollbacks)
      ensures counter == old(counter)
    {
      // The channel is read only by this runner, and no supervisor call runs
      // during this stretch, so the loop works on a copy written back at exit.
      var entry := runners[uuid];
      r := RunSteps(entry.i, entry.cnt, entry.waiting, workers[uuid], slice);
      match r.exit
      case Finished =>
        CloseRoutine(uuid);
      case Aborted =>
        // go t.rollBack(uuid); return -- then the deferred closeRoutine
        RollBack(uuid);
        CloseRoutine(uuid);
      case _ =>
        var f := entry.(i := r.at, waiting := r.waiting);
        UpdateKeepsConsistent(workers, states, runners, wg, uuid, r.rest, f);
        workers, runners := workers[uuid := r.rest], runners[uuid := f];
    }

    /** KillAllTask: sends kill to every registered handle; states are not updated. */
    method KillAllTask()
      requires Valid()
      modifies this
      ensures Valid()
      ensures workers.Keys == old(workers).Keys
      ensures forall h :: h in workers ==> workers[h] == old(workers[h]) + [Kill]
      ensures states == old(states) && runners == old(runners)
      ensures wg == old(wg) && counter == old(counter) && rollbacks == old(rollbacks)
    {
      var keys := workers.Keys;
      while keys != {}
        invariant keys <= workers.Keys == old(workers).Keys
        invariant forall h :: h in workers ==> workers[h] == if h in keys then old(workers[h]) else old(workers[h]) + [Kill]
        invariant states == old(states) && runners == old(runners)
        invariant wg == old(wg) && counter == old(counter) && rollbacks == old(rollbacks)
        decreases keys
      {
        var k :| k in keys;
        Send(k, Kill);
        keys := keys - {k};
      }
    }

    /**
     The shutdown sequence of main.go: KillAllTask, then waiting on the wait
     group, here by letting every runner run until it exits. Afterwards the
     registry is empty and the wait group is drained; the ordinal is kept, and
     the rollback log has grown by exactly the handles whose runner aborted on
     the kill, each once.
     */
    method Shutdown()
      requires Valid()
      modifies this
      ensures Valid()
      ensures workers == map[] && states == map[] && runners == map[] && wg == 0
      ensures counter == old(counter)
      ensures |old(rollbacks)| <= |rollbacks| && rollbacks[..|old(rollbacks)|] == old(rollbacks)
      ensures forall h :: h in rollbacks[|old(rollbacks)|..] <==> h in old(runners) && AbortsOnKill(old(runners[h]), old(workers[h]))
      ensures forall j, k :: |old(rollbacks)| <= j < k < |rollbacks| ==> rollbacks[j] != rollbacks[k]
    {
      ghost var w0, r0, log0 := workers, runners, rollbacks;
      KillAllTask();
      StartDraining(w0, r0, log0, workers);
      while workers != map[]
        invariant Valid() && counter == old(counter)
        invariant Draining(w0, r0, log0, workers, runners, rollbacks)
        decreases |runners.Keys|
      {
        var h :| h in workers;
        assert Kill in workers[h] by { assert workers[h][|w0[h]|] == Kill; }
        DrainKeepsDraining(w0, r0, log0, workers, runners, rollbacks, h);
        var aborted := Drain(h);
      }
      assert states.Keys == {} && runners.Keys == {};
    }

    /**
     One runner during shutdown: with a kill in its channel and the processor
     until it exits, it completes or aborts, and so deregisters; it rolls back
     exactly when it aborts.
     */
    method Drain(h: string) returns (aborted: bool)
      requires Valid() && h in workers && Kill in workers[h]
      modifies this
      ensures Valid()
      ensures aborted == Execute(old(runners[h]).i, old(runners[h]).cnt, old(runners[h]).waiting, old(workers[h]), old(runners[h]).cnt).exit.Aborted?
      ensures workers == old(workers) - {h} && states == old(states) - {h}
      ensures runners == old(runners) - {h} && wg == old(wg) - 1
      ensures rollbacks == if aborted then old(rollbacks) + [h] else old(rollbacks)
      ensures counter == old(counter)
    {
      var fr := runners[h];
      KillQueuedRunnerExits(fr.i, fr.cnt, fr.waiting, workers[h], fr.cnt);
      var r := Task(h, fr.cnt);
      aborted := r.exit.Aborted?;
    }

    /**
     MiddlewareCheckTask wrapped around the handler `next`: an id with no
     channel is rejected and nothing changes. A registered id is passed on:
     the task then holds the endpoint's target state; a pause or resume that
     finds that state already set answers so and sends nothing, every other
     call sends the target signal.
     */
    method MiddlewareCheckTask(next: Endpoint, id: string) returns (r: Response)
      requires Valid()
      modifies this
      ensures Valid()
      ensures id !in old(workers) ==> r == NotFound && workers == old(workers) && states == old(states)
      ensures id in old(workers) ==> states == old(states)[id := Target(next)]
      ensures id in old(workers) && next != DeleteEndpoint && old(states[id]) == Target(next) ==>
        && r == (if next == PauseEndpoint then AlreadyPaused else AlreadyRunning)
        && workers == old(workers)
      ensures id in old(workers) && (next == DeleteEndpoint || old(states[id]) != Target(next)) ==>
        && r == Ok
        && workers == old(workers)[id := old(workers[id]) + [Target(next)]]
      ensures runners == old(runners) && wg == old(wg) && counter == old(counter) && rollbacks == old(rollbacks)
    {
      if id !in workers {
        return NotFound;
      }
      match next
      case PauseEndpoint => r := PauseTask(id);
      case ResumeEndpoint => r := ResumeTask(id);
      case DeleteEndpoint => r := DeleteTask(id);
    }
  }
}

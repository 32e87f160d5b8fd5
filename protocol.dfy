/**
 The control-signal protocol between the supervisor and one task runner
 (handlers/tasks.go, the `task` loop).

 Before each of its `cnt` steps the runner looks at its channel without
 blocking. An empty channel never holds a step up. A queued `start` is
 consumed and the step runs; a queued `kill` ends the runner; a queued
 `pause` makes the runner receive again and again until something other than
 `pause` arrives, which is then handled like a signal received directly.
 While paused the Go receive blocks; here a channel that runs dry while
 paused yields the explicit reaction `Wait`.
 */
module Protocol {

  /** A control signal. The source encodes them as ints: start = 2, pause = 1, kill = 0. */
  datatype Signal = Kill | Pause | Start

  /** What the runner does after looking at its channel before a step. */
  datatype Reaction =
    | Proceed(rest: seq<Signal>)  // run the step; `rest` is what is still queued
    | Abort(rest: seq<Signal>)    // a kill was received: roll back and exit
    | Wait                        // paused and the channel is empty: the runner blocks

  predicate AllPause(q: seq<Signal>)
  {
    forall k :: 0 <= k < |q| ==> q[k] == Pause
  }

  /** `n` pause signals in a row. */
  function Pauses(n: nat): (q: seq<Signal>)
    ensures |q| == n && AllPause(q)
  {
    seq(n, _ => Pause)
  }

  /**
   The blocking receive loop while paused (`for state == pause { state = <-ch }`)
   followed by the kill test: pauses are consumed until a kill or a start
   arrives. The runner blocks exactly when only pauses are left, and every
   reaction other than `Wait` consumes at least one signal.
   */
  function Await(q: seq<Signal>): (r: Reaction)
    ensures r.Wait? <==> AllPause(q)
    ensures !r.Wait? ==> |r.rest| < |q|
    ensures r.Proceed? ==> (Kill in q <==> Kill in r.rest)
  {
    if |q| == 0 then Wait
    else if q[0] == Pause then
      assert q == [Pause] + q[1..];
      Await(q[1..])
    else if q[0] == Kill then Abort(q[1..])
    else
      assert q[0] == Start && q == [Start] + q[1..];
      Proceed(q[1..])
  }

  /**
   The check made before a step. A runner that is not blocked looks at its
   channel only when a signal is queued (`len(ch) > 0`); one that is blocked
   in the pause loop (`waiting`) goes on receiving. An empty channel lets the
   step run, and the runner blocks exactly when it is paused (or pops a pause)
   and nothing but pauses is queued.
   */
  function Poll(waiting: bool, q: seq<Signal>): (r: Reaction)
    ensures !waiting && q == [] ==> r == Proceed([])
    ensures r.Wait? <==> (waiting || q != []) && AllPause(q)
  {
    if waiting then Await(q)
    else if |q| == 0 then Proceed(q)
    else if q[0] == Pause then
      assert q == [Pause] + q[1..];
      Await(q[1..])
    else if q[0] == Kill then Abort(q[1..])
    else Proceed(q[1..])
  }

  /** How a stretch of the runner's loop ended. */
  datatype Exit =
    | Finished   // all `cnt` steps ran: the loop condition failed
    | Aborted    // a kill was received before step `at`
    | Suspended  // blocked in the pause loop before step `at`
    | Preempted  // the scheduler took the processor away before step `at`

  /**
   The outcome of running the loop: how it ended, the index `at` of the next
   step that would run, whether the runner is blocked in the pause loop, and
   what is left in its channel.
   */
  datatype Run = Run(exit: Exit, at: nat, waiting: bool, rest: seq<Signal>)

  /**
   The runner's loop `for i < cnt { poll; step; i++ }` from index `i`, with
   channel contents `q`, for at most `slice` iterations before the scheduler
   preempts it. Steps run in order from `i` without repetition, never past
   `cnt`, never more than `slice` of them; preemption happens only once the
   slice is used up; a kill or a block stops the loop before `cnt`.
   */
  function Execute(i: nat, cnt: nat, waiting: bool, q: seq<Signal>, slice: nat): (r: Run)
    ensures i <= r.at <= i + slice
    ensures i <= cnt ==> r.at <= cnt
    ensures r.exit.Finished? <==> cnt <= r.at
    ensures r.exit.Preempted? ==> r.at == i + slice
    ensures r.exit.Suspended? ==> r.waiting && r.rest == []
    decreases slice
  {
    if cnt <= i then Run(Finished, i, waiting, q)
    else if slice == 0 then Run(Preempted, i, waiting, q)
    else match Poll(waiting, q)
      case Wait => Run(Suspended, i, true, [])
      case Abort(rest) => Run(Aborted, i, false, rest)
      case Proceed(rest) => Execute(i + 1, cnt, false, rest, slice - 1)
  }

  /** Once a pause has been received, any number of further pauses are consumed without effect. */
  lemma {:induction false} AwaitSkipsPauses(n: nat, q: seq<Signal>)
    ensures Await(Pauses(n) + q) == Await(q)
  {
    if n > 0 {
      assert (Pauses(n) + q)[0] == Pause;
      assert (Pauses(n) + q)[1..] == Pauses(n - 1) + q;
      AwaitSkipsPauses(n - 1, q);
    } else {
      assert Pauses(n) + q == q;
    }
  }

  /**
   The pause loop ends at the first signal that is not a pause, and that
   signal alone decides whether the runner resumes or aborts.
   */
  lemma {:induction false} AwaitFindsFirstNonPause(q: seq<Signal>, j: nat)
    requires j < |q| && AllPause(q[..j]) && q[j] != Pause
    ensures Await(q) == if q[j] == Kill then Abort(q[j + 1..]) else Proceed(q[j + 1..])
  {
    if j > 0 {
      assert q[..j][0] == Pause;
      assert q[1..][..j - 1] == q[1..j];
      AwaitFindsFirstNonPause(q[1..], j - 1);
    }
  }

  /**
   Whether the runner is blocked or not, a kill behind any number of pauses
   stops it before the step at its current index: no further step runs.
   */
  lemma {:induction false} KillStopsRunner(i: nat, cnt: nat, waiting: bool, n: nat, q: seq<Signal>, slice: nat)
    requires i < cnt && 0 < slice
    ensures Execute(i, cnt, waiting, Pauses(n) + [Kill] + q, slice) == Run(Aborted, i, false, q)
  {
    var queued := Pauses(n) + [Kill] + q;
    assert ([Kill] + q)[0] == Kill && ([Kill] + q)[1..] == q;
    AwaitSkipsPauses(n, [Kill] + q);
    assert queued == Pauses(n) + ([Kill] + q);
    if !waiting && n > 0 {
      assert queued[0] == Pause;
      assert queued[1..] == Pauses(n - 1) + ([Kill] + q);
      AwaitSkipsPauses(n - 1, [Kill] + q);
    }
    assert Poll(waiting, queued) == Abort(q);
  }

  /**
   A pause followed by a resume (with any number of repeated pauses between)
   loses no progress: the runner goes on with the step at its current index,
   exactly as if it had received the start directly.
   */
  lemma {:induction false} PauseResumeKeepsProgress(i: nat, cnt: nat, waiting: bool, n: nat, q: seq<Signal>, slice: nat)
    requires i < cnt && 0 < slice
    ensures Execute(i, cnt, waiting, Pauses(n) + [Start] + q, slice) == Execute(i + 1, cnt, false, q, slice - 1)
  {
    var queued := Pauses(n) + [Start] + q;
    assert ([Start] + q)[0] == Start && ([Start] + q)[1..] == q;
    AwaitSkipsPauses(n, [Start] + q);
    assert queued == Pauses(n) + ([Start] + q);
    if !waiting && n > 0 {
      assert queued[0] == Pause;
      assert queued[1..] == Pauses(n - 1) + ([Start] + q);
      AwaitSkipsPauses(n - 1, [Start] + q);
    }
    assert Poll(waiting, queued) == Proceed(q);
  }

  /** With nothing queued, a runner that is not blocked runs every remaining step. */
  lemma {:induction false} EmptyChannelRunsToEnd(i: nat, cnt: nat, slice: nat)
    requires i <= cnt && cnt - i <= slice
    ensures Execute(i, cnt, false, [], slice) == Run(Finished, cnt, false, [])
    decreases cnt - i
  {
    if i < cnt {
      EmptyChannelRunsToEnd(i + 1, cnt, slice - 1);
    }
  }

  /**
   Preemption is invisible: running a slice of `a` iterations and then,
   if preempted, a slice of `b` gives the same result as one slice of `a + b`;
   a run that ended for another reason is not changed by a longer slice.
   */
  lemma {:induction false} SliceSplit(i: nat, cnt: nat, waiting: bool, q: seq<Signal>, a: nat, b: nat)
    ensures var r := Execute(i, cnt, waiting, q, a);
      Execute(i, cnt, waiting, q, a + b) == if r.exit.Preempted? then Execute(r.at, cnt, r.waiting, r.rest, b) else r
    decreases a
  {
    if cnt <= i || a == 0 {
    } else {
      match Poll(waiting, q)
      case Wait =>
      case Abort(rest) =>
      case Proceed(rest) =>
        assert a + b - 1 == (a - 1) + b;
        SliceSplit(i + 1, cnt, false, rest, a - 1, b);
    }
  }

  /**
   A runner with a kill somewhere in its channel and a slice long enough for
   its remaining steps always exits: it completes or it aborts, it is never
   left blocked or preempted.
   */
  lemma {:induction false} KillQueuedRunnerExits(i: nat, cnt: nat, waiting: bool, q: seq<Signal>, slice: nat)
    requires Kill in q && i <= cnt && cnt - i <= slice
    ensures Execute(i, cnt, waiting, q, slice).exit.Finished? || Execute(i, cnt, waiting, q, slice).exit.Aborted?
    decreases cnt - i
  {
    if i < cnt {
      var k :| 0 <= k < |q| && q[k] == Kill;
      assert !AllPause(q);
      match Poll(waiting, q)
      case Wait =>
      case Abort(rest) =>
      case Proceed(rest) =>
        assert Kill in rest by {
          if waiting || q[0] == Pause {
            var from := if waiting then q else q[1..];
            assert Kill in from by {
              if !waiting { assert k > 0 && from[k - 1] == Kill; }
            }
          } else {
            assert q[0] == Start && k > 0 && q[1..][k - 1] == Kill;
          }
        }
        KillQueuedRunnerExits(i + 1, cnt, false, rest, slice - 1);
    }
  }
}

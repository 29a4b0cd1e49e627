/** The scheduler of src/application.py: `schedule` appends a closure under the
    mutex, `_process_scheduled_tasks` takes a snapshot of the queue, clears it,
    and runs the snapshot outside the lock. Generic in the state `S` the tasks
    act on and the task type `T`. */
module TaskQueue {

  /** One entry of a drain's trace: the task that ran and whether it raised. */
  datatype Ran<T> = Ran(task: T, raised: bool)

  /** `schedule(callback)`: the new task goes to the tail; nothing already queued moves. */
  function Schedule<T>(queue: seq<T>, t: T): (q: seq<T>)
    ensures |q| == |queue| + 1
    ensures q[..|queue|] == queue && q[|queue|] == t
  {
    queue + [t]
  }

  /** The loop over a snapshot: every task runs once, in FIFO order, on the
      state the previous one left; a raising task is logged and the loop goes on. */
  function RunAll<S, T>(s: S, snapshot: seq<T>, run: (S, T) -> (S, bool)): (r: (S, seq<Ran<T>>))
    ensures |r.1| == |snapshot|
    ensures forall i :: 0 <= i < |snapshot| ==> r.1[i].task == snapshot[i]
    // an empty snapshot changes nothing; a single task runs on `s` and its flag is recorded
    ensures |snapshot| == 0 ==> r == (s, [])
    ensures |snapshot| == 1 ==> r == (run(s, snapshot[0]).0, [Ran(snapshot[0], run(s, snapshot[0]).1)])
    decreases |snapshot|
  {
    if |snapshot| == 0 then (s, [])
    else
      var step := run(s, snapshot[0]);
      var rest := RunAll(step.0, snapshot[1..], run);
      assert |snapshot| == 1 ==> [Ran(snapshot[0], step.1)] + rest.1 == [Ran(snapshot[0], step.1)];
      (rest.0, [Ran(snapshot[0], step.1)] + rest.1)
  }

  /** Running `a + b` is running `a` and then `b` from where `a` left off,
      whether or not any task of `a` raised. */
  lemma {:induction false} RunAllSplit<S, T>(s: S, a: seq<T>, b: seq<T>, run: (S, T) -> (S, bool))
    ensures RunAll(s, a + b, run).0 == RunAll(RunAll(s, a, run).0, b, run).0
    ensures RunAll(s, a + b, run).1 == RunAll(s, a, run).1 + RunAll(RunAll(s, a, run).0, b, run).1
    decreases |a|
  {
    if |a| == 0 {
      assert a + b == b;
    } else {
      var s1 := run(s, a[0]).0;
      var r1 := run(s, a[0]).1;
      assert (a + b)[0] == a[0];
      assert (a + b)[1..] == a[1..] + b;
      RunAllSplit(s1, a[1..], b, run);
      var mid := RunAll(s1, a[1..], run);
      var tail := RunAll(mid.0, b, run).1;
      calc {
        RunAll(s, a + b, run).1;
        [Ran(a[0], r1)] + RunAll(s1, a[1..] + b, run).1;
        [Ran(a[0], r1)] + (mid.1 + tail);
        ([Ran(a[0], r1)] + mid.1) + tail;
        RunAll(s, a, run).1 + tail;
      }
    }
  }

  /** A reflexive, transitive relation that every single task step keeps is
      kept by a whole drain. */
  lemma {:induction false} RunAllKeeps<S(!new), T(!new)>(s: S, snapshot: seq<T>, run: (S, T) -> (S, bool), R: (S, S) -> bool)
    requires forall x :: R(x, x)
    requires forall x, y, z :: R(x, y) && R(y, z) ==> R(x, z)
    requires forall x, t :: t in snapshot ==> R(x, run(x, t).0)
    ensures R(s, RunAll(s, snapshot, run).0)
    decreases |snapshot|
  {
    if |snapshot| > 0 {
      var s1 := run(s, snapshot[0]).0;
      RunAllKeeps(s1, snapshot[1..], run, R);
      assert RunAll(s, snapshot, run).0 == RunAll(s1, snapshot[1..], run).0;
      assert R(s, s1);
    }
  }

  /** The drain read task by task from the front: task `i` runs on the state
      the first `i` tasks leave, its trace entry carries the flag that run
      returned, and the state after it is the state that run returned. */
  lemma RunAllNth<S, T>(s: S, snapshot: seq<T>, run: (S, T) -> (S, bool), i: nat)
    requires i < |snapshot|
    ensures var before := RunAll(s, snapshot[..i], run).0;
            && RunAll(s, snapshot, run).1[i] == Ran(snapshot[i], run(before, snapshot[i]).1)
            && RunAll(s, snapshot[..i + 1], run).0 == run(before, snapshot[i]).0
  {
    var before := RunAll(s, snapshot[..i], run).0;
    assert snapshot[..i] + snapshot[i..] == snapshot;
    RunAllSplit(s, snapshot[..i], snapshot[i..], run);
    var tail := RunAll(before, snapshot[i..], run);
    assert tail.1[0] == Ran(snapshot[i], run(before, snapshot[i]).1);
    assert RunAll(s, snapshot, run).1[i] == tail.1[0];
    assert snapshot[..i] + [snapshot[i]] == snapshot[..i + 1];
    RunAllSplit(s, snapshot[..i], [snapshot[i]], run);
  }
}

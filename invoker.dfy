/**
 * The `Tasks` struct of tasks.go as a class. Each method is one atomic step: a
 * critical section run under the struct's mutex (`Add`, the admission of `Do`,
 * `Report`), or a part of `do` that runs after the unlock (the launch loop and the
 * final receive, `Await`). Each is written step by step as the Go code is, and proved
 * to move the object's state exactly as the matching step function of the
 * Orchestrator module does; the properties of those functions are in Traces.
 *
 * Launching a goroutine for a task becomes adding the task to the ghost multiset
 * `inFlight`: it is counted in `running` and will later call `Report` once.
 */
module Invoker {
  import opened Wrappers
  import O = Orchestrator

  class Tasks {
    var mode: O.Mode
    var pending: seq<O.Task>
    var running: int
    var first: bool
    var err: Option<O.Error>
    var cancelled: bool   // ts.cancel() has been called
    var done: Option<Option<O.Error>>  // the buffer of the capacity-1 channel

    // launched tasks that have not reported yet
    ghost var inFlight: multiset<O.Task>
    // values ever sent into and received from `done`
    ghost var sends: nat
    ghost var receives: nat

    /** The object's fields as a value of the pure model. */
    ghost function Snapshot(): O.State
      reads this
    {
      O.State(mode, pending, running, first, err, cancelled, done, inFlight, sends, receives)
    }

    ghost predicate Valid()
      reads this
    {
      O.Valid(Snapshot())
    }

    /** `New(tasks...)`. */
    constructor (tasks: seq<O.Task>)
      ensures Valid() && Snapshot() == O.New(tasks)
    {
      mode := O.Init;
      pending := tasks;
      running := 0;
      first := false;
      err := None;
      cancelled := false;
      done := None;
      inFlight := multiset{};
      sends, receives := 0, 0;
    }

    /** Launch each of `tasks`: afterwards each one is in flight. */
    method Launch(tasks: seq<O.Task>)
      modifies this`inFlight
      ensures inFlight == old(inFlight) + multiset(tasks)
    {
      for i := 0 to |tasks|
        invariant inFlight == old(inFlight) + multiset(tasks[..i])
      {
        assert tasks[..i + 1] == tasks[..i] + [tasks[i]];
        inFlight := inFlight + multiset{tasks[i]};
      }
      assert tasks[..|tasks|] == tasks;
    }

    /** The launch in `do`: a goroutine for each of tasks[1..], then tasks[0] on the caller's own. */
    method LaunchAll(tasks: seq<O.Task>)
      requires tasks != []
      modifies this`inFlight
      ensures inFlight == old(inFlight) + multiset(tasks)
    {
      Launch(tasks[1..]);
      inFlight := inFlight + multiset{tasks[0]};
      assert tasks == [tasks[0]] + tasks[1..];
    }

    /** `Add(tasks...)`: queue before a start, launch at once afterwards. */
    method Add(tasks: seq<O.Task>)
      requires Valid()
      modifies this
      ensures Valid() && Snapshot() == O.Add(old(Snapshot()), tasks)
    {
      if mode.Init? {
        pending := pending + tasks;
        return;
      }
      running := running + |tasks|;
      Launch(tasks);
    }

    /** `do(ctx, m)` up to the wait on `done`: admission, then the launch of every task. */
    method Do(m: O.Mode) returns (a: O.Admission)
      requires Valid() && m.IsLive()
      modifies this
      ensures Valid() && (Snapshot(), a) == O.Start(old(Snapshot()), m)
    {
      match mode {
        case Init =>
        case Done =>
          return O.Refused(O.ErrFinished);
        case _ =>
          return O.Refused(O.ErrRunning);
      }
      ghost var before := Snapshot();
      var tasks := TakePending(m);
      if |tasks| > 0 {
        LaunchAll(tasks);
        a := O.Admitted;
      } else {
        // returning ErrNoTasks runs the deferred cancel
        cancelled := true;
        a := O.Refused(O.ErrNoTasks);
      }
      assert before.inFlight == multiset{};
      assert Snapshot() == O.Start(before, m).0;
    }

    /** The locked part of `do` after the mode check: take over `pending` and go live in mode `m`. */
    method TakePending(m: O.Mode) returns (tasks: seq<O.Task>)
      modifies this
      ensures tasks == O.Launched(old(pending), m)
      ensures Snapshot() == old(Snapshot()).(mode := m, pending := [], done := None, first := true, running := |tasks|)
    {
      tasks := pending;
      pending := [];
      if m.Repeat? {
        // Wait keeps a Repeat open until its context is cancelled
        tasks := tasks + [O.Wait];
      }
      mode := m;
      done := None;
      first := true;
      running := |tasks|;
    }

    /** `Run(ctx)`. */
    method Run() returns (a: O.Admission)
      requires Valid()
      modifies this
      ensures Valid() && (Snapshot(), a) == O.Start(old(Snapshot()), O.Run)
    {
      a := Do(O.Run);
    }

    /** `Race(ctx)`. */
    method Race() returns (a: O.Admission)
      requires Valid()
      modifies this
      ensures Valid() && (Snapshot(), a) == O.Start(old(Snapshot()), O.Race)
    {
      a := Do(O.Race);
    }

    /** `Repeat(ctx)`. */
    method Repeat() returns (a: O.Admission)
      requires Valid()
      modifies this
      ensures Valid() && (Snapshot(), a) == O.Start(old(Snapshot()), O.Repeat)
    {
      a := Do(O.Repeat);
    }

    /** `report(e)`, called once by the launched task `t` when it ends. */
    method Report(t: O.Task, e: Option<O.Error>)
      requires Valid() && t in inFlight
      modifies this
      ensures Valid() && Snapshot() == O.Report(old(Snapshot()), t, e)
    {
      ghost var before := Snapshot();
      Forget(t);
      if mode.Done? {
        // a report after the result was sent only lowers the count
        return;
      }
      ghost var counted := Snapshot();
      Record(e);
      Settle();
      assert O.Report(before, t, e) == O.Settle(O.Record(counted, e));
    }

    /** The first step of `report`: one task fewer is running. */
    method Forget(t: O.Task)
      modifies this
      ensures Snapshot() == old(Snapshot()).(running := old(running) - 1, inFlight := old(inFlight) - multiset{t})
    {
      running := running - 1;
      inFlight := inFlight - multiset{t};
    }

    /** The switch of `report` on the mode: keep the outcome or not, cancel or not. */
    method Record(e: Option<O.Error>)
      modifies this
      ensures Snapshot() == O.Record(old(Snapshot()), e)
    {
      match mode {
        case Run | Repeat =>
          if err.None? {
            err := e;
          }
          if e.Some? {
            cancelled := true;
          }
        case Race =>
          if first {
            err := e;
            first := false;
          }
          cancelled := true;
        case _ =>
      }
    }

    /** The end of `report`: once nothing runs, send the result, unless Repeat has no error yet. */
    method Settle()
      modifies this
      ensures Snapshot() == O.Settle(old(Snapshot()))
    {
      if running > 0 {
        return;
      }
      if !mode.Repeat? || err.Some? {
        done := Some(err);
        sends := sends + 1;
        mode := O.Done;
      }
    }

    /**
     * `run(ctx, t)`: the task's body ends in `result`; the deferred function turns
     * a panic into an error unless `propagate` (the package's `Panic` flag) is set,
     * and reports once.
     */
    method RunTask(t: O.Task, result: O.TaskResult, propagate: bool)
      requires Valid() && t in inFlight
      modifies this
      ensures Valid() && Snapshot() == O.Report(old(Snapshot()), t, O.Outcome(result, propagate))
    {
      var e: Option<O.Error> := None;
      match result {
        case Returned(r) =>
          e := r;
        case Panicked(p) =>
          if !propagate {
            e := Some(O.ErrPanic(p));
          }
      }
      Report(t, e);
    }

    /** The end of `do`: receive from `done`, then the deferred cancel runs. */
    method Await() returns (v: Option<O.Error>)
      requires Valid() && done.Some?
      modifies this
      ensures Valid() && (Snapshot(), v) == O.Await(old(Snapshot()))
    {
      v := done.value;
      done := None;
      receives := receives + 1;
      cancelled := true;
    }
  }

  // ---------------------------------------------------------------------------
  // Client scenarios: the package's tests, with one admissible order of reports.

  /** Pending adds accumulate: 3 + 2 queued tasks are all launched by the start. */
  method AddPendingScenario() {
    var ts := new Tasks([]);
    ts.Add([O.User(0), O.User(1), O.User(2)]);
    ts.Add([O.User(3), O.User(4)]);
    assert ts.pending == [O.User(0), O.User(1), O.User(2), O.User(3), O.User(4)];
    var a := ts.Run();
    assert a == O.Admitted && ts.running == 5 && ts.pending == [];
    assert ts.inFlight == multiset{O.User(0), O.User(1), O.User(2), O.User(3), O.User(4)};
  }

  /** First error wins: later errors do not replace it, and it cancels the rest. */
  method RunErrorScenario() {
    var ts := new Tasks([O.User(0), O.User(1), O.User(2)]);
    var a := ts.Run();
    assert a == O.Admitted;
    ts.Report(O.User(1), Some(O.Failure(7)));
    assert ts.cancelled && ts.err == Some(O.Failure(7));
    ts.Report(O.User(0), Some(O.Canceled));
    ts.Report(O.User(2), Some(O.Canceled));
    var v := ts.Await();
    assert v == Some(O.Failure(7));
  }

  /** A task added during a live Run is launched and its error decides the Run. */
  method RunAddScenario() {
    var ts := new Tasks([O.User(0)]);
    var a := ts.Run();
    ts.Add([O.User(1)]);
    assert ts.running == 2;
    ts.RunTask(O.User(1), O.Returned(Some(O.Failure(1))), false);
    assert ts.cancelled && ts.mode.Run?;
    ts.RunTask(O.User(0), O.Returned(Some(O.Canceled)), false);
    var v := ts.Await();
    assert v == Some(O.Failure(1));
  }

  /** A finished orchestrator cannot be reused; a live one cannot be started twice. */
  method ReuseScenario() {
    var ts := new Tasks([O.User(0)]);
    var a := ts.Race();
    var b := ts.Run();
    assert b == O.Refused(O.ErrRunning);
    ts.Report(O.User(0), None);
    var v := ts.Await();
    var c := ts.Race();
    assert c == O.Refused(O.ErrFinished) && ts.mode.Done?;
  }

  /** Starting with no tasks fails, but leaves the object live, so a retry is "already running". */
  method EmptyScenario() {
    var ts := new Tasks([]);
    var a := ts.Run();
    assert a == O.Refused(O.ErrNoTasks) && ts.mode.Run? && ts.running == 0;
    var b := ts.Run();
    assert b == O.Refused(O.ErrRunning);
  }

  /** Race ends with the first result even when it is nil; a later error is ignored. */
  method RaceFirstScenario() {
    var ts := new Tasks([O.User(0), O.User(1)]);
    var a := ts.Race();
    ts.Report(O.User(1), None);
    assert ts.cancelled && !ts.first && ts.mode.Race?;
    ts.Report(O.User(0), Some(O.Canceled));
    var v := ts.Await();
    assert v.None?;
  }

  /** Repeat is held open by Wait when every task succeeds, and ends with the cancellation Wait reports. */
  method RepeatScenario() {
    var ts := new Tasks([O.User(0)]);
    var a := ts.Repeat();
    assert a == O.Admitted && ts.running == 2;
    ts.Report(O.User(0), None);
    assert ts.mode.Repeat? && ts.running == 1 && ts.done.None?;
    ts.Report(O.Wait, Some(O.Canceled));
    var v := ts.Await();
    assert v == Some(O.Canceled);
  }

  /** A caught panic is reported as an error and decides the Run. */
  method PanicScenario() {
    var ts := new Tasks([O.User(0)]);
    var a := ts.Run();
    ts.RunTask(O.User(0), O.Panicked(3), false);
    var v := ts.Await();
    assert v == Some(O.ErrPanic(3));
  }
}

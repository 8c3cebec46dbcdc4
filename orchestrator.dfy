/**
 * The orchestrator state machine of the invoker package (tasks.go) as pure values.
 *
 * Each of the three critical sections that change a `Tasks` struct under its mutex
 * (`Add`, the admission part of `do`, `report`) and the final receive of `do` is one
 * step function from state to state. The class in invoker.dfy is proved against them.
 */
module Orchestrator {
  import opened Wrappers

  /** tasks.go's `mode` enum: modeInit, modeRun, modeRace, modeRepeat, modeDone. */
  datatype Mode = Init | Run | Race | Repeat | Done {
    /** A mode in which tasks are executing and reports are aggregated. */
    predicate IsLive() {
      Run? || Race? || Repeat?
    }
  }

  /**
   * A task is opaque to the orchestrator: a caller's task, identified only by a
   * number, or the `Wait` task that Repeat appends (invoker.go).
   */
  datatype Task = User(id: nat) | Wait

  /** The error values the core produces or passes through. */
  datatype Error =
    | ErrRunning              // a start while another start is live
    | ErrFinished             // a start after the orchestration finished
    | ErrNoTasks              // a Run or Race start with nothing to run
    | Canceled                // context.Canceled, what Wait reports
    | ErrPanic(payload: nat)  // a panic caught by the barrier in `run`
    | Failure(code: nat)      // any other error a task returns

  /**
   * What the admission part of `do` decides: either it refuses at once with an
   * error, or it launches the tasks and the caller goes on to wait for `done`.
   */
  datatype Admission = Admitted | Refused(reason: Error)

  /** How a task's body ended: it returned an error (or nil), or it panicked. */
  datatype TaskResult = Returned(err: Option<Error>) | Panicked(payload: nat)

  /**
   * The fields of a `Tasks` struct. `cancelled` stands for "ts.cancel() has been
   * called", `done` for the contents of the capacity-1 channel. The last three
   * fields are bookkeeping the Go code does not store: the multiset of launched
   * tasks that have not reported yet, and how many values were ever sent into
   * and received from `done`.
   */
  datatype State = State(
    mode: Mode,
    pending: seq<Task>,
    running: int,
    first: bool,
    err: Option<Error>,
    cancelled: bool,
    done: Option<Option<Error>>,
    inFlight: multiset<Task>,
    sends: nat,
    receives: nat)

  /** Modes only move forward: Init to a live mode, a live mode to Done. */
  predicate Follows(a: Mode, b: Mode) {
    a == b || a.Init? || b.Done?
  }

  /** The invariant every reachable state keeps. */
  predicate Valid(s: State) {
    // `running` counts exactly the launched tasks that have not reported
    && s.running == |s.inFlight|
    // before a start nothing is launched, recorded, cancelled or sent
    && (s.mode.Init? ==> s.inFlight == multiset{} && s.err.None? && !s.cancelled && s.sends == 0)
    // after a start the pending list is never used again
    && (!s.mode.Init? ==> s.pending == [])
    // the channel is written at most once, exactly when the mode becomes Done
    && s.receives <= s.sends <= 1
    && (s.sends == 1 <==> s.mode.Done?)
    && (s.done.Some? <==> s.sends == 1 && s.receives == 0)
    && (s.done.Some? ==> s.done.value == s.err)
    // a recorded error in Run or Repeat has cancelled the siblings
    && ((s.mode.Run? || s.mode.Repeat?) && s.err.Some? ==> s.cancelled)
    // in Race, nothing is recorded before the first report, and it cancels
    && (s.mode.Race? && s.first ==> s.err.None?)
    && (s.mode.Race? && !s.first ==> s.cancelled)
  }

  /** `New(tasks...)`: a struct whose pending list is `tasks`, every other field zero. */
  function New(tasks: seq<Task>): (s: State)
    ensures Valid(s)
    ensures s.mode.Init? && s.pending == tasks && s.running == 0 && s.done.None?
  {
    State(Init, tasks, 0, false, None, false, None, multiset{}, 0, 0)
  }

  /**
   * `Add(tasks...)`: before a start the tasks are queued at the end of `pending`;
   * afterwards (also once finished) they are counted in `running` and launched.
   */
  function Add(s: State, tasks: seq<Task>): (r: State)
    requires Valid(s)
    ensures Valid(r)
    ensures r.mode == s.mode && r.err == s.err && r.first == s.first
    ensures r.cancelled == s.cancelled && r.done == s.done && r.sends == s.sends
    ensures s.mode.Init? ==> r.pending == s.pending + tasks && r.running == s.running && r.inFlight == s.inFlight
    ensures !s.mode.Init? ==>
              && r.pending == s.pending
              && r.running == s.running + |tasks|
              && r.inFlight == s.inFlight + multiset(tasks)
  {
    if s.mode.Init? then s.(pending := s.pending + tasks)
    else s.(running := s.running + |tasks|, inFlight := s.inFlight + multiset(tasks))
  }

  /** The tasks a start launches: the pending ones, and `Wait` at the end in Repeat. */
  function Launched(pending: seq<Task>, m: Mode): (ts: seq<Task>)
    ensures |ts| == |pending| + (if m.Repeat? then 1 else 0)
    ensures ts[..|pending|] == pending
    ensures m.Repeat? ==> ts[|pending|] == Wait
  {
    if m.Repeat? then pending + [Wait] else pending
  }

  /**
   * The admission part of `do(ctx, m)`, up to the point where the caller starts
   * waiting on `done`. A second start is refused without touching anything; a
   * first one takes over `pending` and becomes live even when there is nothing
   * to run, in which case it reports ErrNoTasks (and its deferred cancel runs).
   */
  function Start(s: State, m: Mode): (res: (State, Admission))
    requires Valid(s) && m.IsLive()
    ensures Valid(res.0)
    ensures s.mode.Done? ==> res == (s, Refused(ErrFinished))
    ensures s.mode.IsLive() ==> res == (s, Refused(ErrRunning))
    ensures s.mode.Init? ==>
              var r, ts := res.0, Launched(s.pending, m);
              && r.mode == m && r.pending == [] && r.first
              && r.running == |s.pending| + (if m.Repeat? then 1 else 0)
              && r.inFlight == multiset(ts)
              && r.err.None? && r.done.None? && r.sends == 0
              && r.cancelled == (ts == [])
              && res.1 == (if ts == [] then Refused(ErrNoTasks) else Admitted)
    ensures res.1 == Refused(ErrNoTasks) ==> s.mode.Init? && !m.Repeat? && res.0.mode == m && res.0.running == 0
  {
    if s.mode.Done? then (s, Refused(ErrFinished))
    else if !s.mode.Init? then (s, Refused(ErrRunning))
    else
      var ts := Launched(s.pending, m);
      var r := s.(mode := m, pending := [], done := None, first := true,
                  running := |ts|, inFlight := multiset(ts), cancelled := ts == []);
      (r, if ts == [] then Refused(ErrNoTasks) else Admitted)
  }

  /** A report that moves the state to Done, i.e. that sends into `done`. */
  predicate Finishes(s: State, r: State) {
    !s.mode.Done? && r.mode.Done?
  }

  /**
   * `report(e)` for the launched task `t`. Run and Repeat keep the first non-nil
   * error and cancel on every error; Race keeps the first outcome, nil or not, and
   * cancels on every report; Done only forgets the task. When nothing is left
   * running the result is sent, except in Repeat while no error is recorded.
   */
  function Report(s: State, t: Task, e: Option<Error>): (r: State)
    requires Valid(s) && t in s.inFlight
    ensures Valid(r)
    ensures r.running == s.running - 1 && r.inFlight == s.inFlight - multiset{t} && r.pending == s.pending
    ensures Follows(s.mode, r.mode) && r.sends >= s.sends
    ensures s.mode.Done? ==> r == s.(running := s.running - 1, inFlight := s.inFlight - multiset{t})
    ensures s.mode.Run? || s.mode.Repeat? ==>
              && r.err == (if s.err.Some? then s.err else e)
              && r.cancelled == (s.cancelled || e.Some?)
              && r.first == s.first
    ensures s.mode.Race? ==> r.err == (if s.first then e else s.err) && !r.first && r.cancelled
    ensures Finishes(s, r) <==> !s.mode.Done? && r.running == 0 && (!s.mode.Repeat? || r.err.Some?)
    ensures Finishes(s, r) ==> s.done.None? && r.done == Some(r.err) && r.sends == s.sends + 1
    ensures !Finishes(s, r) ==> r.mode == s.mode && r.done == s.done && r.sends == s.sends
  {
    var s1 := s.(running := s.running - 1, inFlight := s.inFlight - multiset{t});
    if s.mode.Done? then s1 else Settle(Record(s1, e))
  }

  /** The switch of `report` on a live mode: which outcome is kept, and whether to cancel. */
  function Record(s: State, e: Option<Error>): (r: State)
    ensures r.mode == s.mode && r.pending == s.pending && r.running == s.running && r.inFlight == s.inFlight
    ensures r.done == s.done && r.sends == s.sends && r.receives == s.receives
  {
    if s.mode.Run? || s.mode.Repeat? then
      s.(err := if s.err.None? then e else s.err, cancelled := s.cancelled || e.Some?)
    else if s.mode.Race? then
      s.(err := if s.first then e else s.err, first := false, cancelled := true)
    else
      s
  }

  /** The end of `report`: with nothing left running, send the result, unless Repeat has no error yet. */
  function Settle(s: State): (r: State)
    ensures r.pending == s.pending && r.running == s.running && r.inFlight == s.inFlight
    ensures r.err == s.err && r.first == s.first && r.cancelled == s.cancelled && r.receives == s.receives
  {
    if s.running > 0 then s
    else if !s.mode.Repeat? || s.err.Some? then s.(done := Some(s.err), mode := Done, sends := s.sends + 1)
    else s
  }

  /**
   * The end of `do`: receive the result from `done`, then the deferred cancel runs.
   * The value received is the recorded result, and the slot is empty afterwards.
   */
  function Await(s: State): (res: (State, Option<Error>))
    requires Valid(s) && s.done.Some?
    ensures Valid(res.0)
    ensures res.1 == s.err
    ensures res.0.mode.Done? && res.0.done.None? && res.0.cancelled
    ensures res.0 == s.(done := None, cancelled := true, receives := s.receives + 1)
  {
    (s.(done := None, cancelled := true, receives := s.receives + 1), s.done.value)
  }

  /**
   * The outcome `run` reports for a task. With panics caught (the default), a
   * panic becomes an ErrPanic error; with the `Panic` flag set, the deferred
   * report still runs, but with the nil `err`, before the panic goes on.
   */
  function Outcome(result: TaskResult, propagate: bool): (e: Option<Error>)
    ensures result.Returned? ==> e == result.err
    ensures result.Panicked? && !propagate ==> e == Some(ErrPanic(result.payload))
    ensures result.Panicked? && propagate ==> e.None?
  {
    match result
    case Returned(err) => err
    case Panicked(p) => if propagate then None else Some(ErrPanic(p))
  }
}

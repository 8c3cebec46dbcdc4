/**
 * Whole histories of one orchestrator: any interleaving of adds, starts, reports
 * and the final receive, one atomic step at a time, and the properties that
 * hold across them (mode only moves forward, the result is delivered at most
 * once, recorded results stick), together with what Run, Race and Repeat deliver
 * once every launched task has reported.
 */
module Traces {
  import opened Wrappers
  import opened Orchestrator

  /** One atomic step of the orchestrator: a critical section, or the receive at the end of `do`. */
  datatype Event =
    | AddEvent(tasks: seq<Task>)
    | StartEvent(m: Mode)
    | ReportEvent(task: Task, outcome: Option<Error>)
    | AwaitEvent

  /** What an event needs: a start names a live mode, only a launched task reports, a receive finds a value. */
  predicate Enabled(s: State, ev: Event) {
    Valid(s) &&
    match ev
    case AddEvent(_) => true
    case StartEvent(m) => m.IsLive()
    case ReportEvent(t, _) => t in s.inFlight
    case AwaitEvent => s.done.Some?
  }

  function Step(s: State, ev: Event): (r: State)
    requires Enabled(s, ev)
    ensures Valid(r) && Follows(s.mode, r.mode) && r.sends >= s.sends
  {
    match ev
    case AddEvent(ts) => Add(s, ts)
    case StartEvent(m) => Start(s, m).0
    case ReportEvent(t, e) => Report(s, t, e)
    case AwaitEvent => Await(s).0
  }

  /** Every event of `evs` is enabled in the state the ones before it lead to. */
  predicate Feasible(s: State, evs: seq<Event>)
    decreases |evs|
  {
    evs == [] || (Enabled(s, evs[0]) && Feasible(Step(s, evs[0]), evs[1..]))
  }

  /**
   * The state after the events `evs`. The invariant holds all along, so the
   * channel is written at most once over the whole history: the send counter
   * never goes down and never exceeds one.
   */
  function Replay(s: State, evs: seq<Event>): (r: State)
    requires Valid(s) && Feasible(s, evs)
    ensures Valid(r) && r.sends >= s.sends && r.sends <= 1 && r.receives <= r.sends
    decreases |evs|
  {
    if evs == [] then s else Replay(Step(s, evs[0]), evs[1..])
  }

  /** Modes only move forward over any history: Init, then one live mode, then Done. */
  lemma {:induction false} ModeMonotone(s: State, evs: seq<Event>)
    requires Valid(s) && Feasible(s, evs)
    ensures Follows(s.mode, Replay(s, evs).mode)
    decreases |evs|
  {
    if evs != [] {
      var s1 := Step(s, evs[0]);
      ModeMonotone(s1, evs[1..]);
    }
  }

  /**
   * Once Done, nothing changes the outcome: the mode stays Done, the recorded
   * error stays, no second value is sent, and later starts are refused.
   */
  lemma {:induction false} DoneIsFinal(s: State, evs: seq<Event>)
    requires Valid(s) && Feasible(s, evs) && s.mode.Done?
    ensures var r := Replay(s, evs); r.mode.Done? && r.err == s.err && r.sends == 1
    ensures forall m: Mode :: m.IsLive() ==> Start(Replay(s, evs), m).1 == Refused(ErrFinished)
    decreases |evs|
  {
    if evs != [] {
      DoneIsFinal(Step(s, evs[0]), evs[1..]);
    }
  }

  /** In Run and Repeat, once an error is recorded it is the one delivered: later events never replace it. */
  lemma {:induction false} FirstErrorSticks(s: State, evs: seq<Event>)
    requires Valid(s) && Feasible(s, evs)
    requires (s.mode.Run? || s.mode.Repeat?) && s.err.Some?
    ensures Replay(s, evs).err == s.err
    decreases |evs|
  {
    if evs != [] {
      var s1 := Step(s, evs[0]);
      if s1.mode.Done? {
        DoneIsFinal(s1, evs[1..]);
      } else {
        FirstErrorSticks(s1, evs[1..]);
      }
    }
  }

  /** In Race, once the first report is in, its outcome is the one delivered. */
  lemma {:induction false} RaceResultSticks(s: State, evs: seq<Event>)
    requires Valid(s) && Feasible(s, evs)
    requires s.mode.Race? && !s.first
    ensures Replay(s, evs).err == s.err
    decreases |evs|
  {
    if evs != [] {
      var s1 := Step(s, evs[0]);
      if s1.mode.Done? {
        DoneIsFinal(s1, evs[1..]);
      } else {
        RaceResultSticks(s1, evs[1..]);
      }
    }
  }

  /** A Repeat never finishes with a nil result: if it reaches Done, an error was recorded. */
  lemma {:induction false} RepeatEndsOnlyOnError(s: State, evs: seq<Event>)
    requires Valid(s) && Feasible(s, evs) && s.mode.Repeat?
    ensures var r := Replay(s, evs); r.mode.Repeat? || (r.mode.Done? && r.err.Some?)
    decreases |evs|
  {
    if evs != [] {
      var s1 := Step(s, evs[0]);
      if s1.mode.Done? {
        DoneIsFinal(s1, evs[1..]);
      } else {
        RepeatEndsOnlyOnError(s1, evs[1..]);
      }
    }
  }

  // ---------------------------------------------------------------------------
  // Draining: every launched task reports once, in some order, with no adds.

  /** The report of one finished task. */
  datatype Completion = Completion(task: Task, outcome: Option<Error>)

  function TasksOf(cs: seq<Completion>): (ts: seq<Task>)
    ensures |ts| == |cs|
  {
    if cs == [] then [] else [cs[0].task] + TasksOf(cs[1..])
  }

  /** The first non-nil outcome among the reports, in report order. */
  function FirstError(cs: seq<Completion>): (e: Option<Error>)
    ensures e.None? <==> forall i :: 0 <= i < |cs| ==> cs[i].outcome.None?
    ensures e.Some? ==> exists i :: 0 <= i < |cs| && cs[i].outcome == e && forall j :: 0 <= j < i ==> cs[j].outcome.None?
  {
    if cs == [] then None
    else if cs[0].outcome.Some? then cs[0].outcome
    else
      var e := FirstError(cs[1..]);
      assert forall i :: 1 <= i < |cs| ==> cs[i] == cs[1..][i - 1];
      e
  }

  /** The reports `cs`, applied one after the other. */
  function ReportAll(s: State, cs: seq<Completion>): (r: State)
    requires Valid(s) && multiset(TasksOf(cs)) <= s.inFlight
    ensures Valid(r)
    ensures r.inFlight == s.inFlight - multiset(TasksOf(cs)) && r.running == s.running - |cs|
    decreases |cs|
  {
    if cs == [] then s
    else ReportAll(Report(s, cs[0].task, cs[0].outcome), cs[1..])
  }

  /** The events that make up a drain. */
  function ReportEvents(cs: seq<Completion>): (evs: seq<Event>)
    ensures |evs| == |cs|
  {
    if cs == [] then [] else [ReportEvent(cs[0].task, cs[0].outcome)] + ReportEvents(cs[1..])
  }

  /** A drain is a history: it is feasible, and replaying it is applying the reports. */
  lemma {:induction false} DrainIsReplay(s: State, cs: seq<Completion>)
    requires Valid(s) && multiset(TasksOf(cs)) <= s.inFlight
    ensures Feasible(s, ReportEvents(cs)) && Replay(s, ReportEvents(cs)) == ReportAll(s, cs)
    decreases |cs|
  {
    if cs != [] {
      var evs := ReportEvents(cs);
      assert evs[1..] == ReportEvents(cs[1..]);
      var s1 := Report(s, cs[0].task, cs[0].outcome);
      assert Step(s, evs[0]) == s1;
      DrainIsReplay(s1, cs[1..]);
    }
  }

  /**
   * Run or Repeat, once every launched task has reported: the result is the error
   * already recorded, else the first non-nil reported one; siblings are cancelled
   * iff some error came in; Run always finishes, Repeat only with an error.
   */
  lemma {:induction false} DrainRunOrRepeat(s: State, cs: seq<Completion>)
    requires Valid(s) && (s.mode.Run? || s.mode.Repeat?)
    requires cs != [] && multiset(TasksOf(cs)) == s.inFlight
    ensures var r, e := ReportAll(s, cs), (if s.err.Some? then s.err else FirstError(cs));
            && r.running == 0 && r.err == e
            && r.cancelled == (s.cancelled || FirstError(cs).Some?)
            && (if s.mode.Run? || e.Some? then r.mode.Done? && r.done == Some(e)
                else r.mode.Repeat? && r.done.None?)
    decreases |cs|
  {
    var s1 := Report(s, cs[0].task, cs[0].outcome);
    if |cs| > 1 {
      assert s1.running > 0;
      assert multiset(TasksOf(cs[1..])) == s1.inFlight;
      DrainRunOrRepeat(s1, cs[1..]);
    }
  }

  /**
   * Race, once every launched task has reported: it has finished with the outcome
   * of the first report (nil or not) and cancelled the rest.
   */
  lemma {:induction false} DrainRace(s: State, cs: seq<Completion>)
    requires Valid(s) && s.mode.Race?
    requires cs != [] && multiset(TasksOf(cs)) == s.inFlight
    ensures var r, e := ReportAll(s, cs), (if s.first then cs[0].outcome else s.err);
            r.mode.Done? && r.done == Some(e) && r.err == e && r.cancelled && !r.first
    decreases |cs|
  {
    var s1 := Report(s, cs[0].task, cs[0].outcome);
    if |cs| > 1 {
      assert s1.running > 0;
      assert multiset(TasksOf(cs[1..])) == s1.inFlight;
      DrainRace(s1, cs[1..]);
    }
  }

  // ---------------------------------------------------------------------------
  // Run, Race and Repeat of a fresh orchestrator, as the package's helpers use them.


  /**
   * `Run(ctx, tasks...)` with at least one task: it is admitted, and whatever
   * order the tasks report in, the value sent into `done` is the first non-nil
   * error, or nil when every task succeeds.
   */
  lemma RunDelivers(tasks: seq<Task>, cs: seq<Completion>)
    requires tasks != [] && multiset(TasksOf(cs)) == multiset(tasks)
    ensures Start(New(tasks), Run).1 == Admitted
    ensures var r := ReportAll(Start(New(tasks), Run).0, cs);
            r.mode.Done? && r.done == Some(FirstError(cs))
  {
    var s := Start(New(tasks), Run).0;
    assert Launched(tasks, Run) == tasks;
    assert s.inFlight == multiset(tasks) && s.err.None?;
    assert cs != [];
    DrainRunOrRepeat(s, cs);
  }

  /**
   * `Race(ctx, tasks...)` with at least one task: it is admitted, and the value
   * sent into `done` is the outcome of whichever task reports first.
   */
  lemma RaceDelivers(tasks: seq<Task>, cs: seq<Completion>)
    requires tasks != [] && multiset(TasksOf(cs)) == multiset(tasks)
    ensures cs != [] && Start(New(tasks), Race).1 == Admitted
    ensures var r := ReportAll(Start(New(tasks), Race).0, cs);
            r.mode.Done? && r.done == Some(cs[0].outcome)
  {
    var s := Start(New(tasks), Race).0;
    assert Launched(tasks, Race) == tasks;
    assert s.inFlight == multiset(tasks) && s.first;
    assert cs != [];
    DrainRace(s, cs);
  }

  /**
   * `Repeat` of a fresh orchestrator, once its tasks and the appended `Wait` have
   * all reported: it sends the first non-nil error, and when every report was nil
   * it stays open in Repeat with nothing running and nothing sent. Since Wait
   * reports the context's error, an error from Wait always ends it.
   */
  lemma RepeatDelivers(tasks: seq<Task>, cs: seq<Completion>)
    requires multiset(TasksOf(cs)) == multiset(tasks + [Wait])
    ensures Start(New(tasks), Repeat).1 == Admitted
    ensures var r := ReportAll(Start(New(tasks), Repeat).0, cs);
            && (FirstError(cs).Some? ==> r.mode.Done? && r.done == Some(FirstError(cs)))
            && (FirstError(cs).None? ==> r.mode.Repeat? && r.running == 0 && r.done.None?)
    ensures (exists i :: 0 <= i < |cs| && cs[i].task == Wait && cs[i].outcome.Some?) ==>
              ReportAll(Start(New(tasks), Repeat).0, cs).mode.Done?
  {
    var s := Start(New(tasks), Repeat).0;
    assert s.inFlight == multiset(tasks + [Wait]) && s.err.None?;
    assert Wait in multiset(TasksOf(cs));
    assert cs != [];
    DrainRunOrRepeat(s, cs);
  }
}

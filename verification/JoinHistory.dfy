/**
 `TunnelClient::run` told from its steps alone: which trips each task took, how it ended,
 what was reported and what `run` returned are read off the history, and every run's state
 agrees with them.
 */
module JoinHistory {
  import opened Common
  import opened JoinLoop
  import R = Reconnect

  predicate StopAsked(steps: seq<Step>) {
    steps != [] && (Last(steps).RequestStop? || StopAsked(Before(steps)))
  }

  /** The trips task `i` took, in order. */
  function TripsOf(steps: seq<Step>, i: nat): seq<R.Pass> {
    if steps == [] then []
    else TripsOf(Before(steps), i) + if Last(steps).TakeTrip? && Last(steps).i == i then [Last(steps).trip] else []
  }

  /** What task `i` panicked with, if it did. */
  function PanicOf(steps: seq<Step>, i: nat): Option<string> {
    if steps == [] then None
    else if Last(steps).TaskPanics? && Last(steps).i == i then Some(Last(steps).cause)
    else PanicOf(Before(steps), i)
  }

  predicate WasJoined(steps: seq<Step>, i: nat) {
    steps != [] && (Last(steps) == JoinOne(i) || WasJoined(Before(steps), i))
  }

  /** How task `i` has ended, if it has: by its panic, or as its reconnect loop did after its trips. */
  function EndingOf(policy: R.ReconnectPolicy, steps: seq<Step>, i: nat): Option<Ending> {
    if PanicOf(steps, i).Some? then Some(Panic(PanicOf(steps, i).value))
    else match R.After(policy, TripsOf(steps, i)).end
      case StillRunning => None
      case ReturnedOk => Some(Normal)
      case GaveUp(attempts, rejection) => Some(Exhausted(attempts, rejection))
  }

  function TaskAfter(policy: R.ReconnectPolicy, steps: seq<Step>, i: nat): Task {
    var ending := EndingOf(policy, steps, i);
    if ending.None? then Live(TripsOf(steps, i))
    else if WasJoined(steps, i) then Joined(ending.value)
    else Finished(ending.value)
  }

  /** One report for each task joined after it ended for good, in the order they were joined. */
  function Reports(cfg: Config, steps: seq<Step>): seq<GaveUp> {
    if steps == [] then []
    else
      Reports(cfg, Before(steps))
      + if !Last(steps).JoinOne? || Last(steps).i >= |cfg.spawned| then []
        else
          var i := Last(steps).i;
          var ending := EndingOf(cfg.policy, Before(steps), i);
          if ending.None? || ending.value.Normal? then []
          else [GaveUp.GaveUp(i, cfg.spawned[i], CauseOf(cfg.spawned[i], ending.value))]
  }

  function LastCause(reports: seq<GaveUp>): Option<string> {
    if reports == [] then None else Some(reports[|reports| - 1].cause)
  }

  function LoopAfter(cfg: Config, steps: seq<Step>): Loop {
    if steps == [] then AtTop
    else match Last(steps)
      case CheckTop => if StopAsked(Before(steps)) then Returned(Ok) else Selecting
      case SelectStop => Returned(Ok)
      case JoinOne(_) => AtTop
      case JoinNone => Returned(AllGaveUp(LastCause(Reports(cfg, Before(steps)))))
      case _ => LoopAfter(cfg, Before(steps))
  }

  predicate TasksAgree(cfg: Config, steps: seq<Step>, s: State) {
    |s.tasks| == |cfg.spawned| && forall i :: 0 <= i < |s.tasks| ==> s.tasks[i] == TaskAfter(cfg.policy, steps, i)
  }

  predicate RestAgrees(cfg: Config, steps: seq<Step>, s: State) {
    (s.stop <==> StopAsked(steps)) && s.events == Reports(cfg, steps) && s.loop == LoopAfter(cfg, steps)
  }

  lemma TaskStep(cfg: Config, steps: seq<Step>, s: State, step: Step, i: nat)
    requires |s.tasks| == |cfg.spawned| && i < |s.tasks| && s.tasks[i] == TaskAfter(cfg.policy, steps, i) && Enabled(s, step)
    requires !s.tasks[i].Joined? ==> !WasJoined(steps, i)
    ensures Apply(cfg, s, step).tasks[i] == TaskAfter(cfg.policy, steps + [step], i)
    ensures !Apply(cfg, s, step).tasks[i].Joined? ==> !WasJoined(steps + [step], i)
  {
    Snoc(steps, step);
    assert TripsOf(steps, i) + [] == TripsOf(steps, i);
  }

  lemma RestStep(cfg: Config, steps: seq<Step>, s: State, step: Step)
    requires Invariant(cfg, s) && TasksAgree(cfg, steps, s) && RestAgrees(cfg, steps, s) && Enabled(s, step)
    ensures RestAgrees(cfg, steps + [step], Apply(cfg, s, step))
  {
    Snoc(steps, step);
    assert s.events + [] == s.events;
    if step.JoinOne? {
      assert s.tasks[step.i] == TaskAfter(cfg.policy, steps, step.i);
    }
  }

  lemma {:induction false} Agrees(cfg: Config, steps: seq<Step>, s: State)
    requires cfg.policy.Valid() && Run(cfg, steps) == Some(s)
    ensures TasksAgree(cfg, steps, s) && RestAgrees(cfg, steps, s)
    ensures forall i :: 0 <= i < |s.tasks| && !s.tasks[i].Joined? ==> !WasJoined(steps, i)
  {
    if steps != [] {
      var u, step := Run(cfg, Before(steps)).value, Last(steps);
      assert steps == Before(steps) + [step];
      Agrees(cfg, Before(steps), u);
      Reached(cfg, Before(steps), u);
      RestStep(cfg, Before(steps), u, step);
      forall i | 0 <= i < |s.tasks|
        ensures s.tasks[i] == TaskAfter(cfg.policy, steps, i) && (!s.tasks[i].Joined? ==> !WasJoined(steps, i))
      {
        TaskStep(cfg, Before(steps), u, step, i);
      }
    }
  }

  // ----- what that says

  /** In every run a task is where its own trips and panics have taken it, and is joined exactly when `run` joined it. */
  lemma TasksAreHistory(cfg: Config, steps: seq<Step>, s: State, i: nat)
    requires cfg.policy.Valid() && Run(cfg, steps) == Some(s) && i < |cfg.spawned|
    ensures |s.tasks| == |cfg.spawned| && s.tasks[i] == TaskAfter(cfg.policy, steps, i)
  {
    Agrees(cfg, steps, s);
  }

  /** In every run the reports, in order, and what `run` returned are those of the history. */
  lemma ReportsAreHistory(cfg: Config, steps: seq<Step>, s: State)
    requires cfg.policy.Valid() && Run(cfg, steps) == Some(s)
    ensures s.events == Reports(cfg, steps) && s.loop == LoopAfter(cfg, steps) && (s.stop <==> StopAsked(steps))
  {
    Agrees(cfg, steps, s);
  }

  predicate Panics(steps: seq<Step>, i: nat, cause: string) {
    TaskPanics(i, cause) in steps
  }

  lemma {:induction false} PanicIsAStep(steps: seq<Step>, i: nat)
    requires PanicOf(steps, i).Some?
    ensures Panics(steps, i, PanicOf(steps, i).value)
  {
    if !(Last(steps).TaskPanics? && Last(steps).i == i) {
      PanicIsAStep(Before(steps), i);
    }
  }

  lemma {:induction false} ExhaustedByItsLastTrip(cfg: Config, steps: seq<Step>, s: State, i: nat)
    requires cfg.policy.Valid() && Run(cfg, steps) == Some(s) && i < |s.tasks| && !s.tasks[i].Live? && s.tasks[i].ending.Exhausted?
    ensures TripsOf(steps, i) != []
    ensures s.tasks[i].ending == Exhausted(cfg.policy.maxAttempts, TripsOf(steps, i)[|TripsOf(steps, i)| - 1].rejection)
  {
    var u, step := Run(cfg, Before(steps)).value, Last(steps);
    if step.TakeTrip? && step.i == i {
      Agrees(cfg, Before(steps), u);
      Reached(cfg, Before(steps), u);
      assert TaskFits(cfg.policy, u.stop, u.tasks[i]);
      R.GivesUpExactlyAtTheBudget(cfg.policy, u.tasks[i].trips, step.trip);
    } else {
      ExhaustedByItsLastTrip(cfg, Before(steps), u, i);
    }
  }

  /**
   In every run a task ends in a panic only by panicking with that cause. Any other task that
   ended for good made the attempts its budget allows, and its last trip's rejection, if it
   had one, is the one reported.
   */
  lemma EndingsAreEarned(cfg: Config, steps: seq<Step>, s: State, i: nat)
    requires cfg.policy.Valid() && Run(cfg, steps) == Some(s) && i < |s.tasks| && !s.tasks[i].Live?
    ensures s.tasks[i].ending.Panic? ==> Panics(steps, i, s.tasks[i].ending.cause)
    ensures (forall cause :: !Panics(steps, i, cause)) && !s.tasks[i].ending.Normal? ==>
              && TripsOf(steps, i) != []
              && s.tasks[i].ending == Exhausted(cfg.policy.maxAttempts, TripsOf(steps, i)[|TripsOf(steps, i)| - 1].rejection)
  {
    TasksAreHistory(cfg, steps, s, i);
    if s.tasks[i].ending.Panic? {
      PanicIsAStep(steps, i);
    } else if s.tasks[i].ending.Exhausted? {
      ExhaustedByItsLastTrip(cfg, steps, s, i);
    }
  }

  /** Once stop was asked for, `run` can answer it with `Ok` at its next step. */
  lemma StopIsAnswered(cfg: Config, steps: seq<Step>, s: State) returns (step: Step)
    requires cfg.policy.Valid() && Run(cfg, steps) == Some(s) && StopAsked(steps) && !s.loop.Returned?
    ensures Enabled(s, step) && Apply(cfg, s, step).loop == Returned(Ok)
  {
    Agrees(cfg, steps, s);
    step := if s.loop.AtTop? then CheckTop else SelectStop;
  }

  /** In every run a task that has not ended can take any trip, though not one that sees a stop nobody asked for, or panic. */
  lemma LiveTasksMove(cfg: Config, steps: seq<Step>, s: State, i: nat, trip: R.Pass, cause: string)
    requires cfg.policy.Valid() && Run(cfg, steps) == Some(s) && i < |cfg.spawned|
    ensures Enabled(s, TaskPanics(i, cause)) <==> EndingOf(cfg.policy, steps, i).None?
    ensures Enabled(s, TakeTrip(i, trip)) <==>
              && EndingOf(cfg.policy, steps, i).None?
              && (trip.stopBefore || trip.outcome.Stopped? || trip.stopDuringWait ==> StopAsked(steps))
  {
    Agrees(cfg, steps, s);
  }

  // ----- the cause text

  function ReadDecimal(digits: string): nat
    requires forall k :: 0 <= k < |digits| ==> '0' <= digits[k] <= '9'
  {
    if digits == "" then 0
    else ReadDecimal(digits[..|digits| - 1]) * 10 + (digits[|digits| - 1] as int - '0' as int)
  }

  lemma {:induction false} DecimalReadsBack(n: nat)
    ensures forall k :: 0 <= k < |Decimal(n)| ==> '0' <= Decimal(n)[k] <= '9'
    ensures ReadDecimal(Decimal(n)) == n && (n > 0 ==> Decimal(n)[0] != '0') && Decimal(n) != ""
  {
    var d := Decimal(n);
    if n >= 10 {
      DecimalReadsBack(n / 10);
      assert d[..|d| - 1] == Decimal(n / 10);
    } else {
      assert d[..|d| - 1] == "";
    }
  }

  /** What a report says, word for word. */
  lemma CauseTexts(tag: string, addr: string, n: nat, reason: string)
    ensures CauseOf(Owner(tag, addr), Panic(reason)) == "tunnel connection panicked: " + reason
    ensures CauseOf(Owner(tag, addr), Exhausted(n, None))
         == "TUNNEL[" + tag + "/" + addr + "]: giving up after " + Decimal(n) + " failed attempts"
    ensures CauseOf(Owner(tag, addr), Exhausted(n, Some(reason)))
         == CauseOf(Owner(tag, addr), Exhausted(n, None)) + ", last one rejected by relay: " + reason
  {
    var none := CauseOf(Owner(tag, addr), Exhausted(n, None));
    assert none + (", last one rejected by relay: " + reason) == none + ", last one rejected by relay: " + reason;
    assert none == "TUNNEL[" + tag + "/" + addr + "]: giving up after " + Decimal(n) + " failed attempts" + "";
  }
}

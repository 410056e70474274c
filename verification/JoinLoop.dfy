/**
 `TunnelClient::run` joining the connection tasks it spawned. Each task takes the trips of
 its reconnect loop one by one; trips, panics and a stop request fall anywhere between the
 join loop's own steps.
 */
module JoinLoop {
  import opened Common
  import R = Reconnect

  /** How a task ended: on request, with its budget used up, or by a panic. */
  datatype Ending = Normal | Exhausted(attempts: nat, rejection: Option<string>) | Panic(cause: string)

  /** A live task is known by the trips it has taken. */
  datatype Task = Live(trips: seq<R.Pass>) | Finished(ending: Ending) | Joined(ending: Ending)

  /** The connection a task drives: its tag and relay address. */
  datatype Owner = Owner(tag: string, addr: string)

  const UNKNOWN := Owner("?", "?")

  /** What `run` starts from: the reconnect policy and the connections, in the order they are spawned. */
  datatype Config = Config(policy: R.ReconnectPolicy, spawned: seq<Owner>)

  /** `task` is bookkeeping of the model: the event itself carries only the owner and the cause. */
  datatype GaveUp = GaveUp(task: nat, owner: Owner, cause: string)

  datatype Result = Ok | AllGaveUp(last: Option<string>)

  datatype Loop = AtTop | Selecting | Returned(result: Result)

  datatype State = State(
    tasks: seq<Task>,
    owners: map<nat, Owner>,
    stop: bool,
    loop: Loop,
    lastErr: Option<string>,
    events: seq<GaveUp>)

  datatype Step =
    | RequestStop
    | TakeTrip(i: nat, trip: R.Pass)
    | TaskPanics(i: nat, cause: string)
    | CheckTop
    | SelectStop
    | JoinOne(i: nat)
    | JoinNone

  function Init(cfg: Config): State {
    State(seq(|cfg.spawned|, _ => Live([])), map i | 0 <= i < |cfg.spawned| :: cfg.spawned[i], false, AtTop, None, [])
  }

  /** A trip sees the stop signal only once it was given. */
  predicate Enabled(s: State, step: Step) {
    match step
    case RequestStop => !s.stop
    case TakeTrip(i, trip) => i < |s.tasks| && s.tasks[i].Live? && (R.SeesStop(trip) ==> s.stop)
    case TaskPanics(i, _) => i < |s.tasks| && s.tasks[i].Live?
    case CheckTop => s.loop.AtTop?
    case SelectStop => s.loop.Selecting? && s.stop
    case JoinOne(i) => s.loop.Selecting? && i < |s.tasks| && s.tasks[i].Finished?
    case JoinNone => s.loop.Selecting? && forall i :: 0 <= i < |s.tasks| ==> s.tasks[i].Joined?
  }

  function Decimal(n: nat): string {
    (if n < 10 then "" else Decimal(n / 10)) + [('0' as int + n % 10) as char]
  }

  /** The cause text of a task that ended for good. */
  function CauseOf(owner: Owner, ending: Ending): string
    requires !ending.Normal?
  {
    match ending
    case Exhausted(attempts, rejection) =>
      "TUNNEL[" + owner.tag + "/" + owner.addr + "]: giving up after " + Decimal(attempts) + " failed attempts"
      + if rejection.Some? then ", last one rejected by relay: " + rejection.value else ""
    case Panic(cause) => "tunnel connection panicked: " + cause
  }

  function OwnerOf(owners: map<nat, Owner>, i: nat): Owner {
    if i in owners then owners[i] else UNKNOWN
  }

  /** Where its reconnect loop leaves a task that has taken `trips`. */
  function AfterTrips(policy: R.ReconnectPolicy, trips: seq<R.Pass>): Task {
    match R.After(policy, trips).end
    case StillRunning => Live(trips)
    case ReturnedOk => Finished(Normal)
    case GaveUp(attempts, rejection) => Finished(Exhausted(attempts, rejection))
  }

  function AfterJoin(cfg: Config, s: State, i: nat): State
    requires Enabled(s, JoinOne(i)) && |s.tasks| == |cfg.spawned|
  {
    var ending, owner := s.tasks[i].ending, OwnerOf(s.owners, i);
    var s := s.(tasks := s.tasks[i := Joined(ending)], owners := s.owners - {i}, loop := AtTop);
    if ending.Normal? then s
    else
      var cause := CauseOf(cfg.spawned[i], ending);
      s.(events := s.events + [GaveUp(i, owner, cause)], lastErr := Some(cause))
  }

  function Apply(cfg: Config, s: State, step: Step): (t: State)
    requires Enabled(s, step) && |s.tasks| == |cfg.spawned|
    ensures |t.tasks| == |s.tasks|
  {
    match step
    case RequestStop => s.(stop := true)
    case TakeTrip(i, trip) => s.(tasks := s.tasks[i := AfterTrips(cfg.policy, s.tasks[i].trips + [trip])])
    case TaskPanics(i, cause) => s.(tasks := s.tasks[i := Finished(Panic(cause))])
    case CheckTop => s.(loop := if s.stop then Returned(Ok) else Selecting)
    case SelectStop => s.(loop := Returned(Ok))
    case JoinNone => s.(loop := Returned(AllGaveUp(s.lastErr)))
    case JoinOne(i) => AfterJoin(cfg, s, i)
  }

  function Run(cfg: Config, steps: seq<Step>): (r: Option<State>)
    ensures r.Some? ==> |r.value.tasks| == |cfg.spawned|
  {
    if steps == [] then Some(Init(cfg))
    else
      var before := Run(cfg, steps[..|steps| - 1]);
      var step := steps[|steps| - 1];
      if before.Some? && Enabled(before.value, step) then Some(Apply(cfg, before.value, step)) else None
  }

  // ----- invariants

  /** A live task's loop is still running, and none of its trips saw a stop that was not given. */
  predicate TaskFits(policy: R.ReconnectPolicy, stop: bool, task: Task) {
    task.Live? ==>
      && R.After(policy, task.trips).end.StillRunning?
      && forall k :: 0 <= k < |task.trips| && R.SeesStop(task.trips[k]) ==> stop
  }

  predicate TripsFit(cfg: Config, s: State) {
    forall i :: 0 <= i < |s.tasks| ==> TaskFits(cfg.policy, s.stop, s.tasks[i])
  }

  /** Every event names a task that ended for good, with that task's owner and cause. */
  predicate EventsTrue(cfg: Config, s: State) {
    forall k :: 0 <= k < |s.events| ==>
      var e := s.events[k];
      && e.task < |s.tasks| == |cfg.spawned| && s.tasks[e.task].Joined? && !s.tasks[e.task].ending.Normal?
      && e.owner == cfg.spawned[e.task] && e.cause == CauseOf(cfg.spawned[e.task], s.tasks[e.task].ending)
  }

  predicate NoneTwice(events: seq<GaveUp>) {
    forall j, k :: 0 <= j < k < |events| ==> events[j].task != events[k].task
  }

  predicate Reported(events: seq<GaveUp>, i: nat) {
    exists k :: 0 <= k < |events| && events[k].task == i
  }

  predicate EndedForGood(s: State, i: nat)
    requires i < |s.tasks|
  {
    s.tasks[i].Joined? && !s.tasks[i].ending.Normal? && Reported(s.events, i)
  }

  predicate NoneMissing(s: State) {
    forall i :: 0 <= i < |s.tasks| && s.tasks[i].Joined? && !s.tasks[i].ending.Normal? ==> Reported(s.events, i)
  }

  predicate NormalMeansStop(s: State) {
    forall i :: 0 <= i < |s.tasks| && !s.tasks[i].Live? && s.tasks[i].ending.Normal? ==>
      s.stop && (s.tasks[i].Joined? ==> s.loop == AtTop || s.loop == Returned(Ok))
  }

  /** A task that gave up without a panic used up a budget there was. */
  predicate FailuresUseTheBudget(cfg: Config, s: State) {
    forall i :: 0 <= i < |s.tasks| && !s.tasks[i].Live? && s.tasks[i].ending.Exhausted? ==>
      s.tasks[i].ending.attempts == cfg.policy.maxAttempts > 0
  }

  predicate OwnersKnown(cfg: Config, s: State) {
    && |s.tasks| == |cfg.spawned|
    && forall i :: 0 <= i < |s.tasks| && !s.tasks[i].Joined? ==> i in s.owners && s.owners[i] == cfg.spawned[i]
  }

  predicate ResultRight(s: State) {
    && s.lastErr == (if s.events == [] then None else Some(s.events[|s.events| - 1].cause))
    && (s.loop.Returned? && s.loop.result.AllGaveUp? ==>
          s.loop.result.last == s.lastErr && forall i :: 0 <= i < |s.tasks| ==> s.tasks[i].Joined?)
  }

  predicate Invariant(cfg: Config, s: State) {
    && OwnersKnown(cfg, s) && TripsFit(cfg, s) && EventsTrue(cfg, s) && NoneTwice(s.events) && NoneMissing(s)
    && NormalMeansStop(s) && FailuresUseTheBudget(cfg, s) && ResultRight(s)
  }

  // ----- each step keeps them

  /** What one more trip makes of a live task: a normal end has seen stop, a failure has used up the budget. */
  lemma TripEnds(cfg: Config, s: State, i: nat, trip: R.Pass)
    requires cfg.policy.Valid() && |s.tasks| == |cfg.spawned| && TripsFit(cfg, s) && Enabled(s, TakeTrip(i, trip))
    ensures var task := AfterTrips(cfg.policy, s.tasks[i].trips + [trip]);
            && (task == Finished(Normal) ==> s.stop)
            && (task.Finished? && task.ending.Exhausted? ==> task.ending.attempts == cfg.policy.maxAttempts > 0)
  {
    var trips := s.tasks[i].trips;
    assert TaskFits(cfg.policy, s.stop, s.tasks[i]);
    R.GivesUpExactlyAtTheBudget(cfg.policy, trips, trip);
    if R.After(cfg.policy, trips + [trip]).end.ReturnedOk? {
      R.ReturnsOnlyWhenStopped(cfg.policy, trips + [trip]);
      var k :| 0 <= k < |trips + [trip]| && R.SeesStop((trips + [trip])[k]);
      assert k < |trips| ==> R.SeesStop(trips[k]);
    }
  }

  lemma TripsKept(cfg: Config, s: State, step: Step)
    requires |s.tasks| == |cfg.spawned| && TripsFit(cfg, s) && Enabled(s, step)
    ensures TripsFit(cfg, Apply(cfg, s, step))
  {
    var t := Apply(cfg, s, step);
    forall i | 0 <= i < |t.tasks|
      ensures TaskFits(cfg.policy, t.stop, t.tasks[i])
    {
      assert TaskFits(cfg.policy, s.stop, s.tasks[i]);
    }
  }

  lemma EventsKept(cfg: Config, s: State, step: Step)
    requires OwnersKnown(cfg, s) && EventsTrue(cfg, s) && Enabled(s, step)
    ensures EventsTrue(cfg, Apply(cfg, s, step))
  {
  }

  lemma NoRepeatKept(cfg: Config, s: State, step: Step)
    requires OwnersKnown(cfg, s) && EventsTrue(cfg, s) && NoneTwice(s.events) && Enabled(s, step)
    ensures NoneTwice(Apply(cfg, s, step).events)
  {
  }

  lemma EndingsKept(cfg: Config, s: State, step: Step)
    requires cfg.policy.Valid() && |s.tasks| == |cfg.spawned| && TripsFit(cfg, s) && Enabled(s, step)
    requires NormalMeansStop(s) && FailuresUseTheBudget(cfg, s)
    ensures NormalMeansStop(Apply(cfg, s, step)) && FailuresUseTheBudget(cfg, Apply(cfg, s, step))
  {
    if step.TakeTrip? {
      TripEnds(cfg, s, step.i, step.trip);
    }
  }

  lemma OwnersKept(cfg: Config, s: State, step: Step)
    requires OwnersKnown(cfg, s) && Enabled(s, step)
    ensures OwnersKnown(cfg, Apply(cfg, s, step))
  {
  }

  lemma ResultKept(cfg: Config, s: State, step: Step)
    requires |s.tasks| == |cfg.spawned| && ResultRight(s) && Enabled(s, step)
    ensures ResultRight(Apply(cfg, s, step))
  {
    if step.JoinOne? && !s.tasks[step.i].ending.Normal? {
      assert Apply(cfg, s, step).events[|s.events|].cause == CauseOf(cfg.spawned[step.i], s.tasks[step.i].ending);
    }
  }

  lemma ReportsKept(cfg: Config, s: State, step: Step)
    requires |s.tasks| == |cfg.spawned| && NoneMissing(s) && Enabled(s, step)
    ensures NoneMissing(Apply(cfg, s, step))
  {
    var t := Apply(cfg, s, step);
    forall i | 0 <= i < |t.tasks| && t.tasks[i].Joined? && !t.tasks[i].ending.Normal?
      ensures Reported(t.events, i)
    {
      if s.tasks[i].Joined? {
        var k :| 0 <= k < |s.events| && s.events[k].task == i;
        assert t.events[k].task == i;
      } else {
        assert t.events[|s.events|].task == i;
      }
    }
  }

  lemma StepKept(cfg: Config, s: State, step: Step)
    requires cfg.policy.Valid() && Invariant(cfg, s) && Enabled(s, step)
    ensures Invariant(cfg, Apply(cfg, s, step))
  {
    TripsKept(cfg, s, step);
    EventsKept(cfg, s, step);
    NoRepeatKept(cfg, s, step);
    ReportsKept(cfg, s, step);
    EndingsKept(cfg, s, step);
    OwnersKept(cfg, s, step);
    ResultKept(cfg, s, step);
  }

  lemma {:induction false} Reached(cfg: Config, steps: seq<Step>, s: State)
    requires cfg.policy.Valid() && Run(cfg, steps) == Some(s)
    ensures Invariant(cfg, s)
  {
    if steps != [] {
      var u, step := Run(cfg, steps[..|steps| - 1]).value, steps[|steps| - 1];
      Reached(cfg, steps[..|steps| - 1], u);
      StepKept(cfg, u, step);
    }
  }

  // ----- what every run guarantees

  lemma AllEnded(cfg: Config, s: State, i: nat)
    requires Invariant(cfg, s) && s.loop.Returned? && s.loop.result.AllGaveUp? && i < |s.tasks|
    ensures EndedForGood(s, i)
  {
    assert s.tasks[i].Joined?;
  }

  /** `run` fails only once every task has ended for good and been reported exactly once, under its own name. */
  lemma FailsOnlyWhenAllGaveUp(cfg: Config, steps: seq<Step>, s: State)
    requires cfg.policy.Valid() && Run(cfg, steps) == Some(s) && s.loop.Returned? && s.loop.result.AllGaveUp?
    ensures |s.tasks| == |cfg.spawned| && EventsTrue(cfg, s) && NoneTwice(s.events)
    ensures forall i :: 0 <= i < |s.tasks| ==> EndedForGood(s, i)
  {
    Reached(cfg, steps, s);
    forall i | 0 <= i < |s.tasks|
      ensures EndedForGood(s, i)
    {
      AllEnded(cfg, s, i);
    }
  }

  /** A reported task panicked, or made exactly the attempts its budget allows; with no budget it panicked. */
  lemma GaveUpMeansBudgetOrPanic(cfg: Config, steps: seq<Step>, s: State, k: nat)
    requires cfg.policy.Valid() && Run(cfg, steps) == Some(s) && k < |s.events|
    ensures s.events[k].task < |s.tasks| && s.tasks[s.events[k].task].Joined?
    ensures var ending := s.tasks[s.events[k].task].ending;
            || ending.Panic?
            || (ending.Exhausted? && ending.attempts == cfg.policy.maxAttempts > 0)
  {
    Reached(cfg, steps, s);
    assert EventsTrue(cfg, s);
  }

  /** The error `run` returns carries the cause it reported last. */
  lemma FailureCarriesLastCause(cfg: Config, steps: seq<Step>, s: State)
    requires cfg.policy.Valid() && Run(cfg, steps) == Some(s) && s.loop.Returned? && s.loop.result.AllGaveUp?
    requires cfg.spawned != []
    ensures s.events != [] && s.loop.result.last == Some(s.events[|s.events| - 1].cause)
  {
    Reached(cfg, steps, s);
    AllEnded(cfg, s, 0);
  }

  /** If any task returned normally then stop was requested, and `run` can only return `Ok`. */
  lemma NormalReturnMeansStopped(cfg: Config, steps: seq<Step>, s: State, i: nat)
    requires cfg.policy.Valid() && Run(cfg, steps) == Some(s)
    requires i < |s.tasks| && !s.tasks[i].Live? && s.tasks[i].ending.Normal?
    ensures s.stop && (s.loop.Returned? ==> s.loop.result.Ok?)
  {
    Reached(cfg, steps, s);
  }

  /** `Ok` is only ever the answer to a stop. */
  lemma {:induction false} OkMeansStopped(cfg: Config, steps: seq<Step>, s: State)
    requires Run(cfg, steps) == Some(s)
    ensures s.loop == Returned(Ok) ==> s.stop
  {
    if steps != [] {
      OkMeansStopped(cfg, steps[..|steps| - 1], Run(cfg, steps[..|steps| - 1]).value);
    }
  }

  /** `run` never hangs by itself: until it returns, it can step or a task is still live. */
  lemma NeverWedged(cfg: Config, steps: seq<Step>, s: State)
    requires Run(cfg, steps) == Some(s) && !s.loop.Returned?
    ensures (exists i :: 0 <= i < |s.tasks| && s.tasks[i].Live?)
         || (exists step :: Enabled(s, step) && (step.CheckTop? || step.SelectStop? || step.JoinOne? || step.JoinNone?))
  {
    if s.loop.AtTop? {
      assert Enabled(s, CheckTop);
    } else if i :| 0 <= i < |s.tasks| && s.tasks[i].Finished? {
      assert Enabled(s, JoinOne(i));
    } else if forall i :: 0 <= i < |s.tasks| ==> s.tasks[i].Joined? {
      assert Enabled(s, JoinNone);
    }
  }
}

/**
 One H2 pool session: `pool_size` members running `drive` beside the session loop of
 `h2_pool`. A step is one critical section, or the code between two awaits; a run is any
 interleaving of steps. Ending the session aborts every member at once.
 */
module PoolSession {
  import opened Common
  import opened PoolLiveness
  import S = Sessions

  /** Where a member stands in `drive`. */
  datatype Phase =
    | Connecting                  // inside `attempt`, before `up`
    | Serving                     // between `up` and the end of its connection
    | Dropping(sawStop: bool)     // has read the stop flag, about to call `down`
    | Failed                      // `attempt` returned false, about to call `park`
    | Parked(seen: nat)           // waiting for `came_up` to move past `seen`, or for stop
    | Woken(goesOn: bool)         // about to call `unpark`
    | Checking                    // about to read the stop flag
    | Sleeping
    | Done

  datatype Loop = Running | Deciding | Ended(outcome: S.SessionOutcome)

  /** `ups` counts the completed control exchanges of the run; no step reads it. */
  datatype State = State(
    pool: Pool,
    members: seq<Phase>,
    stop: bool,
    rejected: bool,
    failed: Option<S.AttemptFailure>,
    loop: Loop,
    ups: nat)

  datatype Step =
    | RequestStop
    | Fail(i: nat, failure: S.AttemptFailure)
    | Reject(i: nat)
    | ComeUp(i: nat)
    | Drop(i: nat)
    | ReportDown(i: nat, cause: string)
    | Park(i: nat)
    | Wake(i: nat)
    | WakeForStop(i: nat)
    | Unpark(i: nat)
    | CheckStop(i: nat)
    | Retry(i: nat)
    | SleepForStop(i: nat)
    | LoopStop
    | LoopRejected
    | LoopWentDown
    | LoopAllParked
    | LoopDrained
    | LoopDecide

  const NOTHING_CAME_UP := S.AttemptFailure("no pooled connection came up", None)

  function Init(size: nat): State {
    State(NewPool(size), seq(size, _ => Connecting), false, false, None, Running, 0)
  }

  predicate IsLive(m: Phase) {
    m.Serving? || m.Dropping?
  }

  predicate IsParked(m: Phase) {
    m.Parked? || m.Woken?
  }

  /** Member `i` exists, and the session that runs it has not ended. */
  predicate At(s: State, i: nat) {
    !s.loop.Ended? && i < |s.members|
  }

  predicate Enabled(s: State, step: Step) {
    match step
    case RequestStop => !s.stop
    case Fail(i, _) => At(s, i) && s.members[i].Connecting?
    case Reject(i) => At(s, i) && s.members[i].Connecting?
    case ComeUp(i) => At(s, i) && s.members[i].Connecting?
    case Drop(i) => At(s, i) && s.members[i].Serving?
    case ReportDown(i, _) => At(s, i) && s.members[i].Dropping?
    case Park(i) => At(s, i) && s.members[i].Failed?
    case Wake(i) => At(s, i) && s.members[i].Parked? && s.members[i].seen != s.pool.cameUp
    case WakeForStop(i) => At(s, i) && s.members[i].Parked? && s.stop
    case Unpark(i) => At(s, i) && s.members[i].Woken?
    case CheckStop(i) => At(s, i) && s.members[i].Checking?
    case Retry(i) => At(s, i) && s.members[i].Sleeping?
    case SleepForStop(i) => At(s, i) && s.members[i].Sleeping? && s.stop
    case LoopStop => s.loop.Running? && s.stop
    case LoopRejected => s.loop.Running? && s.rejected
    case LoopWentDown => s.loop.Running? && s.pool.wentDown
    case LoopAllParked => s.loop.Running? && s.pool.allParked
    case LoopDrained => s.loop.Running? && forall i :: 0 <= i < |s.members| ==> s.members[i].Done?
    case LoopDecide => s.loop.Deciding?
  }

  function Move(s: State, i: nat, m: Phase): State
    requires i < |s.members|
  {
    s.(members := s.members[i := m])
  }

  /** `take_failure`: the latest recorded failure, or the stock one. */
  function TakeFailure(s: State): S.AttemptFailure {
    if s.failed.Some? then s.failed.value else NOTHING_CAME_UP
  }

  function Apply(s: State, step: Step): State
    requires Enabled(s, step)
  {
    match step
    case RequestStop => s.(stop := true)
    case Fail(i, failure) => Move(s, i, Failed).(failed := Some(failure))
    case Reject(i) => Move(s, i, Failed).(rejected := true)
    case ComeUp(i) => Move(s, i, Serving).(pool := AfterUp(s.pool), ups := s.ups + 1)
    case Drop(i) => Move(s, i, Dropping(s.stop))
    case ReportDown(i, cause) => Move(s, i, Checking).(pool := AfterDown(s.pool, cause, s.members[i].sawStop))
    case Park(i) =>
      Move(s, i, if Parkable(s.pool) then Parked(s.pool.cameUp) else Checking).(pool := AfterPark(s.pool))
    case Wake(i) => Move(s, i, Woken(true))
    case WakeForStop(i) => Move(s, i, Woken(false))
    case Unpark(i) => Move(s, i, if s.members[i].goesOn then Checking else Done).(pool := AfterUnpark(s.pool))
    case CheckStop(i) => Move(s, i, if s.stop then Done else Sleeping)
    case Retry(i) => Move(s, i, Connecting)
    case SleepForStop(i) => Move(s, i, Done)
    case LoopStop => s.(loop := Ended(S.Stopped))
    case LoopRejected => s.(loop := Ended(S.NeverUp(TakeFailure(s))), failed := None)
    case LoopWentDown => s.(loop := Ended(S.Lost), pool := s.pool.(wentDown := false))
    case LoopAllParked => s.(loop := Deciding, pool := s.pool.(allParked := false))
    case LoopDrained => s.(loop := Deciding)
    case LoopDecide =>
      if s.pool.everUp then s.(loop := Ended(S.Lost))
      else s.(loop := Ended(S.NeverUp(TakeFailure(s))), failed := None)
  }

  /** The state `steps` lead to from `s`; `None` unless each step was enabled when taken. */
  function Run(s: State, steps: seq<Step>): Option<State> {
    if steps == [] then Some(s)
    else
      var before := Run(s, steps[..|steps| - 1]);
      var step := steps[|steps| - 1];
      if before.Some? && Enabled(before.value, step) then Some(Apply(before.value, step)) else None
  }

  // ----- invariants

  /** The counters are what the phases say they are. */
  predicate CountersMatch(s: State) {
    && |s.members| == s.pool.size
    && s.pool.live == Count(s.members, IsLive)
    && s.pool.parked == Count(s.members, IsParked)
  }

  /** The three records of whether the pool was ever up agree. */
  predicate UpsMatch(s: State) {
    && (s.pool.everUp <==> s.ups > 0)
    && (s.pool.everUp <==> s.pool.cameUp > 0)
    && (s.pool.live > 0 ==> s.pool.everUp)
  }

  /** While the pool is up no parked member has seen the current version. */
  predicate NoWakeLost(s: State) {
    forall i :: 0 <= i < |s.members| && s.members[i].Parked? ==>
      s.members[i].seen <= s.pool.cameUp && (s.pool.live > 0 ==> s.members[i].seen < s.pool.cameUp)
  }

  /** Phases only a stopped, or an up, session explains. */
  predicate PhasesExplained(s: State) {
    forall i :: 0 <= i < |s.members| ==>
      var m := s.members[i];
      && (m.Done? || m == Woken(false) || m == Dropping(true) ==> s.stop)
      && (m == Woken(true) || m.Checking? || m.Sleeping? ==> s.pool.everUp)
  }

  /** A member that can never again complete a control exchange unless a sibling does. */
  predicate Stuck(m: Phase) {
    m.Parked? || m == Woken(false) || m.Done?
  }

  predicate AllStuck(s: State) {
    forall i :: 0 <= i < |s.members| ==> Stuck(s.members[i])
  }

  /** The session loop has a permit waiting for each reason to end the session. */
  predicate PermitsPosted(s: State) {
    && (s.pool.wentDown ==> s.pool.everUp)
    && (s.loop.Running? && s.pool.everUp && s.pool.live == 0 ==> s.pool.wentDown)
    && (s.loop.Running? && s.pool.size > 0 && s.pool.parked == s.pool.size ==> s.pool.allParked)
  }

  /** A loop that is about to report a pool that never came up has nothing left to wait for. */
  predicate GivesUpOnlyStuck(s: State) {
    !s.pool.everUp && (s.pool.allParked || s.loop.Deciding?) ==> AllStuck(s)
  }

  predicate VerdictRight(s: State) {
    match s.loop
    case Ended(Stopped) => s.stop
    case Ended(Lost) => s.pool.everUp
    case Ended(NeverUp(_)) => s.rejected || (!s.pool.everUp && AllStuck(s))
    case _ => true
  }

  /** Some member has failed without being rejected, so there is a cause to report. */
  predicate FailureKept(s: State) {
    !s.rejected && !s.pool.everUp && !s.loop.Ended? && !s.failed.Some? ==>
      forall i :: 0 <= i < |s.members| ==> s.members[i].Connecting?
  }

  predicate Invariant(s: State) {
    && CountersMatch(s) && UpsMatch(s) && NoWakeLost(s) && PhasesExplained(s)
    && PermitsPosted(s) && GivesUpOnlyStuck(s) && VerdictRight(s) && FailureKept(s)
  }

  lemma InitHolds(size: nat)
    ensures Invariant(Init(size))
  {
    CountIsNone(Init(size).members, IsLive);
    CountIsNone(Init(size).members, IsParked);
  }

  /** The member a step moves, if it moves one. */
  function Mover(step: Step): Option<nat> {
    match step
    case Fail(i, _) => Some(i)
    case Reject(i) => Some(i)
    case ComeUp(i) => Some(i)
    case Drop(i) => Some(i)
    case ReportDown(i, _) => Some(i)
    case Park(i) => Some(i)
    case Wake(i) => Some(i)
    case WakeForStop(i) => Some(i)
    case Unpark(i) => Some(i)
    case CheckStop(i) => Some(i)
    case Retry(i) => Some(i)
    case SleepForStop(i) => Some(i)
    case _ => None
  }

  /** A step changes at most its mover's phase, so the counts move by that member alone. */
  lemma CountsAfter(s: State, step: Step)
    requires Enabled(s, step)
    ensures Mover(step).None? ==> Apply(s, step).members == s.members
    ensures Mover(step).Some? ==>
      var i := Mover(step).value;
      var m := Apply(s, step).members[i];
      && Apply(s, step).members == s.members[i := m]
      && Count(Apply(s, step).members, IsLive)
         == Count(s.members, IsLive) - (if IsLive(s.members[i]) then 1 else 0) + (if IsLive(m) then 1 else 0)
      && Count(Apply(s, step).members, IsParked)
         == Count(s.members, IsParked) - (if IsParked(s.members[i]) then 1 else 0) + (if IsParked(m) then 1 else 0)
  {
    if Mover(step).Some? {
      var i := Mover(step).value;
      var m := Apply(s, step).members[i];
      CountUpdate(s.members, i, m, IsLive);
      CountUpdate(s.members, i, m, IsParked);
    }
  }

  lemma CountersKept(s: State, step: Step)
    requires Invariant(s) && Enabled(s, step)
    ensures CountersMatch(Apply(s, step))
  {
    CountsAfter(s, step);
    CountIsNone(s.members, IsLive);
    CountIsNone(s.members, IsParked);
  }

  lemma UpsKept(s: State, step: Step)
    requires Invariant(s) && Enabled(s, step)
    ensures UpsMatch(Apply(s, step))
  {
  }

  lemma WakesKept(s: State, step: Step)
    requires Invariant(s) && Enabled(s, step)
    ensures NoWakeLost(Apply(s, step))
  {
    CountIsNone(s.members, IsLive);
  }

  lemma PhasesKept(s: State, step: Step)
    requires Invariant(s) && Enabled(s, step)
    ensures PhasesExplained(Apply(s, step))
  {
    CountIsNone(s.members, IsLive);
  }

  lemma PermitsKept(s: State, step: Step)
    requires Invariant(s) && Enabled(s, step)
    ensures PermitsPosted(Apply(s, step))
  {
    CountersKept(s, step);
    CountIsNone(s.members, IsLive);
  }

  lemma StuckKept(s: State, step: Step)
    requires Invariant(s) && Enabled(s, step)
    ensures GivesUpOnlyStuck(Apply(s, step))
  {
    CountersKept(s, step);
    PhasesKept(s, step);
    if step.Park? && Parkable(s.pool) && !s.pool.everUp && s.pool.parked + 1 >= s.pool.size {
      CountIsAll(Apply(s, step).members, IsParked);
    }
  }

  lemma VerdictKept(s: State, step: Step)
    requires Invariant(s) && Enabled(s, step)
    ensures VerdictRight(Apply(s, step)) && FailureKept(Apply(s, step))
  {
  }

  lemma StepKept(s: State, step: Step)
    requires Invariant(s) && Enabled(s, step)
    ensures Invariant(Apply(s, step)) && Apply(s, step).pool.size == s.pool.size
  {
    CountersKept(s, step);
    UpsKept(s, step);
    WakesKept(s, step);
    PhasesKept(s, step);
    PermitsKept(s, step);
    StuckKept(s, step);
    VerdictKept(s, step);
  }

  /** A non-empty run is a shorter run and one more enabled step. */
  lemma LastStep(s: State, steps: seq<Step>, t: State) returns (u: State, step: Step)
    requires steps != [] && Run(s, steps) == Some(t)
    ensures Run(s, steps[..|steps| - 1]) == Some(u) && step == steps[|steps| - 1]
    ensures Enabled(u, step) && Apply(u, step) == t
  {
    u, step := Run(s, steps[..|steps| - 1]).value, steps[|steps| - 1];
  }

  /** An enabled step extends a run. */
  lemma Then(s: State, steps: seq<Step>, t: State, step: Step)
    requires Run(s, steps) == Some(t) && Enabled(t, step)
    ensures Run(s, steps + [step]) == Some(Apply(t, step))
  {
    assert (steps + [step])[..|steps|] == steps;
  }

  lemma {:induction false} Kept(s: State, steps: seq<Step>, t: State)
    requires Invariant(s) && Run(s, steps) == Some(t)
    ensures Invariant(t) && t.pool.size == s.pool.size
  {
    if steps != [] {
      var u, step := LastStep(s, steps, t);
      Kept(s, steps[..|steps| - 1], u);
      StepKept(u, step);
    }
  }

  lemma Reached(size: nat, steps: seq<Step>, s: State)
    requires Run(Init(size), steps) == Some(s)
    ensures Invariant(s) && s.pool.size == size
  {
    InitHolds(size);
    Kept(Init(size), steps, s);
  }

  // ----- what every run guarantees

  /** The counters count phases, and a pool that is up has already signalled every parked member. */
  lemma CountersAndWakeups(size: nat, steps: seq<Step>, s: State)
    requires Run(Init(size), steps) == Some(s)
    ensures s.pool.live == Count(s.members, IsLive) <= size
    ensures s.pool.parked == Count(s.members, IsParked) <= size
    ensures forall i :: 0 <= i < |s.members| && s.members[i].Parked? && s.pool.live > 0 && !s.loop.Ended? ==>
              s.members[i].seen < s.pool.cameUp && Enabled(s, Wake(i))
  {
    Reached(size, steps, s);
  }

  /** With no stop requested and no member able to move, the all-parked permit is waiting for the loop. */
  lemma NoMemberMovesOnlyWhenAllParked(size: nat, steps: seq<Step>, s: State)
    requires size > 0 && Run(Init(size), steps) == Some(s)
    requires s.loop.Running? && !s.stop
    requires forall step :: Mover(step).Some? ==> !Enabled(s, step)
    ensures s.pool.allParked && s.pool.parked == size && s.pool.live == 0
  {
    Reached(size, steps, s);
    forall i | 0 <= i < |s.members|
      ensures s.members[i].Parked?
    {
      Blocked(s, i);
    }
    CountIsAll(s.members, IsParked);
    CountIsNone(s.members, IsLive);
  }

  /** A member no step of its own can move is parked at the current version, or done. */
  lemma Blocked(s: State, i: nat)
    requires Invariant(s) && At(s, i)
    requires forall step :: Mover(step) == Some(i) ==> step.ComeUp? || !Enabled(s, step)
    ensures s.members[i].Done? || s.members[i] == Parked(s.pool.cameUp)
  {
    assert !Enabled(s, Fail(i, NOTHING_CAME_UP));
    assert !Enabled(s, Drop(i)) && !Enabled(s, ReportDown(i, ""));
    assert !Enabled(s, Park(i)) && !Enabled(s, Wake(i)) && !Enabled(s, Unpark(i));
    assert !Enabled(s, CheckStop(i)) && !Enabled(s, Retry(i));
  }

  /** The session is never wedged: until it ends, somebody can move without a member coming up. */
  lemma NeverWedged(s: State) returns (step: Step)
    requires Invariant(s) && !s.loop.Ended?
    ensures Enabled(s, step) && !step.ComeUp? && !step.RequestStop?
  {
    if s.loop.Deciding? {
      return LoopDecide;
    }
    if s.stop {
      return LoopStop;
    }
    if i, step' :| 0 <= i < |s.members| && Mover(step') == Some(i) && !step'.ComeUp? && Enabled(s, step') {
      return step';
    }
    forall i | 0 <= i < |s.members|
      ensures IsParked(s.members[i])
    {
      Blocked(s, i);
    }
    CountIsAll(s.members, IsParked);
    if s.pool.size == 0 {
      return LoopDrained;
    }
    return LoopAllParked;
  }

  /** Without a rejection the session ends `Lost` exactly when some member was up, else `NeverUp`. */
  lemma VerdictIsRight(size: nat, steps: seq<Step>, s: State)
    requires Run(Init(size), steps) == Some(s) && s.loop.Ended?
    ensures s.loop.outcome.Lost? ==> s.ups > 0
    ensures s.loop.outcome.NeverUp? && !s.rejected ==> s.ups == 0
    ensures s.loop.outcome.Stopped? ==> s.stop
    ensures !s.stop && !s.rejected ==> (s.loop.outcome.Lost? <==> s.ups > 0)
  {
    Reached(size, steps, s);
  }

  /** A pool that came up and is down again can always be reported lost at once. */
  lemma DownPoolIsReported(size: nat, steps: seq<Step>, s: State)
    requires Run(Init(size), steps) == Some(s)
    requires s.loop.Running? && s.ups > 0 && s.pool.live == 0
    ensures Enabled(s, LoopWentDown)
  {
    Reached(size, steps, s);
  }

  // ----- a pool that is up when its session ends

  /** While the pool is up for the first time, nothing tells the loop that it is lost. */
  predicate FirstRiseQuiet(s: State) {
    s.pool.live > 0 && s.pool.cameUp <= 1 ==>
      !s.pool.wentDown && !s.pool.allParked && !s.loop.Deciding? && s.loop != Ended(S.Lost)
  }

  lemma QuietRiseKept(s: State, step: Step)
    requires Invariant(s) && FirstRiseQuiet(s) && Enabled(s, step)
    ensures FirstRiseQuiet(Apply(s, step))
  {
    if step.ComeUp? {
      assert !s.pool.everUp && (s.pool.allParked || s.loop.Deciding?) ==> Stuck(s.members[step.i]);
    }
    CountIsNone(s.members, IsLive);
  }

  lemma {:induction false} FirstRiseReached(size: nat, steps: seq<Step>, s: State)
    requires Run(Init(size), steps) == Some(s)
    ensures FirstRiseQuiet(s)
  {
    if steps != [] {
      var u, step := LastStep(Init(size), steps, s);
      FirstRiseReached(size, steps[..|steps| - 1], u);
      Reached(size, steps[..|steps| - 1], u);
      QuietRiseKept(u, step);
    }
  }

  /** A session that ends `Lost` while its pool is up has seen the pool go down and come up again. */
  lemma LostWhileUpNeedsASecondRise(size: nat, steps: seq<Step>, s: State)
    requires Run(Init(size), steps) == Some(s) && s.loop == Ended(S.Lost) && s.pool.live > 0
    ensures s.pool.cameUp >= 2
  {
    FirstRiseReached(size, steps, s);
  }

  /**
   Such endings happen: in any run, a member that comes up again before the loop has taken the
   permit of the last fall finds its pool torn down at once.
   */
  lemma StalePermitEndsALivePool(size: nat, steps: seq<Step>, s: State, i: nat) returns (t: State)
    requires Run(Init(size), steps) == Some(s) && s.loop.Running? && s.ups > 0 && s.pool.live == 0
    requires Enabled(s, ComeUp(i))
    ensures Run(Init(size), steps + [ComeUp(i)] + [LoopWentDown]) == Some(t)
    ensures t.loop == Ended(S.Lost) && t.pool.live == 1 && t.pool.events == s.pool.events + [Established]
  {
    DownPoolIsReported(size, steps, s);
    Then(Init(size), steps, s, ComeUp(i));
    Then(Init(size), steps + [ComeUp(i)], Apply(s, ComeUp(i)), LoopWentDown);
    t := Apply(Apply(s, ComeUp(i)), LoopWentDown);
  }

  lemma FirstOfTwoFalls() returns (steps: seq<Step>, s: State)
    ensures Run(Init(2), steps) == Some(s) && s.members == [Checking, Connecting] && s.loop.Running?
    ensures s.ups == 1 && s.pool.live == 0 && s.pool.events == [Established, PoolEvent.Lost("x")]
  {
    steps, s := [], Init(2);
    Then(Init(2), steps, s, ComeUp(0));
    steps, s := steps + [ComeUp(0)], Apply(s, ComeUp(0));
    assert s.members == [Serving, Connecting];
    Then(Init(2), steps, s, Drop(0));
    steps, s := steps + [Drop(0)], Apply(s, Drop(0));
    assert s.members == [Dropping(false), Connecting];
    Then(Init(2), steps, s, ReportDown(0, "x"));
    steps, s := steps + [ReportDown(0, "x")], Apply(s, ReportDown(0, "x"));
  }

  /** The smallest such run: of two members, one falls as the other rises. */
  lemma LostWhileUpHappens() returns (steps: seq<Step>, s: State)
    ensures Run(Init(2), steps) == Some(s) && s.loop == Ended(S.Lost) && s.pool.live == 1
    ensures s.pool.events == [Established, PoolEvent.Lost("x"), Established]
  {
    steps, s := FirstOfTwoFalls();
    var t := StalePermitEndsALivePool(2, steps, s, 1);
    steps, s := steps + [ComeUp(1)] + [LoopWentDown], t;
  }

  // ----- a session that was never up

  lemma StuckStep(s: State, step: Step)
    requires Invariant(s) && Enabled(s, step) && s.ups == 0 && AllStuck(s)
    ensures Apply(s, step).ups == 0 && AllStuck(Apply(s, step))
  {
    if Mover(step).Some? {
      assert Stuck(s.members[Mover(step).value]);
    }
  }

  lemma {:induction false} StuckRun(s: State, more: seq<Step>, t: State)
    requires Invariant(s) && s.ups == 0 && AllStuck(s) && Run(s, more) == Some(t)
    ensures t.ups == 0 && AllStuck(t)
  {
    if more != [] {
      var u, step := LastStep(s, more, t);
      StuckRun(s, more[..|more| - 1], u);
      Kept(s, more[..|more| - 1], u);
      StuckStep(u, step);
    }
  }

  /** Once all members parked without ever being up, none can come up in any continuation. */
  lemma NeverUpIsFinal(size: nat, steps: seq<Step>, s: State, more: seq<Step>, t: State)
    requires Run(Init(size), steps) == Some(s) && s.ups == 0
    requires s.pool.allParked || s.loop.Deciding? || (s.loop.Ended? && s.loop.outcome.NeverUp? && !s.rejected)
    requires Run(s, more) == Some(t)
    ensures t.ups == 0 && AllStuck(t)
  {
    Reached(size, steps, s);
    StuckRun(s, more, t);
  }

  // ----- the failure a session reports

  function LastFailure(steps: seq<Step>): Option<S.AttemptFailure> {
    if steps == [] then None
    else if steps[|steps| - 1].Fail? then Some(steps[|steps| - 1].failure)
    else LastFailure(steps[..|steps| - 1])
  }

  /** What the failure slot, or the verdict taken from it, owes to the latest recorded failure. */
  predicate Tracks(s: State, latest: Option<S.AttemptFailure>) {
    match s.loop
    case Ended(NeverUp(f)) =>
      && (latest.Some? ==> f == latest.value)
      && (s.pool.size > 0 && !s.rejected && !s.stop ==> latest.Some?)
    case Ended(_) => true
    case _ => s.failed == latest
  }

  lemma TracksStep(s: State, step: Step, latest: Option<S.AttemptFailure>)
    requires Invariant(s) && Enabled(s, step) && Tracks(s, latest)
    ensures Tracks(Apply(s, step), if step.Fail? then Some(step.failure) else latest)
  {
    if step.LoopDecide? && s.pool.size > 0 {
      assert !s.pool.everUp ==> Stuck(s.members[0]);
    }
  }

  lemma {:induction false} FailureTracked(size: nat, steps: seq<Step>, s: State)
    requires Run(Init(size), steps) == Some(s)
    ensures Tracks(s, LastFailure(steps))
  {
    if steps != [] {
      var u, step := LastStep(Init(size), steps, s);
      FailureTracked(size, steps[..|steps| - 1], u);
      Reached(size, steps[..|steps| - 1], u);
      TracksStep(u, step, LastFailure(steps[..|steps| - 1]));
    }
  }

  /** A session nobody stopped or rejected reports the most recent failure of a member, never the stock one. */
  lemma NeverUpReportsLatestFailure(size: nat, steps: seq<Step>, s: State)
    requires size > 0 && Run(Init(size), steps) == Some(s)
    requires s.loop.Ended? && s.loop.outcome.NeverUp? && !s.stop && !s.rejected
    ensures LastFailure(steps) == Some(s.loop.outcome.failure)
  {
    FailureTracked(size, steps, s);
    Reached(size, steps, s);
  }

  // ----- the pool's event stream

  predicate IsEstablished(e: PoolEvent) {
    e.Established?
  }

  /** `Established` and `Lost` strictly alternate, `Established` first. */
  predicate Alternates(events: seq<PoolEvent>) {
    forall k :: 0 <= k < |events| ==> (events[k].Established? <==> k % 2 == 0)
  }

  predicate EventsMatch(p: Pool, stop: bool) {
    && (!stop ==> Alternates(p.events) && (p.live > 0 <==> |p.events| % 2 == 1))
    && Count(p.events, IsEstablished) == p.cameUp
  }

  lemma EventsAfterUp(p: Pool, stop: bool)
    requires EventsMatch(p, stop)
    ensures EventsMatch(AfterUp(p), stop)
  {
    if p.live == 0 {
      CountConcat(p.events, [Established], IsEstablished);
      assert Count([Established], IsEstablished) == 1;
      assert !stop ==> Alternates(p.events + [Established]);
    }
  }

  lemma EventsAfterDown(p: Pool, stop: bool, cause: string, sawStop: bool)
    requires EventsMatch(p, stop) && p.live > 0 && (sawStop ==> stop)
    ensures EventsMatch(AfterDown(p, cause, sawStop), stop)
  {
    CountConcat(p.events, [PoolEvent.Lost(cause)], IsEstablished);
  }

  lemma EventsStep(s: State, step: Step)
    requires Invariant(s) && EventsMatch(s.pool, s.stop) && Enabled(s, step)
    ensures EventsMatch(Apply(s, step).pool, Apply(s, step).stop)
  {
    if step.ComeUp? {
      EventsAfterUp(s.pool, s.stop);
    } else if step.ReportDown? {
      CountIsNone(s.members, IsLive);
      assert IsLive(s.members[step.i]);
      EventsAfterDown(s.pool, s.stop, step.cause, s.members[step.i].sawStop);
    }
  }

  lemma {:induction false} EventsTracked(size: nat, steps: seq<Step>, s: State)
    requires Run(Init(size), steps) == Some(s)
    ensures EventsMatch(s.pool, s.stop)
  {
    if steps != [] {
      var u, step := LastStep(Init(size), steps, s);
      EventsTracked(size, steps[..|steps| - 1], u);
      Reached(size, steps[..|steps| - 1], u);
      EventsStep(u, step);
    }
  }

  /** The events of every run: alternating until a stop, and one `Established` a rise always. */
  lemma EventsAlternate(size: nat, steps: seq<Step>, s: State)
    requires Run(Init(size), steps) == Some(s)
    ensures !s.stop ==> Alternates(s.pool.events)
    ensures !s.stop ==> (s.pool.live > 0 <==> s.pool.events != [] && s.pool.events[|s.pool.events| - 1].Established?)
    ensures Count(s.pool.events, IsEstablished) == s.pool.cameUp
  {
    EventsTracked(size, steps, s);
    if !s.stop {
      LastTellsLive(s.pool, s.stop);
    }
  }

  lemma LastTellsLive(p: Pool, stop: bool)
    requires EventsMatch(p, stop) && !stop
    ensures p.live > 0 <==> p.events != [] && p.events[|p.events| - 1].Established?
  {
  }

  // ----- a pool that is down comes to rest

  /** Upper bound on the steps a member has left while nobody comes up. */
  function PhaseRank(m: Phase, cameUp: nat): nat {
    match m
    case Done => 0
    case Woken(goesOn) => if goesOn then 7 else 1
    case Parked(seen) => if seen == cameUp then 2 else 8
    case Failed => 3
    case Connecting => 4
    case Sleeping => 5
    case Checking => 6
    case _ => 0
  }

  function PhaseRanks(members: seq<Phase>, cameUp: nat): (r: nat)
    ensures r <= 8 * |members|
  {
    if members == [] then 0
    else PhaseRanks(members[..|members| - 1], cameUp) + PhaseRank(members[|members| - 1], cameUp)
  }

  lemma {:induction false} PhaseRanksUpdate(members: seq<Phase>, i: nat, m: Phase, cameUp: nat)
    requires i < |members|
    ensures PhaseRanks(members[i := m], cameUp)
         == PhaseRanks(members, cameUp) - PhaseRank(members[i], cameUp) + PhaseRank(m, cameUp)
  {
    var last := |members| - 1;
    if i == last {
      assert members[i := m][..last] == members[..last];
    } else {
      assert members[i := m][..last] == members[..last][i := m];
      PhaseRanksUpdate(members[..last], i, m, cameUp);
    }
  }

  function Rank(s: State): nat {
    PhaseRanks(s.members, s.pool.cameUp)
    + (if s.stop then 0 else 1)
    + match s.loop { case Running => 2 case Deciding => 1 case Ended(_) => 0 }
  }

  lemma QuietPhase(s: State, step: Step)
    requires Enabled(s, step) && Mover(step).Some? && !step.ComeUp?
    requires s.pool.live == 0 && !IsLive(s.members[Mover(step).value])
    ensures Apply(s, step).pool == s.pool.(parked := Apply(s, step).pool.parked, allParked := Apply(s, step).pool.allParked)
    ensures var i := Mover(step).value;
            PhaseRank(Apply(s, step).members[i], s.pool.cameUp) < PhaseRank(s.members[i], s.pool.cameUp)
  {
  }

  lemma QuietStep(s: State, step: Step)
    requires Invariant(s) && s.pool.live == 0 && Enabled(s, step) && !step.ComeUp?
    ensures Apply(s, step).pool.live == 0 && Rank(Apply(s, step)) < Rank(s)
  {
    CountIsNone(s.members, IsLive);
    if Mover(step).Some? {
      var i := Mover(step).value;
      assert !IsLive(s.members[i]);
      CountsAfter(s, step);
      QuietPhase(s, step);
      PhaseRanksUpdate(s.members, i, Apply(s, step).members[i], s.pool.cameUp);
    }
  }

  lemma {:induction false} QuietRun(s: State, more: seq<Step>, t: State)
    requires Invariant(s) && s.pool.live == 0 && Run(s, more) == Some(t)
    requires forall k :: 0 <= k < |more| ==> !more[k].ComeUp?
    ensures t.pool.live == 0 && |more| + Rank(t) <= Rank(s)
  {
    if more != [] {
      var u := Run(s, more[..|more| - 1]).value;
      QuietRun(s, more[..|more| - 1], u);
      Kept(s, more[..|more| - 1], u);
      QuietStep(u, more[|more| - 1]);
    }
  }

  /**
   From a state with no member up, a run in which none comes up has at most 8 * size + 3
   steps, and one that cannot be extended has ended the session.
   */
  lemma DownPoolEndsItsSession(size: nat, steps: seq<Step>, s: State, more: seq<Step>, t: State)
    requires Run(Init(size), steps) == Some(s) && s.pool.live == 0 && Run(s, more) == Some(t)
    requires forall k :: 0 <= k < |more| ==> !more[k].ComeUp?
    ensures |more| <= 8 * size + 3
    ensures t.loop.Ended? || exists step :: Enabled(t, step) && !step.ComeUp? && !step.RequestStop?
  {
    Reached(size, steps, s);
    QuietRun(s, more, t);
    Kept(s, more, t);
    if !t.loop.Ended? {
      var step := NeverWedged(t);
    }
  }
}

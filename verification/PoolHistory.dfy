/**
 A pool session told from its steps alone: how many members are up or parked, which events
 went out, which permits are filled, where each member stands in `drive` and how the
 session ended are all read off the history, and every run's state agrees with them.
 */
module PoolHistory {
  import opened Common
  import opened PoolLiveness
  import opened PoolSession
  import S = Sessions

  // ----- the shared counters

  /** Control exchanges completed less connections reported down. */
  function Live(steps: seq<Step>): int {
    if steps == [] then 0
    else Live(Before(steps)) + if Last(steps).ComeUp? then 1 else if Last(steps).ReportDown? then -1 else 0
  }

  /** Parks taken while nobody was up, less wake-ups finished. */
  function Parked(steps: seq<Step>): int {
    if steps == [] then 0
    else
      Parked(Before(steps))
      + if Last(steps).Park? && Live(Before(steps)) == 0 then 1 else if Last(steps).Unpark? then -1 else 0
  }

  /** Times the pool went from nobody up to somebody up. */
  function Rises(steps: seq<Step>): nat {
    if steps == [] then 0
    else Rises(Before(steps)) + if Last(steps).ComeUp? && Live(Before(steps)) == 0 then 1 else 0
  }

  predicate StopAsked(steps: seq<Step>) {
    exists k :: 0 <= k < |steps| && steps[k].RequestStop?
  }

  predicate WasRejected(steps: seq<Step>) {
    exists k :: 0 <= k < |steps| && steps[k].Reject?
  }

  predicate WasUp(steps: seq<Step>) {
    exists k :: 0 <= k < |steps| && steps[k].ComeUp?
  }

  /** Stop had been asked for when member `i` last lost its connection. */
  predicate LostAfterStop(steps: seq<Step>, i: nat) {
    steps != [] && if Last(steps) == Drop(i) then StopAsked(Before(steps)) else LostAfterStop(Before(steps), i)
  }

  /** The last member up reports its connection down. */
  predicate IsFall(steps: seq<Step>) {
    steps != [] && Last(steps).ReportDown? && Live(steps) == 0
  }

  /** The events: `Established` at each rise, and `Lost` at each fall of a connection lost before any stop. */
  function Events(steps: seq<Step>): seq<PoolEvent> {
    if steps == [] then []
    else
      Events(Before(steps))
      + if Last(steps).ComeUp? && Live(steps) == 1 then [Established]
        else if IsFall(steps) && !LostAfterStop(Before(steps), Last(steps).i) then [PoolEvent.Lost(Last(steps).cause)]
        else []
  }

  /** A fall the session loop has not acted on. */
  predicate FallPending(steps: seq<Step>) {
    steps != [] && (IsFall(steps) || (!Last(steps).LoopWentDown? && FallPending(Before(steps))))
  }

  /** A park that left everybody parked, which the session loop has not acted on. */
  predicate ParkPending(size: nat, steps: seq<Step>) {
    && steps != []
    && (|| (Last(steps).Park? && Live(steps) == 0 && Parked(steps) >= size)
        || (!Last(steps).LoopAllParked? && ParkPending(size, Before(steps))))
  }

  function PoolAfter(size: nat, steps: seq<Step>): Pool
    requires Live(steps) >= 0 && Parked(steps) >= 0
  {
    Pool(size, Live(steps), WasUp(steps), Parked(steps), Rises(steps), FallPending(steps), ParkPending(size, steps), Events(steps))
  }

  // ----- one member

  /** Where a member's own step leaves it: after history `h`, with the member in phase `was`. */
  function NextPhase(h: seq<Step>, was: Phase, own: Step): Phase {
    match own
    case Fail(_, _) => Failed
    case Reject(_) => Failed
    case ComeUp(_) => Serving
    case Drop(_) => Dropping(StopAsked(h))
    case ReportDown(_, _) => Checking
    case Park(_) => if Live(h) == 0 then Phase.Parked(Rises(h)) else Checking
    case Wake(_) => Woken(true)
    case WakeForStop(_) => Woken(false)
    case Unpark(_) => if was == Woken(true) then Checking else Done
    case CheckStop(_) => if StopAsked(h) then Done else Sleeping
    case Retry(_) => Connecting
    case _ => Done
  }

  /** Where member `i` stands in its own loop. */
  function PhaseAfter(steps: seq<Step>, i: nat): Phase {
    if steps == [] then Connecting
    else if Mover(Last(steps)) != Some(i) then PhaseAfter(Before(steps), i)
    else NextPhase(Before(steps), PhaseAfter(Before(steps), i), Last(steps))
  }

  // ----- the session loop

  /** The failure a session that was never up reports. */
  function Reported(steps: seq<Step>): S.AttemptFailure {
    if LastFailure(steps).Some? then LastFailure(steps).value else S.AttemptFailure("no pooled connection came up", None)
  }

  function LoopAfter(steps: seq<Step>): Loop {
    if steps == [] then Running
    else
      var h := Before(steps);
      match Last(steps)
      case LoopStop => Ended(S.Stopped)
      case LoopRejected => Ended(S.NeverUp(Reported(h)))
      case LoopWentDown => Ended(S.Lost)
      case LoopAllParked => Deciding
      case LoopDrained => Deciding
      case LoopDecide => Ended(if WasUp(h) then S.Lost else S.NeverUp(Reported(h)))
      case _ => LoopAfter(h)
  }

  // ----- every run agrees

  predicate PoolAgrees(size: nat, steps: seq<Step>, s: State) {
    Live(steps) >= 0 && Parked(steps) >= 0 && s.pool == PoolAfter(size, steps)
  }

  predicate MembersAgree(size: nat, steps: seq<Step>, s: State) {
    |s.members| == size && forall i :: 0 <= i < size ==> s.members[i] == PhaseAfter(steps, i)
  }

  predicate FlagsAgree(steps: seq<Step>, s: State) {
    && (s.stop <==> StopAsked(steps)) && (s.rejected <==> WasRejected(steps)) && s.ups == Count(steps, IsRise)
    && s.loop == LoopAfter(steps)
    && (!s.loop.Ended? ==> s.failed == LastFailure(steps))
  }

  predicate IsRise(step: Step) {
    step.ComeUp?
  }

  lemma StopSnoc(steps: seq<Step>, step: Step)
    ensures StopAsked(steps + [step]) <==> StopAsked(steps) || step.RequestStop?
    ensures WasRejected(steps + [step]) <==> WasRejected(steps) || step.Reject?
    ensures WasUp(steps + [step]) <==> WasUp(steps) || step.ComeUp?
  {
    var all := steps + [step];
    assert all[|steps|] == step && forall k :: 0 <= k < |steps| ==> all[k] == steps[k];
  }

  /** A member's own step takes it where the history says. */
  lemma OwnStep(steps: seq<Step>, s: State, step: Step, i: nat)
    requires Enabled(s, step) && Mover(step) == Some(i)
    requires s.pool.live == Live(steps) && s.pool.cameUp == Rises(steps) && (s.stop <==> StopAsked(steps))
    ensures Apply(s, step).members[i] == NextPhase(steps, s.members[i], step)
  {
  }

  lemma MemberStep(size: nat, steps: seq<Step>, s: State, step: Step, i: nat)
    requires |s.members| == size && i < size && s.members[i] == PhaseAfter(steps, i)
    requires Enabled(s, step) && s.pool.live == Live(steps) && s.pool.cameUp == Rises(steps) && (s.stop <==> StopAsked(steps))
    ensures Apply(s, step).members[i] == PhaseAfter(steps + [step], i)
  {
    Snoc(steps, step);
    CountsAfter(s, step);
    if Mover(step) == Some(i) {
      OwnStep(steps, s, step, i);
    }
  }

  lemma {:induction false} DroppingTells(steps: seq<Step>, i: nat)
    requires PhaseAfter(steps, i).Dropping?
    ensures PhaseAfter(steps, i).sawStop <==> LostAfterStop(steps, i)
  {
    if Last(steps) != Drop(i) {
      DroppingTells(Before(steps), i);
    }
  }

  lemma UpStep(size: nat, steps: seq<Step>, s: State, i: nat)
    requires Enabled(s, ComeUp(i)) && PoolAgrees(size, steps, s)
    ensures PoolAgrees(size, steps + [ComeUp(i)], Apply(s, ComeUp(i)))
  {
    Snoc(steps, ComeUp(i));
    StopSnoc(steps, ComeUp(i));
    assert s.pool.events + [] == s.pool.events;
  }

  lemma DownStep(size: nat, steps: seq<Step>, s: State, i: nat, cause: string)
    requires Enabled(s, ReportDown(i, cause)) && PoolAgrees(size, steps, s) && s.pool.live > 0
    requires s.members[i].sawStop <==> LostAfterStop(steps, i)
    ensures PoolAgrees(size, steps + [ReportDown(i, cause)], Apply(s, ReportDown(i, cause)))
  {
    Snoc(steps, ReportDown(i, cause));
    StopSnoc(steps, ReportDown(i, cause));
    assert s.pool.events + [] == s.pool.events;
  }

  lemma ParkStep(size: nat, steps: seq<Step>, s: State, step: Step)
    requires Enabled(s, step) && PoolAgrees(size, steps, s) && (step.Park? || (step.Unpark? && s.pool.parked > 0))
    ensures PoolAgrees(size, steps + [step], Apply(s, step))
  {
    Snoc(steps, step);
    StopSnoc(steps, step);
    assert s.pool.events + [] == s.pool.events;
  }

  lemma OtherStep(size: nat, steps: seq<Step>, s: State, step: Step)
    requires Enabled(s, step) && PoolAgrees(size, steps, s)
    requires !step.ComeUp? && !step.ReportDown? && !step.Park? && !step.Unpark?
    ensures PoolAgrees(size, steps + [step], Apply(s, step))
  {
    Snoc(steps, step);
    StopSnoc(steps, step);
    assert s.pool.events + [] == s.pool.events;
  }

  lemma PoolStep(size: nat, steps: seq<Step>, s: State, step: Step)
    requires Invariant(s) && Enabled(s, step) && PoolAgrees(size, steps, s) && MembersAgree(size, steps, s)
    ensures PoolAgrees(size, steps + [step], Apply(s, step))
  {
    match step
    case ComeUp(i) => UpStep(size, steps, s, i);
    case ReportDown(i, cause) =>
      CountIsNone(s.members, IsLive);
      assert IsLive(s.members[i]);
      DroppingTells(steps, i);
      DownStep(size, steps, s, i, cause);
    case Park(_) => ParkStep(size, steps, s, step);
    case Unpark(i) =>
      CountIsNone(s.members, IsParked);
      assert IsParked(s.members[i]);
      ParkStep(size, steps, s, step);
    case _ => OtherStep(size, steps, s, step);
  }

  lemma FlagsStep(steps: seq<Step>, s: State, step: Step)
    requires Invariant(s) && Enabled(s, step) && FlagsAgree(steps, s) && (s.pool.everUp <==> WasUp(steps))
    ensures FlagsAgree(steps + [step], Apply(s, step))
  {
    Snoc(steps, step);
    StopSnoc(steps, step);
  }

  lemma AgreesStep(size: nat, steps: seq<Step>, s: State, step: Step)
    requires Invariant(s) && Enabled(s, step)
    requires PoolAgrees(size, steps, s) && MembersAgree(size, steps, s) && FlagsAgree(steps, s)
    ensures var t := Apply(s, step);
            PoolAgrees(size, steps + [step], t) && MembersAgree(size, steps + [step], t) && FlagsAgree(steps + [step], t)
  {
    PoolStep(size, steps, s, step);
    FlagsStep(steps, s, step);
    CountsAfter(s, step);
    forall i | 0 <= i < size
      ensures Apply(s, step).members[i] == PhaseAfter(steps + [step], i)
    {
      MemberStep(size, steps, s, step, i);
    }
  }

  lemma StartAgrees(size: nat)
    ensures PoolAgrees(size, [], Init(size)) && MembersAgree(size, [], Init(size)) && FlagsAgree([], Init(size))
  {
  }

  lemma {:induction false} Agrees(size: nat, steps: seq<Step>, s: State)
    requires Run(Init(size), steps) == Some(s)
    ensures PoolAgrees(size, steps, s) && MembersAgree(size, steps, s) && FlagsAgree(steps, s)
  {
    if steps == [] {
      StartAgrees(size);
    } else {
      var u, step := LastStep(Init(size), steps, s);
      assert steps == Before(steps) + [step];
      Agrees(size, Before(steps), u);
      Reached(size, Before(steps), u);
      AgreesStep(size, Before(steps), u, step);
    }
  }

  // ----- what that says

  /** Counters, versions, permits and events of every run are those of its history. */
  lemma PoolIsHistory(size: nat, steps: seq<Step>, s: State)
    requires Run(Init(size), steps) == Some(s)
    ensures Live(steps) >= 0 && Parked(steps) >= 0 && s.pool == PoolAfter(size, steps)
  {
    Agrees(size, steps, s);
  }

  /** In every run each member stands where its own steps have taken it. */
  lemma MembersAreHistory(size: nat, steps: seq<Step>, s: State, i: nat)
    requires Run(Init(size), steps) == Some(s) && i < size
    ensures |s.members| == size && s.members[i] == PhaseAfter(steps, i)
  {
    Agrees(size, steps, s);
  }

  /** In every run the session loop has decided what the history of its own steps says, with the failure reported. */
  lemma LoopIsHistory(size: nat, steps: seq<Step>, s: State)
    requires Run(Init(size), steps) == Some(s)
    ensures s.loop == LoopAfter(steps)
    ensures (s.stop <==> StopAsked(steps)) && (s.rejected <==> WasRejected(steps)) && s.ups == Count(steps, IsRise)
  {
    Agrees(size, steps, s);
  }

  // ----- what can happen next

  /** The length of the history up to and including member `i`'s last own step; 0 if it has taken none. */
  function OwnEnd(steps: seq<Step>, i: nat): (e: nat)
    ensures e <= |steps| && (e > 0 ==> Mover(steps[e - 1]) == Some(i))
  {
    if steps == [] then 0 else if Mover(Last(steps)) == Some(i) then |steps| else OwnEnd(Before(steps), i)
  }

  /** A connection attempt comes to one of these. */
  predicate EndsAttempt(step: Step) {
    step.Fail? || step.Reject? || step.ComeUp?
  }

  /** Step `own` was taken after `h` by a member in phase `was`; `stop` and `rises` are as of now. */
  predicate MayFollowOwn(h: seq<Step>, was: Phase, own: Step, stop: bool, rises: nat, step: Step) {
    match own
    case Retry(_) => EndsAttempt(step)
    case Fail(_, _) => step.Park?
    case Reject(_) => step.Park?
    case ComeUp(_) => step.Drop?
    case Drop(_) => step.ReportDown?
    case ReportDown(_, _) => step.CheckStop?
    case Park(_) =>
      if Live(h) != 0 then step.CheckStop? else (step.Wake? && rises != Rises(h)) || (step.WakeForStop? && stop)
    case Wake(_) => step.Unpark?
    case WakeForStop(_) => step.Unpark?
    case Unpark(_) => step.CheckStop? && was == Woken(true)
    case CheckStop(_) => !StopAsked(h) && (step.Retry? || (step.SleepForStop? && stop))
    case _ => false
  }

  /** A step of `drive` that may follow the member's own last one. */
  predicate MayFollow(steps: seq<Step>, step: Step)
    requires Mover(step).Some?
  {
    var i := Mover(step).value;
    var e := OwnEnd(steps, i);
    if e == 0 then EndsAttempt(step)
    else
      var h := steps[..e - 1];
      MayFollowOwn(h, PhaseAfter(h, i), steps[e - 1], StopAsked(steps), Rises(steps), step)
  }

  lemma {:induction false} PhaseAtOwnEnd(steps: seq<Step>, i: nat)
    ensures PhaseAfter(steps, i) == PhaseAfter(steps[..OwnEnd(steps, i)], i)
    ensures OwnEnd(steps[..OwnEnd(steps, i)], i) == OwnEnd(steps, i)
  {
    if steps != [] && Mover(Last(steps)) != Some(i) {
      PhaseAtOwnEnd(Before(steps), i);
      assert Before(steps)[..OwnEnd(steps, i)] == steps[..OwnEnd(steps, i)];
    } else {
      assert steps[..|steps|] == steps;
    }
  }

  /** What the phase alone allows. */
  predicate Allows(m: Phase, stop: bool, rises: nat, step: Step) {
    match m
    case Connecting => EndsAttempt(step)
    case Serving => step.Drop?
    case Dropping(_) => step.ReportDown?
    case Failed => step.Park?
    case Parked(seen) => (step.Wake? && rises != seen) || (step.WakeForStop? && stop)
    case Woken(_) => step.Unpark?
    case Checking => step.CheckStop?
    case Sleeping => step.Retry? || (step.SleepForStop? && stop)
    case Done => false
  }

  lemma FollowsPhase(h: seq<Step>, was: Phase, own: Step, stop: bool, rises: nat, step: Step)
    requires Mover(own).Some? && Mover(step).Some?
    ensures MayFollowOwn(h, was, own, stop, rises, step) <==> Allows(NextPhase(h, was, own), stop, rises, step)
  {
  }

  lemma MayFollowIsAllowed(steps: seq<Step>, step: Step)
    requires Mover(step).Some?
    ensures MayFollow(steps, step) <==> Allows(PhaseAfter(steps, Mover(step).value), StopAsked(steps), Rises(steps), step)
  {
    var i := Mover(step).value;
    var e := OwnEnd(steps, i);
    PhaseAtOwnEnd(steps, i);
    if e > 0 {
      var h := steps[..e - 1];
      assert Before(steps[..e]) == h && Last(steps[..e]) == steps[e - 1];
      FollowsPhase(h, PhaseAfter(h, i), steps[e - 1], StopAsked(steps), Rises(steps), step);
    }
  }

  lemma EnabledIsAllowed(s: State, step: Step)
    requires Mover(step).Some?
    ensures Enabled(s, step) <==>
              At(s, Mover(step).value) && Allows(s.members[Mover(step).value], s.stop, s.pool.cameUp, step)
  {
  }

  /** In every run a member can take exactly the steps that follow its own last one, until the session has ended. */
  lemma MovesAreHistory(size: nat, steps: seq<Step>, s: State, step: Step)
    requires Run(Init(size), steps) == Some(s) && Mover(step).Some?
    ensures Enabled(s, step) <==> !LoopAfter(steps).Ended? && Mover(step).value < size && MayFollow(steps, step)
  {
    Agrees(size, steps, s);
    EnabledIsAllowed(s, step);
    MayFollowIsAllowed(steps, step);
  }

  predicate AllDone(size: nat, steps: seq<Step>) {
    forall i :: 0 <= i < size ==> PhaseAfter(steps, i).Done?
  }

  lemma DrainedMoves(size: nat, steps: seq<Step>, s: State)
    requires MembersAgree(size, steps, s)
    ensures (forall i :: 0 <= i < |s.members| ==> s.members[i].Done?) <==> AllDone(size, steps)
  {
    if AllDone(size, steps) {
      forall i | 0 <= i < |s.members|
        ensures s.members[i].Done?
      {
        assert PhaseAfter(steps, i).Done?;
      }
    }
  }

  lemma LoopMoves(size: nat, steps: seq<Step>, s: State)
    requires PoolAgrees(size, steps, s) && MembersAgree(size, steps, s) && FlagsAgree(steps, s)
    ensures Enabled(s, RequestStop) <==> !StopAsked(steps)
    ensures Enabled(s, LoopStop) <==> LoopAfter(steps).Running? && StopAsked(steps)
    ensures Enabled(s, LoopRejected) <==> LoopAfter(steps).Running? && WasRejected(steps)
    ensures Enabled(s, LoopWentDown) <==> LoopAfter(steps).Running? && FallPending(steps)
    ensures Enabled(s, LoopAllParked) <==> LoopAfter(steps).Running? && ParkPending(size, steps)
    ensures Enabled(s, LoopDecide) <==> LoopAfter(steps).Deciding?
  {
  }

  /** In every run the session loop can act exactly on the reasons the history gives it. */
  lemma LoopMovesAreHistory(size: nat, steps: seq<Step>, s: State)
    requires Run(Init(size), steps) == Some(s)
    ensures Enabled(s, RequestStop) <==> !StopAsked(steps)
    ensures Enabled(s, LoopStop) <==> LoopAfter(steps).Running? && StopAsked(steps)
    ensures Enabled(s, LoopRejected) <==> LoopAfter(steps).Running? && WasRejected(steps)
    ensures Enabled(s, LoopWentDown) <==> LoopAfter(steps).Running? && FallPending(steps)
    ensures Enabled(s, LoopAllParked) <==> LoopAfter(steps).Running? && ParkPending(size, steps)
    ensures Enabled(s, LoopDrained) <==> LoopAfter(steps).Running? && AllDone(size, steps)
    ensures Enabled(s, LoopDecide) <==> LoopAfter(steps).Deciding?
  {
    Agrees(size, steps, s);
    LoopMoves(size, steps, s);
    DrainedMoves(size, steps, s);
  }

  // ----- losses, stops and rejections

  /** A connection lost after stop was asked for is never reported as a loss. */
  lemma StoppedLossIsSilent(size: nat, steps: seq<Step>, i: nat, cause: string, s: State, t: State)
    requires Run(Init(size), steps) == Some(s) && LostAfterStop(steps, i)
    requires Run(Init(size), steps + [ReportDown(i, cause)]) == Some(t)
    ensures t.pool.events == s.pool.events
  {
    PoolIsHistory(size, steps, s);
    PoolIsHistory(size, steps + [ReportDown(i, cause)], t);
    Snoc(steps, ReportDown(i, cause));
  }

  /** A connection lost before any stop is reported, with its cause, exactly when it was the last one up. */
  lemma LossIsReported(size: nat, steps: seq<Step>, i: nat, cause: string, s: State, t: State)
    requires Run(Init(size), steps) == Some(s) && !LostAfterStop(steps, i)
    requires Run(Init(size), steps + [ReportDown(i, cause)]) == Some(t)
    ensures t.pool.events == s.pool.events + if Live(steps) == 1 then [PoolEvent.Lost(cause)] else []
  {
    PoolIsHistory(size, steps, s);
    PoolIsHistory(size, steps + [ReportDown(i, cause)], t);
    Snoc(steps, ReportDown(i, cause));
  }

  lemma DoneStaysPut(size: nat, steps: seq<Step>, s: State, step: Step, i: nat)
    requires Run(Init(size), steps) == Some(s) && PhaseAfter(steps, i).Done? && Enabled(s, step)
    ensures Mover(step) != Some(i) && PhaseAfter(steps + [step], i).Done?
  {
    Snoc(steps, step);
    if i < size {
      MembersAreHistory(size, steps, s, i);
    } else {
      Reached(size, steps, s);
    }
  }

  lemma {:induction false} DoneForGood(size: nat, steps: seq<Step>, n: nat, i: nat, s: State)
    requires Run(Init(size), steps) == Some(s) && n <= |steps| && PhaseAfter(steps[..n], i).Done?
    ensures PhaseAfter(steps, i).Done?
  {
    if n == |steps| {
      assert steps[..n] == steps;
    } else {
      var u, step := LastStep(Init(size), steps, s);
      assert Before(steps)[..n] == steps[..n] && steps == Before(steps) + [step];
      DoneForGood(size, Before(steps), n, i, u);
      DoneStaysPut(size, Before(steps), u, step, i);
    }
  }

  /** In every run a member that looks for stop after it was asked for never moves again. */
  lemma {:induction false} StoppedMemberIsDone(size: nat, steps: seq<Step>, n: nat, i: nat, k: nat, s: State)
    requires Run(Init(size), steps) == Some(s) && n < k < |steps| && steps[n] == CheckStop(i) && StopAsked(steps[..n])
    ensures Mover(steps[k]) != Some(i)
    decreases |steps|
  {
    var u, step := LastStep(Init(size), steps, s);
    var h := Before(steps);
    assert h[..n] == steps[..n] && h[n] == steps[n];
    if k < |h| {
      StoppedMemberIsDone(size, h, n, i, k, u);
    } else {
      assert Before(h[..n + 1]) == h[..n] && Last(h[..n + 1]) == CheckStop(i);
      DoneForGood(size, h, n + 1, i, u);
      DoneStaysPut(size, h, u, step, i);
    }
  }

  /** A rejection ends the session at once, as one that was never up, with the latest failure or the stock one. */
  lemma RejectionEndsTheSession(size: nat, steps: seq<Step>, s: State)
    requires Run(Init(size), steps) == Some(s) && s.loop.Running? && WasRejected(steps)
    ensures Enabled(s, LoopRejected) && Apply(s, LoopRejected).loop == Ended(S.NeverUp(Reported(steps)))
  {
    Agrees(size, steps, s);
  }
}

/**
 The foreign client told from its steps alone: whether the tunnel was spawned, how it ended,
 what was emitted and how the stream ends are read off the history, and every run's state
 agrees with them.
 */
module ForeignHistory {
  import opened Common
  import opened EventDelivery
  import opened ForeignRun

  predicate RunCalled(steps: seq<Step>) {
    steps != [] && (Last(steps).CallRun? || RunCalled(Before(steps)))
  }

  predicate StopCalled(steps: seq<Step>) {
    steps != [] && (Last(steps).CallStop? || StopCalled(Before(steps)))
  }

  predicate WasDropped(steps: seq<Step>) {
    steps != [] && (Last(steps).DropRun? || WasDropped(Before(steps)))
  }

  predicate WasShutDown(steps: seq<Step>) {
    steps != [] && (Last(steps).ShutdownDone? || WasShutDown(Before(steps)))
  }

  /** How `run` began: whether stop had been called by then, and the runtime's error, if any. */
  datatype Beginning = NotBegun | BegunStopped | BegunBroken(cause: string) | BegunWell

  function BeginningOf(steps: seq<Step>): Beginning {
    if steps == [] then NotBegun
    else if Last(steps).Begin? then
      if StopCalled(Before(steps)) then BegunStopped
      else if Last(steps).runtimeError.Some? then BegunBroken(Last(steps).runtimeError.value)
      else BegunWell
    else BeginningOf(Before(steps))
  }

  /** What the tunnel task ended with, if it did. */
  function TunnelEnd(steps: seq<Step>): Option<TunnelEvent> {
    if steps == [] then None
    else if Last(steps).TunnelEnds? then Some(Last(steps).event)
    else TunnelEnd(Before(steps))
  }

  /** All that was put in the queue, in order. */
  function Emitted(steps: seq<Step>): seq<Inner> {
    if steps == [] then []
    else Emitted(Before(steps)) + if Last(steps).Emit? then [Last(steps).item] else []
  }

  /** Something was emitted after the tunnel task had ended, or had been shut down. */
  predicate EmittedLate(steps: seq<Step>) {
    && steps != []
    && (|| (Last(steps).Emit? && (TunnelEnd(Before(steps)).Some? || WasShutDown(Before(steps))))
        || EmittedLate(Before(steps)))
  }

  /** How much had been emitted when the queue was last found empty. */
  function EmittedAtLastLook(steps: seq<Step>): Option<nat> {
    if steps == [] then None
    else if Last(steps).QueueEmpty? then Some(|Emitted(Before(steps))|)
    else EmittedAtLastLook(Before(steps))
  }

  function TunnelAfter(steps: seq<Step>): Tunnel {
    if !BeginningOf(steps).BegunWell? then NotSpawned
    else if TunnelEnd(steps).Some? then Ended(TunnelEnd(steps).value)
    else if WasShutDown(steps) then Aborted
    else Running
  }

  /** The terminal event of a run that was not dropped. */
  function OwnEnding(steps: seq<Step>): Option<TunnelEvent> {
    match BeginningOf(steps)
    case NotBegun => None
    case BegunStopped => Some(Stopped)
    case BegunBroken(cause) => Some(Failed(cause))
    case BegunWell => TunnelEnd(steps)
  }

  predicate FlagsAgree(steps: seq<Step>, s: State) {
    && (s.started <==> RunCalled(steps)) && (s.stopped <==> StopCalled(steps)) && (s.dropped <==> WasDropped(steps))
    && (s.phase.NotCalled? || s.phase.Begun? <==> BeginningOf(steps).NotBegun?)
  }

  predicate TunnelAgrees(steps: seq<Step>, s: State) {
    && s.tunnel == TunnelAfter(steps)
    && (TunnelEnd(steps).Some? ==> BeginningOf(steps).BegunWell?)
    && (s.phase.ShuttingDown? || !s.dropped ==> !WasShutDown(steps))
  }

  predicate QueueAgrees(steps: seq<Step>, s: State) {
    s.enqueued == Emitted(steps) && (s.late <==> EmittedLate(steps))
  }

  /** Before the tunnel is known, an ending is the one the beginning calls for. */
  predicate EndingAgrees(steps: seq<Step>, s: State) {
    (s.phase.Ending? || s.phase.Over?) && !s.dropped ==> OwnEnding(steps) == Some(s.phase.event)
  }

  predicate IsEnding(s: State) {
    (s.phase.Ending? || s.phase.Over?) && !s.tunnel.NotSpawned?
  }

  /** What is off the queue, one way or another. */
  function OffQueue(s: State): int {
    |s.enqueued| - |s.queue|
  }

  /** The terminal event comes after a look that found the queue empty, and nothing is taken off it after that look. */
  predicate LookAgrees(steps: seq<Step>, s: State) {
    OffQueue(s) >= 0 && (IsEnding(s) ==> EmittedAtLastLook(steps) == Some(OffQueue(s)))
  }

  /** Only receiving takes an item off the queue. */
  lemma OffQueueStep(s: State, step: Step)
    requires Enabled(s, step)
    ensures OffQueue(Apply(s, step)) == OffQueue(s) + if step.Receive? then 1 else 0
  {
  }

  /** An ending begins only where the queue is found empty. */
  lemma EndingBegins(s: State, step: Step)
    requires Enabled(s, step) && (s.phase.Begun? ==> s.tunnel.NotSpawned?) && IsEnding(Apply(s, step))
    ensures !step.Receive? && (IsEnding(s) || (step.QueueEmpty? && s.queue == []))
    ensures step.QueueEmpty? ==> s.queue == []
  {
  }

  lemma LookStep(steps: seq<Step>, s: State, step: Step)
    requires s.enqueued == Emitted(steps) && (s.phase.Begun? ==> s.tunnel.NotSpawned?) && LookAgrees(steps, s) && Enabled(s, step)
    ensures LookAgrees(steps + [step], Apply(s, step))
  {
    LooksOn(steps, step);
    OffQueueStep(s, step);
    if IsEnding(Apply(s, step)) {
      EndingBegins(s, step);
    }
  }

  lemma LooksOn(steps: seq<Step>, step: Step)
    ensures EmittedAtLastLook(steps + [step]) == if step.QueueEmpty? then Some(|Emitted(steps)|) else EmittedAtLastLook(steps)
  {
    Snoc(steps, step);
  }

  lemma FlagsStep(steps: seq<Step>, s: State, step: Step)
    requires Invariant(s) && FlagsAgree(steps, s) && Enabled(s, step)
    ensures FlagsAgree(steps + [step], Apply(s, step))
  {
    Snoc(steps, step);
  }

  lemma TunnelStep(steps: seq<Step>, s: State, step: Step)
    requires Invariant(s) && FlagsAgree(steps, s) && TunnelAgrees(steps, s) && Enabled(s, step)
    ensures TunnelAgrees(steps + [step], Apply(s, step))
  {
    Snoc(steps, step);
  }

  lemma QueueStep(steps: seq<Step>, s: State, step: Step)
    requires TunnelAgrees(steps, s) && QueueAgrees(steps, s) && Enabled(s, step)
    ensures QueueAgrees(steps + [step], Apply(s, step))
  {
    Snoc(steps, step);
    assert Emitted(steps) + [] == Emitted(steps);
  }

  lemma EndingStep(steps: seq<Step>, s: State, step: Step)
    requires Invariant(s) && FlagsAgree(steps, s) && TunnelAgrees(steps, s) && EndingAgrees(steps, s) && Enabled(s, step)
    ensures EndingAgrees(steps + [step], Apply(s, step))
  {
    Snoc(steps, step);
  }

  predicate Agree(steps: seq<Step>, s: State) {
    FlagsAgree(steps, s) && TunnelAgrees(steps, s) && QueueAgrees(steps, s) && EndingAgrees(steps, s) && LookAgrees(steps, s)
  }

  lemma AgreeStep(steps: seq<Step>, s: State, step: Step)
    requires Invariant(s) && Agree(steps, s) && Enabled(s, step)
    ensures Agree(steps + [step], Apply(s, step))
  {
    FlagsStep(steps, s, step);
    TunnelStep(steps, s, step);
    QueueStep(steps, s, step);
    EndingStep(steps, s, step);
    LookStep(steps, s, step);
  }

  lemma StartAgrees()
    ensures Agree([], INIT)
  {
  }

  lemma {:induction false} Agrees(steps: seq<Step>, s: State)
    requires Run(INIT, steps) == Some(s)
    ensures Agree(steps, s)
  {
    if steps == [] {
      StartAgrees();
    } else {
      var u, step := LastStep(INIT, steps, s);
      assert steps == Before(steps) + [step];
      Agrees(Before(steps), u);
      Kept(INIT, Before(steps), u);
      AgreeStep(Before(steps), u, step);
    }
  }

  // ----- what that says

  /** In every run the tunnel is where the history has taken it, and what is queued or was is what was emitted. */
  lemma TunnelIsHistory(steps: seq<Step>, s: State)
    requires Run(INIT, steps) == Some(s)
    ensures s.tunnel == TunnelAfter(steps) && s.enqueued == Emitted(steps)
    ensures (s.started <==> RunCalled(steps)) && (s.stopped <==> StopCalled(steps)) && (s.dropped <==> WasDropped(steps))
  {
    Agrees(steps, s);
  }

  /** `run` spawns the tunnel, and waits for it, exactly when it begins with a runtime and before any stop. */
  lemma RunSpawnsTheTunnel(steps: seq<Step>, s: State, runtimeError: Option<string>)
    requires Run(INIT, steps) == Some(s) && s.phase.Begun?
    ensures Enabled(s, Begin(runtimeError))
    ensures var t := Apply(s, Begin(runtimeError));
            && t.delivered == []
            && (runtimeError.None? && !StopCalled(steps) <==> AwaitsTunnel(t))
            && (t.tunnel.NotSpawned? <==> runtimeError.Some? || StopCalled(steps))
  {
    Agrees(steps, s);
    Kept(INIT, steps, s);
    BegunDeliveredNothing(s);
  }

  lemma HandedIsEmitted(steps: seq<Step>, s: State)
    requires Run(INIT, steps) == Some(s) && s.phase.Over?
    ensures s.loss.LostItem? ==> s.loss.at <= |s.handed|
    ensures Emitted(steps) == Taken(s.handed, s.loss) + s.queue && (!EmittedLate(steps) ==> s.queue == [])
    ensures BeginningOf(steps).BegunWell? ==> EmittedAtLastLook(steps) == Some(|Taken(s.handed, s.loss)|)
    ensures !WasDropped(steps) ==> s.loss.NoLoss?
  {
    Agrees(steps, s);
    Kept(INIT, steps, s);
    OverAccount(s);
  }

  /**
   Every uncancelled run ends with `Stopped` if stop came before it began, with `Failed` if there
   was no runtime, and otherwise as its tunnel did. What it delivers before, read back, is
   what was emitted before the queue was last found empty, in order; only what was emitted
   late can come after that.
   */
  lemma UncancelledRunIsHistory(steps: seq<Step>, s: State) returns (n: nat)
    requires Run(INIT, steps) == Some(s) && s.phase.Over? && !WasDropped(steps)
    ensures s.delivered != [] && Some(s.delivered[|s.delivered| - 1]) == OwnEnding(steps)
    ensures n <= |Emitted(steps)| && (!EmittedLate(steps) ==> n == |Emitted(steps)|)
    ensures BeginningOf(steps).BegunWell? ==> EmittedAtLastLook(steps) == Some(n)
    ensures AllMatch(Emitted(steps)[..n], ItemsOf(s.delivered))
    ensures StartedRight(false, s.delivered)
  {
    Agrees(steps, s);
    HandedIsEmitted(steps, s);
    UncancelledStream(steps, s);
    UncancelledStarted(steps, s);
    n := |s.handed|;
    assert Emitted(steps)[..n] == s.handed;
    RenderedReadsBack(false, s.handed);
    EndingIsNoItem(steps, s);
    ItemsOfSnoc(Rendered(false, s.handed), s.phase.event);
    assert ItemsOf(Rendered(false, s.handed)) + [] == ItemsOf(Rendered(false, s.handed));
  }

  lemma EndingIsNoItem(steps: seq<Step>, s: State)
    requires Run(INIT, steps) == Some(s) && s.phase.Over?
    ensures ReadBack(s.phase.event).None?
  {
    Kept(INIT, steps, s);
  }

  lemma {:induction false} ItemsOfConcat(a: seq<TunnelEvent>, b: seq<TunnelEvent>)
    ensures ItemsOf(a + b) == ItemsOf(a) + ItemsOf(b)
  {
    if b == [] {
      assert a + b == a && ItemsOf(a) + [] == ItemsOf(a);
    } else {
      var front, e := b[..|b| - 1], b[|b| - 1];
      assert a + b == a + front + [e] && b == front + [e];
      ItemsOfConcat(a, front);
      ItemsOfSnoc(a + front, e);
      ItemsOfSnoc(front, e);
    }
  }

  lemma AllMatchConcat(a: seq<Inner>, b: seq<Inner>, c: seq<Inner>, d: seq<Inner>)
    requires AllMatch(a, c) && AllMatch(b, d)
    ensures AllMatch(a + b, c + d)
  {
  }

  lemma BodyReadsBack(handed: seq<Inner>, loss: Loss)
    requires loss.LostItem? ==> loss.at <= |handed|
    ensures AllMatch(handed, ItemsOf(Body(handed, loss)))
  {
    if loss.NoLoss? {
      RenderedReadsBack(false, handed);
    } else {
      var a, b := handed[..loss.at], handed[loss.at..];
      var left, right := Rendered(false, a), Rendered(AnnouncedAtLoss(handed, loss), b);
      RenderedReadsBack(false, a);
      RenderedReadsBack(AnnouncedAtLoss(handed, loss), b);
      GapHasNoItems(left, loss);
      ItemsOfConcat(left + Gap(loss), right);
      AllMatchConcat(a, b, ItemsOf(left), ItemsOf(right));
      assert handed == a + b;
    }
  }

  lemma GapHasNoItems(events: seq<TunnelEvent>, loss: Loss)
    ensures ItemsOf(events + Gap(loss)) == ItemsOf(events)
  {
    if Gap(loss) == [] {
      assert events + Gap(loss) == events;
    } else {
      ItemsOfSnoc(events, Started);
    }
  }

  /**
   Every cancelled run ends with `Stopped`. What it delivers before, read back, is what was
   emitted before the queue was last found empty, in order, with at most one item in the middle
   missing; only what was emitted late can come after that.
   */
  lemma CancelledRunIsHistory(steps: seq<Step>, s: State) returns (kept: seq<Inner>, n: nat, gap: nat)
    requires Run(INIT, steps) == Some(s) && s.phase.Over? && WasDropped(steps)
    ensures s.delivered != [] && s.delivered[|s.delivered| - 1] == Stopped
    ensures n <= |Emitted(steps)| && (!EmittedLate(steps) ==> n == |Emitted(steps)|) && gap <= n
    ensures BeginningOf(steps).BegunWell? ==> EmittedAtLastLook(steps) == Some(n)
    ensures kept == Emitted(steps)[..n] || (gap < n && kept == Emitted(steps)[..gap] + Emitted(steps)[gap + 1..n])
    ensures AllMatch(kept, ItemsOf(s.delivered))
  {
    Agrees(steps, s);
    HandedIsEmitted(steps, s);
    CancelledStream(steps, s);
    kept := s.handed;
    BodyReadsBack(s.handed, s.loss);
    ItemsOfSnoc(Body(s.handed, s.loss), Stopped);
    assert ItemsOf(Body(s.handed, s.loss)) + [] == ItemsOf(Body(s.handed, s.loss));
    n, gap := KeptOf(Emitted(steps), s.handed, s.loss, s.queue);
  }

  lemma KeptOf(emitted: seq<Inner>, handed: seq<Inner>, loss: Loss, queue: seq<Inner>) returns (n: nat, gap: nat)
    requires loss.LostItem? ==> loss.at <= |handed|
    requires emitted == Taken(handed, loss) + queue
    ensures n == |Taken(handed, loss)| <= |emitted| && (queue == [] ==> n == |emitted|) && gap <= n
    ensures handed == emitted[..n] || (gap < n && handed == emitted[..gap] + emitted[gap + 1..n])
  {
    n := |Taken(handed, loss)|;
    gap := if loss.NoLoss? then 0 else loss.at;
    if loss.LostItem? {
      assert emitted[..gap] == handed[..gap];
      assert emitted[gap + 1..n] == handed[gap..];
      assert handed == handed[..gap] + handed[gap..];
    }
  }

  // ----- what can happen next

  /** In every run the tunnel can emit until the stream is over, and end once, exactly when it was spawned. */
  lemma TunnelMoves(steps: seq<Step>, s: State, item: Inner, event: TunnelEvent)
    requires Run(INIT, steps) == Some(s)
    ensures Enabled(s, Emit(item)) <==> BeginningOf(steps).BegunWell? && !s.phase.Over?
    ensures Enabled(s, TunnelEnds(event)) <==>
              && BeginningOf(steps).BegunWell? && TunnelEnd(steps).None? && !WasShutDown(steps)
              && (event.Stopped? || event.Failed?)
    ensures Enabled(s, CallRun) && Enabled(s, CallStop)
  {
    Agrees(steps, s);
  }

  lemma MovesNow(steps: seq<Step>, s: State, runtimeError: Option<string>)
    requires FlagsAgree(steps, s) && s.tunnel == TunnelAfter(steps) && (s.started <==> !s.phase.NotCalled?)
    requires (TunnelEnd(steps).Some? ==> BeginningOf(steps).BegunWell?) && (IsTrailing(s.phase) ==> s.dropped)
    ensures Enabled(s, Begin(runtimeError)) <==> RunCalled(steps) && BeginningOf(steps).NotBegun?
    ensures Enabled(s, JoinTunnel) <==> s.phase == Idle(Looping) && TunnelEnd(steps).Some?
    ensures Enabled(s, Receive) <==> s.phase.Idle? && s.queue != []
    ensures Enabled(s, QueueEmpty) <==> s.phase.Idle? && s.phase != Idle(Looping) && s.queue == []
    ensures Enabled(s, HandlerReturns) <==> s.phase.Announcing? || s.phase.Handing? || s.phase.Ending?
    ensures Enabled(s, ShutdownDone) <==> s.phase.ShuttingDown?
  {
  }

  /** In every run `run` and its tail can take exactly the steps of the place they are at. */
  lemma OwnMoves(steps: seq<Step>, s: State, runtimeError: Option<string>)
    requires Run(INIT, steps) == Some(s)
    ensures Enabled(s, Begin(runtimeError)) <==> RunCalled(steps) && BeginningOf(steps).NotBegun?
    ensures Enabled(s, JoinTunnel) <==> s.phase == Idle(Looping) && TunnelEnd(steps).Some?
    ensures Enabled(s, Receive) <==> s.phase.Idle? && s.queue != []
    ensures Enabled(s, QueueEmpty) <==> s.phase.Idle? && s.phase != Idle(Looping) && s.queue == []
    ensures Enabled(s, HandlerReturns) <==> s.phase.Announcing? || s.phase.Handing? || s.phase.Ending?
    ensures Enabled(s, ShutdownDone) <==> s.phase.ShuttingDown?
  {
    Agrees(steps, s);
    Kept(INIT, steps, s);
    MovesNow(steps, s, runtimeError);
  }

  /**
   The future can be dropped at every await: once begun, until the stream is over, unless
   dropped already or between two items of the last drain.
   */
  lemma DropsAtEveryAwait(steps: seq<Step>, s: State)
    requires Run(INIT, steps) == Some(s)
    ensures Enabled(s, DropRun) <==>
              && !BeginningOf(steps).NotBegun? && !WasDropped(steps) && !s.phase.Over?
              && !(s.phase.Idle? && s.phase.ctx.Draining?)
  {
    Agrees(steps, s);
    Kept(INIT, steps, s);
  }
}

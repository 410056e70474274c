/**
 `run` of the foreign client, its queue, its tunnel task and the guard that finishes the
 stream when the future is dropped. The future may be dropped at any await; an event
 counts as delivered when `on_event` returns. The detached tail task gets to run.
 */
module ForeignRun {
  import opened Common
  import opened EventDelivery

  /** Which loop is taking items off the queue. */
  datatype Context = Looping | Draining(end: TunnelEvent) | Trailing

  datatype Phase =
    | NotCalled
    | Begun                                                  // guard in place, nothing awaited yet
    | Idle(ctx: Context)                                     // between two items
    | Announcing(item: Inner, ctx: Context)                  // inside `on_event(Started)`
    | Handing(item: Inner, ctx: Context, announces: bool)    // inside `on_event` of the item, maybe after its `Started`
    | Ending(event: TunnelEvent, trailing: bool)             // inside `on_event` of the terminal event
    | ShuttingDown                                           // dropped; the tail waits for the tunnel to be gone
    | Over(event: TunnelEvent)

  datatype Tunnel = NotSpawned | Running | Ended(event: TunnelEvent) | Aborted

  /**
   The item in mid-delivery when the future was dropped: its place among the delivered
   ones, and whether its `Started` was out.
   */
  datatype Loss = NoLoss | LostItem(at: nat, item: Inner, announced: bool)

  /** `enqueued`, `handed`, `loss`, `dropped` and `late` are history no step reads. */
  datatype State = State(
    started: bool,
    stopped: bool,
    announced: bool,
    terminal: bool,
    queue: seq<Inner>,
    delivered: seq<TunnelEvent>,
    phase: Phase,
    tunnel: Tunnel,
    enqueued: seq<Inner>,
    handed: seq<Inner>,
    loss: Loss,
    dropped: bool,
    late: bool)

  const INIT := State(false, false, false, false, [], [], NotCalled, NotSpawned, [], [], NoLoss, false, false)

  datatype Step =
    | CallRun
    | CallStop
    | Begin(runtimeError: Option<string>)
    | Emit(item: Inner)
    | TunnelEnds(event: TunnelEvent)
    | Receive
    | JoinTunnel
    | QueueEmpty
    | HandlerReturns
    | DropRun
    | ShutdownDone

  /** Suspended in `run` itself, where dropping the future takes effect. */
  predicate Droppable(p: Phase) {
    match p
    case Idle(Looping) => true
    case Announcing(_, ctx) => !ctx.Trailing?
    case Handing(_, ctx, _) => !ctx.Trailing?
    case Ending(_, trailing) => !trailing
    case _ => false
  }

  predicate Enabled(s: State, step: Step) {
    match step
    case CallRun => true
    case CallStop => true
    case Begin(_) => s.phase.Begun?
    case Emit(_) => !s.tunnel.NotSpawned? && !s.phase.Over?
    case TunnelEnds(event) => s.tunnel.Running? && IsTerminal(event)
    case Receive => s.phase.Idle? && s.queue != []
    case JoinTunnel => s.phase == Idle(Looping) && s.tunnel.Ended?
    case QueueEmpty => s.phase.Idle? && !s.phase.ctx.Looping? && s.queue == []
    case HandlerReturns => s.phase.Announcing? || s.phase.Handing? || s.phase.Ending?
    case DropRun => Droppable(s.phase)
    case ShutdownDone => s.phase.ShuttingDown?
  }

  function AfterBegin(s: State, runtimeError: Option<string>): State {
    if s.stopped then s.(phase := Ending(Stopped, false))
    else if runtimeError.Some? then s.(phase := Ending(Failed(runtimeError.value), false))
    else s.(phase := Idle(Looping), tunnel := Running)
  }

  function AfterReceive(s: State): State
    requires Enabled(s, Receive)
  {
    var item, ctx := s.queue[0], s.phase.ctx;
    s.(queue := s.queue[1..],
       phase := if IsEstablished(item) && !s.announced then Announcing(item, ctx) else Handing(item, ctx, false))
  }

  function AfterHandlerReturns(s: State): State
    requires Enabled(s, HandlerReturns)
  {
    match s.phase
    case Announcing(item, ctx) =>
      s.(delivered := s.delivered + [Started], announced := true, phase := Handing(item, ctx, true))
    case Handing(item, ctx, _) =>
      s.(delivered := s.delivered + [ToTunnelEvent(item)], phase := Idle(ctx), handed := s.handed + [item])
    case Ending(event, _) => s.(delivered := s.delivered + [event], terminal := true, phase := Over(event))
  }

  /** What dropping the future loses. */
  function LossAt(s: State): Loss {
    match s.phase
    case Announcing(item, _) => LostItem(|s.handed|, item, false)
    case Handing(item, _, announces) => LostItem(|s.handed|, item, announces)
    case _ => NoLoss
  }

  function Apply(s: State, step: Step): State
    requires Enabled(s, step)
  {
    match step
    case CallRun => if s.started then s else s.(started := true, phase := Begun)
    case CallStop => s.(stopped := true)
    case Begin(runtimeError) => AfterBegin(s, runtimeError)
    case Emit(item) =>
      s.(queue := s.queue + [item], enqueued := s.enqueued + [item], late := s.late || !s.tunnel.Running?)
    case TunnelEnds(event) => s.(tunnel := Ended(event))
    case Receive => AfterReceive(s)
    case JoinTunnel => s.(phase := Idle(Draining(s.tunnel.event)))
    case QueueEmpty =>
      s.(phase := match s.phase.ctx
                  case Draining(event) => Ending(event, false)
                  case _ => Ending(Stopped, true))
    case HandlerReturns => AfterHandlerReturns(s)
    case DropRun => s.(phase := ShuttingDown, loss := LossAt(s), dropped := true)
    case ShutdownDone =>
      s.(phase := Idle(Trailing), tunnel := if s.tunnel.Running? then Aborted else s.tunnel)
  }

  function Run(s: State, steps: seq<Step>): Option<State> {
    if steps == [] then Some(s)
    else
      var before := Run(s, steps[..|steps| - 1]);
      var step := steps[|steps| - 1];
      if before.Some? && Enabled(before.value, step) then Some(Apply(before.value, step)) else None
  }

  // ----- what has been delivered, told from the history alone

  /** The items taken off the queue and dealt with, in queue order. */
  function Taken(handed: seq<Inner>, loss: Loss): seq<Inner>
    requires loss.LostItem? ==> loss.at <= |handed|
  {
    match loss
    case NoLoss => handed
    case LostItem(at, item, _) => handed[..at] + [item] + handed[at..]
  }

  function Gap(loss: Loss): seq<TunnelEvent> {
    if loss.LostItem? && loss.announced then [Started] else []
  }

  /** `announced` when the items after the loss started to be delivered. */
  predicate AnnouncedAtLoss(handed: seq<Inner>, loss: Loss)
    requires loss.LostItem? && loss.at <= |handed|
  {
    Announced(false, handed[..loss.at]) || loss.announced
  }

  /** The events the delivered items account for. */
  function Body(handed: seq<Inner>, loss: Loss): seq<TunnelEvent>
    requires loss.LostItem? ==> loss.at <= |handed|
  {
    if loss.NoLoss? then Rendered(false, handed)
    else Rendered(false, handed[..loss.at]) + Gap(loss) + Rendered(AnnouncedAtLoss(handed, loss), handed[loss.at..])
  }

  predicate AnnouncedBy(handed: seq<Inner>, loss: Loss)
    requires loss.LostItem? ==> loss.at <= |handed|
  {
    if loss.NoLoss? then Announced(false, handed) else Announced(AnnouncedAtLoss(handed, loss), handed[loss.at..])
  }

  /** `Started` of the item in mid-delivery, if it is out already. */
  function Ahead(p: Phase): seq<TunnelEvent> {
    if p.Handing? && p.announces then [Started] else []
  }

  function InHand(p: Phase): seq<Inner> {
    if p.Announcing? || p.Handing? then [p.item] else []
  }

  function Terminal(p: Phase): seq<TunnelEvent> {
    if p.Over? then [p.event] else []
  }

  predicate LossFits(handed: seq<Inner>, loss: Loss)
    requires loss.LostItem?
  {
    loss.at <= |handed| && (loss.announced ==> !Announced(false, handed[..loss.at]))
  }

  predicate Accounted(s: State) {
    && (s.loss.LostItem? ==> s.dropped && LossFits(s.handed, s.loss))
    && s.delivered == Body(s.handed, s.loss) + Ahead(s.phase) + Terminal(s.phase)
    && s.enqueued == Taken(s.handed, s.loss) + InHand(s.phase) + s.queue
    && (s.announced <==> AnnouncedBy(s.handed, s.loss) || Ahead(s.phase) != [])
    && (Ahead(s.phase) != [] ==> IsEstablished(s.phase.item) && !AnnouncedBy(s.handed, s.loss))
  }

  predicate PhaseSound(s: State) {
    && (s.started <==> !s.phase.NotCalled?)
    && (s.terminal <==> s.phase.Over?)
    && (s.phase.Announcing? ==> IsEstablished(s.phase.item) && !s.announced)
    && (s.phase.Handing? && IsEstablished(s.phase.item) ==> s.announced)
    && (s.phase.Ending? || s.phase.Over? ==> IsTerminal(s.phase.event))
  }

  predicate IsTrailing(p: Phase) {
    match p
    case Idle(ctx) => ctx.Trailing?
    case Announcing(_, ctx) => ctx.Trailing?
    case Handing(_, ctx, _) => ctx.Trailing?
    case Ending(_, trailing) => trailing
    case _ => false
  }

  predicate IsDraining(p: Phase) {
    match p
    case Idle(ctx) => ctx.Draining?
    case Announcing(_, ctx) => ctx.Draining?
    case Handing(_, ctx, _) => ctx.Draining?
    case _ => false
  }

  predicate IsLooping(p: Phase) {
    match p
    case Idle(ctx) => ctx.Looping?
    case Announcing(_, ctx) => ctx.Looping?
    case Handing(_, ctx, _) => ctx.Looping?
    case _ => false
  }

  /** How far the tunnel and a drop explain the phase. */
  predicate TunnelSound(s: State) {
    DropSound(s) && EndSound(s) && LoopSound(s)
  }

  /** The loop has a tunnel task to join. */
  predicate LoopSound(s: State) {
    IsLooping(s.phase) ==> s.tunnel.Running? || s.tunnel.Ended?
  }

  predicate DropSound(s: State) {
    && (IsTrailing(s.phase) || s.phase.ShuttingDown? ==> s.dropped)
    && (s.dropped ==> IsTrailing(s.phase) || s.phase.ShuttingDown? || s.phase.Over?)
    && (s.phase.NotCalled? || s.phase.Begun? ==> s.tunnel.NotSpawned? && s.queue == [])
    && (s.tunnel.NotSpawned? ==> s.queue == [] && s.enqueued == [])
  }

  predicate EndSound(s: State) {
    && (IsTrailing(s.phase) || IsDraining(s.phase) || s.phase.Ending? || s.phase.Over? ==> !s.tunnel.Running?)
    && (s.phase.Ending? || s.phase.Over? ==> s.late || s.queue == [])
    && (s.tunnel.Ended? ==> IsTerminal(s.tunnel.event))
    && (IsDraining(s.phase) ==> s.tunnel == Ended(DrainEnd(s.phase)))
    && (s.phase.Ending? || s.phase.Over? ==>
          if s.dropped then s.phase.event == Stopped else s.tunnel.NotSpawned? || s.tunnel == Ended(s.phase.event))
  }

  function DrainEnd(p: Phase): TunnelEvent
    requires IsDraining(p)
  {
    p.ctx.end
  }

  predicate Invariant(s: State) {
    Accounted(s) && PhaseSound(s) && TunnelSound(s)
  }

  // ----- each step keeps it

  lemma BodySnoc(handed: seq<Inner>, loss: Loss, item: Inner)
    requires loss.LostItem? ==> loss.at <= |handed|
    ensures Body(handed + [item], loss) == Body(handed, loss) + One(AnnouncedBy(handed, loss), item)
    ensures AnnouncedBy(handed + [item], loss) <==> AnnouncedBy(handed, loss) || IsEstablished(item)
    ensures Taken(handed + [item], loss) == Taken(handed, loss) + [item]
  {
    if loss.NoLoss? {
      RenderedSnoc(false, handed, item);
    } else {
      assert (handed + [item])[..loss.at] == handed[..loss.at];
      assert (handed + [item])[loss.at..] == handed[loss.at..] + [item];
      RenderedSnoc(AnnouncedAtLoss(handed, loss), handed[loss.at..], item);
    }
  }

  lemma LossKeepsBody(handed: seq<Inner>, item: Inner, announced: bool)
    ensures var loss := LostItem(|handed|, item, announced);
            && Body(handed, loss) == Rendered(false, handed) + Gap(loss)
            && Taken(handed, loss) == handed + [item]
            && (AnnouncedBy(handed, loss) <==> Announced(false, handed) || announced)
  {
    assert handed[..|handed|] == handed;
  }

  lemma AnnouncingKeepsAccount(s: State)
    requires Accounted(s) && PhaseSound(s) && s.phase.Announcing?
    ensures Accounted(AfterHandlerReturns(s))
  {
    assert s.delivered == Body(s.handed, s.loss);
  }

  /** The item's own event completes what the item produces. */
  lemma HandedEvents(s: State)
    requires Accounted(s) && PhaseSound(s) && s.phase.Handing?
    ensures s.delivered + [ToTunnelEvent(s.phase.item)] == Body(s.handed + [s.phase.item], s.loss)
  {
    var item, body := s.phase.item, Body(s.handed, s.loss);
    BodySnoc(s.handed, s.loss, item);
    assert s.delivered == body + Ahead(s.phase);
    assert Ahead(s.phase) + [ToTunnelEvent(item)] == One(AnnouncedBy(s.handed, s.loss), item);
    assert body + Ahead(s.phase) + [ToTunnelEvent(item)] == body + (Ahead(s.phase) + [ToTunnelEvent(item)]);
  }

  lemma HandedItems(s: State)
    requires Accounted(s) && PhaseSound(s) && s.phase.Handing?
    ensures s.enqueued == Taken(s.handed + [s.phase.item], s.loss) + [] + s.queue
  {
    var taken := Taken(s.handed, s.loss);
    BodySnoc(s.handed, s.loss, s.phase.item);
    assert s.enqueued == taken + [s.phase.item] + s.queue;
    assert taken + [s.phase.item] + [] == taken + [s.phase.item];
  }

  lemma HandedFlags(s: State)
    requires Accounted(s) && PhaseSound(s) && s.phase.Handing?
    ensures s.loss.LostItem? ==> LossFits(s.handed + [s.phase.item], s.loss)
    ensures s.announced <==> AnnouncedBy(s.handed + [s.phase.item], s.loss)
  {
    BodySnoc(s.handed, s.loss, s.phase.item);
    if s.loss.LostItem? {
      assert (s.handed + [s.phase.item])[..s.loss.at] == s.handed[..s.loss.at];
    }
  }

  lemma HandingKeepsAccount(s: State)
    requires Accounted(s) && PhaseSound(s) && s.phase.Handing?
    ensures Accounted(AfterHandlerReturns(s))
  {
    HandedEvents(s);
    HandedItems(s);
    HandedFlags(s);
  }

  lemma EndingKeepsAccount(s: State)
    requires Accounted(s) && PhaseSound(s) && s.phase.Ending?
    ensures Accounted(AfterHandlerReturns(s))
  {
    assert s.delivered == Body(s.handed, s.loss);
  }

  /** A step that delivers nothing keeps the account if the queue still adds up. */
  lemma SilentKeepsAccount(s: State, t: State)
    requires Accounted(s) && t.handed == s.handed && t.loss == s.loss && (s.dropped ==> t.dropped)
    requires t.delivered == s.delivered && t.announced == s.announced
    requires Ahead(t.phase) == Ahead(s.phase) && Terminal(t.phase) == Terminal(s.phase)
    requires Ahead(s.phase) != [] ==> t.phase == s.phase
    requires t.enqueued == Taken(s.handed, s.loss) + InHand(t.phase) + t.queue
    ensures Accounted(t)
  {
  }

  /** Losing the item in hand moves it, and its `Started`, from the phase to the record of the loss. */
  lemma LossKeepsAccount(s: State)
    requires Accounted(s) && s.loss.NoLoss? && (s.phase.Announcing? || s.phase.Handing?)
    ensures Accounted(s.(phase := ShuttingDown, loss := LossAt(s), dropped := true))
  {
    var loss := LossAt(s);
    LossKeepsBody(s.handed, loss.item, loss.announced);
    assert s.handed[..|s.handed|] == s.handed;
    assert Gap(loss) == Ahead(s.phase);
    assert s.delivered == Body(s.handed, loss);
    assert s.enqueued == Taken(s.handed, loss) + s.queue;
  }

  lemma DropKeepsAccount(s: State)
    requires Accounted(s) && DropSound(s) && Enabled(s, DropRun)
    ensures Accounted(Apply(s, DropRun))
  {
    if s.phase.Announcing? || s.phase.Handing? {
      LossKeepsAccount(s);
    } else {
      SilentKeepsAccount(s, Apply(s, DropRun));
    }
  }

  lemma ReceiveKeepsAccount(s: State)
    requires Accounted(s) && PhaseSound(s) && Enabled(s, Receive)
    ensures Accounted(AfterReceive(s))
  {
    var t := AfterReceive(s);
    assert InHand(t.phase) + t.queue == s.queue;
    assert Taken(s.handed, s.loss) + InHand(t.phase) + t.queue == Taken(s.handed, s.loss) + (InHand(t.phase) + t.queue);
    SilentKeepsAccount(s, t);
  }

  lemma EmitKeepsAccount(s: State, item: Inner)
    requires Accounted(s) && PhaseSound(s) && Enabled(s, Emit(item))
    ensures Accounted(Apply(s, Emit(item)))
  {
    assert s.enqueued + [item] == Taken(s.handed, s.loss) + InHand(s.phase) + (s.queue + [item]);
    SilentKeepsAccount(s, Apply(s, Emit(item)));
  }

  lemma AccountKept(s: State, step: Step)
    requires Invariant(s) && Enabled(s, step)
    ensures Accounted(Apply(s, step))
  {
    if step.HandlerReturns? {
      match s.phase
      case Announcing(_, _) => AnnouncingKeepsAccount(s);
      case Handing(_, _, _) => HandingKeepsAccount(s);
      case Ending(_, _) => EndingKeepsAccount(s);
    } else if step.DropRun? {
      DropKeepsAccount(s);
    } else if step.Receive? {
      ReceiveKeepsAccount(s);
    } else if step.Emit? {
      EmitKeepsAccount(s, step.item);
    } else {
      SilentKeepsAccount(s, Apply(s, step));
    }
  }

  lemma PhaseKept(s: State, step: Step)
    requires PhaseSound(s) && TunnelSound(s) && Enabled(s, step)
    ensures PhaseSound(Apply(s, step))
  {
  }

  lemma TunnelKept(s: State, step: Step)
    requires Invariant(s) && Enabled(s, step)
    ensures TunnelSound(Apply(s, step))
  {
    DropKept(s, step);
    EndKept(s, step);
    LoopKept(s, step);
  }

  lemma LoopKept(s: State, step: Step)
    requires LoopSound(s) && Enabled(s, step)
    ensures LoopSound(Apply(s, step))
  {
  }

  lemma DropKept(s: State, step: Step)
    requires PhaseSound(s) && DropSound(s) && Enabled(s, step)
    ensures DropSound(Apply(s, step))
  {
  }

  lemma EndKept(s: State, step: Step)
    requires PhaseSound(s) && TunnelSound(s) && Enabled(s, step)
    ensures EndSound(Apply(s, step))
  {
  }

  lemma StepKept(s: State, step: Step)
    requires Invariant(s) && Enabled(s, step)
    ensures Invariant(Apply(s, step))
  {
    AccountKept(s, step);
    PhaseKept(s, step);
    TunnelKept(s, step);
  }

  lemma LastStep(s: State, steps: seq<Step>, t: State) returns (u: State, step: Step)
    requires steps != [] && Run(s, steps) == Some(t)
    ensures Run(s, steps[..|steps| - 1]) == Some(u) && step == steps[|steps| - 1]
    ensures Enabled(u, step) && Apply(u, step) == t
  {
    u, step := Run(s, steps[..|steps| - 1]).value, steps[|steps| - 1];
  }

  lemma {:induction false} Kept(s: State, steps: seq<Step>, t: State)
    requires Invariant(s) && Run(s, steps) == Some(t)
    ensures Invariant(t)
  {
    if steps != [] {
      var u, step := LastStep(s, steps, t);
      Kept(s, steps[..|steps| - 1], u);
      StepKept(u, step);
    }
  }

  // ----- what every run guarantees

  lemma BodyHasNoTerminal(handed: seq<Inner>, loss: Loss)
    requires loss.LostItem? ==> loss.at <= |handed|
    ensures forall i :: 0 <= i < |Body(handed, loss)| ==> !IsTerminal(Body(handed, loss)[i])
  {
    if loss.NoLoss? {
      RenderedStartsOnce(false, handed);
    } else {
      RenderedStartsOnce(false, handed[..loss.at]);
      RenderedStartsOnce(AnnouncedAtLoss(handed, loss), handed[loss.at..]);
    }
  }

  /** A terminal event is delivered exactly when the stream is over, once, and after everything else. */
  lemma OneTerminalEventLast(steps: seq<Step>, s: State)
    requires Run(INIT, steps) == Some(s)
    ensures forall i :: 0 <= i < |s.delivered| ==> (IsTerminal(s.delivered[i]) <==> s.phase.Over? && i == |s.delivered| - 1)
    ensures s.phase.Over? ==> s.delivered != []
    ensures s.terminal <==> s.phase.Over?
  {
    Kept(INIT, steps, s);
    BodyHasNoTerminal(s.handed, s.loss);
  }

  /** Nothing is delivered once the stream is over. */
  lemma {:induction false} SilentOnceOver(steps: seq<Step>, s: State, more: seq<Step>, t: State)
    requires Run(INIT, steps) == Some(s) && s.phase.Over? && Run(s, more) == Some(t)
    ensures t.phase == s.phase && t.delivered == s.delivered
  {
    Kept(INIT, steps, s);
    if more != [] {
      var u, step := LastStep(s, more, t);
      SilentOnceOver(steps, s, more[..|more| - 1], u);
      Kept(s, more[..|more| - 1], u);
    }
  }

  /** A second `run` changes nothing. */
  lemma SecondRunDoesNothing(steps: seq<Step>, s: State, more: seq<Step>, t: State)
    requires Run(INIT, steps) == Some(s) && CallRun in steps && Run(s, more) == Some(t)
    ensures Apply(t, CallRun) == t
  {
    StartedStays(steps, s);
    StartedOn(s, more, t);
  }

  lemma {:induction false} StartedStays(steps: seq<Step>, s: State)
    requires Run(INIT, steps) == Some(s) && CallRun in steps
    ensures s.started
  {
    var u, step := LastStep(INIT, steps, s);
    if step != CallRun {
      StartedStays(steps[..|steps| - 1], u);
    }
  }

  lemma {:induction false} StartedOn(s: State, more: seq<Step>, t: State)
    requires s.started && Run(s, more) == Some(t)
    ensures t.started
  {
    if more != [] {
      var u, step := LastStep(s, more, t);
      StartedOn(s, more[..|more| - 1], u);
    }
  }

  /**
   At every point of every run the events delivered are those of the items handed over, in
   order, and those items with the one lost, the one in hand and the ones still queued are
   all that were ever queued, in order.
   */
  lemma DeliveredInOrder(steps: seq<Step>, s: State)
    requires Run(INIT, steps) == Some(s)
    ensures Accounted(s)
  {
    Kept(INIT, steps, s);
  }

  /**
   An uncancelled run delivers exactly the queued items in order, then the tunnel's own
   ending. Only an event emitted after the tunnel task ended can stay in the queue.
   */
  lemma UncancelledStream(steps: seq<Step>, s: State)
    requires Run(INIT, steps) == Some(s) && s.phase.Over? && !s.dropped
    ensures s.delivered == Rendered(false, s.handed) + [s.phase.event]
    ensures s.enqueued == s.handed + s.queue && (!s.late ==> s.queue == [])
    ensures s.tunnel.NotSpawned? || s.tunnel == Ended(s.phase.event)
  {
    Kept(INIT, steps, s);
    OverAccount(s);
  }

  lemma OverAccount(s: State)
    requires Invariant(s) && s.phase.Over?
    ensures s.delivered == Body(s.handed, s.loss) + [s.phase.event] && s.enqueued == Taken(s.handed, s.loss) + s.queue
  {
    assert Ahead(s.phase) == [] && InHand(s.phase) == [];
  }

  /** In an uncancelled run `Started` stands directly before the first `ConnectionEstablished`, and nowhere else. */
  lemma UncancelledStarted(steps: seq<Step>, s: State)
    requires Run(INIT, steps) == Some(s) && s.phase.Over? && !s.dropped
    ensures StartedRight(false, s.delivered)
  {
    UncancelledStream(steps, s);
    OneTerminalEventLast(steps, s);
    assert IsTerminal(s.delivered[|s.delivered| - 1]);
    RenderedStartsOnce(false, s.handed);
    TerminalKeepsStarted(Rendered(false, s.handed), s.phase.event);
  }

  lemma TerminalKeepsStarted(events: seq<TunnelEvent>, event: TunnelEvent)
    requires StartedRight(false, events) && IsTerminal(event)
    ensures StartedRight(false, events + [event])
  {
    var all := events + [event];
    assert forall i :: 0 <= i < |events| ==> all[i] == events[i];
    forall j | 0 <= j < |all| && all[j].ConnectionEstablished?
      ensures exists i :: 0 <= i < j && all[i].Started?
    {
      var i :| 0 <= i < j && events[i].Started?;
      assert all[i].Started?;
    }
  }

  /**
   A cancelled run delivers every queued item in order except the one in mid-delivery
   when the future was dropped, whose `Started` may stand alone, and then `Stopped`.
   */
  lemma CancelledStream(steps: seq<Step>, s: State)
    requires Run(INIT, steps) == Some(s) && s.phase.Over? && s.dropped
    ensures s.phase.event == Stopped && (s.loss.LostItem? ==> s.loss.at <= |s.handed|)
    ensures s.delivered == Body(s.handed, s.loss) + [Stopped]
    ensures s.enqueued == Taken(s.handed, s.loss) + s.queue && (!s.late ==> s.queue == [])
  {
    Kept(INIT, steps, s);
    OverAccount(s);
  }

  // ----- `Started` in every run, cancelled or not

  predicate HasStarted(events: seq<TunnelEvent>) {
    exists i :: 0 <= i < |events| && events[i].Started?
  }

  /** `Started` at most once, never again once `announced`, and before any `ConnectionEstablished`. */
  predicate StartedOnce(announced: bool, events: seq<TunnelEvent>) {
    && (announced ==> !HasStarted(events))
    && (forall i, j :: 0 <= i < j < |events| && events[i].Started? ==> !events[j].Started?)
    && (!announced ==> forall j :: 0 <= j < |events| && events[j].ConnectionEstablished? ==> HasStarted(events[..j]))
  }

  lemma HasStartedConcat(a: seq<TunnelEvent>, b: seq<TunnelEvent>)
    ensures HasStarted(a + b) <==> HasStarted(a) || HasStarted(b)
  {
    if i :| 0 <= i < |a| && a[i].Started? {
      assert (a + b)[i].Started?;
    }
    if i :| 0 <= i < |b| && b[i].Started? {
      assert (a + b)[|a| + i].Started?;
    }
  }

  lemma StartedOnceConcat(announced: bool, a: seq<TunnelEvent>, b: seq<TunnelEvent>)
    requires StartedOnce(announced, a) && StartedOnce(announced || HasStarted(a), b)
    ensures StartedOnce(announced, a + b) && (HasStarted(a + b) <==> HasStarted(a) || HasStarted(b))
  {
    HasStartedConcat(a, b);
    forall j | 0 <= j < |a + b| && (a + b)[j].ConnectionEstablished? && !announced
      ensures HasStarted((a + b)[..j])
    {
      if j < |a| {
        assert (a + b)[..j] == a[..j];
      } else {
        assert (a + b)[..j] == a + b[..j - |a|];
        HasStartedConcat(a, b[..j - |a|]);
      }
    }
  }

  lemma RenderedStartedOnce(announced: bool, items: seq<Inner>)
    ensures StartedOnce(announced, Rendered(announced, items))
    ensures Announced(announced, items) <==> announced || HasStarted(Rendered(announced, items))
  {
    var events := Rendered(announced, items);
    RenderedStartsOnce(announced, items);
    if !announced {
      forall j | 0 <= j < |events| && events[j].ConnectionEstablished?
        ensures HasStarted(events[..j])
      {
        var i :| 0 <= i < j && events[i].Started?;
        assert events[..j][i].Started?;
      }
      if i :| 0 <= i < |events| && events[i].Started? {
        assert events[i + 1].ConnectionEstablished?;
      }
      if j :| 0 <= j < |events| && events[j].ConnectionEstablished? {
        var i :| 0 <= i < |events[..j]| && events[..j][i].Started?;
        assert events[i].Started?;
      }
    }
  }

  lemma BodyStartedOnce(handed: seq<Inner>, loss: Loss)
    requires loss.LostItem? ==> LossFits(handed, loss)
    ensures StartedOnce(false, Body(handed, loss))
    ensures AnnouncedBy(handed, loss) <==> HasStarted(Body(handed, loss))
  {
    if loss.NoLoss? {
      RenderedStartedOnce(false, handed);
    } else {
      var before, after := handed[..loss.at], handed[loss.at..];
      RenderedStartedOnce(false, before);
      assert HasStarted(Gap(loss)) <==> loss.announced by {
        assert loss.announced ==> Gap(loss)[0].Started?;
      }
      StartedOnceConcat(false, Rendered(false, before), Gap(loss));
      RenderedStartedOnce(AnnouncedAtLoss(handed, loss), after);
      StartedOnceConcat(false, Rendered(false, before) + Gap(loss), Rendered(AnnouncedAtLoss(handed, loss), after));
    }
  }

  /** In every run `Started` is delivered at most once, and before any `ConnectionEstablished`. */
  lemma StartedOnceAndFirst(steps: seq<Step>, s: State)
    requires Run(INIT, steps) == Some(s)
    ensures StartedOnce(false, s.delivered)
  {
    Kept(INIT, steps, s);
    BodyStartedOnce(s.handed, s.loss);
    var body := Body(s.handed, s.loss);
    StartedOnceConcat(false, body, Ahead(s.phase));
    StartedOnceConcat(false, body + Ahead(s.phase), Terminal(s.phase));
  }

  // ----- the stream ends

  function ContextRank(ctx: Context): nat {
    if ctx.Looping? then 3 else 2
  }

  /** Steps left to `run`, or to its tail, once nothing more is emitted. */
  function Rank(s: State): nat {
    3 * |s.queue| + match s.phase
    case Begun => 4
    case ShuttingDown => 3
    case Announcing(_, ctx) => ContextRank(ctx) + 2
    case Handing(_, ctx, _) => ContextRank(ctx) + 1
    case Idle(ctx) => ContextRank(ctx)
    case Ending(_, _) => 1
    case _ => 0
  }

  /** The steps of `run` itself and of the detached tail task. */
  predicate OwnStep(step: Step) {
    step.Begin? || step.Receive? || step.JoinTunnel? || step.QueueEmpty? || step.HandlerReturns? || step.ShutdownDone?
  }

  /** Nothing to do until the tunnel emits an event or ends. */
  predicate AwaitsTunnel(s: State) {
    s.phase == Idle(Looping) && s.queue == [] && s.tunnel.Running?
  }

  /** No tunnel is running, and none is about to be spawned. */
  predicate TunnelIsOver(s: State) {
    s.dropped || (!s.tunnel.Running? && (s.phase.Begun? ==> s.stopped))
  }

  lemma RankGoesDown(s: State, step: Step)
    requires Enabled(s, step) && OwnStep(step)
    ensures Rank(Apply(s, step)) < Rank(s)
  {
  }

  lemma TunnelStaysOver(s: State, step: Step)
    requires Enabled(s, step) && OwnStep(step) && TunnelIsOver(s)
    ensures TunnelIsOver(Apply(s, step))
  {
  }

  lemma {:induction false} OwnRun(s: State, more: seq<Step>, t: State)
    requires Run(s, more) == Some(t) && forall k :: 0 <= k < |more| ==> OwnStep(more[k])
    ensures |more| + Rank(t) <= Rank(s)
  {
    if more != [] {
      var u, step := LastStep(s, more, t);
      OwnRun(s, more[..|more| - 1], u);
      RankGoesDown(u, step);
    }
  }

  lemma {:induction false} OverRun(s: State, more: seq<Step>, t: State)
    requires Run(s, more) == Some(t) && forall k :: 0 <= k < |more| ==> OwnStep(more[k])
    requires TunnelIsOver(s)
    ensures TunnelIsOver(t)
  {
    if more != [] {
      var u, step := LastStep(s, more, t);
      OverRun(s, more[..|more| - 1], u);
      TunnelStaysOver(u, step);
    }
  }

  lemma GoesOn(s: State) returns (step: Step)
    requires Invariant(s) && s.started && !s.phase.Over? && !AwaitsTunnel(s)
    ensures OwnStep(step) && Enabled(s, step)
  {
    match s.phase
    case Begun => step := Begin(None);
    case ShuttingDown => step := ShutdownDone;
    case Idle(ctx) => step := if s.queue != [] then Receive else if ctx.Looping? then JoinTunnel else QueueEmpty;
    case _ => step := HandlerReturns;
  }

  /**
   From any reachable state after `run` was called, `run` and its tail take at most three
   steps an item and five more while nothing is emitted. They can stop only when the
   stream is over or a running tunnel is awaited; once the tunnel is gone, or was never to
   be spawned, only when the stream is over.
   */
  lemma RunFinishesTheStream(steps: seq<Step>, s: State, more: seq<Step>, t: State)
    requires Run(INIT, steps) == Some(s) && s.started
    requires Run(s, more) == Some(t) && forall k :: 0 <= k < |more| ==> OwnStep(more[k])
    ensures |more| <= 3 * |s.queue| + 5
    ensures t.phase.Over? || AwaitsTunnel(t) || exists step :: OwnStep(step) && Enabled(t, step)
    ensures TunnelIsOver(s) ==> t.phase.Over? || exists step :: OwnStep(step) && Enabled(t, step)
  {
    OwnRun(s, more, t);
    RankBound(s);
    StartedOn(s, more, t);
    Kept(INIT, steps, s);
    Kept(s, more, t);
    GoesOnOrWaits(t);
    if TunnelIsOver(s) {
      OverRun(s, more, t);
      OverAwaitsNothing(t);
    }
  }

  lemma GoesOnOrWaits(s: State)
    requires Invariant(s) && s.started
    ensures s.phase.Over? || AwaitsTunnel(s) || exists step :: OwnStep(step) && Enabled(s, step)
  {
    if !s.phase.Over? && !AwaitsTunnel(s) {
      var step := GoesOn(s);
    }
  }

  lemma RankBound(s: State)
    ensures Rank(s) <= 3 * |s.queue| + 5
    ensures DropSound(s) && s.dropped ==> Rank(s) <= 3 * |s.queue| + 4
  {
  }

  lemma OverAwaitsNothing(s: State)
    requires Invariant(s) && TunnelIsOver(s)
    ensures !AwaitsTunnel(s)
  {
  }

  lemma BegunDeliveredNothing(s: State)
    requires Invariant(s) && s.phase.Begun?
    ensures s.delivered == [] && s.tunnel.NotSpawned?
  {
    assert s.enqueued == Taken(s.handed, s.loss) + InHand(s.phase) + s.queue;
  }

  /** Begun stopped, or without a runtime, `run` delivers its one terminal event in two steps. */
  lemma UnspawnedRunEnds(steps: seq<Step>, s: State, runtimeError: Option<string>)
    requires Run(INIT, steps) == Some(s) && s.phase.Begun? && (s.stopped || runtimeError.Some?)
    ensures Run(s, [Begin(runtimeError), HandlerReturns]).Some?
    ensures var t := Run(s, [Begin(runtimeError), HandlerReturns]).value;
            && t.phase.Over? && t.tunnel.NotSpawned?
            && t.delivered == [if s.stopped then Stopped else Failed(runtimeError.value)]
  {
    Kept(INIT, steps, s);
    BegunDeliveredNothing(s);
    var begin, both := [Begin(runtimeError)], [Begin(runtimeError), HandlerReturns];
    assert begin[..0] == [] && both[..1] == begin;
    assert Run(s, begin) == Some(AfterBegin(s, runtimeError));
  }

  lemma DroppedIsStarted(steps: seq<Step>, s: State)
    requires Run(INIT, steps) == Some(s) && s.dropped
    ensures s.started && DropSound(s)
  {
    Kept(INIT, steps, s);
  }

  /** After a drop the tail takes at most three steps an item and four more, and stops only when the stream is over. */
  lemma TailFinishesTheStream(steps: seq<Step>, s: State, more: seq<Step>, t: State)
    requires Run(INIT, steps) == Some(s) && s.dropped
    requires Run(s, more) == Some(t) && forall k :: 0 <= k < |more| ==> OwnStep(more[k])
    ensures |more| <= 3 * |s.queue| + 4
    ensures t.phase.Over? || exists step :: OwnStep(step) && Enabled(t, step)
  {
    DroppedIsStarted(steps, s);
    OwnRun(s, more, t);
    RankBound(s);
    RunFinishesTheStream(steps, s, more, t);
  }
}

/** The relay's challenge map told from its steps alone. */
module PendingHistory {
  import opened Common
  import opened P = PendingAlpn

  function Arrivals(steps: seq<Step>): nat {
    if steps == [] then 0 else Arrivals(Before(steps)) + if Last(steps).Arrive? then 1 else 0
  }

  /** The client handler `h` is for; handlers are numbered in the order they arrive. */
  function ClientOf(steps: seq<Step>, h: nat): Option<string> {
    if steps == [] then None
    else if Last(steps).Arrive? && Arrivals(Before(steps)) == h then Some(Last(steps).client)
    else ClientOf(Before(steps), h)
  }

  /** Tokens handed out. */
  function Tokens(steps: seq<Step>): nat {
    if steps == [] then 0 else Tokens(Before(steps)) + if Last(steps).TakeToken? then 1 else 0
  }

  function TokenOf(steps: seq<Step>, h: nat): Option<nat> {
    if steps == [] then None
    else if Last(steps) == TakeToken(h) then Some(Tokens(Before(steps)))
    else TokenOf(Before(steps), h)
  }

  predicate HasInserted(steps: seq<Step>, h: nat) {
    steps != [] && (Last(steps) == Insert(h) || HasInserted(Before(steps), h))
  }

  predicate HasRemoved(steps: seq<Step>, h: nat) {
    steps != [] && (Last(steps) == Remove(h) || HasRemoved(Before(steps), h))
  }

  /** The handler that registered last for `client`. */
  function LastInserter(steps: seq<Step>, client: string): Option<nat> {
    if steps == [] then None
    else if Last(steps).Insert? && ClientOf(Before(steps), Last(steps).h) == Some(client) then Some(Last(steps).h)
    else LastInserter(Before(steps), client)
  }

  function PhaseAfter(steps: seq<Step>, h: nat): Phase {
    if TokenOf(steps, h).None? then Arrived
    else
      var token := TokenOf(steps, h).value;
      if HasRemoved(steps, h) then Left(token) else if HasInserted(steps, h) then Waiting(token) else Holding(token)
  }

  predicate HandlerAgrees(steps: seq<Step>, s: State, h: nat)
    requires h < |s.handlers|
  {
    && ClientOf(steps, h) == Some(s.handlers[h].client) && s.handlers[h].phase == PhaseAfter(steps, h)
    && (HasRemoved(steps, h) ==> HasInserted(steps, h)) && (HasInserted(steps, h) ==> TokenOf(steps, h).Some?)
  }

  predicate HasDoneNothing(steps: seq<Step>, h: nat) {
    TokenOf(steps, h).None? && !HasInserted(steps, h) && !HasRemoved(steps, h)
  }

  ghost predicate Agree(steps: seq<Step>, s: State) {
    && s.next == Tokens(steps) && |s.handlers| == Arrivals(steps)
    && (forall h :: 0 <= h < |s.handlers| ==> HandlerAgrees(steps, s, h))
    && (forall h: nat :: h >= |s.handlers| ==> HasDoneNothing(steps, h))
    && (forall client :: LastAgrees(steps, s, client))
  }

  predicate LastAgrees(steps: seq<Step>, s: State, client: string) {
    if LastInserter(steps, client).Some? then client in s.last && s.last[client] == LastInserter(steps, client).value
    else client !in s.last
  }

  lemma HandlerStep(steps: seq<Step>, s: State, step: Step, h: nat)
    requires Agree(steps, s) && Enabled(s, step) && h < |Apply(s, step).handlers|
    ensures HandlerAgrees(steps + [step], Apply(s, step), h)
  {
    Snoc(steps, step);
    assert if h < |s.handlers| then HandlerAgrees(steps, s, h) else HasDoneNothing(steps, h);
  }

  lemma AgreeStep(steps: seq<Step>, s: State, step: Step)
    requires Agree(steps, s) && Enabled(s, step)
    ensures Agree(steps + [step], Apply(s, step))
  {
    var t := Apply(s, step);
    Snoc(steps, step);
    forall h | 0 <= h < |t.handlers|
      ensures HandlerAgrees(steps + [step], t, h)
    {
      HandlerStep(steps, s, step, h);
    }
    forall h: nat | h >= |t.handlers|
      ensures HasDoneNothing(steps + [step], h)
    {
      assert HasDoneNothing(steps, h);
    }
    forall client
      ensures LastAgrees(steps + [step], t, client)
    {
      assert LastAgrees(steps, s, client);
      if step.Insert? {
        assert HandlerAgrees(steps, s, step.h);
      }
    }
  }

  lemma {:induction false} Agrees(steps: seq<Step>, s: State)
    requires Run(INIT, steps) == Some(s)
    ensures Agree(steps, s)
  {
    if steps != [] {
      var u, step := Run(INIT, Before(steps)).value, Last(steps);
      assert steps == Before(steps) + [step];
      Agrees(Before(steps), u);
      AgreeStep(Before(steps), u, step);
    }
  }

  /**
   In every run a client has an entry exactly while the handler that registered last for it has
   not cleaned up, and the entry carries that handler's token and connection. Tokens are handed
   out in order from 0.
   */
  lemma EntriesAreHistory(steps: seq<Step>, s: State, client: string)
    requires Run(INIT, steps) == Some(s)
    ensures var latest := LastInserter(steps, client);
            && (client in s.pending <==> latest.Some? && !HasRemoved(steps, latest.value))
            && (client in s.pending ==>
                  TokenOf(steps, latest.value).Some?
                  && s.pending[client] == P.PendingAlpn.PendingAlpn(TokenOf(steps, latest.value).value, latest.value))
    ensures s.next == Tokens(steps)
  {
    Agrees(steps, s);
    Reached(steps, s);
    assert EntryIsLatest(s, client) && LastAgrees(steps, s, client);
    if client in s.last {
      assert HandlerAgrees(steps, s, s.last[client]);
    }
  }

  /** In every run a handler takes a token, registers and cleans up, once each and in that order. */
  lemma MovesAreHistory(steps: seq<Step>, s: State, h: nat)
    requires Run(INIT, steps) == Some(s) && h < Arrivals(steps)
    ensures Enabled(s, TakeToken(h)) <==> TokenOf(steps, h).None?
    ensures Enabled(s, Insert(h)) <==> TokenOf(steps, h).Some? && !HasInserted(steps, h)
    ensures Enabled(s, Remove(h)) <==> HasInserted(steps, h) && !HasRemoved(steps, h)
  {
    Agrees(steps, s);
    assert HandlerAgrees(steps, s, h);
  }
}

/** The relay's agents told from its steps alone. */
module RegistryHistory {
  import opened Common
  import opened AgentPool
  import opened AgentRegistry

  function Registrations(steps: seq<Step>): nat {
    if steps == [] then 0 else Registrations(Before(steps)) + if Last(steps).Register? then 1 else 0
  }

  /** The id registration `i` is for; registrations are numbered in the order they happen. */
  function IdOf(steps: seq<Step>, i: nat): Option<string> {
    if steps == [] then None
    else if Last(steps).Register? && Registrations(Before(steps)) == i then Some(Last(steps).id)
    else IdOf(Before(steps), i)
  }

  /** The entries of other registrations than `i`, in order. */
  function WithoutAgent(agents: seq<(nat, nat)>, i: nat): seq<(nat, nat)> {
    if agents == [] then []
    else WithoutAgent(Before(agents), i) + if Last(agents).1 != i then [Last(agents)] else []
  }

  /** The uids and agents of `id`, in the order they registered, less those whose connection is done. */
  function AgentsOf(steps: seq<Step>, id: string): seq<(nat, nat)> {
    if steps == [] then []
    else
      var h := Before(steps);
      match Last(steps)
      case Register(id', uid) => AgentsOf(h, id) + if id' == id then [(uid, Registrations(h))] else []
      case RemoveUid(i) => WithoutAgent(AgentsOf(h, id), i)
      case RemoveIfEmpty(_) => AgentsOf(h, id)
  }

  /** `id` has a pool: it has one from its first registration until a remover finds it empty. */
  predicate HasPool(steps: seq<Step>, id: string) {
    && steps != []
    && var h := Before(steps);
       match Last(steps)
       case Register(id', _) => id' == id || HasPool(h, id)
       case RemoveUid(_) => HasPool(h, id)
       case RemoveIfEmpty(i) => HasPool(h, id) && !(IdOf(h, i) == Some(id) && AgentsOf(h, id) == [])
  }

  predicate IsDone(steps: seq<Step>, i: nat) {
    steps != [] && (Last(steps) == RemoveUid(i) || IsDone(Before(steps), i))
  }

  predicate IsCleanedUp(steps: seq<Step>, i: nat) {
    steps != [] && (Last(steps) == RemoveIfEmpty(i) || IsCleanedUp(Before(steps), i))
  }

  predicate RegAgrees(steps: seq<Step>, s: State, i: nat)
    requires i < |s.regs|
  {
    && IdOf(steps, i) == Some(s.regs[i].id) && (IsCleanedUp(steps, i) ==> IsDone(steps, i))
    && s.regs[i].phase == if IsCleanedUp(steps, i) then Gone else if IsDone(steps, i) then Between else Present
  }

  predicate PoolAgrees(steps: seq<Step>, s: State, id: string) {
    && AgentsOf(steps, id) == Registered(s.regs, id) && (id in s.pools <==> HasPool(steps, id))
  }

  predicate HasDoneNothing(steps: seq<Step>, i: nat) {
    !IsDone(steps, i) && !IsCleanedUp(steps, i)
  }

  ghost predicate Agree(steps: seq<Step>, s: State) {
    && |s.regs| == Registrations(steps)
    && (forall i :: 0 <= i < |s.regs| ==> RegAgrees(steps, s, i))
    && (forall i: nat :: i >= |s.regs| ==> HasDoneNothing(steps, i))
    && (forall id :: PoolAgrees(steps, s, id))
  }

  lemma {:induction false} WithoutAgentIsWithout(agents: seq<(nat, nat)>, i: nat, uid: nat)
    requires forall k :: 0 <= k < |agents| ==> (agents[k].1 == i <==> agents[k].0 == uid)
    ensures WithoutAgent(agents, i) == Without(agents, uid)
  {
    if agents != [] {
      WithoutAgentIsWithout(Before(agents), i, uid);
    }
  }

  lemma RemovalLists(s: State, i: nat, id: string)
    requires Distinct(s.regs) && i < |s.regs| && s.regs[i].phase.Present?
    ensures WithoutAgent(Registered(s.regs, id), i) == Registered(Mark(s, i, Between).regs, id)
  {
    var agents := Registered(s.regs, id);
    UidsListed(s.regs, id);
    WithoutAgentIsWithout(agents, i, s.regs[i].uid);
    UnmarkRemovesUid(s.regs, i, Between, id);
    if s.regs[i].id != id {
      OthersListed(s.regs, id);
      WithoutAbsent(agents, s.regs[i].uid);
    }
  }

  lemma {:induction false} OthersListed(regs: seq<Registration>, id: string)
    ensures forall k :: 0 <= k < |Registered(regs, id)| ==>
              Registered(regs, id)[k].1 < |regs| && regs[Registered(regs, id)[k].1].id == id
  {
    if regs != [] {
      OthersListed(regs[..|regs| - 1], id);
    }
  }

  lemma PoolStep(steps: seq<Step>, s: State, step: Step, id: string)
    requires Invariant(s) && Agree(steps, s) && Enabled(s, step)
    ensures PoolAgrees(steps + [step], Apply(s, step), id)
  {
    Snoc(steps, step);
    assert PoolAgrees(steps, s, id) && PoolRight(s, id);
    match step
    case Register(id', uid) => RegisteredSnoc(s.regs, Registration(id', uid, Present), id);
    case RemoveUid(i) =>
      RemovalLists(s, i, id);
      assert s.regs[i].id in s.pools ==> id in s.pools || id != s.regs[i].id;
    case RemoveIfEmpty(i) =>
      assert RegAgrees(steps, s, i);
      MarkAbsent(s.regs, i, Gone, id);
  }

  lemma AgreeStep(steps: seq<Step>, s: State, step: Step)
    requires Invariant(s) && Agree(steps, s) && Enabled(s, step)
    ensures Agree(steps + [step], Apply(s, step))
  {
    var t := Apply(s, step);
    Snoc(steps, step);
    forall i | 0 <= i < |t.regs|
      ensures RegAgrees(steps + [step], t, i)
    {
      assert if i < |s.regs| then RegAgrees(steps, s, i) else HasDoneNothing(steps, i);
    }
    forall i: nat | i >= |t.regs|
      ensures HasDoneNothing(steps + [step], i)
    {
      assert HasDoneNothing(steps, i);
    }
    forall id
      ensures PoolAgrees(steps + [step], t, id)
    {
      PoolStep(steps, s, step, id);
    }
  }

  lemma {:induction false} Agrees(steps: seq<Step>, s: State)
    requires Run(INIT, steps) == Some(s)
    ensures Agree(steps, s)
  {
    if steps != [] {
      var u, step := Run(INIT, Before(steps)).value, Last(steps);
      assert steps == Before(steps) + [step];
      Agrees(Before(steps), u);
      Reached(Before(steps), u);
      AgreeStep(Before(steps), u, step);
    }
  }

  /** In every run an id's pool lists, in order, the agents that registered for it and are not done, and exists as the history says. */
  lemma PoolsAreHistory(steps: seq<Step>, s: State, id: string)
    requires Run(INIT, steps) == Some(s)
    ensures id in s.pools <==> HasPool(steps, id)
    ensures id in s.pools ==> s.pools[id] == AgentsOf(steps, id)
    ensures id !in s.pools ==> AgentsOf(steps, id) == []
  {
    Agrees(steps, s);
    Reached(steps, s);
    assert PoolAgrees(steps, s, id) && PoolRight(s, id);
  }

  /** In every run a connection that is done takes its uid out and then looks for an empty pool, once each and in that order. */
  lemma MovesAreHistory(steps: seq<Step>, s: State, i: nat)
    requires Run(INIT, steps) == Some(s) && i < Registrations(steps)
    ensures Enabled(s, RemoveUid(i)) <==> !IsDone(steps, i)
    ensures Enabled(s, RemoveIfEmpty(i)) <==> IsDone(steps, i) && !IsCleanedUp(steps, i)
  {
    Agrees(steps, s);
    assert RegAgrees(steps, s, i);
  }
}

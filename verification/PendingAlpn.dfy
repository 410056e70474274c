/**
 The relay's map of challenge connections. Handlers take a token, register under their
 client, wait, and remove the entry only while it still carries their token; all three are
 separate steps, interleaved with every other handler's.
 */
module PendingAlpn {
  import opened Common

  /** `conn` stands for the connection; a handler's is its own index. */
  datatype PendingAlpn = PendingAlpn(token: nat, conn: nat)

  type Pending = map<string, PendingAlpn>

  function AfterRemoveIf(pending: Pending, client: string, token: nat): Pending {
    if client in pending && pending[client].token == token then pending - {client} else pending
  }

  function AfterInsert(pending: Pending, client: string, token: nat, conn: nat): Pending {
    pending[client := PendingAlpn(token, conn)]
  }

  /** The token counter moves on by one at each token taken. */
  function AfterToken(next: nat): nat {
    next + 1
  }

  /** The shared map with its token counter. */
  class PendingAlpnMap {
    var next: nat
    var pending: Pending

    constructor ()
      ensures next == 0 && pending == map[]
    {
      next, pending := 0, map[];
    }

    method Insert(client: string, conn: nat) returns (token: nat)
      modifies this
      ensures token == old(next) && next == AfterToken(old(next))
      ensures pending == AfterInsert(old(pending), client, token, conn)
    {
      token := next;
      next := next + 1;
      pending := pending[client := PendingAlpn(token, conn)];
    }

    method Remove(client: string, token: nat)
      modifies this
      ensures pending == AfterRemoveIf(old(pending), client, token) && next == old(next)
    {
      if client in pending && pending[client].token == token {
        pending := pending - {client};
      }
    }
  }

  datatype Phase = Arrived | Holding(token: nat) | Waiting(token: nat) | Left(token: nat)

  datatype Handler = Handler(client: string, phase: Phase)

  /** `last` is history: the handler that inserted most recently for each client. */
  datatype State = State(next: nat, pending: Pending, handlers: seq<Handler>, last: map<string, nat>)

  datatype Step = Arrive(client: string) | TakeToken(h: nat) | Insert(h: nat) | Remove(h: nat)

  const INIT := State(0, map[], [], map[])

  predicate Enabled(s: State, step: Step) {
    match step
    case Arrive(_) => true
    case TakeToken(h) => h < |s.handlers| && s.handlers[h].phase.Arrived?
    case Insert(h) => h < |s.handlers| && s.handlers[h].phase.Holding?
    case Remove(h) => h < |s.handlers| && s.handlers[h].phase.Waiting?
  }

  function Become(s: State, h: nat, phase: Phase): State
    requires h < |s.handlers|
  {
    s.(handlers := s.handlers[h := s.handlers[h].(phase := phase)])
  }

  function Apply(s: State, step: Step): State
    requires Enabled(s, step)
  {
    match step
    case Arrive(client) => s.(handlers := s.handlers + [Handler(client, Arrived)])
    case TakeToken(h) => Become(s, h, Holding(s.next)).(next := AfterToken(s.next))
    case Insert(h) =>
      var Handler(client, Holding(token)) := s.handlers[h];
      Become(s, h, Waiting(token)).(pending := AfterInsert(s.pending, client, token, h), last := s.last[client := h])
    case Remove(h) =>
      var Handler(client, Waiting(token)) := s.handlers[h];
      Become(s, h, Left(token)).(pending := AfterRemoveIf(s.pending, client, token))
  }

  function Run(s: State, steps: seq<Step>): Option<State> {
    if steps == [] then Some(s)
    else
      var before := Run(s, steps[..|steps| - 1]);
      var step := steps[|steps| - 1];
      if before.Some? && Enabled(before.value, step) then Some(Apply(before.value, step)) else None
  }

  predicate TokensDistinct(s: State) {
    && (forall h :: 0 <= h < |s.handlers| && !s.handlers[h].phase.Arrived? ==> s.handlers[h].phase.token < s.next)
    && (forall h, h' :: 0 <= h < h' < |s.handlers| && !s.handlers[h].phase.Arrived? && !s.handlers[h'].phase.Arrived? ==>
          s.handlers[h].phase.token != s.handlers[h'].phase.token)
  }

  predicate LastKnown(s: State) {
    forall client :: client in s.last ==>
      var h := s.last[client];
      h < |s.handlers| && s.handlers[h].client == client && (s.handlers[h].phase.Waiting? || s.handlers[h].phase.Left?)
  }

  /** The entry of `client` is the latest inserter's, and is there exactly while that one waits. */
  predicate EntryIsLatest(s: State, client: string) {
    if client in s.last && s.last[client] < |s.handlers| && s.handlers[s.last[client]].phase.Waiting?
    then client in s.pending && s.pending[client] == PendingAlpn(s.handlers[s.last[client]].phase.token, s.last[client])
    else client !in s.pending
  }

  ghost predicate Invariant(s: State) {
    && TokensDistinct(s) && LastKnown(s)
    && (forall client :: EntryIsLatest(s, client))
    && (forall h :: 0 <= h < |s.handlers| && s.handlers[h].phase.Waiting? ==> s.handlers[h].client in s.last)
  }

  lemma EntryKept(s: State, step: Step, client: string)
    requires Invariant(s) && Enabled(s, step)
    ensures EntryIsLatest(Apply(s, step), client)
  {
    assert EntryIsLatest(s, client);
  }

  lemma TokensKept(s: State, step: Step)
    requires Invariant(s) && Enabled(s, step)
    ensures TokensDistinct(Apply(s, step)) && LastKnown(Apply(s, step))
  {
  }

  lemma {:induction false} Reached(steps: seq<Step>, s: State)
    requires Run(INIT, steps) == Some(s)
    ensures Invariant(s)
  {
    if steps != [] {
      var u, step := Run(INIT, steps[..|steps| - 1]).value, steps[|steps| - 1];
      Reached(steps[..|steps| - 1], u);
      TokensKept(u, step);
      forall client
        ensures EntryIsLatest(Apply(u, step), client)
      {
        EntryKept(u, step, client);
      }
    }
  }

  /** A client's entry is present exactly while its most recent inserter has not cleaned up, and is that one's. */
  lemma EntryFollowsLatestInserter(steps: seq<Step>, s: State, client: string)
    requires Run(INIT, steps) == Some(s)
    ensures client in s.last ==> s.last[client] < |s.handlers|
    ensures client in s.pending <==> client in s.last && s.handlers[s.last[client]].phase.Waiting?
    ensures client in s.pending ==>
              s.pending[client] == PendingAlpn(s.handlers[s.last[client]].phase.token, s.last[client])
  {
    Reached(steps, s);
    assert EntryIsLatest(s, client);
  }

  /** A cleanup removes nothing but its own registration. */
  lemma CleanupSparesOthers(steps: seq<Step>, s: State, h: nat, client: string)
    requires Run(INIT, steps) == Some(s) && Enabled(s, Remove(h)) && client in s.pending && s.pending[client].conn != h
    ensures client in Apply(s, Remove(h)).pending && Apply(s, Remove(h)).pending[client] == s.pending[client]
  {
    Reached(steps, s);
    assert EntryIsLatest(s, client);
  }

  /** With no handler waiting the map is empty. */
  lemma NobodyWaitingMeansEmpty(steps: seq<Step>, s: State)
    requires Run(INIT, steps) == Some(s) && forall h :: 0 <= h < |s.handlers| ==> !s.handlers[h].phase.Waiting?
    ensures s.pending == map[]
  {
    Reached(steps, s);
    forall client
      ensures client !in s.pending
    {
      assert EntryIsLatest(s, client);
    }
  }
}

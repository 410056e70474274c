/** One client's connected agents and the round-robin choice among them. */
module AgentPool {
  import opened Common

  /** `AtomicUsize::fetch_add` wraps at 2^64. */
  const WRAP: nat := 0x1_0000_0000_0000_0000

  function Succ(counter: nat): nat {
    if counter + 1 >= WRAP then 0 else counter + 1
  }

  /** The entries of `agents` whose uid is not `uid`, in order. */
  function Without<A>(agents: seq<(nat, A)>, uid: nat): (kept: seq<(nat, A)>)
    ensures forall i :: 0 <= i < |kept| ==> kept[i].0 != uid
  {
    if agents == [] then []
    else Without(agents[..|agents| - 1], uid) + if agents[|agents| - 1].0 != uid then [agents[|agents| - 1]] else []
  }

  /** A new agent comes last. */
  function With<A>(agents: seq<(nat, A)>, uid: nat, agent: A): seq<(nat, A)> {
    agents + [(uid, agent)]
  }

  class AgentPool<A> {
    var counter: nat
    var agents: seq<(nat, A)>

    ghost predicate Valid()
      reads this
    {
      counter < WRAP
    }

    constructor ()
      ensures Valid() && counter == 0 && agents == []
    {
      counter, agents := 0, [];
    }

    method Push(uid: nat, agent: A)
      modifies this`agents
      ensures agents == With(old(agents), uid, agent)
    {
      agents := agents + [(uid, agent)];
    }

    /** `retain` keeps, in order, every entry with another uid. */
    method Remove(uid: nat)
      modifies this`agents
      ensures agents == Without(old(agents), uid)
    {
      var kept: seq<(nat, A)> := [];
      for i := 0 to |agents|
        invariant agents == old(agents) && kept == Without(agents[..i], uid)
      {
        assert agents[..i + 1][..i] == agents[..i];
        if agents[i].0 != uid {
          kept := kept + [agents[i]];
        }
      }
      assert agents[..|agents|] == agents;
      agents := kept;
    }

    method NextAgent() returns (agent: Option<A>)
      requires Valid()
      modifies this`counter
      ensures Valid()
      ensures agents == [] ==> agent == None && counter == old(counter)
      ensures agents != [] ==> agent == Some(agents[old(counter) % |agents|].1) && counter == Succ(old(counter))
    {
      if agents == [] {
        return None;
      }
      agent := Some(agents[counter % |agents|].1);
      counter := Succ(counter);
    }
  }

  // ----- fairness of the choice

  /** The counter after `w` choices. */
  function CounterAfter(counter: nat, w: nat): nat {
    if w == 0 then counter else Succ(CounterAfter(counter, w - 1))
  }

  /** How often index `j` of `n` agents is chosen in a window of `w` choices. */
  function Chosen(counter: nat, w: nat, n: nat, j: nat): nat
    requires n > 0
  {
    if w == 0 then 0
    else Chosen(counter, w - 1, n, j) + if CounterAfter(counter, w - 1) % n == j then 1 else 0
  }

  /** Steps from index `from` forward to `j`, going round `n`. */
  function Ahead(from: nat, j: nat, n: nat): nat
    requires from < n && j < n
  {
    if j >= from then j - from else j + n - from
  }

  function Around(i: nat, n: nat): nat
    requires i < 2 * n
  {
    if i < n then i else i - n
  }

  lemma MulGap(n: int, d: int)
    requires n > 0
    ensures d >= 1 ==> n * d >= n
    ensures d >= 2 ==> n * d >= 2 * n
    ensures d <= -1 ==> n * d <= -n
  {
    if d >= 1 {
      assert n * (d - 1) >= 0;
    }
    if d >= 2 {
      assert n * (d - 2) >= 0;
    }
    if d <= -1 {
      assert n * (-1 - d) >= 0;
    }
  }

  lemma ModSucc(a: nat, n: nat)
    requires n > 0
    ensures (a + 1) % n == if a % n + 1 == n then 0 else a % n + 1
  {
    var q, r, q', r' := a / n, a % n, (a + 1) / n, (a + 1) % n;
    assert a == n * q + r && a + 1 == n * q' + r';
    assert n * (q' - q) == n * q' - n * q;
    MulGap(n, q' - q);
  }

  /** The next index is one round from this one, unless the counter wraps and `n` does not divide 2^64. */
  lemma SuccIndex(counter: nat, n: nat)
    requires 0 < n && counter < WRAP && (counter + 1 < WRAP || WRAP % n == 0)
    ensures Succ(counter) % n == Around(counter % n + 1, n)
  {
    ModSucc(counter, n);
  }

  /** Going round from `from`, index `j` is reached after exactly `Ahead(from, j, n)` steps. */
  lemma AroundAhead(from: nat, extra: nat, n: nat, j: nat)
    requires from < n && extra < n && j < n
    ensures Around(from + extra, n) == j <==> Ahead(from, j, n) == extra
  {
  }

  lemma {:induction false} CounterWithoutWrap(counter: nat, w: nat)
    requires counter + w < WRAP
    ensures CounterAfter(counter, w) == counter + w
  {
    if w > 0 {
      CounterWithoutWrap(counter, w - 1);
    }
  }

  /** After `w` choices the next index is `extra` round from the first one. */
  predicate NextIs(counter: nat, w: nat, n: nat, extra: nat)
    requires 0 < n && extra < n
  {
    CounterAfter(counter, w) < WRAP && CounterAfter(counter, w) % n == Around(counter % n + extra, n)
  }

  lemma NextMoves(counter: nat, w: nat, n: nat, extra: nat)
    requires 0 < n && extra < n && NextIs(counter, w, n, extra)
    requires counter + w + 1 < WRAP || WRAP % n == 0
    ensures NextIs(counter, w + 1, n, if extra + 1 == n then 0 else extra + 1)
  {
    if counter + w + 1 < WRAP {
      CounterWithoutWrap(counter, w);
    }
    SuccIndex(CounterAfter(counter, w), n);
  }

  /** A window with unchanged membership that does not wrap, or whose wrap does no harm. */
  predicate FairWindow(counter: nat, w: nat, n: nat)
    requires n > 0
  {
    counter + w <= 18_446_744_073_709_551_616 || 18_446_744_073_709_551_616 % n == 0
  }

  /** Every index has been chosen `rounds` times, and the first `extra` from the start once more. */
  predicate Shares(counter: nat, w: nat, n: nat, rounds: nat, extra: nat)
    requires 0 < n
  {
    forall j :: 0 <= j < n ==>
      Chosen(counter, w, n, j) == rounds + if Ahead(counter % n, j, n) < extra then 1 else 0
  }

  lemma SharesMove(counter: nat, w: nat, n: nat, rounds: nat, extra: nat)
    requires 0 < n && extra < n && NextIs(counter, w, n, extra) && Shares(counter, w, n, rounds, extra)
    ensures if extra + 1 == n then Shares(counter, w + 1, n, rounds + 1, 0) else Shares(counter, w + 1, n, rounds, extra + 1)
  {
    forall j | 0 <= j < n
      ensures Chosen(counter, w + 1, n, j) == rounds + if Ahead(counter % n, j, n) < extra + 1 then 1 else 0
    {
      AroundAhead(counter % n, extra, n, j);
    }
  }

  lemma {:induction false} RoundsAndExtra(counter: nat, w: nat, n: nat) returns (rounds: nat, extra: nat)
    requires 0 < n && counter < WRAP && FairWindow(counter, w, n)
    ensures extra < n && Shares(counter, w, n, rounds, extra)
    ensures counter + w < WRAP || WRAP % n == 0 ==> NextIs(counter, w, n, extra)
  {
    if w == 0 {
      rounds, extra := 0, 0;
    } else {
      rounds, extra := RoundsAndExtra(counter, w - 1, n);
      SharesMove(counter, w - 1, n, rounds, extra);
      if counter + w < WRAP || WRAP % n == 0 {
        NextMoves(counter, w - 1, n, extra);
      }
      if extra + 1 == n {
        rounds, extra := rounds + 1, 0;
      } else {
        extra := extra + 1;
      }
    }
  }

  /** Over any window without a wrap, or any at all if `n` divides 2^64, two agents' shares differ by at most one. */
  lemma RoundRobinIsFair(counter: nat, w: nat, n: nat, j: nat, k: nat)
    requires j < n && k < n && counter < WRAP && FairWindow(counter, w, n)
    ensures Chosen(counter, w, n, j) <= Chosen(counter, w, n, k) + 1
  {
    var rounds, extra := RoundsAndExtra(counter, w, n);
  }

  /** How often `j` occurs among `indices`. */
  function Tally(indices: seq<nat>, j: nat): nat {
    if indices == [] then 0
    else Tally(indices[..|indices| - 1], j) + if indices[|indices| - 1] == j then 1 else 0
  }

  /** The position chosen after `i` choices from `n` agents. */
  function ChoiceAt(counter: nat, i: nat, n: nat): nat
    requires n > 0
  {
    CounterAfter(counter, i) % n
  }

  /** `indices` are the first choices from `counter`. */
  predicate AreChoices(counter: nat, indices: seq<nat>, n: nat)
    requires n > 0
  {
    forall i :: 0 <= i < |indices| ==> indices[i] == ChoiceAt(counter, i, n)
  }

  lemma {:induction false} TallyIsChosen(counter: nat, indices: seq<nat>, n: nat, j: nat)
    requires n > 0 && AreChoices(counter, indices, n)
    ensures Tally(indices, j) == Chosen(counter, |indices|, n, j)
  {
    if indices != [] {
      TallyIsChosen(counter, indices[..|indices| - 1], n, j);
    }
  }

  /** Over a fair window no position is chosen twice more than another. */
  predicate TalliesFair(indices: seq<nat>, n: nat) {
    forall j, k :: 0 <= j < n && 0 <= k < n ==> Tally(indices, j) <= Tally(indices, k) + 1
  }

  lemma ChoicesAreFair(counter: nat, indices: seq<nat>, n: nat)
    requires n > 0 && counter < WRAP && FairWindow(counter, |indices|, n) && AreChoices(counter, indices, n)
    ensures TalliesFair(indices, n)
  {
    forall j, k | 0 <= j < n && 0 <= k < n
      ensures Tally(indices, j) <= Tally(indices, k) + 1
    {
      TallyIsChosen(counter, indices, n, j);
      TallyIsChosen(counter, indices, n, k);
      RoundRobinIsFair(counter, |indices|, n, j, k);
    }
  }

  /** `w` choices in a row from one pool; `indices` are the positions chosen. */
  method NextAgents<A>(pool: AgentPool<A>, w: nat) returns (picks: seq<A>, ghost indices: seq<nat>)
    requires pool.Valid() && pool.agents != []
    modifies pool`counter
    ensures pool.Valid() && pool.counter == CounterAfter(old(pool.counter), w)
    ensures |picks| == |indices| == w && AreChoices(old(pool.counter), indices, |pool.agents|)
    ensures forall i :: 0 <= i < w ==> indices[i] < |pool.agents| && picks[i] == pool.agents[indices[i]].1
    ensures FairWindow(old(pool.counter), w, |pool.agents|) ==> TalliesFair(indices, |pool.agents|)
  {
    picks, indices := [], [];
    for i := 0 to w
      invariant pool.Valid() && pool.agents == old(pool.agents) && pool.counter == CounterAfter(old(pool.counter), i)
      invariant |picks| == |indices| == i && AreChoices(old(pool.counter), indices, |pool.agents|)
      invariant forall m :: 0 <= m < i ==> indices[m] < |pool.agents| && picks[m] == pool.agents[indices[m]].1
    {
      ghost var index := ChoiceAt(old(pool.counter), i, |pool.agents|);
      var pick := pool.NextAgent();
      picks, indices := picks + [pick.value], indices + [index];
    }
    if FairWindow(old(pool.counter), w, |pool.agents|) {
      ChoicesAreFair(old(pool.counter), indices, |pool.agents|);
    }
  }

  /** From index 0, the first `w <= n` choices take one each. */
  lemma {:induction false} FirstChoices(counter: nat, w: nat, n: nat, j: nat)
    requires j < n && w <= n && counter + w <= WRAP && counter % n == 0
    ensures Chosen(counter, w, n, j) == if j < w then 1 else 0
    ensures w < n ==> (counter + w) % n == w
  {
    if w > 0 {
      FirstChoices(counter, w - 1, n, j);
      CounterWithoutWrap(counter, w - 1);
      ModSucc(counter + w - 1, n);
    }
  }

  lemma {:induction false} ChosenConcat(counter: nat, v: nat, w: nat, n: nat, j: nat)
    requires n > 0
    ensures CounterAfter(counter, v + w) == CounterAfter(CounterAfter(counter, v), w)
    ensures Chosen(counter, v + w, n, j) == Chosen(counter, v, n, j) + Chosen(CounterAfter(counter, v), w, n, j)
  {
    if w > 0 {
      ChosenConcat(counter, v, w - 1, n, j);
    }
  }

  /** If `n` does not divide 2^64, a window across the wrap chooses one agent twice and skips another. */
  lemma WrapBreaksFairness(n: nat) returns (counter: nat, w: nat, j: nat, k: nat)
    requires n > 0 && 18_446_744_073_709_551_616 % n != 0
    ensures j < n && k < n && counter < WRAP && Chosen(counter, w, n, j) == Chosen(counter, w, n, k) + 2
  {
    var r := (WRAP - 1) % n;
    ModSucc(WRAP - 1, n);
    counter, w, j, k := WRAP - 1 - r, 2 * (r + 1), 0, r + 1;
    assert counter % n == 0 by {
      var q := (WRAP - 1) / n;
      assert counter == n * q;
      MultipleMod(q, n);
    }
    CounterWithoutWrap(counter, r);
    assert CounterAfter(counter, r + 1) == 0;
    ChosenConcat(counter, r + 1, r + 1, n, j);
    ChosenConcat(counter, r + 1, r + 1, n, k);
    FirstChoices(counter, r + 1, n, j);
    FirstChoices(counter, r + 1, n, k);
    FirstChoices(0, r + 1, n, j);
    FirstChoices(0, r + 1, n, k);
  }

  lemma MultipleMod(q: nat, n: nat)
    requires n > 0
    ensures (n * q) % n == 0
  {
    var a := n * q;
    var q', r' := a / n, a % n;
    assert a == n * q' + r';
    assert n * (q - q') == n * q - n * q';
    MulGap(n, q - q');
  }
}

/**
 The relay's agents by client id: `register` pushes under the entry's lock; when the
 connection ends, one step removes the uid and a later one drops the pool if it is empty.
 Uids are random 64-bit numbers, taken to be distinct.
 */
module AgentRegistry {
  import opened Common
  import opened AgentPool

  datatype Phase = Present | Between | Gone

  /** One `register` call, in the order they happened. */
  datatype Registration = Registration(id: string, uid: nat, phase: Phase)

  /** A pool entry pairs the uid with its agent; an agent is the index of its registration. */
  datatype State = State(pools: map<string, seq<(nat, nat)>>, regs: seq<Registration>)

  datatype Step = Register(id: string, uid: nat) | RemoveUid(i: nat) | RemoveIfEmpty(i: nat)

  const INIT := State(map[], [])

  predicate Enabled(s: State, step: Step) {
    match step
    case Register(_, uid) => forall i :: 0 <= i < |s.regs| ==> s.regs[i].uid != uid
    case RemoveUid(i) => i < |s.regs| && s.regs[i].phase.Present?
    case RemoveIfEmpty(i) => i < |s.regs| && s.regs[i].phase.Between?
  }

  function Mark(s: State, i: nat, phase: Phase): State
    requires i < |s.regs|
  {
    s.(regs := s.regs[i := s.regs[i].(phase := phase)])
  }

  function PoolOf(pools: map<string, seq<(nat, nat)>>, id: string): seq<(nat, nat)> {
    if id in pools then pools[id] else []
  }

  function Apply(s: State, step: Step): State
    requires Enabled(s, step)
  {
    match step
    case Register(id, uid) =>
      State(s.pools[id := With(PoolOf(s.pools, id), uid, |s.regs|)], s.regs + [Registration(id, uid, Present)])
    case RemoveUid(i) =>
      var id, uid := s.regs[i].id, s.regs[i].uid;
      Mark(s, i, Between).(pools := if id in s.pools then s.pools[id := Without(s.pools[id], uid)] else s.pools)
    case RemoveIfEmpty(i) =>
      var id := s.regs[i].id;
      Mark(s, i, Gone).(pools := if id in s.pools && s.pools[id] == [] then s.pools - {id} else s.pools)
  }

  function Run(s: State, steps: seq<Step>): Option<State> {
    if steps == [] then Some(s)
    else
      var before := Run(s, steps[..|steps| - 1]);
      var step := steps[|steps| - 1];
      if before.Some? && Enabled(before.value, step) then Some(Apply(before.value, step)) else None
  }

  /** The agents of `id` registered and not yet removed, in registration order. */
  function Registered(regs: seq<Registration>, id: string): seq<(nat, nat)> {
    if regs == [] then []
    else
      var last := |regs| - 1;
      Registered(regs[..last], id) + if regs[last].id == id && regs[last].phase.Present? then [(regs[last].uid, last)] else []
  }

  predicate Distinct(regs: seq<Registration>) {
    forall i, j :: 0 <= i < j < |regs| ==> regs[i].uid != regs[j].uid
  }

  /** Some remover of `id` stands between its two steps. */
  predicate RemoverBetween(regs: seq<Registration>, id: string) {
    exists i :: 0 <= i < |regs| && regs[i].id == id && regs[i].phase.Between?
  }

  predicate PoolRight(s: State, id: string) {
    && PoolOf(s.pools, id) == Registered(s.regs, id)
    && (id in s.pools && s.pools[id] == [] ==> RemoverBetween(s.regs, id))
  }

  ghost predicate Invariant(s: State) {
    Distinct(s.regs) && forall id :: PoolRight(s, id)
  }

  lemma {:induction false} UidsListed(regs: seq<Registration>, id: string)
    ensures forall k :: 0 <= k < |Registered(regs, id)| ==>
              Registered(regs, id)[k].1 < |regs| && Registered(regs, id)[k].0 == regs[Registered(regs, id)[k].1].uid
  {
    if regs != [] {
      UidsListed(regs[..|regs| - 1], id);
    }
  }

  lemma {:induction false} WithoutAbsent(agents: seq<(nat, nat)>, uid: nat)
    requires forall k :: 0 <= k < |agents| ==> agents[k].0 != uid
    ensures Without(agents, uid) == agents
  {
    if agents != [] {
      WithoutAbsent(agents[..|agents| - 1], uid);
      assert agents[..|agents| - 1] + [agents[|agents| - 1]] == agents;
    }
  }

  lemma WithoutSnoc(agents: seq<(nat, nat)>, last: (nat, nat), uid: nat)
    ensures Without(agents + [last], uid) == Without(agents, uid) + if last.0 != uid then [last] else []
  {
    assert (agents + [last])[..|agents|] == agents;
  }

  function Listing(reg: Registration, i: nat, id: string): seq<(nat, nat)> {
    if reg.id == id && reg.phase.Present? then [(reg.uid, i)] else []
  }

  lemma RegisteredSnoc(regs: seq<Registration>, reg: Registration, id: string)
    ensures Registered(regs + [reg], id) == Registered(regs, id) + Listing(reg, |regs|, id)
  {
    assert (regs + [reg])[..|regs|] == regs;
  }

  lemma WithoutListing(agents: seq<(nat, nat)>, reg: Registration, i: nat, id: string, uid: nat)
    ensures Without(agents + Listing(reg, i, id), uid) == Without(agents, uid) + if reg.uid != uid then Listing(reg, i, id) else []
  {
    if Listing(reg, i, id) == [] {
      assert agents + Listing(reg, i, id) == agents;
    } else {
      WithoutSnoc(agents, (reg.uid, i), uid);
    }
  }

  /** Unmarking registration `i` drops exactly its uid from its id's list, and leaves other lists alone. */
  lemma {:induction false} UnmarkRemovesUid(regs: seq<Registration>, i: nat, phase: Phase, id: string)
    requires Distinct(regs) && i < |regs| && regs[i].phase.Present? && !phase.Present?
    ensures Registered(regs[i := regs[i].(phase := phase)], id)
         == if regs[i].id == id then Without(Registered(regs, id), regs[i].uid) else Registered(regs, id)
  {
    var n, marked := |regs| - 1, regs[i].(phase := phase);
    var before, last := regs[..n], regs[n];
    assert regs == before + [last];
    RegisteredSnoc(before, last, id);
    WithoutListing(Registered(before, id), last, n, id, regs[i].uid);
    if i == n {
      assert regs[i := marked] == before + [marked];
      RegisteredSnoc(before, marked, id);
      UidsListed(before, id);
      WithoutAbsent(Registered(before, id), regs[i].uid);
    } else {
      assert regs[i := marked] == before[i := marked] + [last];
      RegisteredSnoc(before[i := marked], last, id);
      UnmarkRemovesUid(before, i, phase, id);
    }
  }

  lemma {:induction false} MarkAbsent(regs: seq<Registration>, i: nat, phase: Phase, id: string)
    requires i < |regs| && !regs[i].phase.Present? && !phase.Present?
    ensures Registered(regs[i := regs[i].(phase := phase)], id) == Registered(regs, id)
  {
    var last := |regs| - 1;
    var marked := regs[i := regs[i].(phase := phase)];
    if i == last {
      assert marked[..last] == regs[..last];
    } else {
      assert marked[..last] == regs[..last][i := regs[i].(phase := phase)];
      MarkAbsent(regs[..last], i, phase, id);
    }
  }

  lemma RemoverStays(s: State, step: Step, id: string)
    requires Enabled(s, step) && RemoverBetween(s.regs, id) && !(step.RemoveIfEmpty? && s.regs[step.i].id == id)
    ensures RemoverBetween(Apply(s, step).regs, id)
  {
    var i :| 0 <= i < |s.regs| && s.regs[i].id == id && s.regs[i].phase.Between?;
    assert Apply(s, step).regs[i].id == id && Apply(s, step).regs[i].phase.Between?;
  }

  lemma RegisterKeepsList(s: State, id': string, uid: nat, id: string)
    requires PoolRight(s, id) && Enabled(s, Register(id', uid))
    ensures PoolOf(Apply(s, Register(id', uid)).pools, id) == Registered(Apply(s, Register(id', uid)).regs, id)
  {
    var regs := s.regs + [Registration(id', uid, Present)];
    assert regs[..|s.regs|] == s.regs;
    assert Registered(regs, id) == Registered(s.regs, id) + if id' == id then [(uid, |s.regs|)] else [];
  }

  lemma RemoveKeepsList(s: State, i: nat, id: string)
    requires Distinct(s.regs) && PoolRight(s, id) && Enabled(s, RemoveUid(i))
    ensures PoolOf(Apply(s, RemoveUid(i)).pools, id) == Registered(Apply(s, RemoveUid(i)).regs, id)
  {
    UnmarkRemovesUid(s.regs, i, Between, id);
  }

  lemma DropKeepsList(s: State, i: nat, id: string)
    requires PoolRight(s, id) && Enabled(s, RemoveIfEmpty(i))
    ensures PoolOf(Apply(s, RemoveIfEmpty(i)).pools, id) == Registered(Apply(s, RemoveIfEmpty(i)).regs, id)
  {
    MarkAbsent(s.regs, i, Gone, id);
  }

  lemma ListKept(s: State, step: Step, id: string)
    requires Invariant(s) && Enabled(s, step)
    ensures PoolOf(Apply(s, step).pools, id) == Registered(Apply(s, step).regs, id)
  {
    assert PoolRight(s, id);
    match step
    case Register(id', uid) => RegisterKeepsList(s, id', uid, id);
    case RemoveUid(i) => RemoveKeepsList(s, i, id);
    case RemoveIfEmpty(i) => DropKeepsList(s, i, id);
  }

  lemma PoolKept(s: State, step: Step, id: string)
    requires Invariant(s) && Enabled(s, step)
    ensures PoolRight(Apply(s, step), id)
  {
    ListKept(s, step, id);
    assert PoolRight(s, id);
    var t := Apply(s, step);
    if id in t.pools && t.pools[id] == [] {
      if step.RemoveUid? && s.regs[step.i].id == id {
        assert t.regs[step.i].id == id && t.regs[step.i].phase.Between?;
      } else {
        RemoverStays(s, step, id);
      }
    }
  }

  lemma {:induction false} Reached(steps: seq<Step>, s: State)
    requires Run(INIT, steps) == Some(s)
    ensures Invariant(s)
  {
    if steps != [] {
      var u, step := Run(INIT, steps[..|steps| - 1]).value, steps[|steps| - 1];
      Reached(steps[..|steps| - 1], u);
      forall id
        ensures PoolRight(Apply(u, step), id)
      {
        PoolKept(u, step, id);
      }
    }
  }

  /** An id's pool lists exactly its agents not yet removed, in order; a missing key means there are none. */
  lemma PoolListsRegistered(steps: seq<Step>, s: State, id: string)
    requires Run(INIT, steps) == Some(s)
    ensures id in s.pools ==> s.pools[id] == Registered(s.regs, id)
    ensures id !in s.pools ==> Registered(s.regs, id) == []
  {
    Reached(steps, s);
    assert PoolRight(s, id);
  }

  /** An empty pool exists only while a remover stands between its two steps. */
  lemma NoEmptyPoolLeaks(steps: seq<Step>, s: State, id: string)
    requires Run(INIT, steps) == Some(s)
    requires forall i :: 0 <= i < |s.regs| && s.regs[i].id == id ==> !s.regs[i].phase.Between?
    ensures id in s.pools <==> Registered(s.regs, id) != []
  {
    Reached(steps, s);
    assert PoolRight(s, id);
  }

  lemma {:induction false} PresentIsListed(regs: seq<Registration>, i: nat)
    requires i < |regs| && regs[i].phase.Present?
    ensures (regs[i].uid, i) in Registered(regs, regs[i].id)
  {
    if i < |regs| - 1 {
      PresentIsListed(regs[..|regs| - 1], i);
    }
  }

  /** In every run a registered agent is in its pool until its own removal. */
  lemma LiveAgentStays(steps: seq<Step>, s: State, i: nat)
    requires Run(INIT, steps) == Some(s) && i < |s.regs| && s.regs[i].phase.Present?
    ensures s.regs[i].id in s.pools && (s.regs[i].uid, i) in s.pools[s.regs[i].id]
  {
    PoolListsRegistered(steps, s, s.regs[i].id);
    PresentIsListed(s.regs, i);
  }
}

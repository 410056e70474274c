/** An abandoned leader never wedges a domain, and a follower's leader was alive when probed. */
module CertLiveness {
  import opened Common
  import opened CertOrders

  /** Caller `c` runs `prepare` alone with these steps. */
  predicate PrepareStep(step: Step, c: nat) {
    && Actor(step) == Some(c)
    && (step.ProbeCache? || step.ProbeInFlight? || step.CheckLeader? || step.Evict? || step.ReadKeyAuth? || step.KeyAuthChanged?
        || step.Claim? || step.SetupOk? || step.SetupErr? || step.RemoveFailed? || step.DropSenders?)
  }

  /** `prepare` has returned: a cached certificate, a challenge to lead, or a setup error. */
  predicate Returned(p: Phase) {
    p.Leading? || (p.Finished? && (p.result.Cached? || p.result.Failed?))
  }

  predicate IsCacheProbe(step: Step) {
    step.ProbeCache?
  }

  /** Nobody drives an order for `d`. */
  predicate NoLeader(s: State, d: Domain) {
    forall c, k :: 0 <= c < |s.callers| && 0 <= k < |s.orders| && s.orders[k].domain == d ==> HeldCert(s.callers[c]) != Some(k)
  }

  predicate Seeking(p: Phase, d: Domain) {
    p == AtTop(d) || p == Probing(d) || (p.Checking? && p.d == d) || p == Evicting(d) || p == Claiming(d)
  }

  /** What holds along a solo `prepare` that started with no leader for `d`. */
  predicate Solo(s: State, c: nat, d: Domain) {
    && c < |s.callers|
    && var p := s.callers[c];
       || Returned(p) || p.SettingUp? || p.SetupFailed? || p.DroppingSenders?
       || (&& Seeking(p, d) && NoLeader(s, d)
           && (p.Checking? ==> d in s.inFlight) && (p.Claiming? ==> d !in s.inFlight))
  }

  function Rank(s: State, c: nat): nat
    requires c < |s.callers|
  {
    match s.callers[c]
    case AtTop(d) => if d in s.inFlight then 10 else 6
    case Probing(d) => if d in s.inFlight then 9 else 5
    case Checking(_, _) => 8
    case Evicting(_) => 7
    case Claiming(_) => 4
    case SettingUp(_, _) => 3
    case SetupFailed(_, _) => 2
    case DroppingSenders(_) => 1
    case _ => 0
  }

  /** Trips round the loop still to begin. */
  function TripsLeft(s: State, c: nat): nat
    requires c < |s.callers|
  {
    match s.callers[c]
    case AtTop(d) => if d in s.inFlight then 2 else 1
    case Probing(d) => if d in s.inFlight then 1 else 0
    case Checking(_, _) => 1
    case Evicting(_) => 1
    case _ => 0
  }

  /** With no leader about, the channel of any entry for `d` is closed. */
  lemma EntryIsStale(s: State, d: Domain, e: InFlightEntry)
    requires Invariant(s) && NoLeader(s, d) && Known(s, d, e)
    ensures e.cert.chan < |s.certs| && !s.certs[e.cert.chan].open
  {
    assert ChannelMatches(s, e.cert.chan);
  }

  lemma SoloStep(s: State, c: nat, d: Domain, step: Step)
    requires Invariant(s) && Solo(s, c, d) && Enabled(s, step) && PrepareStep(step, c)
    ensures Solo(Apply(s, step), c, d)
    ensures Rank(Apply(s, step), c) < Rank(s, c)
    ensures TripsLeft(Apply(s, step), c) + (if IsCacheProbe(step) then 1 else 0) <= TripsLeft(s, c)
  {
    assert PhaseFits(s, c);
    if s.callers[c].Checking? {
      EntryIsStale(s, d, s.callers[c].e);
    }
  }

  lemma {:induction false} SoloRun(s: State, c: nat, d: Domain, more: seq<Step>, t: State)
    requires Invariant(s) && Solo(s, c, d) && Run(s, more) == Some(t)
    requires forall j :: 0 <= j < |more| ==> PrepareStep(more[j], c)
    ensures Invariant(t) && Solo(t, c, d)
    ensures |more| + Rank(t, c) <= Rank(s, c) && Count(more, IsCacheProbe) + TripsLeft(t, c) <= TripsLeft(s, c)
  {
    if more != [] {
      var u, step := LastStep(s, more, t);
      SoloRun(s, c, d, more[..|more| - 1], u);
      SoloStep(u, c, d, step);
      StepKept(u, step);
    }
  }

  /** A solo `prepare` that has not returned can go on. */
  lemma SoloGoesOn(s: State, c: nat, d: Domain) returns (step: Step)
    requires Invariant(s) && Solo(s, c, d) && !Returned(s.callers[c])
    ensures PrepareStep(step, c) && Enabled(s, step)
  {
    assert PhaseFits(s, c);
    match s.callers[c]
    case AtTop(_) => step := ProbeCache(c, 0);
    case Probing(_) => step := ProbeInFlight(c);
    case Checking(_, _) => step := CheckLeader(c);
    case Evicting(_) => step := Evict(c);
    case Claiming(_) => step := Claim(c);
    case SettingUp(_, _) => step := SetupErr(c);
    case SetupFailed(_, _) => step := RemoveFailed(c);
    case DroppingSenders(_) => step := DropSenders(c);
  }

  /**
   From any reachable state with no leader for `d`, a `prepare` no other caller disturbs
   takes at most ten steps and two trips, and can stop only having returned a cached
   certificate, leadership or a setup error; it never becomes a follower.
   */
  lemma AbandonedLeaderNeverWedges(steps: seq<Step>, s: State, c: nat, d: Domain, more: seq<Step>, t: State)
    requires Run(INIT, steps) == Some(s) && c < |s.callers| && s.callers[c] == AtTop(d) && NoLeader(s, d)
    requires Run(s, more) == Some(t) && forall j :: 0 <= j < |more| ==> PrepareStep(more[j], c)
    ensures |more| <= 10 && Count(more, IsCacheProbe) <= 2
    ensures c < |t.callers| && !t.callers[c].Following? && !t.callers[c].Waiting?
    ensures Returned(t.callers[c]) || exists step :: PrepareStep(step, c) && Enabled(t, step)
  {
    Kept(INIT, steps, s);
    SoloRun(s, c, d, more, t);
    if !Returned(t.callers[c]) {
      var step := SoloGoesOn(t, c, d);
    }
  }

  // ----- a leader's followers

  /** Steps a leader has left before it gives up its certificate sender. */
  function LeaderRank(p: Phase): nat {
    match p
    case SettingUp(_, _) => 7
    case Leading(_, _) => 6
    case Finalizing(_, _) => 5
    case Caching(_, _, _) => 4
    case Sending(_, _, _) => 3
    case SetupFailed(_, _) => 2
    case Removing(_, _, _) => 2
    case DroppingSenders(_) => 1
    case Releasing(_, _, _) => 1
    case _ => 0
  }

  /** How many of `steps` are caller `c`'s own. */
  function StepsOf(steps: seq<Step>, c: nat): nat {
    if steps == [] then 0 else StepsOf(steps[..|steps| - 1], c) + if Actor(steps[|steps| - 1]) == Some(c) then 1 else 0
  }

  /** A phase that still leads order `k`, or has ended, with at most `left` steps to go. */
  predicate LeadsOrEnded(p: Phase, k: nat, left: int) {
    LeaderRank(p) <= left && (IsUnfinished(p) ==> HeldCert(p) == Some(k))
  }

  lemma LeaderStep(s: State, step: Step, c: nat, k: nat, left: int)
    requires Enabled(s, step) && c < |s.callers| && LeadsOrEnded(s.callers[c], k, left)
    ensures c < |Apply(s, step).callers|
    ensures LeadsOrEnded(Apply(s, step).callers[c], k, left - if Actor(step) == Some(c) then 1 else 0)
  {
    OthersStay(s, step);
  }

  lemma {:induction false} LeaderRun(s: State, c: nat, k: nat, more: seq<Step>, t: State)
    requires c < |s.callers| && HeldCert(s.callers[c]) == Some(k) && Run(s, more) == Some(t)
    ensures c < |t.callers| && LeadsOrEnded(t.callers[c], k, LeaderRank(s.callers[c]) - StepsOf(more, c))
  {
    if more != [] {
      var u, step := LastStep(s, more, t);
      LeaderRun(s, c, k, more[..|more| - 1], u);
      LeaderStep(u, step, c, k, LeaderRank(s.callers[c]) - StepsOf(more[..|more| - 1], c));
    }
  }

  lemma {:induction false} LeaderStays(s: State, more: seq<Step>, t: State)
    requires Invariant(s) && Run(s, more) == Some(t)
    ensures OrdersGrow(s, t)
  {
    if more != [] {
      var u, step := LastStep(s, more, t);
      LeaderStays(s, more[..|more| - 1], u);
      Kept(s, more[..|more| - 1], u);
      OrdersKept(u, step);
    }
  }

  lemma HeldIsOwn(s: State, c: nat, k: nat)
    requires Invariant(s) && c < |s.callers| && HeldCert(s.callers[c]) == Some(k)
    ensures k < |s.orders| && s.orders[k].leader == c
  {
    assert PhaseFits(s, c);
  }

  /** If caller `f` waits for order `k`, it can go on. */
  predicate FreeOf(s: State, f: nat, k: nat)
    requires f < |s.callers|
  {
    && (s.callers[f].Following? && s.callers[f].rx.chan == k ==> Enabled(s, CertChanged(f)))
    && (s.callers[f].Waiting? && s.callers[f].e.keyAuth.chan == k ==> Enabled(s, KeyAuthChanged(f)))
  }

  lemma EndedLeaderFrees(s: State, k: nat, f: nat)
    requires Invariant(s) && f < |s.callers| && k < |s.orders|
    requires s.orders[k].leader < |s.callers| && !IsUnfinished(s.callers[s.orders[k].leader])
    ensures FreeOf(s, f, k)
  {
    assert PhaseFits(s, f) && ChannelMatches(s, k);
  }

  lemma LeaderGoesOn(s: State, c: nat)
    requires Invariant(s) && c < |s.callers| && HeldCert(s.callers[c]).Some?
    ensures exists step :: Actor(step) == Some(c) && !step.Abandon? && Enabled(s, step)
  {
    HoldersMove(s.callers[c]);
    var step := MovesAlone(s, c);
  }

  /**
   However the other callers interleave, and however a leader ends, it takes no more steps
   of its own than its phase allows, seven at most. Until it has ended it can always take
   one without being dropped; once it has, whoever waits for its order can go on.
   */
  lemma WaitsEndWithTheLeader(steps: seq<Step>, s: State, c: nat, k: nat, more: seq<Step>, t: State)
    requires Run(INIT, steps) == Some(s) && c < |s.callers| && HeldCert(s.callers[c]) == Some(k)
    requires Run(s, more) == Some(t)
    ensures c < |t.callers| && StepsOf(more, c) <= LeaderRank(s.callers[c]) <= 7
    ensures IsUnfinished(t.callers[c]) ==> exists step :: Actor(step) == Some(c) && !step.Abandon? && Enabled(t, step)
    ensures !IsUnfinished(t.callers[c]) ==> forall f :: 0 <= f < |t.callers| ==> FreeOf(t, f, k)
  {
    Kept(INIT, steps, s);
    HeldIsOwn(s, c, k);
    LeaderRun(s, c, k, more, t);
    LeaderStays(s, more, t);
    Kept(s, more, t);
    if IsUnfinished(t.callers[c]) {
      LeaderGoesOn(t, c);
    } else {
      forall f | 0 <= f < |t.callers|
        ensures FreeOf(t, f, k)
      {
        EndedLeaderFrees(t, k, f);
      }
    }
  }

  // ----- entries that are left behind

  /** A leader that has yet to remove its entry. */
  predicate HasEntryToRemove(p: Phase) {
    HeldCert(p).Some? && !p.DroppingSenders? && !p.Releasing?
  }

  /** The leader of a domain's entry has yet to remove it, or was dropped before it could. */
  predicate EntryHeld(s: State, d: Domain)
    requires d in s.inFlight
  {
    && Known(s, d, s.inFlight[d]) && s.orders[s.inFlight[d].cert.chan].leader < |s.callers|
    && var p := s.callers[s.orders[s.inFlight[d].cert.chan].leader];
       p.Dropped? || (HasEntryToRemove(p) && HeldCert(p) == Some(s.inFlight[d].cert.chan))
  }

  /** Only a claim brings an entry a domain did not have, and that one is the claimer's own. */
  lemma NewEntryHeld(s: State, step: Step, d: Domain)
    requires Invariant(s) && Enabled(s, step) && d in Apply(s, step).inFlight && d !in s.inFlight
    ensures EntryHeld(Apply(s, step), d)
  {
    assert step.Claim? && s.callers[step.c] == Claiming(d);
  }

  /** A leader's own step leaves it with an entry to remove, ends it by a drop, or removes its domain's entry. */
  lemma OwnEntryHeld(s: State, step: Step, c: nat)
    requires Enabled(s, step) && Actor(step) == Some(c) && HasEntryToRemove(s.callers[c])
    ensures var p, t := s.callers[c], Apply(s, step);
            && c < |t.callers|
            && (|| t.callers[c].Dropped? || p.d !in t.inFlight
                || (HasEntryToRemove(t.callers[c]) && HeldCert(t.callers[c]) == HeldCert(p)))
  {
  }

  lemma LeaderDomain(s: State, c: nat, k: nat)
    requires Invariant(s) && c < |s.callers| && HasEntryToRemove(s.callers[c]) && HeldCert(s.callers[c]) == Some(k)
    ensures k < |s.orders| && s.orders[k].domain == s.callers[c].d
  {
    assert PhaseFits(s, c);
  }

  lemma OldEntryStays(s: State, step: Step, d: Domain)
    requires Enabled(s, step) && d in Apply(s, step).inFlight && d in s.inFlight
    ensures Apply(s, step).inFlight[d] == s.inFlight[d]
  {
  }

  lemma EntryHeldStep(s: State, step: Step, d: Domain)
    requires Invariant(s) && Enabled(s, step) && d in Apply(s, step).inFlight && (d in s.inFlight ==> EntryHeld(s, d))
    ensures EntryHeld(Apply(s, step), d)
  {
    if d !in s.inFlight {
      NewEntryHeld(s, step, d);
    } else {
      var k := s.inFlight[d].cert.chan;
      var c := s.orders[k].leader;
      OldEntryStays(s, step, d);
      OrdersKept(s, step);
      OthersStay(s, step);
      if Actor(step) == Some(c) && !s.callers[c].Dropped? {
        LeaderDomain(s, c, k);
        OwnEntryHeld(s, step, c);
      }
    }
  }

  /**
   In every run an entry is its leader's that has yet to remove it, or that of a leader that
   was dropped: a leader that returns, with a certificate or an error, leaves no entry of its own.
   */
  lemma {:induction false} EntriesAreHeld(steps: seq<Step>, s: State, d: Domain)
    requires Run(INIT, steps) == Some(s) && d in s.inFlight
    ensures EntryHeld(s, d)
  {
    var u, step := LastStep(INIT, steps, s);
    Kept(INIT, steps[..|steps| - 1], u);
    if d in u.inFlight {
      EntriesAreHeld(steps[..|steps| - 1], u, d);
    }
    EntryHeldStep(u, step, d);
  }

  // ----- the probe

  /** At some point of the run, `c` found the sender of certificate channel `k` alive. */
  predicate ProbedAlive(steps: seq<Step>, c: nat, k: nat) {
    exists j :: 0 <= j < |steps| && FoundAlive(steps, j, c, k)
  }

  predicate FoundAlive(steps: seq<Step>, j: nat, c: nat, k: nat)
    requires j < |steps|
  {
    && steps[j] == CheckLeader(c)
    && var u := Run(INIT, steps[..j]);
       && u.Some? && c < |u.value.callers| && u.value.callers[c].Checking? && u.value.callers[c].e.cert.chan == k
       && k < |u.value.certs| && u.value.certs[k].open
  }

  /** The channel a caller past its probe depends on. */
  function Depends(p: Phase): Option<nat> {
    match p
    case Reading(_, e) => Some(e.cert.chan)
    case Waiting(_, e) => Some(e.cert.chan)
    case Following(_, _, rx) => Some(rx.chan)
    case Finished(Followed(_, k, _, _)) => Some(k)
    case _ => None
  }

  lemma DependsOwn(s: State, step: Step, c: nat)
    requires Enabled(s, step) && Actor(step) == Some(c) && !step.CheckLeader? && Depends(Apply(s, step).callers[c]).Some?
    ensures Depends(s.callers[c]) == Depends(Apply(s, step).callers[c])
  {
  }

  lemma DependsStep(s: State, step: Step, c: nat)
    requires Enabled(s, step) && c < |Apply(s, step).callers| && Depends(Apply(s, step).callers[c]).Some?
    ensures c < |s.callers|
    ensures Depends(s.callers[c]) == Depends(Apply(s, step).callers[c])
         || (&& step == CheckLeader(c) && s.callers[c].Checking?
             && Depends(Apply(s, step).callers[c]) == Some(s.callers[c].e.cert.chan) && s.certs[s.callers[c].e.cert.chan].open)
  {
    OthersStay(s, step);
    if Actor(step) == Some(c) && !step.CheckLeader? {
      DependsOwn(s, step, c);
    }
  }

  /** A caller becomes a follower only of a leader it found alive at its probe. */
  lemma {:induction false} FollowsOnlyLiveLeaders(steps: seq<Step>, s: State, c: nat)
    requires Run(INIT, steps) == Some(s) && c < |s.callers| && Depends(s.callers[c]).Some?
    ensures ProbedAlive(steps, c, Depends(s.callers[c]).value)
  {
    var k := Depends(s.callers[c]).value;
    var u, step := LastStep(INIT, steps, s);
    var before := steps[..|steps| - 1];
    DependsStep(u, step, c);
    if Depends(u.callers[c]) == Some(k) {
      FollowsOnlyLiveLeaders(before, u, c);
      var j :| 0 <= j < |before| && FoundAlive(before, j, c, k);
      assert before[..j] == steps[..j];
      assert FoundAlive(steps, j, c, k);
    } else {
      assert FoundAlive(steps, |steps| - 1, c, k);
    }
  }
}

/**
 When a domain has at most one leader. Removals go by domain, not by the entry that was
 observed, so a late removal can evict a live leader; nothing else breaks uniqueness.
 */
module CertUniqueness {
  import opened Common
  import opened CertOrders

  /** The domain a caller is driving an order for, until it has removed its entry. */
  function LeadDomain(p: Phase): Option<Domain> {
    match p
    case SettingUp(d, _) => Some(d)
    case SetupFailed(d, _) => Some(d)
    case Leading(d, _) => Some(d)
    case Finalizing(d, _) => Some(d)
    case Caching(d, _, _) => Some(d)
    case Sending(d, _, _) => Some(d)
    case Removing(d, _, _) => Some(d)
    case _ => None
  }

  predicate Unique(s: State) {
    forall c, c' :: 0 <= c < c' < |s.callers| && LeadDomain(s.callers[c]).Some? ==>
      LeadDomain(s.callers[c]) != LeadDomain(s.callers[c'])
  }

  /** The domain whose entry a step removes. */
  function Removes(s: State, step: Step): Option<Domain>
    requires Enabled(s, step)
  {
    if step.Evict? || step.RemoveFailed? || step.RemoveFinal? then Some(s.callers[step.c].d) else None
  }

  /** The step removes the entry of a leader at work other than the remover itself. */
  predicate EvictsLeader(s: State, step: Step)
    requires Enabled(s, step)
  {
    && Removes(s, step).Some? && Removes(s, step).value in s.inFlight
    && exists x :: 0 <= x < |s.callers| && Some(x) != Actor(step) && LeadsEntry(s, x, Removes(s, step).value)
  }

  predicate LeadsEntry(s: State, x: nat, d: Domain)
    requires x < |s.callers|
  {
    LeadDomain(s.callers[x]) == Some(d) && d in s.inFlight && HeldCert(s.callers[x]) == Some(s.inFlight[d].cert.chan)
  }

  predicate Registered(s: State) {
    forall c :: 0 <= c < |s.callers| && LeadDomain(s.callers[c]).Some? ==> LeadsEntry(s, c, LeadDomain(s.callers[c]).value)
  }

  /** A step keeps the entries of other domains, and without an eviction those of other leaders. */
  lemma OtherEntriesStay(s: State, step: Step, d: Domain)
    requires Enabled(s, step) && d in s.inFlight && Removes(s, step) != Some(d)
    ensures d in Apply(s, step).inFlight && Apply(s, step).inFlight[d] == s.inFlight[d]
  {
  }

  lemma ActorRegistered(s: State, step: Step, c: nat)
    requires Registered(s) && Enabled(s, step) && Sized(s) && Actor(step) == Some(c)
    requires LeadDomain(Apply(s, step).callers[c]).Some?
    ensures LeadsEntry(Apply(s, step), c, LeadDomain(Apply(s, step).callers[c]).value)
  {
    assert LeadDomain(s.callers[c]).Some? ==> LeadsEntry(s, c, LeadDomain(s.callers[c]).value);
  }

  lemma RegisteredStep(s: State, step: Step)
    requires Invariant(s) && Registered(s) && Enabled(s, step) && !EvictsLeader(s, step)
    ensures Registered(Apply(s, step))
  {
    var t := Apply(s, step);
    OthersStay(s, step);
    forall c | 0 <= c < |t.callers| && LeadDomain(t.callers[c]).Some?
      ensures LeadsEntry(t, c, LeadDomain(t.callers[c]).value)
    {
      if Actor(step) == Some(c) {
        ActorRegistered(s, step, c);
      } else {
        var d := LeadDomain(t.callers[c]).value;
        assert LeadsEntry(s, c, d);
        OtherEntriesStay(s, step, d);
      }
    }
  }

  lemma RegisteredIsUnique(s: State)
    requires Invariant(s) && Registered(s)
    ensures Unique(s)
  {
    forall c, c' | 0 <= c < c' < |s.callers| && LeadDomain(s.callers[c]).Some?
      ensures LeadDomain(s.callers[c]) != LeadDomain(s.callers[c'])
    {
      assert PhaseFits(s, c) && PhaseFits(s, c');
      assert LeadsEntry(s, c, LeadDomain(s.callers[c]).value);
    }
  }

  /** No step of the run evicts a leader at work. */
  predicate NoEviction(steps: seq<Step>) {
    forall j :: 0 <= j < |steps| ==> QuietAt(steps, j)
  }

  predicate QuietAt(steps: seq<Step>, j: nat)
    requires j < |steps|
  {
    var u := Run(INIT, steps[..j]);
    u.Some? && Enabled(u.value, steps[j]) ==> !EvictsLeader(u.value, steps[j])
  }

  /** A domain never has two leaders in a run that evicts none. */
  lemma {:induction false} OneLeaderUnlessEvicted(steps: seq<Step>, s: State)
    requires Run(INIT, steps) == Some(s) && NoEviction(steps)
    ensures Unique(s) && Registered(s)
  {
    if steps != [] {
      var u, step := LastStep(INIT, steps, s);
      var before := steps[..|steps| - 1];
      forall j | 0 <= j < |before|
        ensures QuietAt(before, j)
      {
        assert QuietAt(steps, j) && before[..j] == steps[..j];
      }
      OneLeaderUnlessEvicted(before, u);
      assert QuietAt(steps, |steps| - 1);
      Kept(INIT, before, u);
      RegisteredStep(u, step);
    }
    Kept(INIT, steps, s);
    RegisteredIsUnique(s);
  }

  /** One more step of a run. */
  lemma Extend(steps: seq<Step>, s: State, step: Step) returns (steps': seq<Step>, s': State)
    requires Run(INIT, steps) == Some(s) && Enabled(s, step)
    ensures steps' == steps + [step] && s' == Apply(s, step) && Run(INIT, steps') == Some(s')
  {
    steps', s' := steps + [step], Apply(s, step);
    assert steps'[..|steps|] == steps;
  }

  /** A fresh `prepare` for a domain without an entry and without a valid cached certificate claims it. */
  lemma FreshCallLeads(steps: seq<Step>, s: State, d: Domain) returns (more: seq<Step>, t: State)
    requires Run(INIT, steps) == Some(s) && d !in s.inFlight
    ensures Run(INIT, steps + more) == Some(t)
    ensures |t.callers| == |s.callers| + 1 && t.callers[..|s.callers|] == s.callers
    ensures LeadDomain(t.callers[|s.callers|]) == Some(d)
  {
    var c := |s.callers|;
    var st, u := FreshCallProbes(steps, s, d);
    var probes := st[|steps|..];
    st, u := Extend(st, u, Claim(c));
    more, t := probes + [Claim(c)], u;
    assert st == steps + more;
  }

  lemma FreshCallProbes(steps: seq<Step>, s: State, d: Domain) returns (steps': seq<Step>, t: State)
    requires Run(INIT, steps) == Some(s) && d !in s.inFlight
    ensures steps <= steps' && Run(INIT, steps') == Some(t) && t == s.(callers := s.callers + [Claiming(d)])
  {
    var c := |s.callers|;
    var now := if d in s.cache then s.cache[d].renewAt else 0;
    steps', t := Extend(steps, s, Call(d));
    steps', t := Extend(steps', t, ProbeCache(c, now));
    assert t == s.(callers := s.callers + [Probing(d)]);
    steps', t := Extend(steps', t, ProbeInFlight(c));
  }

  /** Conversely, after an eviction one fresh call is all it takes to have two leaders. */
  lemma EvictionLetsInASecondLeader(steps: seq<Step>, s: State, step: Step) returns (more: seq<Step>, t: State)
    requires Run(INIT, steps) == Some(s) && Enabled(s, step) && EvictsLeader(s, step)
    ensures Run(INIT, steps + [step] + more) == Some(t) && !Unique(t)
  {
    var d := Removes(s, step).value;
    var x :| 0 <= x < |s.callers| && Some(x) != Actor(step) && LeadsEntry(s, x, d);
    var st, u := Extend(steps, s, step);
    OthersStay(s, step);
    more, t := FreshCallLeads(st, u, d);
    assert t.callers[x] == t.callers[..|u.callers|][x] == s.callers[x];
    assert LeadDomain(t.callers[x]) == LeadDomain(t.callers[|u.callers|]);
  }

  /** Nobody is dropped, and the CA refuses nothing. */
  predicate FaultFree(steps: seq<Step>) {
    forall j :: 0 <= j < |steps| ==> !IsFault(steps[j])
  }

  predicate IsFault(step: Step) {
    step.Abandon? || step.SetupErr? || step.FinalizeErr?
  }

  /** One more step of a run without faults. */
  lemma Proceed(steps: seq<Step>, s: State, step: Step) returns (steps': seq<Step>, t: State)
    requires Run(INIT, steps) == Some(s) && FaultFree(steps) && Enabled(s, step) && !IsFault(step)
    ensures Run(INIT, steps') == Some(t) && FaultFree(steps') && t == Apply(s, step)
  {
    steps', t := Extend(steps, s, step);
  }

  /** A fresh call for the domain probes the cache in vain. */
  lemma MissesCache(steps: seq<Step>, s: State) returns (steps': seq<Step>, t: State)
    requires Run(INIT, steps) == Some(s) && FaultFree(steps) && "d" !in s.cache
    ensures Run(INIT, steps') == Some(t) && FaultFree(steps') && t == s.(callers := s.callers + [Probing("d")])
  {
    steps', t := Proceed(steps, s, Call("d"));
    steps', t := Proceed(steps', t, ProbeCache(|s.callers|, 0));
  }

  /** A caller that found no entry claims the domain. */
  lemma Claims(steps: seq<Step>, s: State, c: nat) returns (steps': seq<Step>, t: State)
    requires Run(INIT, steps) == Some(s) && FaultFree(steps) && Sized(s) && "d" !in s.inFlight
    requires c < |s.callers| && s.callers[c] == Probing("d")
    ensures Run(INIT, steps') == Some(t) && FaultFree(steps')
    ensures t == s.(callers := s.callers[c := SettingUp("d", EntryOf(|s.orders|))],
                    inFlight := s.inFlight["d" := EntryOf(|s.orders|)],
                    keyAuths := s.keyAuths + [UNSENT], certs := s.certs + [UNSENT],
                    orders := s.orders + [Order("d", c, None, None)])
  {
    steps', t := Proceed(steps, s, ProbeInFlight(c));
    assert t == s.(callers := s.callers[c := Claiming("d")]);
    steps', t := Proceed(steps', t, Claim(c));
  }

  /** Order 0 is the only one, and caller 0 of four leads it. */
  predicate LoneLeader(s: State, steps: seq<Step>) {
    && Run(INIT, steps) == Some(s) && FaultFree(steps) && Sized(s) && |s.orders| == 1 && |s.callers| == 4
    && s.orders[0].domain == "d"
  }

  /** Where the four callers stand once the first one leads and another has found its entry. */
  lemma OneLeadsThreeProbe() returns (steps: seq<Step>, s: State)
    ensures LoneLeader(s, steps)
    ensures s.callers == [SettingUp("d", EntryOf(0)), Probing("d"), Checking("d", EntryOf(0)), Probing("d")]
  {
    steps, s := MissesCache([], INIT);
    steps, s := Claims(steps, s, 0);
    assert s.callers == [SettingUp("d", EntryOf(0))];
    steps, s := MissesCache(steps, s);
    steps, s := MissesCache(steps, s);
    steps, s := MissesCache(steps, s);
    assert s.callers == [SettingUp("d", EntryOf(0)), Probing("d"), Probing("d"), Probing("d")];
    steps, s := Proceed(steps, s, ProbeInFlight(2));
  }

  lemma Publishes(steps: seq<Step>, s: State) returns (steps': seq<Step>, t: State)
    requires LoneLeader(s, steps) && s.callers[0] == SettingUp("d", EntryOf(0))
    ensures LoneLeader(t, steps') && t.callers == s.callers[0 := Finalizing("d", 0)] && t.inFlight == s.inFlight
  {
    steps', t := Proceed(steps, s, SetupOk(0, "key"));
    steps', t := Proceed(steps', t, BeginFinalize(0));
  }

  lemma Issues(steps: seq<Step>, s: State) returns (steps': seq<Step>, t: State)
    requires LoneLeader(s, steps) && s.callers[0] == Finalizing("d", 0)
    ensures LoneLeader(t, steps') && t.callers == s.callers[0 := Sending("d", 0, "pem")] && t.inFlight == s.inFlight
  {
    steps', t := Proceed(steps, s, Issue(0, "pem"));
    steps', t := Proceed(steps', t, CacheCert(0, 0));
  }

  lemma Broadcasts(steps: seq<Step>, s: State) returns (steps': seq<Step>, t: State)
    requires LoneLeader(s, steps) && s.callers[0] == Sending("d", 0, "pem")
    ensures LoneLeader(t, steps') && t.callers == s.callers[0 := Releasing("d", 0, Some("pem"))]
    ensures t.inFlight == s.inFlight - {"d"}
  {
    steps', t := Proceed(steps, s, SendCert(0));
    steps', t := Proceed(steps', t, RemoveFinal(0));
  }

  lemma Returns(steps: seq<Step>, s: State) returns (steps': seq<Step>, t: State)
    requires LoneLeader(s, steps) && s.callers[0] == Releasing("d", 0, Some("pem"))
    ensures LoneLeader(t, steps') && t.callers == s.callers[0 := Finished(Issued("d", 0, "pem"))]
    ensures t.inFlight == s.inFlight && !t.certs[0].open
  {
    steps', t := Proceed(steps, s, Release(0));
  }

  /** Caller 0 leads its order to a certificate and returns. */
  lemma LeaderReturns(steps: seq<Step>, s: State) returns (steps': seq<Step>, t: State)
    requires LoneLeader(s, steps) && s.callers[0] == SettingUp("d", EntryOf(0))
    ensures LoneLeader(t, steps') && t.callers == s.callers[0 := Finished(Issued("d", 0, "pem"))]
    ensures t.inFlight == s.inFlight - {"d"} && !t.certs[0].open
  {
    steps', t := Publishes(steps, s);
    steps', t := Issues(steps', t);
    steps', t := Broadcasts(steps', t);
    steps', t := Returns(steps', t);
  }

  /** Caller 2 found the entry of order 0, whose leader is gone by now, and removes the entry of order 1. */
  lemma EvictsTheWrongEntry(steps: seq<Step>, s: State) returns (steps': seq<Step>, t: State)
    requires Run(INIT, steps) == Some(s) && FaultFree(steps) && Sized(s) && |s.orders| == 2 && !s.certs[0].open
    requires |s.callers| == 4 && s.callers[2] == Checking("d", EntryOf(0))
    ensures Run(INIT, steps') == Some(t) && FaultFree(steps') && Sized(t)
    ensures t == s.(callers := s.callers[2 := AtTop("d")], inFlight := s.inFlight - {"d"})
  {
    steps', t := Proceed(steps, s, CheckLeader(2));
    steps', t := Proceed(steps', t, Evict(2));
  }

  /**
   Two leaders happen with no fault at all. While caller 0 leads, callers 1, 2 and 3 miss
   the cache and caller 2 finds caller 0's entry. Caller 0 finishes, caller 1 claims the
   domain, and caller 2, which finds caller 0 gone, removes the entry of caller 1; caller 3
   claims the domain again.
   */
  lemma TwoLeadersHappen() returns (steps: seq<Step>, s: State)
    ensures Run(INIT, steps) == Some(s) && FaultFree(steps) && !Unique(s)
  {
    steps, s := OneLeadsThreeProbe();
    steps, s := LeaderReturns(steps, s);
    steps, s := Claims(steps, s, 1);
    steps, s := EvictsTheWrongEntry(steps, s);
    steps, s := Claims(steps, s, 3);
    assert LeadDomain(s.callers[1]) == LeadDomain(s.callers[3]) == Some("d");
  }
}

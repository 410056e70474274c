/**
 `prepare` itself, as one call nobody disturbs but the leader it may wait for: the
 provisioner's maps and channels updated in place by its critical sections and its retry
 loop. Each critical section is one step of the interleaved model, so the call is one of
 its runs; the contract of `Prepare` says outright which result each starting state gives.
 */
module CertPrepare {
  import opened Common
  import opened CertOrders
  import opened CertLiveness

  datatype Prepared =
    | CachedPem(pem: string)
    | LeaderChallenge(keyAuth: string, cert: nat)
    | FollowerChallenge(keyAuth: string, rx: Receiver)
    | SetupError

  /** What a leader that is waited for does: publish its key authorization, fail to set up its order, or be dropped. */
  datatype Wake = Publishes(keyAuth: string) | FailsSetup | IsDropped

  /** What a trip round the loop finds. */
  datatype Seen = Hit(pem: string) | Leader(e: InFlightEntry) | Nobody

  /** A step of the caller's own extends its run. */
  lemma Took(s: State, steps: seq<Step>, t: State, step: Step)
    requires Run(s, steps) == Some(t) && Invariant(t) && Enabled(t, step)
    ensures Run(s, steps + [step]) == Some(Apply(t, step)) && Invariant(Apply(t, step))
    ensures Count(steps + [step], IsCacheProbe) == Count(steps, IsCacheProbe) + if IsCacheProbe(step) then 1 else 0
  {
    assert (steps + [step])[..|steps|] == steps;
    StepKept(t, step);
  }

  lemma TookAbort(s: State, steps: seq<Step>, t: State, c: nat)
    requires Run(s, steps) == Some(t) && Invariant(t) && Enabled(t, RemoveFailed(c))
    ensures var u := Apply(t, RemoveFailed(c));
            && Enabled(u, DropSenders(c)) && Invariant(Apply(u, DropSenders(c)))
            && Run(s, steps + [RemoveFailed(c)] + [DropSenders(c)]) == Some(Apply(u, DropSenders(c)))
    ensures Count(steps + [RemoveFailed(c)] + [DropSenders(c)], IsCacheProbe) == Count(steps, IsCacheProbe)
  {
    Took(s, steps, t, RemoveFailed(c));
    Took(s, steps + [RemoveFailed(c)], Apply(t, RemoveFailed(c)), DropSenders(c));
  }

  /** The entry for `d` refers to two channels of one order. */
  lemma Paired(s: State, d: Domain)
    requires Invariant(s) && d in s.inFlight
    ensures s.inFlight[d].cert.chan == s.inFlight[d].keyAuth.chan < |s.certs| == |s.keyAuths|
  {
  }

  /** It publishes only while setting up; it fails or is dropped then, or once the CA has refused. */
  predicate CanWake(leader: Phase, wake: Wake) {
    leader.SettingUp? || (leader.SetupFailed? && !wake.Publishes?)
  }

  /** A leader with an open certificate channel and nothing published is still setting up, or has just failed to. */
  lemma UnpublishedLeader(s: State, d: Domain, k: nat)
    requires Invariant(s) && k < |s.orders| && s.orders[k].domain == d && s.certs[k].open && s.keyAuths[k].value.None?
    ensures var leader := s.orders[k].leader;
            && leader < |s.callers|
            && var p := s.callers[leader];
               && HeldKeyAuth(p) == HeldCert(p) == Some(k)
               && (p.SettingUp? || p.SetupFailed? ==> p.d == d && p.e == EntryOf(k))
  {
    assert ChannelMatches(s, k);
    assert PhaseFits(s, s.orders[k].leader);
  }

  /** In every run a leader that has to be waited for can fail its setup or be dropped, so every wait has an end. */
  lemma EveryWaitCanEnd(steps: seq<Step>, s: State, d: Domain)
    requires Run(INIT, steps) == Some(s) && d in s.inFlight
    ensures var k := s.inFlight[d].cert.chan;
            && k < |s.orders| == |s.certs| == |s.keyAuths| && s.orders[k].leader < |s.callers|
            && (s.certs[k].open && s.keyAuths[k].value.None? ==>
                  CanWake(s.callers[s.orders[k].leader], FailsSetup) && CanWake(s.callers[s.orders[k].leader], IsDropped))
  {
    Kept(INIT, steps, s);
    EntriesAreHeld(steps, s, d);
    assert Known(s, d, s.inFlight[d]);
    var k := s.inFlight[d].cert.chan;
    assert ChannelMatches(s, k);
    if s.certs[k].open && s.keyAuths[k].value.None? {
      UnpublishedLeader(s, d, k);
    }
  }

  class CertProvisioner {
    var cache: map<Domain, CacheEntry>
    var inFlight: map<Domain, InFlightEntry>
    var keyAuths: seq<Channel>
    var certs: seq<Channel>
    ghost var orders: seq<Order>
    ghost var callers: seq<Phase>

    ghost function View(): State
      reads this
    {
      State(cache, inFlight, keyAuths, certs, orders, callers)
    }

    /** A cached certificate not yet due for renewal. */
    predicate Fresh(d: Domain, now: int)
      reads this
    {
      d in cache && now < cache[d].renewAt
    }

    /** An order for `d` whose leader still holds its sender. */
    predicate Led(d: Domain)
      reads this
    {
      d in inFlight && inFlight[d].cert.chan < |certs| && certs[inFlight[d].cert.chan].open
    }

    /** The leader of `d` has not published its key authorization yet, so a caller has to wait for it. */
    predicate Unpublished(d: Domain)
      reads this
    {
      Led(d) && inFlight[d].cert.chan < |keyAuths| && keyAuths[inFlight[d].cert.chan].value.None?
    }

    /** The leader of `d` can do what `wake` says of it, should it be waited for. */
    ghost predicate Possible(d: Domain, wake: Wake)
      reads this
    {
      Unpublished(d) ==>
        && inFlight[d].cert.chan < |orders| && orders[inFlight[d].cert.chan].leader < |callers|
        && CanWake(callers[orders[inFlight[d].cert.chan].leader], wake)
    }

    /** An order of the caller's own. */
    function OwnOrder(setup: Option<string>): Prepared
      reads this
    {
      if setup.Some? then LeaderChallenge(setup.value, |certs|) else SetupError
    }

    /**
     What the call returns: the cache first, then what a leader that is alive has published
     or publishes while it is waited for, and otherwise an order of the caller's own.
     */
    function Answer(d: Domain, now: int, wake: Wake, setup: Option<string>): Prepared
      reads this
      requires |keyAuths| == |certs|
    {
      if Fresh(d, now) then CachedPem(cache[d].pem)
      else if !Led(d) then OwnOrder(setup)
      else if !Unpublished(d) then FollowerChallenge(keyAuths[inFlight[d].cert.chan].value.value, inFlight[d].cert)
      else if wake.Publishes? then FollowerChallenge(wake.keyAuth, inFlight[d].cert)
      else OwnOrder(setup)
    }

    // ----- critical sections

    method LookUpCert(d: Domain, now: int, ghost c: nat) returns (pem: Option<string>)
      requires c < |callers| && callers[c] == AtTop(d)
      modifies this`callers
      ensures View() == Apply(old(View()), ProbeCache(c, now))
      ensures pem == if Fresh(d, now) then Some(cache[d].pem) else None
      ensures callers == old(callers)[c := callers[c]] && (pem.None? ==> callers[c] == Probing(d))
    {
      callers := Apply(View(), ProbeCache(c, now)).callers;
      pem := if d in cache && now < cache[d].renewAt then Some(cache[d].pem) else None;
    }

    method LookUpLeader(d: Domain, ghost c: nat) returns (e: Option<InFlightEntry>)
      requires c < |callers| && callers[c] == Probing(d)
      modifies this`callers
      ensures View() == Apply(old(View()), ProbeInFlight(c))
      ensures e == if d in inFlight then Some(inFlight[d]) else None
      ensures callers == old(callers)[c := callers[c]] && callers[c] == if e.Some? then Checking(d, e.value) else Claiming(d)
    {
      callers := Apply(View(), ProbeInFlight(c)).callers;
      e := if d in inFlight then Some(inFlight[d]) else None;
    }

    method LeaderGone(d: Domain, e: InFlightEntry, ghost c: nat) returns (gone: bool)
      requires c < |callers| && callers[c] == Checking(d, e) && e.cert.chan < |certs|
      modifies this`callers
      ensures View() == Apply(old(View()), CheckLeader(c))
      ensures gone == !certs[e.cert.chan].open
      ensures callers == old(callers)[c := callers[c]] && callers[c] == if gone then Evicting(d) else Reading(d, e)
    {
      callers := Apply(View(), CheckLeader(c)).callers;
      gone := !certs[e.cert.chan].open;
    }

    method RemoveEntry(d: Domain, ghost c: nat)
      requires c < |callers| && callers[c] == Evicting(d)
      modifies this`callers, this`inFlight
      ensures View() == Apply(old(View()), Evict(c))
      ensures inFlight == old(inFlight) - {d} && |callers| == |old(callers)| && callers[c] == AtTop(d)
    {
      callers := Apply(View(), Evict(c)).callers;
      inFlight := inFlight - {d};
    }

    method BorrowKeyAuth(d: Domain, e: InFlightEntry, ghost c: nat) returns (keyAuth: Option<string>)
      requires c < |callers| && callers[c] == Reading(d, e) && e.keyAuth.chan < |keyAuths|
      modifies this`callers
      ensures View() == Apply(old(View()), ReadKeyAuth(c))
      ensures keyAuth == keyAuths[e.keyAuth.chan].value
      ensures callers == old(callers)[c := callers[c]] && (keyAuth.None? ==> callers[c] == Waiting(d, e))
    {
      callers := Apply(View(), ReadKeyAuth(c)).callers;
      keyAuth := keyAuths[e.keyAuth.chan].value;
    }

    /** The wait for the key authorization, over once there is an unseen value or the channel is closed. */
    method KeyAuthArrives(d: Domain, e: InFlightEntry, ghost c: nat) returns (keyAuth: Option<string>)
      requires c < |callers| && callers[c] == Waiting(d, e) && e.keyAuth.chan < |keyAuths|
      requires Ready(keyAuths[e.keyAuth.chan], e.keyAuth.seen)
      modifies this`callers
      ensures View() == Apply(old(View()), KeyAuthChanged(c))
      ensures var ch := keyAuths[e.keyAuth.chan];
              keyAuth == if ch.version != e.keyAuth.seen then ch.value else None
      ensures |callers| == |old(callers)|
      ensures keyAuth.None? ==> callers[c] == Evicting(d)
    {
      callers := Apply(View(), KeyAuthChanged(c)).callers;
      var ch := keyAuths[e.keyAuth.chan];
      keyAuth := if ch.version != e.keyAuth.seen then ch.value else None;
    }

    /** The check and the insertion under one lock; the channels are the claimer's own. */
    method TryClaim(d: Domain, ghost c: nat) returns (e: Option<InFlightEntry>)
      requires c < |callers| && callers[c] == Claiming(d)
      modifies this
      ensures View() == Apply(old(View()), Claim(c)) && cache == old(cache)
      ensures e.None? <==> d in old(inFlight)
      ensures e.Some? ==>
                && e.value == InFlightEntry(Receiver(|old(keyAuths)|, 0), Receiver(|old(certs)|, 0))
                && inFlight == old(inFlight)[d := e.value] && certs == old(certs) + [UNSENT]
                && |callers| == |old(callers)| && callers[c] == SettingUp(d, e.value)
    {
      ghost var after := Apply(View(), Claim(c));
      if d in inFlight {
        e := None;
      } else {
        e := Some(InFlightEntry(Receiver(|keyAuths|, 0), Receiver(|certs|, 0)));
        inFlight, keyAuths, certs := inFlight[d := e.value], keyAuths + [UNSENT], certs + [UNSENT];
      }
      orders, callers := after.orders, after.callers;
    }

    method Publish(d: Domain, e: InFlightEntry, keyAuth: string, ghost c: nat)
      requires Sized(View()) && c < |callers| && callers[c] == SettingUp(d, e) && Known(View(), d, e)
      modifies this`keyAuths, this`orders, this`callers
      ensures View() == Apply(old(View()), SetupOk(c, keyAuth))
    {
      ghost var after := Apply(View(), SetupOk(c, keyAuth));
      var ka := e.keyAuth.chan;
      keyAuths := keyAuths[ka := Sent(keyAuths[ka], keyAuth).(open := false)];
      orders, callers := after.orders, after.callers;
    }

    /** The failed leader's cleanup: its entry first, then its senders. */
    method Abort(d: Domain, e: InFlightEntry, ghost c: nat)
      requires c < |callers| && callers[c] == SetupFailed(d, e)
      modifies this`inFlight, this`keyAuths, this`certs, this`callers
      ensures var removed := Apply(old(View()), RemoveFailed(c));
              Enabled(removed, DropSenders(c)) && View() == Apply(removed, DropSenders(c))
      ensures inFlight == old(inFlight) - {d}
      ensures keyAuths == Shut(old(keyAuths), Some(e.keyAuth.chan)) && certs == Shut(old(certs), Some(e.cert.chan))
      ensures callers == old(callers)[c := Finished(Failed)]
    {
      ghost var after := Apply(Apply(View(), RemoveFailed(c)), DropSenders(c));
      inFlight := inFlight - {d};
      keyAuths, certs := Shut(keyAuths, Some(e.keyAuth.chan)), Shut(certs, Some(e.cert.chan));
      callers := after.callers;
    }

    // ----- the call

    /**
     One call made at time `now`; `wake` is what a leader that has to be waited for does, and
     `setup` the CA's answer should it come to an order.
     */
    method Prepare(d: Domain, now: int, wake: Wake, setup: Option<string>) returns (r: Prepared, ghost steps: seq<Step>)
      requires Invariant(View()) && Possible(d, wake)
      modifies this
      ensures Run(old(View()), steps) == Some(View()) && Count(steps, IsCacheProbe) <= 2
      ensures r == old(Answer(d, now, wake, setup)) && cache == old(cache)
      ensures r.LeaderChallenge? ==> Led(d) && inFlight[d].cert.chan == r.cert
      ensures r.SetupError? ==> d !in inFlight
    {
      ghost var c, s0 := |callers|, View();
      steps := Enter(d);
      while true
        invariant Run(s0, steps) == Some(View()) && |keyAuths| == |certs|
        invariant c < |callers| && callers[c] == AtTop(d)
        invariant cache == old(cache) && Answer(d, now, wake, setup) == old(Answer(d, now, wake, setup))
        invariant Possible(d, wake)
        invariant Count(steps, IsCacheProbe) <= if d in inFlight then 0 else 1
        decreases d in inFlight
      {
        var done;
        done, steps := Trip(d, now, wake, setup, c, s0, steps);
        if done.Some? {
          return done.value, steps;
        }
      }
    }

    /** One trip round the loop; `None` sends the caller round again, without the entry of a leader that is gone. */
    method Trip(d: Domain, now: int, wake: Wake, setup: Option<string>, ghost c: nat, ghost s0: State, ghost before: seq<Step>)
      returns (r: Option<Prepared>, ghost steps: seq<Step>)
      requires Invariant(s0) && Run(s0, before) == Some(View()) && |keyAuths| == |certs|
      requires c < |callers| && callers[c] == AtTop(d) && Possible(d, wake)
      modifies this
      ensures Run(s0, steps) == Some(View()) && Count(steps, IsCacheProbe) == Count(before, IsCacheProbe) + 1
      ensures cache == old(cache)
      ensures r.Some? ==> r.value == old(Answer(d, now, wake, setup))
      ensures r.Some? && r.value.LeaderChallenge? ==> Led(d) && inFlight[d].cert.chan == r.value.cert
      ensures r.Some? && r.value.SetupError? ==> d !in inFlight
      ensures r.None? ==>
                && d in old(inFlight) && d !in inFlight && !old(Fresh(d, now))
                && old(Answer(d, now, wake, setup)) == old(OwnOrder(setup))
                && |keyAuths| == |certs| == |old(certs)| && c < |callers| && callers[c] == AtTop(d)
    {
      var seen;
      seen, steps := Look(d, now, c, s0, before);
      match seen
      case Hit(pem) => r := Some(CachedPem(pem));
      case Leader(e) => r, steps := JoinLeader(d, e, wake, c, s0, steps);
      case Nobody =>
        var led;
        led, steps := Lead(d, setup, c, s0, steps);
        r := Some(led);
    }

    method Enter(d: Domain) returns (ghost steps: seq<Step>)
      requires Invariant(View())
      modifies this`callers
      ensures Run(old(View()), steps) == Some(View()) && Count(steps, IsCacheProbe) == 0
      ensures callers == old(callers) + [AtTop(d)]
    {
      Took(View(), [], View(), Call(d));
      steps := [] + [Call(d)];
      callers := callers + [AtTop(d)];
    }

    /** The two probes a trip begins with. */
    method Look(d: Domain, now: int, ghost c: nat, ghost s0: State, ghost before: seq<Step>)
      returns (seen: Seen, ghost steps: seq<Step>)
      requires Invariant(s0) && Run(s0, before) == Some(View()) && c < |callers| && callers[c] == AtTop(d)
      modifies this`callers
      ensures Run(s0, steps) == Some(View()) && Count(steps, IsCacheProbe) == Count(before, IsCacheProbe) + 1
      ensures |callers| == |old(callers)| && callers == old(callers)[c := callers[c]]
      ensures seen == if Fresh(d, now) then Hit(cache[d].pem) else if d in inFlight then Leader(inFlight[d]) else Nobody
      ensures seen.Leader? ==> callers[c] == Checking(d, seen.e)
      ensures seen.Nobody? ==> callers[c] == Claiming(d)
    {
      Kept(s0, before, View());
      Took(s0, before, View(), ProbeCache(c, now));
      steps := before + [ProbeCache(c, now)];
      var pem := LookUpCert(d, now, c);
      if pem.Some? {
        return Hit(pem.value), steps;
      }
      Took(s0, steps, View(), ProbeInFlight(c));
      steps := steps + [ProbeInFlight(c)];
      var e := LookUpLeader(d, c);
      seen := if e.Some? then Leader(e.value) else Nobody;
    }

    /** The leader that is waited for is dropped where it awaits, with its senders. */
    method LeaderDropped(e: InFlightEntry, ghost leader: nat, ghost s0: State, ghost before: seq<Step>)
      returns (ghost steps: seq<Step>)
      requires Invariant(View()) && Run(s0, before) == Some(View()) && leader < |callers| && AtAwait(callers[leader])
      requires HeldKeyAuth(callers[leader]) == Some(e.keyAuth.chan) && HeldCert(callers[leader]) == Some(e.cert.chan)
      modifies this`keyAuths, this`certs, this`callers
      ensures Invariant(View()) && Run(s0, steps) == Some(View()) && Count(steps, IsCacheProbe) == Count(before, IsCacheProbe)
      ensures keyAuths == Shut(old(keyAuths), Some(e.keyAuth.chan)) && certs == Shut(old(certs), Some(e.cert.chan))
      ensures |callers| == |old(callers)| && callers == old(callers)[leader := callers[leader]]
    {
      Took(s0, before, View(), Abandon(leader));
      steps := before + [Abandon(leader)];
      ghost var after := Apply(View(), Abandon(leader));
      keyAuths, certs := Shut(keyAuths, Some(e.keyAuth.chan)), Shut(certs, Some(e.cert.chan));
      callers := after.callers;
      assert View() == after;
    }

    /** A leader whose setup the CA refuses removes the domain's entry, and then drops its senders. */
    method SetupFails(d: Domain, e: InFlightEntry, ghost c: nat, ghost s0: State, ghost before: seq<Step>)
      returns (ghost steps: seq<Step>)
      requires Invariant(View()) && Run(s0, before) == Some(View()) && c < |callers|
      requires callers[c] == SettingUp(d, e) || callers[c] == SetupFailed(d, e)
      modifies this`inFlight, this`keyAuths, this`certs, this`callers
      ensures Invariant(View()) && Run(s0, steps) == Some(View()) && Count(steps, IsCacheProbe) == Count(before, IsCacheProbe)
      ensures inFlight == old(inFlight) - {d}
      ensures keyAuths == Shut(old(keyAuths), Some(e.keyAuth.chan)) && certs == Shut(old(certs), Some(e.cert.chan))
      ensures |callers| == |old(callers)| && callers == old(callers)[c := callers[c]]
    {
      steps := Refused(d, e, c, s0, before);
      TookAbort(s0, steps, View(), c);
      steps := steps + [RemoveFailed(c)] + [DropSenders(c)];
      Abort(d, e, c);
    }

    /** The CA's refusal, unless the leader has it already. */
    ghost method Refused(d: Domain, e: InFlightEntry, c: nat, s0: State, before: seq<Step>) returns (steps: seq<Step>)
      requires Invariant(View()) && Run(s0, before) == Some(View()) && c < |callers|
      requires callers[c] == SettingUp(d, e) || callers[c] == SetupFailed(d, e)
      modifies this`callers
      ensures Invariant(View()) && Run(s0, steps) == Some(View()) && Count(steps, IsCacheProbe) == Count(before, IsCacheProbe)
      ensures callers == old(callers)[c := SetupFailed(d, e)]
    {
      steps := before;
      if callers[c].SettingUp? {
        Took(s0, before, View(), SetupErr(c));
        steps := before + [SetupErr(c)];
        callers := callers[c := SetupFailed(d, e)];
      }
    }

    /** What the leader of order `e` does while it is waited for; it leaves something for the waiting caller to see. */
    method LeaderActs(d: Domain, e: InFlightEntry, wake: Wake, ghost s0: State, ghost before: seq<Step>)
      returns (ghost steps: seq<Step>)
      requires Invariant(View()) && Run(s0, before) == Some(View())
      requires d in inFlight && inFlight[d] == e && Unpublished(d) && Possible(d, wake)
      modifies this`inFlight, this`keyAuths, this`certs, this`orders, this`callers
      ensures Invariant(View()) && Run(s0, steps) == Some(View()) && Count(steps, IsCacheProbe) == Count(before, IsCacheProbe)
      ensures |keyAuths| == |old(keyAuths)| && |certs| == |old(certs)| && |callers| == |old(callers)|
      ensures inFlight - {d} == old(inFlight) - {d}
      ensures forall x :: 0 <= x < |callers| && old(callers)[x].Waiting? ==> callers[x] == old(callers)[x]
      ensures e.keyAuth.chan < |keyAuths| && e.keyAuth.seen == 0
      ensures var ch := keyAuths[e.keyAuth.chan];
              if wake.Publishes? then ch.version == 1 && ch.value == Some(wake.keyAuth) else ch.version == 0 && !ch.open
    {
      Paired(View(), d);
      assert ChannelMatches(View(), e.cert.chan);
      ghost var leader := orders[e.cert.chan].leader;
      UnpublishedLeader(View(), d, e.cert.chan);
      if wake.Publishes? {
        Took(s0, before, View(), SetupOk(leader, wake.keyAuth));
        steps := before + [SetupOk(leader, wake.keyAuth)];
        Publish(d, e, wake.keyAuth, leader);
      } else if wake.FailsSetup? {
        steps := SetupFails(d, e, leader, s0, before);
      } else {
        steps := LeaderDropped(e, leader, s0, before);
      }
    }

    /** The wait for a leader's key authorization, with what that leader does meanwhile. */
    method AwaitKeyAuth(d: Domain, e: InFlightEntry, wake: Wake, ghost c: nat, ghost s0: State, ghost before: seq<Step>)
      returns (keyAuth: Option<string>, ghost steps: seq<Step>)
      requires Invariant(View()) && Run(s0, before) == Some(View()) && c < |callers| && callers[c] == Waiting(d, e)
      requires d in inFlight && inFlight[d] == e && Unpublished(d) && Possible(d, wake)
      modifies this`inFlight, this`keyAuths, this`certs, this`orders, this`callers
      ensures Run(s0, steps) == Some(View()) && Count(steps, IsCacheProbe) == Count(before, IsCacheProbe)
      ensures Invariant(View()) && inFlight - {d} == old(inFlight) - {d}
      ensures keyAuth == if wake.Publishes? then Some(wake.keyAuth) else None
      ensures |keyAuths| == |old(keyAuths)| && |certs| == |old(certs)| && |callers| == |old(callers)|
      ensures keyAuth.None? ==> callers[c] == Evicting(d)
    {
      steps := LeaderActs(d, e, wake, s0, before);
      Took(s0, steps, View(), KeyAuthChanged(c));
      steps := steps + [KeyAuthChanged(c)];
      keyAuth := KeyAuthArrives(d, e, c);
    }

    /** Asks the leader found for `d` for its key authorization, waiting if need be; `None` means that leader is gone. */
    method AskLeader(d: Domain, e: InFlightEntry, wake: Wake, ghost c: nat, ghost s0: State, ghost before: seq<Step>)
      returns (keyAuth: Option<string>, ghost steps: seq<Step>)
      requires d in inFlight && inFlight[d] == e && Invariant(View()) && Run(s0, before) == Some(View())
      requires c < |callers| && callers[c] == Checking(d, e) && Possible(d, wake)
      modifies this`inFlight, this`keyAuths, this`certs, this`orders, this`callers
      ensures Invariant(View()) && Run(s0, steps) == Some(View()) && inFlight - {d} == old(inFlight) - {d}
      ensures Count(steps, IsCacheProbe) == Count(before, IsCacheProbe)
      ensures |keyAuths| == |old(keyAuths)| && |certs| == |old(certs)| && |callers| == |old(callers)|
      ensures e.cert.chan < |old(keyAuths)|
      ensures keyAuth == if !old(Led(d)) then None
                         else if !old(Unpublished(d)) then old(keyAuths)[e.cert.chan].value
                         else if wake.Publishes? then Some(wake.keyAuth)
                         else None
      ensures keyAuth.None? ==> callers[c] == Evicting(d)
    {
      Paired(View(), d);
      Took(s0, before, View(), CheckLeader(c));
      steps := before + [CheckLeader(c)];
      var gone := LeaderGone(d, e, c);
      if gone {
        return None, steps;
      }
      Took(s0, steps, View(), ReadKeyAuth(c));
      steps := steps + [ReadKeyAuth(c)];
      keyAuth := BorrowKeyAuth(d, e, c);
      if keyAuth.None? {
        keyAuth, steps := AwaitKeyAuth(d, e, wake, c, s0, steps);
      }
    }

    /** Joins the leader found for `d`; if that one is gone, removes the entry for another trip. */
    method JoinLeader(d: Domain, e: InFlightEntry, wake: Wake, ghost c: nat, ghost s0: State, ghost before: seq<Step>)
      returns (r: Option<Prepared>, ghost steps: seq<Step>)
      requires d in inFlight && inFlight[d] == e && Invariant(s0) && Run(s0, before) == Some(View())
      requires c < |callers| && callers[c] == Checking(d, e) && Possible(d, wake)
      modifies this
      ensures Run(s0, steps) == Some(View()) && Count(steps, IsCacheProbe) == Count(before, IsCacheProbe)
      ensures cache == old(cache) && |keyAuths| == |certs| == |old(certs)|
      ensures r.Some? <==> old(Led(d)) && (old(Unpublished(d)) ==> wake.Publishes?)
      ensures r.Some? ==>
                && e.cert.chan < |old(keyAuths)|
                && r.value == FollowerChallenge(
                     if old(Unpublished(d)) then wake.keyAuth else old(keyAuths)[e.cert.chan].value.value, e.cert)
      ensures r.None? ==> inFlight == old(inFlight) - {d} && c < |callers| && callers[c] == AtTop(d)
    {
      Kept(s0, before, View());
      Paired(View(), d);
      var keyAuth;
      keyAuth, steps := AskLeader(d, e, wake, c, s0, before);
      if keyAuth.Some? {
        return Some(FollowerChallenge(keyAuth.value, e.cert)), steps;
      }
      Took(s0, steps, View(), Evict(c));
      steps := steps + [Evict(c)];
      RemoveEntry(d, c);
      r := None;
    }

    /** Claims a domain without an entry and drives the order's setup to its end. */
    method Lead(d: Domain, setup: Option<string>, ghost c: nat, ghost s0: State, ghost before: seq<Step>)
      returns (r: Prepared, ghost steps: seq<Step>)
      requires d !in inFlight && Invariant(s0) && Run(s0, before) == Some(View())
      requires c < |callers| && callers[c] == Claiming(d)
      modifies this
      ensures Run(s0, steps) == Some(View()) && Count(steps, IsCacheProbe) == Count(before, IsCacheProbe)
      ensures cache == old(cache)
      ensures r == if setup.Some? then LeaderChallenge(setup.value, |old(certs)|) else SetupError
      ensures r.LeaderChallenge? ==> Led(d) && inFlight[d].cert.chan == r.cert
      ensures r.SetupError? ==> d !in inFlight
    {
      Kept(s0, before, View());
      Took(s0, before, View(), Claim(c));
      steps := before + [Claim(c)];
      var e := TryClaim(d, c);
      if setup.Some? {
        Took(s0, steps, View(), SetupOk(c, setup.value));
        steps := steps + [SetupOk(c, setup.value)];
        Publish(d, e.value, setup.value, c);
        return LeaderChallenge(setup.value, e.value.cert.chan), steps;
      }
      steps := SetupFails(d, e.value, c, s0, steps);
      r := SetupError;
    }
  }
}

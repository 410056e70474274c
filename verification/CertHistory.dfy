/**
 The provisioner told from its steps alone: what the cache holds, whose entry a domain has,
 what each order's channels hold and where each caller stands are read off the history, and
 every run's state agrees with them.
 */
module CertHistory {
  import opened Common
  import opened CertOrders

  // ----- who called for what, and what each caller has done

  function Calls(steps: seq<Step>): nat {
    if steps == [] then 0 else Calls(Before(steps)) + if Last(steps).Call? then 1 else 0
  }

  /** The domain of call `c`; calls are numbered in the order they are made. */
  function DomainOf(steps: seq<Step>, c: nat): Option<Domain> {
    if steps == [] then None
    else if Last(steps).Call? && Calls(Before(steps)) == c then Some(Last(steps).d)
    else DomainOf(Before(steps), c)
  }

  /** The key authorization `c` got for its order, if it got one. */
  function KeyAuthOf(steps: seq<Step>, c: nat): Option<string> {
    if steps == [] then None
    else if Last(steps).SetupOk? && Last(steps).c == c then Some(Last(steps).keyAuth)
    else KeyAuthOf(Before(steps), c)
  }

  /** The certificate the CA last issued to `c`, if it did. */
  function IssuedTo(steps: seq<Step>, c: nat): Option<string> {
    if steps == [] then None
    else if Last(steps).Issue? && Last(steps).c == c then Some(Last(steps).pem)
    else IssuedTo(Before(steps), c)
  }

  predicate HasSent(steps: seq<Step>, c: nat) {
    steps != [] && (Last(steps) == SendCert(c) || HasSent(Before(steps), c))
  }

  /** `c` has returned from leading, or was dropped. */
  predicate IsGone(steps: seq<Step>, c: nat) {
    && steps != []
    && (Last(steps) == DropSenders(c) || Last(steps) == Release(c) || Last(steps) == Abandon(c) || IsGone(Before(steps), c))
  }

  // ----- the two maps

  datatype Stored = Stored(pem: string, renewAt: int, source: Source)

  /** What was last stored for `d`: a seed, or a certificate a caller for `d` was issued. */
  function StoredFor(steps: seq<Step>, d: Domain): Option<Stored> {
    if steps == [] then None
    else
      var h := Before(steps);
      match Last(steps)
      case Seed(d', pem, renewAt) => if d' == d then Some(Stored(pem, renewAt, Seeded)) else StoredFor(h, d)
      case CacheCert(c, renewAt) =>
        if DomainOf(h, c) == Some(d) && IssuedTo(h, c).Some? && OrderOf(h, c).Some?
        then Some(Stored(IssuedTo(h, c).value, renewAt, IssuedBy(OrderOf(h, c).value)))
        else StoredFor(h, d)
      case _ => StoredFor(h, d)
  }

  predicate IsRemoval(step: Step) {
    step.Evict? || step.RemoveFailed? || step.RemoveFinal?
  }

  /** The order a domain's entry belongs to: the last one claimed while there was none, unless removed since by whichever caller. */
  function EntryFor(steps: seq<Step>, d: Domain): Option<nat>
    decreases |steps|, 0
  {
    if steps == [] then None
    else
      var h, step := Before(steps), Last(steps);
      if Actor(step).None? || DomainOf(h, Actor(step).value) != Some(d) then EntryFor(h, d)
      else if IsRemoval(step) then None
      else if step.Claim? && EntryFor(h, d).None? then Some(Won(h))
      else EntryFor(h, d)
  }

  /** A claim of a domain without an entry. */
  predicate IsWin(h: seq<Step>, step: Step)
    decreases |h|, 1
  {
    step.Claim? && DomainOf(h, step.c).Some? && EntryFor(h, DomainOf(h, step.c).value).None?
  }

  /** How many orders there are. */
  function Won(steps: seq<Step>): nat
    decreases |steps|, 0
  {
    if steps == [] then 0 else Won(Before(steps)) + if IsWin(Before(steps), Last(steps)) then 1 else 0
  }

  /** Who leads order `k`. */
  function LeaderOf(steps: seq<Step>, k: nat): Option<nat> {
    if steps == [] then None
    else if IsWin(Before(steps), Last(steps)) && Won(Before(steps)) == k then Some(Last(steps).c)
    else LeaderOf(Before(steps), k)
  }

  /** Which order `c` leads, or led. */
  function OrderOf(steps: seq<Step>, c: nat): Option<nat> {
    if steps == [] then None
    else if Last(steps) == Claim(c) && IsWin(Before(steps), Last(steps)) then Some(Won(Before(steps)))
    else OrderOf(Before(steps), c)
  }

  // ----- what an order's channels hold

  function PublishedBy(steps: seq<Step>, k: nat): Option<string> {
    if LeaderOf(steps, k).Some? then KeyAuthOf(steps, LeaderOf(steps, k).value) else None
  }

  function SentBy(steps: seq<Step>, k: nat): Option<string> {
    if LeaderOf(steps, k).Some? && HasSent(steps, LeaderOf(steps, k).value) then IssuedTo(steps, LeaderOf(steps, k).value) else None
  }

  predicate IsLed(steps: seq<Step>, k: nat) {
    LeaderOf(steps, k).Some? && !IsGone(steps, LeaderOf(steps, k).value)
  }

  // ----- where each caller stands

  /** What a probe of the cache at `now` finds. */
  function CacheAnswer(steps: seq<Step>, d: Domain, now: int): Option<Stored> {
    var stored := StoredFor(steps, d);
    if stored.Some? && now < stored.value.renewAt then stored else None
  }

  /** A caller that leads no order, nor has returned. */
  predicate IsSeeking(p: Phase) {
    IsUnfinished(p) && HeldCert(p).None?
  }

  /** Where a step of `prepare` on behalf of a caller that leads no order takes it, after history `h`. */
  function SeekerNext(h: seq<Step>, was: Phase, own: Step): Phase {
    match was
    case AtTop(d) =>
      if !own.ProbeCache? then was
      else
        var found := CacheAnswer(h, d, own.now);
        if found.Some? then Finished(Cached(d, found.value.pem, found.value.source)) else Probing(d)
    case Probing(d) => if EntryFor(h, d).Some? then Checking(d, EntryOf(EntryFor(h, d).value)) else Claiming(d)
    case Checking(d, e) => if IsLed(h, e.cert.chan) then Reading(d, e) else Evicting(d)
    case Evicting(d) => AtTop(d)
    case Reading(d, e) =>
      var ka := PublishedBy(h, e.cert.chan);
      if ka.Some? then Following(d, ka.value, e.cert) else Waiting(d, e)
    case Waiting(d, e) =>
      var ka := PublishedBy(h, e.cert.chan);
      if ka.Some? then Following(d, ka.value, e.cert) else Evicting(d)
    case Claiming(d) => if EntryFor(h, d).None? then SettingUp(d, EntryOf(Won(h))) else AtTop(d)
    case Following(d, ka, rx) =>
      var pem := SentBy(h, rx.chan);
      Finished(if pem.Some? then Followed(d, rx.chan, ka, pem.value) else Failed)
    case _ => was
  }

  /** Where a leader's own step takes it. */
  function LeaderNext(was: Phase, own: Step): Phase {
    match was
    case SettingUp(d, e) => if own.SetupOk? then Leading(d, e.cert.chan) else SetupFailed(d, e)
    case SetupFailed(d, e) => DroppingSenders(e)
    case DroppingSenders(_) => Finished(Failed)
    case Leading(d, k) => Finalizing(d, k)
    case Finalizing(d, k) => if own.Issue? then Caching(d, k, own.pem) else Removing(d, k, None)
    case Caching(d, k, pem) => Sending(d, k, pem)
    case Sending(d, k, pem) => Removing(d, k, Some(pem))
    case Removing(d, k, pem) => Releasing(d, k, pem)
    case Releasing(d, k, pem) => Finished(if pem.Some? then Issued(d, k, pem.value) else Failed)
    case _ => was
  }

  function NextPhase(h: seq<Step>, was: Phase, own: Step): Phase {
    if own.Abandon? then Dropped else if IsSeeking(was) then SeekerNext(h, was, own) else LeaderNext(was, own)
  }

  function PhaseAfter(steps: seq<Step>, c: nat): Phase
    requires DomainOf(steps, c).Some?
  {
    var h, step := Before(steps), Last(steps);
    if DomainOf(h, c).None? then AtTop(DomainOf(steps, c).value)
    else if Actor(step) != Some(c) then PhaseAfter(h, c)
    else NextPhase(h, PhaseAfter(h, c), step)
  }

  // ----- every run agrees

  /** `c` has done nothing only a leader does. */
  predicate Untouched(steps: seq<Step>, c: nat) {
    KeyAuthOf(steps, c).None? && IssuedTo(steps, c).None? && !HasSent(steps, c) && !IsGone(steps, c) && OrderOf(steps, c).None?
  }

  ghost predicate CallersAgree(steps: seq<Step>, s: State) {
    && |s.callers| == Calls(steps)
    && forall c: nat :: DomainOf(steps, c).Some? <==> c < |s.callers|
  }

  /** The domain a phase is about. */
  function PhaseDomain(p: Phase): Option<Domain> {
    match p
    case DroppingSenders(_) => None
    case Finished(result) => if result.Failed? then None else Some(result.domain)
    case Dropped => None
    case _ => Some(p.d)
  }

  predicate CallerAgrees(steps: seq<Step>, s: State, c: nat)
    requires c < |s.callers| && DomainOf(steps, c).Some?
  {
    && s.callers[c] == PhaseAfter(steps, c)
    && (PhaseDomain(s.callers[c]).Some? ==> PhaseDomain(s.callers[c]) == DomainOf(steps, c))
    && (IsSeeking(s.callers[c]) ==> Untouched(steps, c))
    && (s.callers[c].Caching? ==> IssuedTo(steps, c) == Some(s.callers[c].pem))
    && (HeldCert(s.callers[c]).Some? ==> OrderOf(steps, c) == HeldCert(s.callers[c]))
  }

  predicate OrderAgrees(steps: seq<Step>, s: State, k: nat)
    requires Sized(s) && k < |s.orders|
  {
    var o := s.orders[k];
    && LeaderOf(steps, k) == Some(o.leader) && OrderOf(steps, o.leader) == Some(k)
    && Some(o.domain) == DomainOf(steps, o.leader) && o.keyAuth == KeyAuthOf(steps, o.leader) && o.issued == IssuedTo(steps, o.leader)
    && s.certs[k].value == SentBy(steps, k) && (s.certs[k].value.Some? <==> HasSent(steps, o.leader))
    && (s.certs[k].open <==> IsLed(steps, k))
  }

  predicate EntryAgrees(steps: seq<Step>, s: State, d: Domain) {
    if EntryFor(steps, d).Some? then d in s.inFlight && s.inFlight[d] == EntryOf(EntryFor(steps, d).value) else d !in s.inFlight
  }

  predicate CacheAgrees(steps: seq<Step>, s: State, d: Domain) {
    if StoredFor(steps, d).Some?
    then d in s.cache && Stored(s.cache[d].pem, s.cache[d].renewAt, s.cache[d].source) == StoredFor(steps, d).value
    else d !in s.cache
  }

  ghost predicate Agree(steps: seq<Step>, s: State) {
    && CallersAgree(steps, s) && Sized(s) && |s.orders| == Won(steps)
    && (forall c :: 0 <= c < |s.callers| ==> CallerAgrees(steps, s, c))
    && (forall k :: 0 <= k < |s.orders| ==> OrderAgrees(steps, s, k))
    && (forall d :: EntryAgrees(steps, s, d))
    && (forall d :: CacheAgrees(steps, s, d))
  }

  lemma CallersStep(steps: seq<Step>, s: State, step: Step)
    requires CallersAgree(steps, s) && Enabled(s, step)
    ensures CallersAgree(steps + [step], Apply(s, step))
    ensures forall c: nat :: DomainOf(steps, c).Some? ==> DomainOf(steps + [step], c) == DomainOf(steps, c)
  {
    Snoc(steps, step);
    assert |Apply(s, step).callers| == |s.callers| + if step.Call? then 1 else 0;
  }

  lemma CacheStep(steps: seq<Step>, s: State, step: Step, d: Domain)
    requires CallersAgree(steps, s) && Enabled(s, step) && CacheAgrees(steps, s, d)
    requires Actor(step).Some? ==> CallerAgrees(steps, s, Actor(step).value)
    ensures CacheAgrees(steps + [step], Apply(s, step), d)
  {
    Snoc(steps, step);
  }

  lemma EntryStep(steps: seq<Step>, s: State, step: Step, d: Domain)
    requires CallersAgree(steps, s) && Sized(s) && |s.orders| == Won(steps) && Enabled(s, step) && EntryAgrees(steps, s, d)
    requires Actor(step).Some? ==> CallerAgrees(steps, s, Actor(step).value)
    ensures EntryAgrees(steps + [step], Apply(s, step), d)
  {
    Snoc(steps, step);
  }

  lemma WonStep(steps: seq<Step>, s: State, step: Step)
    requires CallersAgree(steps, s) && Sized(s) && |s.orders| == Won(steps) && Enabled(s, step)
    requires forall d :: EntryAgrees(steps, s, d)
    requires Actor(step).Some? ==> CallerAgrees(steps, s, Actor(step).value)
    ensures |Apply(s, step).orders| == Won(steps + [step])
    ensures IsWin(steps, step) <==> step.Claim? && s.callers[step.c].d !in s.inFlight
  {
    Snoc(steps, step);
    if step.Claim? {
      assert EntryAgrees(steps, s, s.callers[step.c].d);
    }
  }

  /** A step of somebody else leaves what `c` has done. */
  lemma OthersHistory(steps: seq<Step>, step: Step, c: nat)
    requires Actor(step) != Some(c)
    ensures KeyAuthOf(steps + [step], c) == KeyAuthOf(steps, c) && IssuedTo(steps + [step], c) == IssuedTo(steps, c)
    ensures HasSent(steps + [step], c) <==> HasSent(steps, c)
    ensures IsGone(steps + [step], c) <==> IsGone(steps, c)
    ensures OrderOf(steps + [step], c) == OrderOf(steps, c)
  {
    Snoc(steps, step);
  }

  lemma LeaderStays(steps: seq<Step>, step: Step, k: nat)
    requires k < Won(steps)
    ensures LeaderOf(steps + [step], k) == LeaderOf(steps, k)
  {
    Snoc(steps, step);
  }

  lemma OtherOrderStep(steps: seq<Step>, s: State, step: Step, k: nat)
    requires Invariant(s) && CallersAgree(steps, s) && |s.orders| == Won(steps) && Enabled(s, step)
    requires k < |s.orders| && OrderAgrees(steps, s, k) && Actor(step) != Some(s.orders[k].leader)
    ensures var t := Apply(s, step); Sized(t) && k < |t.orders| && OrderAgrees(steps + [step], t, k)
  {
    OtherOrdersStay(s, step, k);
    OthersHistory(steps, step, s.orders[k].leader);
    LeaderStays(steps, step, k);
    CallersStep(steps, s, step);
  }

  lemma ClosedOrderStep(steps: seq<Step>, s: State, step: Step, k: nat)
    requires Invariant(s) && CallersAgree(steps, s) && |s.orders| == Won(steps) && Enabled(s, step)
    requires k < |s.orders| && OrderAgrees(steps, s, k) && Actor(step) == Some(s.orders[k].leader)
    requires CallerAgrees(steps, s, s.orders[k].leader)
    requires Closes(step)
    ensures var t := Apply(s, step); Sized(t) && k < |t.orders| && OrderAgrees(steps + [step], t, k)
  {
    Snoc(steps, step);
    LeaderStays(steps, step, k);
    CallersStep(steps, s, step);
    ClosesHeld(s, s.callers[s.orders[k].leader], k);
    assert ChannelMatches(s, k);
  }

  lemma WrittenOrderStep(steps: seq<Step>, s: State, step: Step, k: nat)
    requires Invariant(s) && CallersAgree(steps, s) && |s.orders| == Won(steps) && Enabled(s, step)
    requires k < |s.orders| && OrderAgrees(steps, s, k) && Actor(step) == Some(s.orders[k].leader)
    requires CallerAgrees(steps, s, s.orders[k].leader)
    requires Writes(step)
    ensures var t := Apply(s, step); Sized(t) && k < |t.orders| && OrderAgrees(steps + [step], t, k)
  {
    Snoc(steps, step);
    LeaderStays(steps, step, k);
    CallersStep(steps, s, step);
    assert PhaseFits(s, s.orders[k].leader) && ChannelMatches(s, k);
  }

  lemma PassedOrderStep(steps: seq<Step>, s: State, step: Step, k: nat)
    requires Invariant(s) && CallersAgree(steps, s) && |s.orders| == Won(steps) && Enabled(s, step)
    requires k < |s.orders| && OrderAgrees(steps, s, k) && Actor(step) == Some(s.orders[k].leader)
    requires CallerAgrees(steps, s, s.orders[k].leader)
    requires !Closes(step) && !Writes(step)
    ensures var t := Apply(s, step); Sized(t) && k < |t.orders| && OrderAgrees(steps + [step], t, k)
  {
    Snoc(steps, step);
    LeaderStays(steps, step, k);
    CallersStep(steps, s, step);
    SendersPassedOn(s, step);
    OrdersKept(s, step);
  }

  /** A leader's own step leaves its order as the history says. */
  lemma OwnOrderStep(steps: seq<Step>, s: State, step: Step, k: nat)
    requires Invariant(s) && CallersAgree(steps, s) && |s.orders| == Won(steps) && Enabled(s, step)
    requires k < |s.orders| && OrderAgrees(steps, s, k) && Actor(step) == Some(s.orders[k].leader)
    requires CallerAgrees(steps, s, s.orders[k].leader)
    ensures var t := Apply(s, step); Sized(t) && k < |t.orders| && OrderAgrees(steps + [step], t, k)
  {
    if Closes(step) {
      ClosedOrderStep(steps, s, step, k);
    } else if Writes(step) {
      WrittenOrderStep(steps, s, step, k);
    } else {
      PassedOrderStep(steps, s, step, k);
    }
  }

  lemma NewOrderStep(steps: seq<Step>, s: State, c: nat)
    requires Invariant(s) && CallersAgree(steps, s) && |s.orders| == Won(steps) && Enabled(s, Claim(c))
    requires CallerAgrees(steps, s, c) && IsWin(steps, Claim(c)) && s.callers[c].d !in s.inFlight
    ensures var t := Apply(s, Claim(c)); Sized(t) && |s.orders| < |t.orders| && OrderAgrees(steps + [Claim(c)], t, |s.orders|)
  {
    Snoc(steps, Claim(c));
    CallersStep(steps, s, Claim(c));
  }

  lemma CallerElsewhere(steps: seq<Step>, s: State, step: Step, c: nat)
    requires CallersAgree(steps, s) && Enabled(s, step) && c < |s.callers| && CallerAgrees(steps, s, c) && Actor(step) != Some(c)
    ensures var t := Apply(s, step); c < |t.callers| && DomainOf(steps + [step], c).Some? && CallerAgrees(steps + [step], t, c)
  {
    OthersStay(s, step);
    OthersHistory(steps, step, c);
    CallersStep(steps, s, step);
    Snoc(steps, step);
  }

  lemma NewCaller(steps: seq<Step>, s: State, d: Domain)
    requires CallersAgree(steps, s) && Untouched(steps, |s.callers|)
    ensures var t, c := Apply(s, Call(d)), |s.callers|;
            DomainOf(steps + [Call(d)], c).Some? && CallerAgrees(steps + [Call(d)], t, c)
  {
    Snoc(steps, Call(d));
  }

  lemma {:induction false} FutureUntouched(steps: seq<Step>, s: State, c: nat)
    requires Run(INIT, steps) == Some(s) && c >= |s.callers|
    ensures Untouched(steps, c)
  {
    if steps != [] {
      var u, step := LastStep(INIT, steps, s);
      assert steps == Before(steps) + [step];
      OthersStay(u, step);
      FutureUntouched(Before(steps), u, c);
      OthersHistory(Before(steps), step, c);
    }
  }

  /** A probing caller's own step takes it where the history says. */
  lemma ProberPhase(steps: seq<Step>, s: State, step: Step, c: nat)
    requires Sized(s) && |s.orders| == Won(steps) && Enabled(s, step) && Actor(step) == Some(c) && !step.Abandon?
    requires var p := s.callers[c]; p.AtTop? || p.Probing? || p.Evicting? || p.Claiming?
    requires EntryAgrees(steps, s, s.callers[c].d) && CacheAgrees(steps, s, s.callers[c].d)
    ensures Apply(s, step).callers[c] == SeekerNext(steps, s.callers[c], step)
  {
  }

  /** A caller that has found order `k` sees of it what the history says. */
  lemma FinderPhase(steps: seq<Step>, s: State, step: Step, c: nat, k: nat)
    requires Sized(s) && k < |s.orders| && OrderAgrees(steps, s, k) && ChannelMatches(s, k)
    requires Enabled(s, step) && Actor(step) == Some(c) && !step.Abandon?
    requires var p := s.callers[c]; (p.Checking? || p.Reading? || p.Waiting?) && p.e == EntryOf(k)
    ensures Apply(s, step).callers[c] == SeekerNext(steps, s.callers[c], step)
  {
  }

  lemma FollowerPhase(steps: seq<Step>, s: State, step: Step, c: nat, k: nat)
    requires Sized(s) && k < |s.orders| && OrderAgrees(steps, s, k) && ChannelMatches(s, k)
    requires Enabled(s, step) && Actor(step) == Some(c) && !step.Abandon?
    requires s.callers[c].Following? && s.callers[c].rx == Receiver(k, 0)
    ensures Apply(s, step).callers[c] == SeekerNext(steps, s.callers[c], step)
  {
  }

  lemma LeaderPhase(s: State, step: Step, c: nat)
    requires Enabled(s, step) && Actor(step) == Some(c) && HeldCert(s.callers[c]).Some? && !step.Abandon?
    ensures Apply(s, step).callers[c] == LeaderNext(s.callers[c], step)
  {
  }

  lemma CallerOwn(steps: seq<Step>, s: State, step: Step, c: nat)
    requires Invariant(s) && Agree(steps, s) && Enabled(s, step) && Actor(step) == Some(c)
    ensures Apply(s, step).callers[c] == NextPhase(steps, PhaseAfter(steps, c), step)
  {
    assert CallerAgrees(steps, s, c) && PhaseFits(s, c);
    var p := s.callers[c];
    if step.Abandon? {
    } else if HeldCert(p).Some? {
      LeaderPhase(s, step, c);
    } else if p.Checking? || p.Reading? || p.Waiting? {
      var k := p.e.cert.chan;
      assert ChannelMatches(s, k) && OrderAgrees(steps, s, k);
      FinderPhase(steps, s, step, c, k);
    } else if p.Following? {
      var k := p.rx.chan;
      assert ChannelMatches(s, k) && OrderAgrees(steps, s, k);
      FollowerPhase(steps, s, step, c, k);
    } else {
      assert EntryAgrees(steps, s, p.d) && CacheAgrees(steps, s, p.d);
      ProberPhase(steps, s, step, c);
    }
  }

  lemma SeekerRecords(steps: seq<Step>, s: State, step: Step, c: nat)
    requires |s.orders| == Won(steps) == |s.certs| && Enabled(s, step) && Actor(step) == Some(c)
    requires IsSeeking(s.callers[c]) && Untouched(steps, c)
    requires IsWin(steps, step) <==> step.Claim? && s.callers[c].d !in s.inFlight
    ensures var t, now := Apply(s, step).callers[c], steps + [step];
            && (IsSeeking(t) ==> Untouched(now, c)) && !t.Caching?
            && (HeldCert(t).Some? ==> OrderOf(now, c) == HeldCert(t))
            && (PhaseDomain(t).Some? ==> PhaseDomain(t) == PhaseDomain(s.callers[c]))
  {
    Snoc(steps, step);
  }

  lemma OrderOfStays(steps: seq<Step>, step: Step, c: nat)
    requires step != Claim(c)
    ensures OrderOf(steps + [step], c) == OrderOf(steps, c)
  {
    Snoc(steps, step);
  }

  lemma LeaderNextMoves(p: Phase, step: Step)
    requires HeldCert(p).Some?
    ensures var t := LeaderNext(p, step);
            && !IsSeeking(t) && (t.Caching? ==> step.Issue? && step.pem == t.pem)
            && (HeldCert(t).Some? ==> HeldCert(t) == HeldCert(p))
            && (PhaseDomain(t).Some? ==> PhaseDomain(t) == PhaseDomain(p))
  {
  }

  lemma LeaderRecords(steps: seq<Step>, s: State, step: Step, c: nat)
    requires Enabled(s, step) && Actor(step) == Some(c) && HeldCert(s.callers[c]).Some?
    requires OrderOf(steps, c) == HeldCert(s.callers[c])
    ensures var t, now := Apply(s, step).callers[c], steps + [step];
            && !IsSeeking(t) && (t.Caching? ==> IssuedTo(now, c) == Some(t.pem))
            && (HeldCert(t).Some? ==> OrderOf(now, c) == HeldCert(t))
            && (PhaseDomain(t).Some? ==> PhaseDomain(t) == PhaseDomain(s.callers[c]))
  {
    LeaderNextMoves(s.callers[c], step);
    if !step.Abandon? {
      LeaderPhase(s, step, c);
    }
    OrderOfStays(steps, step, c);
    Snoc(steps, step);
  }

  lemma CallerOwnRecords(steps: seq<Step>, s: State, step: Step, c: nat)
    requires CallersAgree(steps, s) && Sized(s) && |s.orders| == Won(steps) && Enabled(s, step)
    requires Actor(step) == Some(c) && c < |s.callers| && CallerAgrees(steps, s, c)
    requires IsWin(steps, step) <==> step.Claim? && s.callers[c].d !in s.inFlight
    requires Apply(s, step).callers[c] == NextPhase(steps, PhaseAfter(steps, c), step)
    ensures c < |Apply(s, step).callers| && DomainOf(steps + [step], c).Some? && CallerAgrees(steps + [step], Apply(s, step), c)
  {
    Snoc(steps, step);
    CallersStep(steps, s, step);
    if IsSeeking(s.callers[c]) {
      SeekerRecords(steps, s, step, c);
    } else {
      LeaderRecords(steps, s, step, c);
    }
  }

  lemma AgreeStep(steps: seq<Step>, s: State, step: Step)
    requires Invariant(s) && Agree(steps, s) && Enabled(s, step)
    requires Untouched(steps, |s.callers|)
    ensures Agree(steps + [step], Apply(s, step))
  {
    var t := Apply(s, step);
    CallersStep(steps, s, step);
    OrdersKept(s, step);
    if Actor(step).Some? {
      assert CallerAgrees(steps, s, Actor(step).value);
    }
    WonStep(steps, s, step);
    forall c | 0 <= c < |t.callers|
      ensures DomainOf(steps + [step], c).Some? && CallerAgrees(steps + [step], t, c)
    {
      AgreeCaller(steps, s, step, c);
    }
    forall k | 0 <= k < |t.orders|
      ensures OrderAgrees(steps + [step], t, k)
    {
      AgreeOrder(steps, s, step, k);
    }
    forall d
      ensures EntryAgrees(steps + [step], t, d)
    {
      assert EntryAgrees(steps, s, d);
      EntryStep(steps, s, step, d);
    }
    forall d
      ensures CacheAgrees(steps + [step], t, d)
    {
      assert CacheAgrees(steps, s, d);
      CacheStep(steps, s, step, d);
    }
  }

  lemma AgreeCaller(steps: seq<Step>, s: State, step: Step, c: nat)
    requires Invariant(s) && Agree(steps, s) && Enabled(s, step) && c < |Apply(s, step).callers|
    requires Untouched(steps, |s.callers|)
    ensures DomainOf(steps + [step], c).Some? && CallerAgrees(steps + [step], Apply(s, step), c)
  {
    if c >= |s.callers| {
      NewCaller(steps, s, step.d);
    } else if Actor(step) == Some(c) {
      assert CallerAgrees(steps, s, c);
      WonStep(steps, s, step);
      CallerOwn(steps, s, step, c);
      CallerOwnRecords(steps, s, step, c);
    } else {
      assert CallerAgrees(steps, s, c);
      CallerElsewhere(steps, s, step, c);
    }
  }

  lemma AgreeOrder(steps: seq<Step>, s: State, step: Step, k: nat)
    requires Invariant(s) && Agree(steps, s) && Enabled(s, step) && Sized(Apply(s, step)) && k < |Apply(s, step).orders|
    ensures OrderAgrees(steps + [step], Apply(s, step), k)
  {
    if Actor(step).Some? {
      assert CallerAgrees(steps, s, Actor(step).value);
    }
    if k >= |s.orders| {
      WonStep(steps, s, step);
      NewOrderStep(steps, s, step.c);
    } else {
      assert OrderAgrees(steps, s, k);
      if Actor(step) == Some(s.orders[k].leader) {
        OwnOrderStep(steps, s, step, k);
      } else {
        OtherOrderStep(steps, s, step, k);
      }
    }
  }

  lemma {:induction false} Agrees(steps: seq<Step>, s: State)
    requires Run(INIT, steps) == Some(s)
    ensures Agree(steps, s)
  {
    if steps != [] {
      var u, step := LastStep(INIT, steps, s);
      assert steps == Before(steps) + [step];
      Agrees(Before(steps), u);
      Kept(INIT, Before(steps), u);
      FutureUntouched(Before(steps), u, |u.callers|);
      AgreeStep(Before(steps), u, step);
    }
  }

  // ----- what that says

  /** In every run the cache holds for a domain exactly what was last stored for it. */
  lemma CacheIsHistory(steps: seq<Step>, s: State, d: Domain)
    requires Run(INIT, steps) == Some(s)
    ensures d in s.cache <==> StoredFor(steps, d).Some?
    ensures d in s.cache ==> StoredFor(steps, d) == Some(Stored(s.cache[d].pem, s.cache[d].renewAt, s.cache[d].source))
  {
    Agrees(steps, s);
    assert CacheAgrees(steps, s, d);
  }

  /** A certificate a leader caches, and one that is seeded, is what the domain has from then on. */
  lemma StoringIsRemembered(steps: seq<Step>, s: State, c: nat, d: Domain, pem: string, renewAt: int)
    requires Run(INIT, steps) == Some(s)
    ensures StoredFor(steps + [Seed(d, pem, renewAt)], d) == Some(Stored(pem, renewAt, Seeded))
    ensures Enabled(s, CacheCert(c, renewAt)) && DomainOf(steps, c) == Some(d) ==>
              && IssuedTo(steps, c).Some? && OrderOf(steps, c).Some?
              && StoredFor(steps + [CacheCert(c, renewAt)], d)
                 == Some(Stored(IssuedTo(steps, c).value, renewAt, IssuedBy(OrderOf(steps, c).value)))
  {
    Agrees(steps, s);
    Snoc(steps, Seed(d, pem, renewAt));
    Snoc(steps, CacheCert(c, renewAt));
    if Enabled(s, CacheCert(c, renewAt)) {
      assert CallerAgrees(steps, s, c);
    }
  }

  /** Extends a run by one enabled step. */
  lemma Then(steps: seq<Step>, s: State, step: Step)
    requires Run(INIT, steps) == Some(s) && Enabled(s, step)
    ensures Run(INIT, steps + [step]) == Some(Apply(s, step))
  {
    assert (steps + [step])[..|steps|] == steps;
  }

  /**
   After any run, a new call for a domain that probes the cache before what was last stored
   for it is due for renewal returns that PEM at once; one that probes at or after that time, or
   for which nothing was stored, goes on to look for an order.
   */
  lemma CallsAreAnsweredFromTheCache(steps: seq<Step>, s: State, d: Domain, now: int) returns (t: State)
    requires Run(INIT, steps) == Some(s)
    ensures Run(INIT, steps + [Call(d)] + [ProbeCache(|s.callers|, now)]) == Some(t) && |t.callers| == |s.callers| + 1
    ensures var stored := StoredFor(steps, d);
            t.callers[|s.callers|] == if stored.Some? && now < stored.value.renewAt
                                      then Finished(Cached(d, stored.value.pem, stored.value.source)) else Probing(d)
  {
    CacheIsHistory(steps, s, d);
    Then(steps, s, Call(d));
    Then(steps + [Call(d)], Apply(s, Call(d)), ProbeCache(|s.callers|, now));
    t := Apply(Apply(s, Call(d)), ProbeCache(|s.callers|, now));
  }

  /** In every run a domain has an entry exactly while the last order claimed for it has not been removed, and it is that order's. */
  lemma EntriesAreHistory(steps: seq<Step>, s: State, d: Domain)
    requires Run(INIT, steps) == Some(s)
    ensures d in s.inFlight <==> EntryFor(steps, d).Some?
    ensures d in s.inFlight ==> s.inFlight[d] == EntryOf(EntryFor(steps, d).value)
  {
    Agrees(steps, s);
    assert EntryAgrees(steps, s, d);
  }

  /**
   In every run an order's channels hold what its leader published and sent, and its
   certificate channel is open while that leader is there.
   */
  lemma OrdersAreHistory(steps: seq<Step>, s: State, k: nat)
    requires Run(INIT, steps) == Some(s) && k < Won(steps)
    ensures |s.keyAuths| == |s.certs| == |s.orders| == Won(steps) && LeaderOf(steps, k) == Some(s.orders[k].leader)
    ensures s.keyAuths[k].value == PublishedBy(steps, k)
    ensures s.certs[k].value == SentBy(steps, k) && (s.certs[k].open <==> IsLed(steps, k))
  {
    Agrees(steps, s);
    Kept(INIT, steps, s);
    assert OrderAgrees(steps, s, k) && ChannelMatches(s, k);
  }

  /** In every run each caller stands where its own steps, and what it saw at each of them, have taken it. */
  lemma CallersAreHistory(steps: seq<Step>, s: State, c: nat)
    requires Run(INIT, steps) == Some(s) && c < |s.callers|
    ensures |s.callers| == Calls(steps) && DomainOf(steps, c).Some? && s.callers[c] == PhaseAfter(steps, c)
  {
    Agrees(steps, s);
    assert CallerAgrees(steps, s, c);
  }

  /**
   In every run a caller that returned a PEM called for the domain it is for. A leader returns
   what the CA issued to it; a follower what the CA issued to the leader of the order whose key
   authorization it used, and that leader called for the same domain.
   */
  lemma ResultsAreEarned(steps: seq<Step>, s: State, c: nat)
    requires Run(INIT, steps) == Some(s) && c < |s.callers| && s.callers[c].Finished? && !s.callers[c].result.Failed?
    ensures DomainOf(steps, c) == Some(s.callers[c].result.domain)
    ensures s.callers[c].result.Issued? ==> IssuedTo(steps, c) == Some(s.callers[c].result.pem)
    ensures s.callers[c].result.Followed? ==>
              var r := s.callers[c].result;
              && LeaderOf(steps, r.order).Some?
              && var leader := LeaderOf(steps, r.order).value;
                 && DomainOf(steps, leader) == Some(r.domain)
                 && KeyAuthOf(steps, leader) == Some(r.keyAuth) && IssuedTo(steps, leader) == Some(r.pem)
  {
    Agrees(steps, s);
    Kept(INIT, steps, s);
    assert CallerAgrees(steps, s, c) && PhaseFits(s, c);
    var r := s.callers[c].result;
    if !r.Cached? {
      assert OrderAgrees(steps, s, r.order);
    }
  }

  // ----- what can happen next

  /** The step `prepare` or `finalize` may take on behalf of a caller in phase `p` after `steps`. */
  predicate MayTake(steps: seq<Step>, p: Phase, step: Step) {
    match p
    case AtTop(_) => step.ProbeCache? || step.Abandon?
    case Probing(_) => step.ProbeInFlight? || step.Abandon?
    case Checking(_, _) => step.CheckLeader?
    case Evicting(_) => step.Evict? || step.Abandon?
    case Reading(_, _) => step.ReadKeyAuth?
    case Waiting(_, e) =>
      (step.KeyAuthChanged? && (PublishedBy(steps, e.cert.chan).Some? || !IsLed(steps, e.cert.chan))) || step.Abandon?
    case Claiming(_) => step.Claim? || step.Abandon?
    case SettingUp(_, _) => step.SetupOk? || step.SetupErr? || step.Abandon?
    case SetupFailed(_, _) => step.RemoveFailed? || step.Abandon?
    case DroppingSenders(_) => step.DropSenders?
    case Leading(_, _) => step.BeginFinalize? || step.Abandon?
    case Finalizing(_, _) => step.Issue? || step.FinalizeErr? || step.Abandon?
    case Caching(_, _, _) => step.CacheCert? || step.Abandon?
    case Sending(_, _, _) => step.SendCert?
    case Removing(_, _, _) => step.RemoveFinal? || step.Abandon?
    case Releasing(_, _, _) => step.Release?
    case Following(_, _, rx) =>
      (step.CertChanged? && (SentBy(steps, rx.chan).Some? || !IsLed(steps, rx.chan))) || step.Abandon?
    case Finished(_) => false
    case Dropped => false
  }

  /** The key-authorization channel of an order is open while its leader is there and has not published. */
  lemma KeyAuthOpen(steps: seq<Step>, s: State, k: nat)
    requires Invariant(s) && k < |s.orders| && OrderAgrees(steps, s, k)
    ensures s.keyAuths[k].open <==> IsLed(steps, k) && PublishedBy(steps, k).None?
  {
    assert ChannelMatches(s, k) && PhaseFits(s, s.orders[k].leader);
  }

  lemma TakesFromOrder(steps: seq<Step>, s: State, step: Step, c: nat, k: nat)
    requires Actor(step) == Some(c) && c < |s.callers| && Sized(s) && k < |s.orders| && OrderAgrees(steps, s, k) && ChannelMatches(s, k)
    requires var p := s.callers[c];
             ((p.Checking? || p.Reading? || p.Waiting?) && p.e == EntryOf(k)) || (p.Following? && p.rx == Receiver(k, 0))
    requires s.keyAuths[k].open <==> IsLed(steps, k) && PublishedBy(steps, k).None?
    ensures Enabled(s, step) <==> MayTake(steps, s.callers[c], step)
  {
  }

  lemma TakesAlone(steps: seq<Step>, s: State, step: Step, c: nat)
    requires Invariant(s) && Actor(step) == Some(c) && c < |s.callers|
    requires var p := s.callers[c]; !p.Checking? && !p.Reading? && !Awaits(p)
    ensures Enabled(s, step) <==> MayTake(steps, s.callers[c], step)
  {
    assert PhaseFits(s, c);
  }

  /** In every run a caller can take exactly the steps its place in the code allows, and can be dropped at every await. */
  lemma MovesAreHistory(steps: seq<Step>, s: State, step: Step)
    requires Run(INIT, steps) == Some(s) && Actor(step).Some?
    ensures Enabled(s, step) <==>
              DomainOf(steps, Actor(step).value).Some? && MayTake(steps, PhaseAfter(steps, Actor(step).value), step)
  {
    Agrees(steps, s);
    Kept(INIT, steps, s);
    var c := Actor(step).value;
    if c < |s.callers| {
      assert CallerAgrees(steps, s, c) && PhaseFits(s, c);
      var p := s.callers[c];
      if p.Checking? || p.Reading? || Awaits(p) {
        var k := if p.Following? then p.rx.chan else p.e.cert.chan;
        assert OrderAgrees(steps, s, k) && ChannelMatches(s, k);
        KeyAuthOpen(steps, s, k);
        TakesFromOrder(steps, s, step, c, k);
      } else {
        TakesAlone(steps, s, step, c);
      }
    }
  }
}

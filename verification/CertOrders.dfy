/**
 Leader and follower coordination of ACME orders: any number of `prepare` and `finalize`
 calls interleaved, each of which may be dropped at any await.

 A step is one critical section, or the code between two awaits. The CA is outside: an
 order's setup and issuance succeed or fail as the run chooses.
 */
module CertOrders {
  import opened Common

  type Domain = string

  /** A `watch` channel with one sender; `version` counts the values sent. */
  datatype Channel = Channel(value: Option<string>, version: nat, open: bool)

  const UNSENT := Channel(None, 0, true)

  /** A receiver: its channel and the version it has seen. */
  datatype Receiver = Receiver(chan: nat, seen: nat)

  datatype InFlightEntry = InFlightEntry(keyAuth: Receiver, cert: Receiver)

  /** The entry of order `k`, whose two channels carry its number. */
  function EntryOf(k: nat): InFlightEntry {
    InFlightEntry(Receiver(k, 0), Receiver(k, 0))
  }

  /** Where a PEM came from; bookkeeping no step reads. */
  datatype Source = Seeded | IssuedBy(order: nat)

  datatype CacheEntry = CacheEntry(pem: string, renewAt: int, source: Source)

  /** What became of one claimed order: who leads it and what the CA answered. Bookkeeping no step reads. */
  datatype Order = Order(domain: Domain, leader: nat, keyAuth: Option<string>, issued: Option<string>)

  datatype Result =
    | Cached(domain: Domain, pem: string, source: Source)
    | Issued(domain: Domain, order: nat, pem: string)
    | Followed(domain: Domain, order: nat, keyAuth: string, pem: string)
    | Failed

  /** Where a caller stands. `AlpnPending` is represented by its certificate channel `k`. */
  datatype Phase =
    | AtTop(d: Domain)                              // about to probe the cache
    | Probing(d: Domain)                            // about to probe the in-flight map
    | Checking(d: Domain, e: InFlightEntry)         // about to ask whether the leader is gone
    | Evicting(d: Domain)                           // about to remove the domain's entry and retry
    | Reading(d: Domain, e: InFlightEntry)          // about to borrow the key authorization
    | Waiting(d: Domain, e: InFlightEntry)          // awaiting the key authorization
    | Claiming(d: Domain)                           // about to insert an entry of its own
    | SettingUp(d: Domain, e: InFlightEntry)        // leader, talking to the CA
    | SetupFailed(d: Domain, e: InFlightEntry)      // about to remove the domain's entry
    | DroppingSenders(e: InFlightEntry)
    | Leading(d: Domain, k: nat)                    // holds `AlpnPending`
    | Finalizing(d: Domain, k: nat)
    | Caching(d: Domain, k: nat, pem: string)       // issued, about to insert into the cache
    | Sending(d: Domain, k: nat, pem: string)       // cached, about to broadcast
    | Removing(d: Domain, k: nat, pending: Option<string>)
    | Releasing(d: Domain, k: nat, pending: Option<string>)  // about to drop `AlpnPending` and return
    | Following(d: Domain, keyAuth: string, rx: Receiver)
    | Finished(result: Result)
    | Dropped

  datatype State = State(
    cache: map<Domain, CacheEntry>,
    inFlight: map<Domain, InFlightEntry>,
    keyAuths: seq<Channel>,
    certs: seq<Channel>,
    orders: seq<Order>,
    callers: seq<Phase>)

  datatype Step =
    | Call(d: Domain)
    | Seed(d: Domain, pem: string, renewAt: int)
    | ProbeCache(c: nat, now: int)
    | ProbeInFlight(c: nat)
    | CheckLeader(c: nat)
    | Evict(c: nat)
    | ReadKeyAuth(c: nat)
    | KeyAuthChanged(c: nat)
    | Claim(c: nat)
    | SetupOk(c: nat, keyAuth: string)
    | SetupErr(c: nat)
    | RemoveFailed(c: nat)
    | DropSenders(c: nat)
    | BeginFinalize(c: nat)
    | Issue(c: nat, pem: string)
    | FinalizeErr(c: nat)
    | CacheCert(c: nat, renewAt: int)
    | SendCert(c: nat)
    | RemoveFinal(c: nat)
    | Release(c: nat)
    | CertChanged(c: nat)
    | Abandon(c: nat)

  const INIT := State(map[], map[], [], [], [], [])

  /** `has_changed().is_err()` is `!open`; `changed()` resolves on an unseen value, or on a closed channel. */
  predicate Ready(ch: Channel, seen: nat) {
    ch.version != seen || !ch.open
  }

  /** The certificate sender a phase holds. */
  function HeldCert(p: Phase): Option<nat> {
    match p
    case SettingUp(_, e) => Some(e.cert.chan)
    case SetupFailed(_, e) => Some(e.cert.chan)
    case DroppingSenders(e) => Some(e.cert.chan)
    case Leading(_, k) => Some(k)
    case Finalizing(_, k) => Some(k)
    case Caching(_, k, _) => Some(k)
    case Sending(_, k, _) => Some(k)
    case Removing(_, k, _) => Some(k)
    case Releasing(_, k, _) => Some(k)
    case _ => None
  }

  /** The key-authorization sender a phase holds. */
  function HeldKeyAuth(p: Phase): Option<nat> {
    if p.SettingUp? || p.SetupFailed? || p.DroppingSenders? then Some(p.e.keyAuth.chan) else None
  }

  /** A future can be dropped only where it awaits. */
  predicate AtAwait(p: Phase) {
    || p.AtTop? || p.Probing? || p.Evicting? || p.Waiting? || p.Claiming? || p.SettingUp? || p.SetupFailed?
    || p.Leading? || p.Finalizing? || p.Caching? || p.Removing? || p.Following?
  }

  /** Entries and channels a phase or the in-flight map refers to exist. */
  predicate Known(s: State, d: Domain, e: InFlightEntry) {
    && e.keyAuth.chan == e.cert.chan < |s.orders| && e.keyAuth.seen == e.cert.seen == 0
    && s.orders[e.cert.chan].domain == d
  }

  predicate Sized(s: State) {
    |s.keyAuths| == |s.certs| == |s.orders|
  }

  predicate Enabled(s: State, step: Step) {
    match step
    case Call(_) => true
    case Seed(_, _, _) => true
    case ProbeCache(c, _) => c < |s.callers| && s.callers[c].AtTop?
    case ProbeInFlight(c) => c < |s.callers| && s.callers[c].Probing?
    case CheckLeader(c) => c < |s.callers| && s.callers[c].Checking? && s.callers[c].e.cert.chan < |s.certs|
    case Evict(c) => c < |s.callers| && s.callers[c].Evicting?
    case ReadKeyAuth(c) => c < |s.callers| && s.callers[c].Reading? && s.callers[c].e.keyAuth.chan < |s.keyAuths|
    case KeyAuthChanged(c) =>
      && c < |s.callers| && s.callers[c].Waiting? && s.callers[c].e.keyAuth.chan < |s.keyAuths|
      && Ready(s.keyAuths[s.callers[c].e.keyAuth.chan], s.callers[c].e.keyAuth.seen)
    case Claim(c) => c < |s.callers| && s.callers[c].Claiming?
    case SetupOk(c, _) => c < |s.callers| && s.callers[c].SettingUp? && Sized(s) && Known(s, s.callers[c].d, s.callers[c].e)
    case SetupErr(c) => c < |s.callers| && s.callers[c].SettingUp?
    case RemoveFailed(c) => c < |s.callers| && s.callers[c].SetupFailed?
    case DropSenders(c) => c < |s.callers| && s.callers[c].DroppingSenders?
    case BeginFinalize(c) => c < |s.callers| && s.callers[c].Leading?
    case Issue(c, _) => c < |s.callers| && s.callers[c].Finalizing? && s.callers[c].k < |s.orders|
    case FinalizeErr(c) => c < |s.callers| && s.callers[c].Finalizing?
    case CacheCert(c, _) => c < |s.callers| && s.callers[c].Caching?
    case SendCert(c) => c < |s.callers| && s.callers[c].Sending? && s.callers[c].k < |s.certs|
    case RemoveFinal(c) => c < |s.callers| && s.callers[c].Removing?
    case Release(c) => c < |s.callers| && s.callers[c].Releasing?
    case CertChanged(c) =>
      && c < |s.callers| && s.callers[c].Following? && s.callers[c].rx.chan < |s.certs|
      && Ready(s.certs[s.callers[c].rx.chan], s.callers[c].rx.seen)
    case Abandon(c) => c < |s.callers| && AtAwait(s.callers[c])
  }

  function Become(s: State, c: nat, p: Phase): State
    requires c < |s.callers|
  {
    s.(callers := s.callers[c := p])
  }

  function Sent(ch: Channel, value: string): Channel {
    ch.(value := Some(value), version := ch.version + 1)
  }

  function Shut(chs: seq<Channel>, sender: Option<nat>): seq<Channel> {
    if sender.Some? && sender.value < |chs| then chs[sender.value := chs[sender.value].(open := false)] else chs
  }

  /** Drops whichever senders phase `p` holds. */
  function Close(s: State, p: Phase): State {
    s.(keyAuths := Shut(s.keyAuths, HeldKeyAuth(p)), certs := Shut(s.certs, HeldCert(p)))
  }

  function AfterProbeInFlight(s: State, c: nat): State
    requires Enabled(s, ProbeInFlight(c))
  {
    var d := s.callers[c].d;
    Become(s, c, if d in s.inFlight then Checking(d, s.inFlight[d]) else Claiming(d))
  }

  function AfterKeyAuthChanged(s: State, c: nat): State
    requires Enabled(s, KeyAuthChanged(c))
  {
    var Waiting(d, e) := s.callers[c];
    var ch := s.keyAuths[e.keyAuth.chan];
    Become(s, c, if ch.version != e.keyAuth.seen && ch.value.Some? then Following(d, ch.value.value, e.cert) else Evicting(d))
  }

  function AfterClaim(s: State, c: nat): State
    requires Enabled(s, Claim(c))
  {
    var d, k := s.callers[c].d, |s.orders|;
    if d in s.inFlight then Become(s, c, AtTop(d))
    else
      var e := InFlightEntry(Receiver(|s.keyAuths|, 0), Receiver(|s.certs|, 0));
      Become(s, c, SettingUp(d, e)).(
        inFlight := s.inFlight[d := e],
        keyAuths := s.keyAuths + [UNSENT],
        certs := s.certs + [UNSENT],
        orders := s.orders + [Order(d, c, None, None)])
  }

  /** Publishing the key authorization and returning, which drops its sender. */
  function AfterSetupOk(s: State, c: nat, keyAuth: string): State
    requires Enabled(s, SetupOk(c, keyAuth))
  {
    var SettingUp(d, e) := s.callers[c];
    var ka, k := e.keyAuth.chan, e.cert.chan;
    Become(s, c, Leading(d, k)).(
      keyAuths := s.keyAuths[ka := Sent(s.keyAuths[ka], keyAuth).(open := false)],
      orders := s.orders[k := s.orders[k].(keyAuth := Some(keyAuth))])
  }

  function AfterCertChanged(s: State, c: nat): State
    requires Enabled(s, CertChanged(c))
  {
    var Following(d, keyAuth, rx) := s.callers[c];
    var ch := s.certs[rx.chan];
    Become(s, c, Finished(
      if ch.version != rx.seen && ch.value.Some? then Followed(d, rx.chan, keyAuth, ch.value.value) else Failed))
  }

  function Apply(s: State, step: Step): State
    requires Enabled(s, step)
  {
    match step
    case Call(d) => s.(callers := s.callers + [AtTop(d)])
    case Seed(d, pem, renewAt) => s.(cache := s.cache[d := CacheEntry(pem, renewAt, Seeded)])
    case ProbeCache(c, now) =>
      var d := s.callers[c].d;
      Become(s, c,
             if d in s.cache && now < s.cache[d].renewAt then Finished(Cached(d, s.cache[d].pem, s.cache[d].source))
             else Probing(d))
    case ProbeInFlight(c) => AfterProbeInFlight(s, c)
    case CheckLeader(c) =>
      var Checking(d, e) := s.callers[c];
      Become(s, c, if s.certs[e.cert.chan].open then Reading(d, e) else Evicting(d))
    case Evict(c) => Become(s, c, AtTop(s.callers[c].d)).(inFlight := s.inFlight - {s.callers[c].d})
    case ReadKeyAuth(c) =>
      var Reading(d, e) := s.callers[c];
      var value := s.keyAuths[e.keyAuth.chan].value;
      Become(s, c, if value.Some? then Following(d, value.value, e.cert) else Waiting(d, e))
    case KeyAuthChanged(c) => AfterKeyAuthChanged(s, c)
    case Claim(c) => AfterClaim(s, c)
    case SetupOk(c, keyAuth) => AfterSetupOk(s, c, keyAuth)
    case SetupErr(c) => Become(s, c, SetupFailed(s.callers[c].d, s.callers[c].e))
    case RemoveFailed(c) =>
      Become(s, c, DroppingSenders(s.callers[c].e)).(inFlight := s.inFlight - {s.callers[c].d})
    case DropSenders(c) => Become(Close(s, s.callers[c]), c, Finished(Failed))
    case BeginFinalize(c) => Become(s, c, Finalizing(s.callers[c].d, s.callers[c].k))
    case Issue(c, pem) =>
      var Finalizing(d, k) := s.callers[c];
      Become(s, c, Caching(d, k, pem)).(orders := s.orders[k := s.orders[k].(issued := Some(pem))])
    case FinalizeErr(c) => Become(s, c, Removing(s.callers[c].d, s.callers[c].k, None))
    case CacheCert(c, renewAt) =>
      var Caching(d, k, pem) := s.callers[c];
      Become(s, c, Sending(d, k, pem)).(cache := s.cache[d := CacheEntry(pem, renewAt, IssuedBy(k))])
    case SendCert(c) =>
      var Sending(d, k, pem) := s.callers[c];
      Become(s, c, Removing(d, k, Some(pem))).(certs := s.certs[k := Sent(s.certs[k], pem)])
    case RemoveFinal(c) =>
      var Removing(d, k, result) := s.callers[c];
      Become(s, c, Releasing(d, k, result)).(inFlight := s.inFlight - {d})
    case Release(c) =>
      var Releasing(d, k, result) := s.callers[c];
      Become(Close(s, s.callers[c]), c, Finished(if result.Some? then Issued(d, k, result.value) else Failed))
    case CertChanged(c) => AfterCertChanged(s, c)
    case Abandon(c) => Become(Close(s, s.callers[c]), c, Dropped)
  }

  function Run(s: State, steps: seq<Step>): Option<State> {
    if steps == [] then Some(s)
    else
      var before := Run(s, steps[..|steps| - 1]);
      var step := steps[|steps| - 1];
      if before.Some? && Enabled(before.value, step) then Some(Apply(before.value, step)) else None
  }

  // ----- invariants

  /** What an order's two channels hold, and who holds their senders. */
  predicate ChannelMatches(s: State, k: nat)
    requires Sized(s) && k < |s.orders|
  {
    var o, ka, ct := s.orders[k], s.keyAuths[k], s.certs[k];
    && o.leader < |s.callers|
    && ka.value == o.keyAuth && ka.version == (if o.keyAuth.Some? then 1 else 0)
    && ct.version == (if ct.value.Some? then 1 else 0) && (ct.value.Some? ==> ct.value == o.issued)
    && (ka.open <==> HeldKeyAuth(s.callers[o.leader]) == Some(k))
    && (ct.open <==> HeldCert(s.callers[o.leader]) == Some(k))
  }

  predicate ChannelsMatch(s: State) {
    Sized(s) && forall k :: 0 <= k < |s.orders| ==> ChannelMatches(s, k)
  }

  predicate EntriesKnown(s: State) {
    forall d :: d in s.inFlight ==> Known(s, d, s.inFlight[d])
  }

  /** Caller `c` leads order `k` for domain `d`. */
  predicate Leads(s: State, c: nat, d: Domain, k: nat) {
    k < |s.orders| && s.orders[k].leader == c && s.orders[k].domain == d
  }

  /** Caller `c` leads order `k` for domain `d`, and has published its key authorization. */
  predicate LeadsPublished(s: State, c: nat, d: Domain, k: nat) {
    Leads(s, c, d, k) && s.orders[k].keyAuth.Some?
  }

  /** A PEM is traced to an order of its own domain, or was seeded. */
  predicate Traced(s: State, d: Domain, pem: string, source: Source) {
    source.IssuedBy? ==>
      source.order < |s.orders| && s.orders[source.order].domain == d && s.orders[source.order].issued == Some(pem)
  }

  /**
   Caller `c`'s result for a domain rests on one order of that domain: the one it led, or
   the one whose key authorization it used. A cached PEM was issued by some order of the domain, or seeded.
   */
  predicate ResultTraced(s: State, c: nat, result: Result) {
    match result
    case Cached(d, pem, source) => Traced(s, d, pem, source)
    case Issued(d, k, pem) => Leads(s, c, d, k) && s.orders[k].issued == Some(pem)
    case Followed(d, k, keyAuth, pem) =>
      && k < |s.orders| && s.orders[k].domain == d
      && s.orders[k].keyAuth == Some(keyAuth) && s.orders[k].issued == Some(pem)
    case Failed => true
  }

  predicate PhaseFits(s: State, c: nat)
    requires c < |s.callers| && Sized(s)
  {
    match s.callers[c]
    case Checking(d, e) => Known(s, d, e)
    case Reading(d, e) => Known(s, d, e)
    case Waiting(d, e) => Known(s, d, e)
    case SettingUp(d, e) =>
      Known(s, d, e) && s.orders[e.cert.chan] == Order(d, c, None, None) && s.certs[e.cert.chan].value.None?
    case SetupFailed(d, e) => Known(s, d, e) && Leads(s, c, d, e.cert.chan) && s.orders[e.cert.chan].keyAuth.None?
    case DroppingSenders(e) =>
      e.keyAuth.chan == e.cert.chan < |s.orders| && s.orders[e.cert.chan].leader == c && s.orders[e.cert.chan].keyAuth.None?
    case Leading(d, k) => LeadsPublished(s, c, d, k) && s.certs[k].value.None? && s.orders[k].issued.None?
    case Finalizing(d, k) => LeadsPublished(s, c, d, k) && s.certs[k].value.None? && s.orders[k].issued.None?
    case Caching(d, k, pem) => LeadsPublished(s, c, d, k) && s.certs[k].value.None? && s.orders[k].issued == Some(pem)
    case Sending(d, k, pem) => LeadsPublished(s, c, d, k) && s.certs[k].value.None? && s.orders[k].issued == Some(pem)
    case Removing(d, k, result) => LeadsPublished(s, c, d, k) && s.certs[k].value == result
    case Releasing(d, k, result) => LeadsPublished(s, c, d, k) && s.certs[k].value == result
    case Following(d, keyAuth, rx) =>
      rx.seen == 0 && rx.chan < |s.orders| && s.orders[rx.chan].domain == d && s.orders[rx.chan].keyAuth == Some(keyAuth)
    case Finished(result) => ResultTraced(s, c, result)
    case _ => true
  }

  predicate PhasesFit(s: State)
    requires Sized(s)
  {
    forall c :: 0 <= c < |s.callers| ==> PhaseFits(s, c)
  }

  predicate CacheTraced(s: State) {
    forall d :: d in s.cache ==> Traced(s, d, s.cache[d].pem, s.cache[d].source)
  }

  predicate Invariant(s: State) {
    ChannelsMatch(s) && EntriesKnown(s) && PhasesFit(s) && CacheTraced(s)
  }

  // ----- each step keeps them

  /** The caller a step belongs to, if any. */
  function Actor(step: Step): Option<nat> {
    match step
    case Call(_) => None
    case Seed(_, _, _) => None
    case ProbeCache(c, _) => Some(c)
    case ProbeInFlight(c) => Some(c)
    case CheckLeader(c) => Some(c)
    case Evict(c) => Some(c)
    case ReadKeyAuth(c) => Some(c)
    case KeyAuthChanged(c) => Some(c)
    case Claim(c) => Some(c)
    case SetupOk(c, _) => Some(c)
    case SetupErr(c) => Some(c)
    case RemoveFailed(c) => Some(c)
    case DropSenders(c) => Some(c)
    case BeginFinalize(c) => Some(c)
    case Issue(c, _) => Some(c)
    case FinalizeErr(c) => Some(c)
    case CacheCert(c, _) => Some(c)
    case SendCert(c) => Some(c)
    case RemoveFinal(c) => Some(c)
    case Release(c) => Some(c)
    case CertChanged(c) => Some(c)
    case Abandon(c) => Some(c)
  }

  /** Answers of the CA are never taken back, and orders never change domain or leader. */
  predicate OrdersGrow(s: State, t: State) {
    && |s.orders| <= |t.orders|
    && forall k :: 0 <= k < |s.orders| ==>
         && t.orders[k].domain == s.orders[k].domain && t.orders[k].leader == s.orders[k].leader
         && (s.orders[k].keyAuth.Some? ==> t.orders[k].keyAuth == s.orders[k].keyAuth)
         && (s.orders[k].issued.Some? ==> t.orders[k].issued == s.orders[k].issued)
  }

  lemma OthersStay(s: State, step: Step)
    requires Enabled(s, step)
    ensures |s.callers| <= |Apply(s, step).callers|
    ensures forall c :: 0 <= c < |s.callers| && Actor(step) != Some(c) ==> Apply(s, step).callers[c] == s.callers[c]
  {
  }

  lemma OrdersKept(s: State, step: Step)
    requires Invariant(s) && Enabled(s, step)
    ensures OrdersGrow(s, Apply(s, step)) && Sized(Apply(s, step))
  {
    if Actor(step).Some? {
      assert PhaseFits(s, Actor(step).value);
    }
  }

  /** A step touches no order another caller leads. */
  lemma OtherOrdersStay(s: State, step: Step, k: nat)
    requires Invariant(s) && Enabled(s, step) && k < |s.orders| && Actor(step) != Some(s.orders[k].leader)
    ensures k < |Apply(s, step).orders| && Sized(Apply(s, step))
    ensures Apply(s, step).orders[k] == s.orders[k]
    ensures Apply(s, step).keyAuths[k] == s.keyAuths[k] && Apply(s, step).certs[k] == s.certs[k]
  {
    assert ChannelMatches(s, k);
    if Actor(step).Some? {
      assert PhaseFits(s, Actor(step).value);
    }
  }

  predicate Closes(step: Step) {
    step.DropSenders? || step.Release? || step.Abandon?
  }

  predicate Writes(step: Step) {
    step.SetupOk? || step.Issue? || step.SendCert?
  }

  /** Dropping a phase's senders closes exactly the channels that phase held open. */
  lemma ClosedChannelKept(s: State, step: Step, k: nat)
    requires Invariant(s) && Enabled(s, step) && Closes(step) && k < |s.orders| && Actor(step) == Some(s.orders[k].leader)
    ensures k < |Apply(s, step).orders| && Sized(Apply(s, step)) && ChannelMatches(Apply(s, step), k)
  {
    var c := Actor(step).value;
    assert ChannelMatches(s, k);
    ClosesHeld(s, s.callers[c], k);
    assert HeldCert(Apply(s, step).callers[c]).None? && HeldKeyAuth(Apply(s, step).callers[c]).None?;
  }

  lemma ClosesHeld(s: State, p: Phase, k: nat)
    requires Sized(s) && k < |s.orders|
    ensures var t := Close(s, p);
            && Sized(t) && t.orders == s.orders
            && t.certs[k] == (if HeldCert(p) == Some(k) then s.certs[k].(open := false) else s.certs[k])
            && t.keyAuths[k] == (if HeldKeyAuth(p) == Some(k) then s.keyAuths[k].(open := false) else s.keyAuths[k])
  {
  }

  lemma PublishedChannelKept(s: State, c: nat, keyAuth: string, k: nat)
    requires Invariant(s) && Enabled(s, SetupOk(c, keyAuth)) && k < |s.orders| && s.orders[k].leader == c
    ensures var t := AfterSetupOk(s, c, keyAuth);
            k < |t.orders| && Sized(t) && ChannelMatches(t, k)
  {
    assert ChannelMatches(s, k);
    assert PhaseFits(s, c);
  }

  lemma IssuedChannelKept(s: State, c: nat, pem: string, k: nat)
    requires Invariant(s) && Enabled(s, Issue(c, pem)) && k < |s.orders| && s.orders[k].leader == c
    ensures var t := Apply(s, Issue(c, pem));
            k < |t.orders| && Sized(t) && ChannelMatches(t, k)
  {
    assert ChannelMatches(s, k);
    assert PhaseFits(s, c);
  }

  lemma SentChannelKept(s: State, c: nat, k: nat)
    requires Invariant(s) && Enabled(s, SendCert(c)) && k < |s.orders| && s.orders[k].leader == c
    ensures var t := Apply(s, SendCert(c));
            k < |t.orders| && Sized(t) && ChannelMatches(t, k)
  {
    assert ChannelMatches(s, k);
    assert PhaseFits(s, c);
  }

  /** Every other step leaves the existing channels alone and passes the senders along. */
  lemma SendersPassedOn(s: State, step: Step)
    requires Sized(s) && Enabled(s, step) && !Closes(step) && !Writes(step) && Actor(step).Some?
    ensures var t, c := Apply(s, step), Actor(step).value;
            && s.orders <= t.orders && s.keyAuths <= t.keyAuths && s.certs <= t.certs && c < |t.callers| == |s.callers|
            && (!step.Claim? ==>
                  HeldCert(t.callers[c]) == HeldCert(s.callers[c]) && HeldKeyAuth(t.callers[c]) == HeldKeyAuth(s.callers[c]))
            && (step.Claim? ==> HeldCert(s.callers[c]).None? && HeldKeyAuth(s.callers[c]).None?)
            && (step.Claim? && HeldCert(t.callers[c]).Some? ==> HeldCert(t.callers[c]).value >= |s.orders|)
            && (step.Claim? && HeldKeyAuth(t.callers[c]).Some? ==> HeldKeyAuth(t.callers[c]).value >= |s.orders|)
  {
  }

  lemma OwnChannelKept(s: State, step: Step, k: nat)
    requires Invariant(s) && Enabled(s, step) && k < |s.orders| && Actor(step) == Some(s.orders[k].leader)
    ensures k < |Apply(s, step).orders| && Sized(Apply(s, step)) && ChannelMatches(Apply(s, step), k)
  {
    OrdersKept(s, step);
    if Closes(step) {
      ClosedChannelKept(s, step, k);
    } else if step.SetupOk? {
      PublishedChannelKept(s, step.c, step.keyAuth, k);
    } else if step.Issue? {
      IssuedChannelKept(s, step.c, step.pem, k);
    } else if step.SendCert? {
      SentChannelKept(s, step.c, k);
    } else {
      SendersPassedOn(s, step);
      assert ChannelMatches(s, k);
      PassedOn(s, Apply(s, step), k);
    }
  }

  lemma PassedOn(s: State, t: State, k: nat)
    requires Sized(s) && Sized(t) && k < |s.orders| && ChannelMatches(s, k)
    requires s.orders <= t.orders && s.keyAuths <= t.keyAuths && s.certs <= t.certs && |s.callers| <= |t.callers|
    requires var c := s.orders[k].leader;
             && (HeldCert(t.callers[c]) == Some(k) <==> HeldCert(s.callers[c]) == Some(k))
             && (HeldKeyAuth(t.callers[c]) == Some(k) <==> HeldKeyAuth(s.callers[c]) == Some(k))
    ensures ChannelMatches(t, k)
  {
  }

  lemma ChannelsKept(s: State, step: Step)
    requires Invariant(s) && Enabled(s, step)
    ensures ChannelsMatch(Apply(s, step))
  {
    var t := Apply(s, step);
    OrdersKept(s, step);
    forall k | 0 <= k < |t.orders|
      ensures ChannelMatches(t, k)
    {
      if k >= |s.orders| {
        NewChannel(s, step, k);
      } else if Actor(step) == Some(s.orders[k].leader) {
        OwnChannelKept(s, step, k);
      } else {
        assert ChannelMatches(s, k);
        OtherOrdersStay(s, step, k);
        OthersStay(s, step);
        ChannelElsewhere(s, t, k);
      }
    }
  }

  lemma NewChannel(s: State, step: Step, k: nat)
    requires Sized(s) && Enabled(s, step) && |s.orders| <= k < |Apply(s, step).orders|
    ensures Sized(Apply(s, step)) && ChannelMatches(Apply(s, step), k)
  {
  }

  lemma ChannelElsewhere(s: State, t: State, k: nat)
    requires Sized(s) && Sized(t) && k < |s.orders| && k < |t.orders| && ChannelMatches(s, k)
    requires t.orders[k] == s.orders[k] && t.keyAuths[k] == s.keyAuths[k] && t.certs[k] == s.certs[k]
    requires |s.callers| <= |t.callers| && t.callers[s.orders[k].leader] == s.callers[s.orders[k].leader]
    ensures ChannelMatches(t, k)
  {
  }

  lemma EntriesKept(s: State, step: Step)
    requires Invariant(s) && Enabled(s, step)
    ensures EntriesKnown(Apply(s, step))
  {
    OrdersKept(s, step);
  }

  lemma CacheKept(s: State, step: Step)
    requires Invariant(s) && Enabled(s, step)
    ensures CacheTraced(Apply(s, step))
  {
    OrdersKept(s, step);
    if step.CacheCert? {
      assert PhaseFits(s, step.c);
    }
  }

  /** The other steps only a leader takes. */
  predicate Passes(step: Step) {
    step.SetupErr? || step.RemoveFailed? || step.BeginFinalize? || step.FinalizeErr? || step.CacheCert? || step.RemoveFinal?
  }

  lemma CloserKept(s: State, step: Step)
    requires Invariant(s) && Enabled(s, step) && Closes(step)
    ensures Sized(Apply(s, step)) && PhaseFits(Apply(s, step), Actor(step).value)
  {
    assert PhaseFits(s, Actor(step).value);
    assert step.Release? ==> ChannelMatches(s, s.callers[step.c].k);
  }

  lemma WriterKept(s: State, step: Step)
    requires Invariant(s) && Enabled(s, step) && Writes(step)
    ensures Sized(Apply(s, step)) && PhaseFits(Apply(s, step), Actor(step).value)
  {
    assert PhaseFits(s, Actor(step).value);
  }

  lemma PasserKept(s: State, step: Step)
    requires Invariant(s) && Enabled(s, step) && Passes(step)
    ensures Sized(Apply(s, step)) && PhaseFits(Apply(s, step), Actor(step).value)
  {
    assert PhaseFits(s, Actor(step).value);
  }

  lemma SeekerKept(s: State, step: Step)
    requires Invariant(s) && Enabled(s, step) && Actor(step).Some? && !Closes(step) && !Writes(step) && !Passes(step)
    ensures Sized(Apply(s, step)) && PhaseFits(Apply(s, step), Actor(step).value)
  {
    OrdersKept(s, step);
    var p := s.callers[Actor(step).value];
    assert PhaseFits(s, Actor(step).value);
    assert p.Reading? || p.Waiting? ==> ChannelMatches(s, p.e.cert.chan);
    assert p.Following? ==> ChannelMatches(s, p.rx.chan);
  }

  /** A caller that did not move still fits, provided its own orders did not move either. */
  lemma FitsElsewhere(s: State, t: State, c: nat)
    requires Sized(s) && Sized(t) && OrdersGrow(s, t) && c < |s.callers| && c < |t.callers|
    requires PhaseFits(s, c) && t.callers[c] == s.callers[c]
    requires forall k :: 0 <= k < |s.orders| && s.orders[k].leader == c ==> t.orders[k] == s.orders[k] && t.certs[k] == s.certs[k]
    ensures PhaseFits(t, c)
  {
  }

  lemma OtherKept(s: State, step: Step, c: nat)
    requires Invariant(s) && Enabled(s, step) && Actor(step) != Some(c) && c < |s.callers|
    ensures c < |Apply(s, step).callers| && Sized(Apply(s, step)) && PhaseFits(Apply(s, step), c)
  {
    var t := Apply(s, step);
    OrdersKept(s, step);
    OthersStay(s, step);
    forall k | 0 <= k < |s.orders| && s.orders[k].leader == c
      ensures t.orders[k] == s.orders[k] && t.certs[k] == s.certs[k]
    {
      OtherOrdersStay(s, step, k);
    }
    FitsElsewhere(s, t, c);
  }

  lemma StepKept(s: State, step: Step)
    requires Invariant(s) && Enabled(s, step)
    ensures Invariant(Apply(s, step))
  {
    ChannelsKept(s, step);
    EntriesKept(s, step);
    CacheKept(s, step);
    forall c | 0 <= c < |Apply(s, step).callers|
      ensures PhaseFits(Apply(s, step), c)
    {
      if Actor(step) == Some(c) {
        if Closes(step) {
          CloserKept(s, step);
        } else if Writes(step) {
          WriterKept(s, step);
        } else if Passes(step) {
          PasserKept(s, step);
        } else {
          SeekerKept(s, step);
        }
      } else if c < |s.callers| {
        OtherKept(s, step, c);
      }
    }
  }

  lemma LastStep(s: State, steps: seq<Step>, t: State) returns (u: State, step: Step)
    requires steps != [] && Run(s, steps) == Some(t)
    ensures Run(s, steps[..|steps| - 1]) == Some(u) && step == steps[|steps| - 1]
    ensures Enabled(u, step) && Apply(u, step) == t
  {
    u, step := Run(s, steps[..|steps| - 1]).value, steps[|steps| - 1];
  }

  lemma {:induction false} Kept(s: State, steps: seq<Step>, t: State)
    requires Invariant(s) && Run(s, steps) == Some(t)
    ensures Invariant(t)
  {
    if steps != [] {
      var u, step := LastStep(s, steps, t);
      Kept(s, steps[..|steps| - 1], u);
      StepKept(u, step);
    }
  }

  // ----- what every run guarantees to a follower

  /** A follower's key authorization, and the PEM it receives, are of one and the same order for its domain. */
  lemma FollowerSeesOneOrder(steps: seq<Step>, s: State, c: nat)
    requires Run(INIT, steps) == Some(s) && c < |s.callers|
    ensures s.callers[c].Following? ==>
              var Following(d, keyAuth, rx) := s.callers[c];
              && rx.chan < |s.orders| == |s.certs| && s.orders[rx.chan].domain == d
              && s.orders[rx.chan].keyAuth == Some(keyAuth)
              && (s.certs[rx.chan].value.Some? ==> s.certs[rx.chan].value == s.orders[rx.chan].issued)
    ensures s.callers[c].Finished? && s.callers[c].result.Followed? ==>
              var Followed(d, k, keyAuth, pem) := s.callers[c].result;
              && k < |s.orders| && s.orders[k].domain == d
              && s.orders[k].keyAuth == Some(keyAuth) && s.orders[k].issued == Some(pem)
  {
    Kept(INIT, steps, s);
    assert PhaseFits(s, c);
    if s.callers[c].Following? {
      assert ChannelMatches(s, s.callers[c].rx.chan);
    }
  }

  /**
   A follower's wait resolves once the PEM was sent, or once its leader has ended in any
   way; it yields the PEM exactly when one was sent, even if the sender is gone by then.
   */
  lemma FollowerResolves(steps: seq<Step>, s: State, c: nat)
    requires Run(INIT, steps) == Some(s) && c < |s.callers| && s.callers[c].Following?
    ensures var Following(d, keyAuth, rx) := s.callers[c];
            && rx.chan < |s.certs| && rx.chan < |s.orders| && s.orders[rx.chan].leader < |s.callers|
            && var pem := s.certs[rx.chan].value;
               var ended := HeldCert(s.callers[s.orders[rx.chan].leader]) != Some(rx.chan);
               && (Enabled(s, CertChanged(c)) <==> pem.Some? || ended)
               && (Enabled(s, CertChanged(c)) ==>
                     Apply(s, CertChanged(c)).callers[c]
                     == Finished(if pem.Some? then Followed(d, rx.chan, keyAuth, pem.value) else Failed))
  {
    Kept(INIT, steps, s);
    assert PhaseFits(s, c);
    assert ChannelMatches(s, s.callers[c].rx.chan);
  }

  /** Every PEM in the cache, and every PEM a caller returned with, is traced to an order of its domain or was seeded. */
  lemma PemsAreTraced(steps: seq<Step>, s: State)
    requires Run(INIT, steps) == Some(s)
    ensures forall d :: d in s.cache ==> Traced(s, d, s.cache[d].pem, s.cache[d].source)
    ensures forall c :: 0 <= c < |s.callers| && s.callers[c].Finished? ==> ResultTraced(s, c, s.callers[c].result)
  {
    Kept(INIT, steps, s);
    forall c | 0 <= c < |s.callers| && s.callers[c].Finished?
      ensures ResultTraced(s, c, s.callers[c].result)
    {
      assert PhaseFits(s, c);
    }
  }

  // ----- nobody waits for nothing

  /**
   A wait for the key authorization resolves once it was published, or once its leader has
   ended the setup in any way; it makes the caller a follower of that order exactly when
   it was published, even if the sender is gone by then, and otherwise sends it round again.
   */
  lemma KeyAuthWaitResolves(steps: seq<Step>, s: State, c: nat)
    requires Run(INIT, steps) == Some(s) && c < |s.callers| && s.callers[c].Waiting?
    ensures var Waiting(d, e) := s.callers[c];
            var k := e.keyAuth.chan;
            && k == e.cert.chan < |s.orders| && s.orders[k].domain == d && s.orders[k].leader < |s.callers|
            && var published := s.orders[k].keyAuth;
               var ended := HeldKeyAuth(s.callers[s.orders[k].leader]) != Some(k);
               && (Enabled(s, KeyAuthChanged(c)) <==> published.Some? || ended)
               && (Enabled(s, KeyAuthChanged(c)) ==>
                     Apply(s, KeyAuthChanged(c)).callers[c]
                     == if published.Some? then Following(d, published.value, e.cert) else Evicting(d))
  {
    Kept(INIT, steps, s);
    assert PhaseFits(s, c);
    assert ChannelMatches(s, s.callers[c].e.keyAuth.chan);
  }

  /** A caller that awaits another's order; every other unfinished one can move by itself. */
  predicate Awaits(p: Phase) {
    p.Waiting? || p.Following?
  }

  predicate IsUnfinished(p: Phase) {
    !p.Finished? && !p.Dropped?
  }

  lemma MovesAlone(s: State, c: nat) returns (step: Step)
    requires Invariant(s) && c < |s.callers| && IsUnfinished(s.callers[c]) && !Awaits(s.callers[c])
    ensures Actor(step) == Some(c) && !step.Abandon? && Enabled(s, step)
  {
    assert PhaseFits(s, c);
    match s.callers[c]
    case AtTop(_) => step := ProbeCache(c, 0);
    case Probing(_) => step := ProbeInFlight(c);
    case Checking(_, _) => step := CheckLeader(c);
    case Evicting(_) => step := Evict(c);
    case Reading(_, _) => step := ReadKeyAuth(c);
    case Claiming(_) => step := Claim(c);
    case SettingUp(_, _) => step := SetupErr(c);
    case SetupFailed(_, _) => step := RemoveFailed(c);
    case DroppingSenders(_) => step := DropSenders(c);
    case Leading(_, _) => step := BeginFinalize(c);
    case Finalizing(_, _) => step := FinalizeErr(c);
    case Caching(_, _, _) => step := CacheCert(c, 0);
    case Sending(_, _, _) => step := SendCert(c);
    case Removing(_, _, _) => step := RemoveFinal(c);
    case Releasing(_, _, _) => step := Release(c);
  }

  /** The order a waiting caller depends on. */
  function AwaitedOrder(p: Phase): nat
    requires Awaits(p)
  {
    if p.Waiting? then p.e.cert.chan else p.rx.chan
  }

  /** Holding a sender, a caller waits for nobody. */
  lemma HoldersMove(p: Phase)
    ensures HeldCert(p).Some? ==> IsUnfinished(p) && !Awaits(p)
    ensures HeldKeyAuth(p).Some? ==> HeldCert(p).Some?
  {
  }

  lemma WaiterOrLeaderMoves(s: State, c: nat) returns (step: Step)
    requires Invariant(s) && c < |s.callers| && Awaits(s.callers[c])
    ensures AwaitedOrder(s.callers[c]) < |s.orders|
    ensures !step.Abandon? && Enabled(s, step)
    ensures Actor(step) == Some(c) || Actor(step) == Some(s.orders[AwaitedOrder(s.callers[c])].leader)
  {
    assert PhaseFits(s, c);
    var k := AwaitedOrder(s.callers[c]);
    assert ChannelMatches(s, k);
    step := if s.callers[c].Waiting? then KeyAuthChanged(c) else CertChanged(c);
    if !Enabled(s, step) {
      HoldersMove(s.callers[s.orders[k].leader]);
      step := MovesAlone(s, s.orders[k].leader);
    }
  }

  /**
   No run deadlocks: while a caller is unfinished, it can step itself, or the leader of the
   order it awaits can, without any caller being dropped.
   */
  lemma NeverWedged(steps: seq<Step>, s: State, c: nat) returns (step: Step)
    requires Run(INIT, steps) == Some(s) && c < |s.callers| && IsUnfinished(s.callers[c])
    ensures !step.Abandon? && Enabled(s, step)
    ensures Awaits(s.callers[c]) ==> AwaitedOrder(s.callers[c]) < |s.orders|
    ensures || Actor(step) == Some(c)
            || (Awaits(s.callers[c]) && Actor(step) == Some(s.orders[AwaitedOrder(s.callers[c])].leader))
  {
    Kept(INIT, steps, s);
    if Awaits(s.callers[c]) {
      step := WaiterOrLeaderMoves(s, c);
    } else {
      step := MovesAlone(s, c);
    }
  }
}

/**
 The reconnect loop of one connection: the retry budget and backoff of `RetryState`, and
 `connection_run` driving them through any sequence of sessions.
 */
module Reconnect {
  import opened Common
  import opened Sessions

  const U32_MAX: nat := 0xFFFF_FFFF

  /** Nanoseconds of the longest duration: u64::MAX seconds and 999_999_999 nanoseconds. */
  const DURATION_MAX: nat := 0xFFFF_FFFF_FFFF_FFFF * 1_000_000_000 + 999_999_999

  type U32 = n: nat | n <= U32_MAX
  type Duration = d: nat | d <= DURATION_MAX

  datatype ReconnectPolicy = ReconnectPolicy(
    maxAttempts: U32, baseBackoff: Duration, maxBackoff: Duration, connectTimeout: Duration)
  {
    predicate Exhausted(attempts: U32) {
      maxAttempts != 0 && attempts >= maxAttempts
    }

    /** What `validate` accepts. */
    predicate Valid() {
      0 < baseBackoff <= maxBackoff && 0 < connectTimeout
    }
  }

  const SECOND: nat := 1_000_000_000
  const DEFAULT_POLICY := ReconnectPolicy(5, 2 * SECOND, 32 * SECOND, 10 * SECOND)

  // ----- attempts and backoff

  datatype Retry = Retry(policy: ReconnectPolicy, attempts: U32, backoff: Duration)

  function Fresh(policy: ReconnectPolicy): Retry {
    Retry(policy, 0, policy.baseBackoff)
  }

  function SaturatingSucc(n: U32): U32 {
    if n == U32_MAX then n else n + 1
  }

  function SaturatingDouble(d: Duration): Duration {
    Min(2 * d, DURATION_MAX)
  }

  function AfterFailed(r: Retry): Retry {
    r.(attempts := SaturatingSucc(r.attempts))
  }

  function AfterRejected(r: Retry): Retry {
    AfterFailed(r.(backoff := r.policy.maxBackoff))
  }

  function AfterRecovered(r: Retry): Retry {
    r.(attempts := 0, backoff := r.policy.baseBackoff)
  }

  function AfterUndelayedWait(r: Retry): Retry {
    r.(backoff := Min(SaturatingDouble(r.backoff), r.policy.maxBackoff))
  }

  class RetryState {
    const policy: ReconnectPolicy
    var attempts: U32
    var backoff: Duration

    function View(): Retry
      reads this
    {
      Retry(policy, attempts, backoff)
    }

    constructor (policy: ReconnectPolicy)
      ensures View() == Fresh(policy)
    {
      this.policy := policy;
      attempts := 0;
      backoff := policy.baseBackoff;
    }

    method Failed() returns (count: U32)
      modifies this
      ensures View() == AfterFailed(old(View())) && count == attempts
    {
      if attempts < U32_MAX {
        attempts := attempts + 1;
      }
      count := attempts;
    }

    method Rejected() returns (count: U32)
      modifies this
      ensures View() == AfterRejected(old(View())) && count == attempts
    {
      backoff := policy.maxBackoff;
      count := Failed();
    }

    method Recovered()
      modifies this
      ensures View() == AfterRecovered(old(View()))
    {
      attempts := 0;
      backoff := policy.baseBackoff;
    }

    /** `stopped` says that the stop signal won the race against the sleep. */
    method Wait(delay: Option<Duration>, stopped: bool) returns (goesOn: bool)
      modifies this
      ensures goesOn == !stopped
      ensures View() == if goesOn && delay.None? then AfterUndelayedWait(old(View())) else old(View())
    {
      if stopped {
        return false;
      }
      if delay.None? {
        backoff := Min(SaturatingDouble(backoff), policy.maxBackoff);
      }
      goesOn := true;
    }
  }

  // ----- the reconnect loop

  /** Everything one trip round the loop takes from outside. */
  datatype Pass = Pass(
    stopBefore: bool,
    outcome: SessionOutcome,
    rejection: Option<string>,
    now: SystemTime,
    stopDuringWait: bool)

  /** One `AttemptFailed` report, or a plain reconnect, and the sleep it announces. */
  datatype Entry = Entry(attempt: U32, cause: Option<string>, retryIn: Duration, delayed: bool)

  datatype End = StillRunning | ReturnedOk | GaveUp(attempts: U32, rejection: Option<string>)

  datatype Progress = Progress(retry: Retry, log: seq<Entry>, end: End)

  function LimitedWait(policy: ReconnectPolicy, until: SystemTime, now: SystemTime): (d: Duration)
    ensures d >= policy.baseBackoff && now + d >= until && (d == policy.baseBackoff || now + d == until)
  {
    if until - now <= policy.baseBackoff then policy.baseBackoff else until - now
  }

  /** What one trip does to the retry state before it sleeps, with the delay and cause it settles on. */
  function Settle(r: Retry, p: Pass): (Retry, Option<Duration>, Option<string>)
    requires !p.outcome.Stopped?
  {
    if p.rejection.Some? then (AfterRejected(r), None, Some("rejected by relay: " + p.rejection.value))
    else match p.outcome
      case NeverUp(failure) =>
        if failure.rateLimitedUntil.Some?
        then (r, Some(LimitedWait(r.policy, failure.rateLimitedUntil.value, p.now)), Some(failure.cause))
        else (AfterFailed(r), None, Some(failure.cause))
      case _ => (AfterRecovered(r), None, None)
  }

  predicate IsCharged(p: Pass) {
    p.rejection.Some? || (p.outcome.NeverUp? && p.outcome.failure.rateLimitedUntil.None?)
  }

  predicate IsLimited(p: Pass) {
    p.rejection.None? && p.outcome.NeverUp? && p.outcome.failure.rateLimitedUntil.Some?
  }

  predicate Recovers(p: Pass) {
    p.rejection.None? && p.outcome.Lost?
  }

  predicate IsRejected(p: Pass) {
    p.rejection.Some?
  }

  /** Whether this trip sees the stop signal. */
  predicate SeesStop(p: Pass) {
    p.stopBefore || p.outcome.Stopped? || p.stopDuringWait
  }

  function AfterPass(before: Progress, p: Pass): Progress {
    if p.stopBefore || p.outcome.Stopped? then before.(end := ReturnedOk)
    else
      var (r, delay, cause) := Settle(before.retry, p);
      if IsCharged(p) && r.policy.Exhausted(r.attempts) then before.(retry := r, end := GaveUp(r.attempts, p.rejection))
      else
        var entry := Entry(SaturatingSucc(before.retry.attempts), cause,
                           if delay.Some? then delay.value else r.backoff, delay.Some?);
        Progress(
          if delay.None? && !p.stopDuringWait then AfterUndelayedWait(r) else r,
          before.log + [entry],
          if p.stopDuringWait then ReturnedOk else StillRunning)
  }

  function After(policy: ReconnectPolicy, passes: seq<Pass>): Progress {
    if passes == [] then Progress(Fresh(policy), [], StillRunning)
    else
      var before := After(policy, passes[..|passes| - 1]);
      if before.end.StillRunning? then AfterPass(before, passes[|passes| - 1]) else before
  }

  /** `connection_run` over the trips `passes` offers it. */
  method ConnectionRun(policy: ReconnectPolicy, passes: seq<Pass>) returns (end: End, log: seq<Entry>)
    ensures end == After(policy, passes).end && log == After(policy, passes).log
  {
    var retry := new RetryState(policy);
    log := [];
    for i := 0 to |passes|
      invariant After(policy, passes[..i]) == Progress(retry.View(), log, StillRunning)
      invariant fresh(retry)
    {
      var p := passes[i];
      assert passes[..i + 1][..i] == passes[..i];
      ghost var now := AfterPass(After(policy, passes[..i]), p);
      assert After(policy, passes[..i + 1]) == now;
      if p.stopBefore || p.outcome.Stopped? {
        EndsHere(policy, passes, i + 1);
        return ReturnedOk, log;
      }
      var attempt := SaturatingSucc(retry.attempts);
      var delay: Option<Duration>, cause := None, None;
      if p.rejection.Some? {
        var attempts := retry.Rejected();
        if policy.Exhausted(attempts) {
          EndsHere(policy, passes, i + 1);
          return GaveUp(attempts, p.rejection), log;
        }
        cause := Some("rejected by relay: " + p.rejection.value);
      } else if p.outcome.NeverUp? {
        var failure := p.outcome.failure;
        if failure.rateLimitedUntil.Some? {
          delay := Some(LimitedWait(policy, failure.rateLimitedUntil.value, p.now));
        } else {
          var attempts := retry.Failed();
          if policy.Exhausted(attempts) {
            EndsHere(policy, passes, i + 1);
            return GaveUp(attempts, None), log;
          }
        }
        cause := Some(failure.cause);
      } else {
        retry.Recovered();
      }
      var retryIn := if delay.Some? then delay.value else retry.backoff;
      log := log + [Entry(attempt, cause, retryIn, delay.Some?)];
      var goesOn := retry.Wait(delay, p.stopDuringWait);
      if !goesOn {
        EndsHere(policy, passes, i + 1);
        return ReturnedOk, log;
      }
    }
    assert passes[..|passes|] == passes;
    end := StillRunning;
  }

  /** Trips offered after the loop has ended are never taken. */
  lemma {:induction false} EndsHere(policy: ReconnectPolicy, passes: seq<Pass>, n: nat)
    requires n <= |passes| && !After(policy, passes[..n]).end.StillRunning?
    ensures After(policy, passes) == After(policy, passes[..n])
    decreases |passes|
  {
    if n == |passes| {
      assert passes[..n] == passes;
    } else {
      assert passes[..|passes| - 1][..n] == passes[..n];
      EndsHere(policy, passes[..|passes| - 1], n);
    }
  }

  // ----- the same facts read off the history alone

  /** The trips after the last one that recovered. */
  function SinceRecovery(h: seq<Pass>): seq<Pass> {
    if h == [] || Recovers(h[|h| - 1]) then [] else SinceRecovery(h[..|h| - 1]) + [h[|h| - 1]]
  }

  function Charges(h: seq<Pass>): nat {
    Count(SinceRecovery(h), IsCharged)
  }

  predicate RejectedSince(h: seq<Pass>) {
    exists i :: 0 <= i < |SinceRecovery(h)| && IsRejected(SinceRecovery(h)[i])
  }

  /** Undelayed sleeps since the start, or since (and including) the last recovery's own. */
  function Sleeps(h: seq<Pass>): nat {
    if h == [] then 0
    else if Recovers(h[|h| - 1]) then 1
    else Sleeps(h[..|h| - 1]) + if IsLimited(h[|h| - 1]) then 0 else 1
  }

  function Pow2(k: nat): (p: nat)
    ensures p > 0
  {
    if k == 0 then 1 else 2 * Pow2(k - 1)
  }

  /** The `k`-th term of the doubling schedule. */
  function Term(policy: ReconnectPolicy, k: nat): Duration {
    Min(policy.baseBackoff * Pow2(k), policy.maxBackoff)
  }

  function NextUndelayed(policy: ReconnectPolicy, h: seq<Pass>): Duration {
    if RejectedSince(h) then policy.maxBackoff else Term(policy, Sleeps(h))
  }

  /** The entry the schedule calls for when trip `p` follows history `h`. */
  function Scheduled(policy: ReconnectPolicy, h: seq<Pass>, p: Pass): Entry
    requires !p.outcome.Stopped?
  {
    Entry(
      Min(Charges(h) + 1, U32_MAX),
      if IsRejected(p) then Some("rejected by relay: " + p.rejection.value)
      else if p.outcome.NeverUp? then Some(p.outcome.failure.cause)
      else None,
      if IsLimited(p) then LimitedWait(policy, p.outcome.failure.rateLimitedUntil.value, p.now)
      else if Recovers(p) then policy.baseBackoff
      else if RejectedSince(h + [p]) then policy.maxBackoff
      else Term(policy, Sleeps(h)),
      IsLimited(p))
  }

  lemma TermDoubles(policy: ReconnectPolicy, k: nat)
    ensures Min(SaturatingDouble(Term(policy, k)), policy.maxBackoff) == Term(policy, k + 1)
  {
    var b, p := policy.baseBackoff, Pow2(k);
    assert b * (2 * p) == 2 * (b * p);
  }

  lemma RejectedSinceStep(h: seq<Pass>, p: Pass)
    ensures RejectedSince(h + [p]) <==> !Recovers(p) && (RejectedSince(h) || IsRejected(p))
  {
    assert (h + [p])[..|h|] == h;
    var before, now := SinceRecovery(h), SinceRecovery(h + [p]);
    if !Recovers(p) {
      assert now == before + [p];
      if RejectedSince(h) {
        var i :| 0 <= i < |before| && IsRejected(before[i]);
        assert IsRejected(now[i]);
      }
      if IsRejected(p) {
        assert IsRejected(now[|before|]);
      }
    }
  }

  lemma ChargesStep(h: seq<Pass>, p: Pass)
    ensures Charges(h + [p]) == if Recovers(p) then 0 else Charges(h) + if IsCharged(p) then 1 else 0
  {
    assert (h + [p])[..|h|] == h;
    if !Recovers(p) {
      assert SinceRecovery(h + [p])[..|SinceRecovery(h)|] == SinceRecovery(h);
    }
  }

  /** The loop's counters while it runs are exactly what the history says. */
  predicate Explained(policy: ReconnectPolicy, h: seq<Pass>) {
    var now := After(policy, h);
    now.end.StillRunning? ==>
      && now.retry == Retry(policy, Min(Charges(h), U32_MAX), NextUndelayed(policy, h))
      && (policy.maxAttempts != 0 ==> Charges(h) < policy.maxAttempts)
      && |now.log| == |h|
      && forall i :: 0 <= i < |h| ==> !h[i].outcome.Stopped? && now.log[i] == Scheduled(policy, h[..i], h[i])
  }

  lemma NextUndelayedStep(policy: ReconnectPolicy, attempts: U32, h: seq<Pass>, p: Pass)
    requires policy.Valid() && !p.outcome.Stopped?
    ensures var r := Retry(policy, attempts, NextUndelayed(policy, h));
            var settled := Settle(r, p).0;
            && (!IsLimited(p) ==> settled.backoff == Scheduled(policy, h, p).retryIn)
            && (if IsLimited(p) then settled else AfterUndelayedWait(settled)).backoff == NextUndelayed(policy, h + [p])
  {
    assert (h + [p])[..|h|] == h;
    RejectedSinceStep(h, p);
    TermDoubles(policy, Sleeps(h));
    TermDoubles(policy, 0);
  }

  lemma AfterSnoc(policy: ReconnectPolicy, h: seq<Pass>, p: Pass)
    requires After(policy, h).end.StillRunning?
    ensures After(policy, h + [p]) == AfterPass(After(policy, h), p)
  {
    assert (h + [p])[..|h|] == h;
  }

  lemma ExplainedStep(policy: ReconnectPolicy, h: seq<Pass>, p: Pass)
    requires policy.Valid() && Explained(policy, h) && After(policy, h).end.StillRunning?
    ensures Explained(policy, h + [p])
  {
    if After(policy, h + [p]).end.StillRunning? {
      AfterSnoc(policy, h, p);
      RetryStep(policy, After(policy, h), h, p);
      EntryStep(policy, After(policy, h), h, p);
      LogExtends(policy, After(policy, h).log, h, p);
    }
  }

  lemma RetryStep(policy: ReconnectPolicy, before: Progress, h: seq<Pass>, p: Pass)
    requires policy.Valid() && AfterPass(before, p).end.StillRunning?
    requires before.retry == Retry(policy, Min(Charges(h), U32_MAX), NextUndelayed(policy, h))
    requires policy.maxAttempts != 0 ==> Charges(h) < policy.maxAttempts
    ensures var h' := h + [p];
            && AfterPass(before, p).retry == Retry(policy, Min(Charges(h'), U32_MAX), NextUndelayed(policy, h'))
            && (policy.maxAttempts != 0 ==> Charges(h') < policy.maxAttempts)
  {
    ChargesStep(h, p);
    NextUndelayedStep(policy, before.retry.attempts, h, p);
  }

  lemma EntryStep(policy: ReconnectPolicy, before: Progress, h: seq<Pass>, p: Pass)
    requires policy.Valid() && !p.stopBefore && !p.outcome.Stopped? && !AfterPass(before, p).end.GaveUp?
    requires before.retry == Retry(policy, Min(Charges(h), U32_MAX), NextUndelayed(policy, h))
    ensures AfterPass(before, p).log == before.log + [Scheduled(policy, h, p)]
  {
    NextUndelayedStep(policy, before.retry.attempts, h, p);
  }

  lemma LogExtends(policy: ReconnectPolicy, log: seq<Entry>, h: seq<Pass>, p: Pass)
    requires |log| == |h| && !p.outcome.Stopped?
    requires forall i :: 0 <= i < |h| ==> !h[i].outcome.Stopped? && log[i] == Scheduled(policy, h[..i], h[i])
    ensures var h', log' := h + [p], log + [Scheduled(policy, h, p)];
            forall i :: 0 <= i < |h'| ==> !h'[i].outcome.Stopped? && log'[i] == Scheduled(policy, h'[..i], h'[i])
  {
    forall i | 0 <= i < |h + [p]|
      ensures (h + [p])[..i] == h[..i]
    {
    }
  }

  lemma {:induction false} ExplainedAlways(policy: ReconnectPolicy, h: seq<Pass>)
    requires policy.Valid()
    ensures Explained(policy, h)
  {
    if h != [] {
      var before, p := h[..|h| - 1], h[|h| - 1];
      assert before + [p] == h;
      ExplainedAlways(policy, before);
      if After(policy, before).end.StillRunning? {
        ExplainedStep(policy, before, p);
      }
    } else {
      assert policy.baseBackoff * Pow2(0) == policy.baseBackoff;
    }
  }

  // ----- what every run guarantees

  /** While it runs, `attempts` is the saturated count of charged trips since the last recovery. */
  lemma AttemptsCountCharges(policy: ReconnectPolicy, h: seq<Pass>)
    requires policy.Valid() && After(policy, h).end.StillRunning?
    ensures After(policy, h).retry.attempts == Min(Charges(h), U32_MAX) && After(policy, h).retry.policy == policy
    ensures policy.maxAttempts != 0 ==> Charges(h) < policy.maxAttempts
    ensures |After(policy, h).log| == |h|
  {
    ExplainedAlways(policy, h);
  }

  /** The loop gives up at the `maxAttempts`-th charge since the last recovery, and at no other trip. */
  lemma GivesUpExactlyAtTheBudget(policy: ReconnectPolicy, h: seq<Pass>, p: Pass)
    requires policy.Valid() && After(policy, h).end.StillRunning?
    ensures After(policy, h + [p]).end.GaveUp? <==>
              !p.stopBefore && !p.outcome.Stopped? && IsCharged(p) && policy.maxAttempts == Charges(h) + 1
    ensures After(policy, h + [p]).end.GaveUp? ==> After(policy, h + [p]).end == GaveUp(policy.maxAttempts, p.rejection)
  {
    AttemptsCountCharges(policy, h);
    AfterSnoc(policy, h, p);
  }

  /** Trip `i` is taken and comes to its sleep: stop is not seen before it, and the budget is not used up. */
  predicate ComesToSleep(policy: ReconnectPolicy, h: seq<Pass>, i: nat)
    requires i < |h|
  {
    && After(policy, h[..i]).end.StillRunning? && !h[i].stopBefore && !h[i].outcome.Stopped?
    && !After(policy, h[..i + 1]).end.GaveUp?
  }

  lemma {:induction false} LogBound(policy: ReconnectPolicy, h: seq<Pass>)
    ensures |After(policy, h).log| <= |h|
  {
    if h != [] {
      LogBound(policy, h[..|h| - 1]);
    }
  }

  lemma LastTripScheduled(policy: ReconnectPolicy, h: seq<Pass>, p: Pass)
    requires policy.Valid()
    ensures var log := After(policy, h + [p]).log;
            && (|h| < |log| <==> ComesToSleep(policy, h + [p], |h|))
            && (|h| < |log| ==> !p.outcome.Stopped? && log[|h|] == Scheduled(policy, h, p))
  {
    assert (h + [p])[..|h|] == h && (h + [p])[..|h| + 1] == h + [p];
    LogBound(policy, h);
    if After(policy, h).end.StillRunning? {
      AfterSnoc(policy, h, p);
      ExplainedAlways(policy, h);
      if ComesToSleep(policy, h + [p], |h|) {
        EntryStep(policy, After(policy, h), h, p);
      }
    }
  }

  lemma LogGrows(policy: ReconnectPolicy, h: seq<Pass>, p: Pass, i: nat)
    requires policy.Valid() && i < |h|
    ensures var before, log := After(policy, h).log, After(policy, h + [p]).log;
            (i < |log| <==> i < |before|) && (i < |log| ==> log[i] == before[i])
  {
    assert (h + [p])[..|h|] == h;
    if After(policy, h).end.StillRunning? {
      AttemptsCountCharges(policy, h);
    }
  }

  /**
   In every run, ended or not, trip `i` reports and sleeps exactly when it comes to its
   sleep, and then as scheduled; a sleep that stop cuts short is no exception.
   */
  lemma {:induction false} WaitsFollowTheSchedule(policy: ReconnectPolicy, h: seq<Pass>, i: nat)
    requires policy.Valid() && i < |h|
    ensures i < |After(policy, h).log| <==> ComesToSleep(policy, h, i)
    ensures i < |After(policy, h).log| ==>
              !h[i].outcome.Stopped? && After(policy, h).log[i] == Scheduled(policy, h[..i], h[i])
    decreases |h|
  {
    var before, p := h[..|h| - 1], h[|h| - 1];
    assert before + [p] == h;
    if i == |before| {
      LastTripScheduled(policy, before, p);
    } else {
      WaitsFollowTheSchedule(policy, before, i);
      LogGrows(policy, before, p, i);
      assert before[..i] == h[..i] && before[..i + 1] == h[..i + 1];
    }
  }

  /**
   In every run the sleep of a trip is delayed exactly when the CA limited it and the relay did
   not reject it, and is then the shortest that lasts the base backoff and until the limit ends.
   */
  lemma DelayedWaitIsLeast(policy: ReconnectPolicy, h: seq<Pass>, i: nat)
    requires policy.Valid() && i < |h| && i < |After(policy, h).log|
    ensures After(policy, h).log[i].delayed <==>
              h[i].rejection.None? && h[i].outcome.NeverUp? && h[i].outcome.failure.rateLimitedUntil.Some?
    ensures After(policy, h).log[i].delayed ==>
              var d, end := After(policy, h).log[i].retryIn, h[i].outcome.failure.rateLimitedUntil.value;
              && d >= policy.baseBackoff && h[i].now + d >= end
              && (d == policy.baseBackoff || h[i].now + d == end)
  {
    WaitsFollowTheSchedule(policy, h, i);
  }

  lemma ScheduledInRange(policy: ReconnectPolicy, h: seq<Pass>, p: Pass)
    requires policy.Valid() && !p.outcome.Stopped? && !IsLimited(p)
    ensures 0 < Scheduled(policy, h, p).retryIn <= policy.maxBackoff
  {
    assert policy.baseBackoff * Pow2(Sleeps(h)) > 0;
  }

  /** Every undelayed sleep of every run. */
  ghost predicate SleepsInRange(policy: ReconnectPolicy) {
    forall h: seq<Pass>, i: nat {:trigger After(policy, h).log[i]} ::
      i < |After(policy, h).log| && !After(policy, h).log[i].delayed ==> 0 < After(policy, h).log[i].retryIn <= policy.maxBackoff
  }

  /** The backoffs `validate` accepts are exactly those whose undelayed sleeps are never zero and never above the ceiling. */
  lemma ValidBackoffsAreThoseInRange(policy: ReconnectPolicy)
    requires policy.connectTimeout > 0
    ensures policy.Valid() <==> SleepsInRange(policy)
  {
    if policy.Valid() {
      forall h: seq<Pass>, i: nat | i < |After(policy, h).log| && !After(policy, h).log[i].delayed
        ensures 0 < After(policy, h).log[i].retryIn <= policy.maxBackoff
      {
        LogBound(policy, h);
        WaitsFollowTheSchedule(policy, h, i);
        ScheduledInRange(policy, h[..i], h[i]);
      }
    } else {
      var lost := Pass(false, Lost, None, 0, false);
      AfterSnoc(policy, [], lost);
      assert [] + [lost] == [lost];
      assert After(policy, [lost]).log == [Entry(1, None, policy.baseBackoff, false)];
      assert After(policy, [lost]).log[0].retryIn == policy.baseBackoff;
    }
  }

  /** A running loop returns normally at a trip exactly when that trip sees the stop signal before it gives up. */
  lemma ReturnsExactlyWhenStopped(policy: ReconnectPolicy, h: seq<Pass>, p: Pass)
    requires After(policy, h).end.StillRunning?
    ensures After(policy, h + [p]).end.ReturnedOk? <==> SeesStop(p) && !After(policy, h + [p]).end.GaveUp?
    ensures SeesStop(p) <==> p.stopBefore || p.outcome == Stopped || p.stopDuringWait
  {
    AfterSnoc(policy, h, p);
  }

  /** A connection task returns normally only if a trip saw the stop signal. */
  lemma {:induction false} ReturnsOnlyWhenStopped(policy: ReconnectPolicy, h: seq<Pass>)
    requires After(policy, h).end.ReturnedOk?
    ensures exists i :: 0 <= i < |h| && SeesStop(h[i])
  {
    var before := h[..|h| - 1];
    if After(policy, before).end.StillRunning? {
      assert SeesStop(h[|h| - 1]);
    } else {
      ReturnsOnlyWhenStopped(policy, before);
      var i :| 0 <= i < |before| && SeesStop(before[i]);
      assert SeesStop(h[i]);
    }
  }

  predicate IsPlainFailure(p: Pass) {
    !SeesStop(p) && IsCharged(p) && !IsRejected(p)
  }

  lemma {:induction false} PlainHistory(h: seq<Pass>)
    requires forall i :: 0 <= i < |h| ==> IsPlainFailure(h[i])
    ensures SinceRecovery(h) == h && Sleeps(h) == |h| && Charges(h) == |h| && !RejectedSince(h)
  {
    if h != [] {
      PlainHistory(h[..|h| - 1]);
      assert SinceRecovery(h) == h[..|h| - 1] + [h[|h| - 1]] == h;
    }
  }

  lemma {:induction false} PlainFailuresRun(policy: ReconnectPolicy, h: seq<Pass>)
    requires policy.Valid() && forall i :: 0 <= i < |h| ==> IsPlainFailure(h[i])
    requires policy.maxAttempts == 0 || |h| < policy.maxAttempts
    ensures After(policy, h).end.StillRunning?
  {
    if h != [] {
      var before := h[..|h| - 1];
      assert before + [h[|h| - 1]] == h;
      PlainFailuresRun(policy, before);
      PlainHistory(before);
      GivesUpExactlyAtTheBudget(policy, before, h[|h| - 1]);
    }
  }

  /** `n` plain failures against a budget of `n` sleep exactly the first `n - 1` terms, then give up. */
  lemma PlainFailuresUseTheBudget(policy: ReconnectPolicy, h: seq<Pass>)
    requires policy.Valid() && |h| == policy.maxAttempts > 0
    requires forall i :: 0 <= i < |h| ==> IsPlainFailure(h[i])
    ensures After(policy, h).end == GaveUp(policy.maxAttempts, None)
    ensures |After(policy, h).log| == policy.maxAttempts - 1
    ensures forall i :: 0 <= i < policy.maxAttempts - 1 ==>
              After(policy, h).log[i].retryIn == Term(policy, i) && After(policy, h).log[i].attempt == i + 1
  {
    var before, last := h[..|h| - 1], h[|h| - 1];
    assert before + [last] == h;
    PlainFailuresRun(policy, before);
    PlainHistory(before);
    GivesUpExactlyAtTheBudget(policy, before, last);
    AttemptsCountCharges(policy, before);
    AfterSnoc(policy, before, last);
    forall i | 0 <= i < |before|
      ensures |After(policy, before).log| == |before|
      ensures After(policy, before).log[i].retryIn == Term(policy, i) && After(policy, before).log[i].attempt == i + 1
    {
      PlainEntry(policy, before, i);
    }
  }

  lemma PlainEntry(policy: ReconnectPolicy, h: seq<Pass>, i: nat)
    requires policy.Valid() && After(policy, h).end.StillRunning? && i < |h|
    requires i + 1 < U32_MAX && forall j :: 0 <= j < |h| ==> IsPlainFailure(h[j])
    ensures |After(policy, h).log| == |h|
    ensures After(policy, h).log[i].retryIn == Term(policy, i) && After(policy, h).log[i].attempt == i + 1
  {
    AttemptsCountCharges(policy, h);
    WaitsFollowTheSchedule(policy, h, i);
    PlainHistory(h[..i]);
    PlainHistory(h[..i] + [h[i]]);
  }

  /** The default budget sleeps 2, 4, 8 and 16 seconds; its fifth failure ends the task unslept. */
  lemma DefaultSleeps(h: seq<Pass>)
    requires |h| == 5 && forall i :: 0 <= i < |h| ==> IsPlainFailure(h[i])
    ensures After(DEFAULT_POLICY, h).end.GaveUp? && |After(DEFAULT_POLICY, h).log| == 4
    ensures forall i :: 0 <= i < 4 ==> After(DEFAULT_POLICY, h).log[i].retryIn == [2, 4, 8, 16][i] * 1_000_000_000
  {
    PlainFailuresUseTheBudget(DEFAULT_POLICY, h);
    assert Pow2(0) == 1 && Pow2(1) == 2 && Pow2(2) == 4 && Pow2(3) == 8;
  }

  /** Under the default policy a first rejection sleeps the longest there is, 32 seconds. */
  lemma DefaultRejectionSleeps(p: Pass)
    requires p.rejection.Some? && !p.stopBefore && !p.outcome.Stopped?
    ensures DEFAULT_POLICY.connectTimeout == 10_000_000_000
    ensures After(DEFAULT_POLICY, [p]).log == [Entry(1, Some("rejected by relay: " + p.rejection.value), 32_000_000_000, false)]
  {
    AfterSnoc(DEFAULT_POLICY, [], p);
    assert [] + [p] == [p];
  }

  /** The count saturates at the largest 32-bit number. */
  lemma AttemptsSaturate(policy: ReconnectPolicy, h: seq<Pass>)
    requires policy.Valid() && After(policy, h).end.StillRunning?
    ensures After(policy, h).retry.attempts == if Charges(h) <= 4_294_967_295 then Charges(h) else 4_294_967_295
  {
    AttemptsCountCharges(policy, h);
  }
}

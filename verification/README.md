# Tunnel protocols, verified

A reverse tunnel keeps a device reachable through relays. The client holds QUIC or HTTP/2
connections to each relay, obtains certificates from an ACME CA with TLS-ALPN-01, and
reports what happens to a foreign (mobile) host; the relay keeps registries of connected
agents and of pending challenges, and routes public connections by SNI. This project models
the concurrent protocols behind that, and the byte-level loops under them, and proves what
holds over every interleaving and every input.

A protocol is a state machine: a step is what the code does under one lock or between two
awaits, `Run` plays a sequence of steps, and every theorem is about any sequence that `Run`
accepts. Objects whose methods update fields in place are classes, and loops that update
variables are methods with loops; both are proved against the same functions the state
machines are built from. Each machine has a second definition of its state, read off the
history of steps alone, and every run is proved to agree with it. A `watch` channel is a version number that each receiver compares
with the version it last saw; a `Notify` is a one-slot permit.

| file | models |
|---|---|
| `Common.dfy` | histories, counting over sequences, session outcomes |
| `PoolLiveness.dfy`, `PoolSession.dfy`, `PoolHistory.dfy` | an H2 pool: N members connecting, serving, parking and waking beside the session loop |
| `Reconnect.dfy`, `JoinLoop.dfy`, `JoinHistory.dfy` | one connection's retry budget and backoff; `run` joining all connections |
| `CertOrders.dfy`, `CertHistory.dfy`, `CertLeaders.dfy`, `CertPrepare.dfy` | leader and follower coordination of ACME orders (key authorization: section 8.1 of RFC 8555; challenge: section 3 of RFC 8737) |
| `EventStream.dfy`, `ForeignRun.dfy`, `ForeignHistory.dfy` | the event stream a foreign host receives, with the future dropped at any await |
| `PendingAlpn.dfy`, `AgentRegistry.dfy`, `RelayHistory.dfy` | the relay's two registries and round-robin choice |
| `ClientHelloPeek.dfy`, `ControlFrames.dfy`, `H2Adapters.dfy` | the peek loop, control framing, and the H2 stream adapters (flow control: section 5.2 of RFC 9113) |

## Where the code and its documentation disagree

The model follows the code.

- The documentation of `prepare` says that of several concurrent callers only one becomes
  leader (tunnel-client/src/acme.rs:213-218). Entries are removed by domain, not by the
  entry that was observed (lines 252, 279, 285, 350 and 413), so a late removal can evict a
  leader at work. `CertUniqueness.TwoLeadersHappen` gives a run with two leaders and no fault,
  `CertUniqueness.OneLeaderUnlessEvicted` shows that nothing but such an eviction breaks
  uniqueness, and `CertUniqueness.EvictionLetsInASecondLeader` that every such eviction can.
- The documentation of `ReconnectPolicy` lists default sleeps of 2, 4, 8, 16 and 32 seconds
  before giving up (tunnel-client/src/client.rs:32-34). The fifth failure uses up the budget
  before its sleep, so only the first four happen: `Reconnect.DefaultSleeps`.
- `wait_down` is documented to resolve once the pool is fully down
  (tunnel-client/src/client.rs:303). Its permit outlives the fall it stands for, so a member
  that comes up again before the session loop takes it may find its pool ended as `Lost` while it
  is up: `PoolSession.StalePermitEndsALivePool`. That takes a second rise of the pool:
  `PoolSession.LostWhileUpNeedsASecondRise`.
- The repository's README speaks of random agent selection (README.md:162); the relay goes
  round-robin, and is fair over a window exactly as `AgentPool.RoundRobinIsFair` and
  `AgentPool.WrapBreaksFairness` say.

## Assumptions

- Pool members do not panic, ending a session removes all its members in one step, and the
  rejection slot is empty when a session starts (the reconnect loop empties it after each).
- The detached tail task of the foreign client is spawned and gets to run, and the event
  senders outlive `run`.
- Registration uids are distinct, and challenge tokens do not wrap.
- Bytes peeked from a socket accumulate, and a parse that succeeds on a prefix gives the same
  answer on every longer one.
- Connection tasks are not cancelled while `run` is joining them.
- What the CA, the peer, the clock and the H2 library answer is a parameter: any answer is
  allowed.

## Model

| member | source | states |
|---|---|---|
| PoolLiveness.PoolLiveness.constructor | tunnel-client/src/client.rs:210-227 | a new pool has nobody up or parked, no permit and version 0 |
| PoolLiveness.PoolLiveness.Up | tunnel-client/src/client.rs:233-248 | the new state is `AfterUp` of the old: version bump and `Established` exactly on the rise from none |
| PoolLiveness.PoolLiveness.Down | tunnel-client/src/client.rs:253-271 | the new state is `AfterDown` of the old, which `PoolHistory.LossIsReported` and `PoolHistory.StoppedLossIsSilent` pin: permit on every fall to none, `Lost` only when not stopped |
| PoolLiveness.PoolLiveness.Park | tunnel-client/src/client.rs:276-286 | refuses while a sibling is up, else counts the member, posts the permit at full count, and subscribes at the current version |
| PoolLiveness.PoolLiveness.Unpark | tunnel-client/src/client.rs:288-291 | the new state is `AfterUnpark` of the old |
| PoolLiveness.PoolLiveness.PollWentDown | tunnel-client/src/client.rs:304-306 | resolves exactly when a permit is there, and takes it |
| PoolLiveness.PoolLiveness.PollAllParked | tunnel-client/src/client.rs:294-296 | resolves exactly when a permit is there, and takes it |
| PoolSession.StepKept | tunnel-client/src/client.rs:1194-1386 | every step of a member or of the session loop keeps the whole pool invariant |
| PoolSession.CountersKept | tunnel-client/src/client.rs:233-291 | after any step `live` and `parked` still count the members in those phases |
| PoolSession.WakesKept | tunnel-client/src/client.rs:276-286 | after any step no parked member of an up pool has seen the current version |
| PoolSession.PermitsKept | tunnel-client/src/client.rs:253-286 | after any step a down pool that was up, and a fully parked pool, have their permit posted |
| PoolSession.StuckKept | tunnel-client/src/client.rs:276-286 | after any step, an all-parked permit in a session never up still means that no member can come up |
| PoolSession.VerdictKept | tunnel-client/src/client.rs:1245-1291 | after any step the verdict and the failure slot are still right |
| PoolSession.CountersAndWakeups | tunnel-client/src/client.rs:233-291 | in every run the counters equal the member phases, and while the pool is up every parked member's version is old and its wake-up is enabled |
| PoolSession.NoMemberMovesOnlyWhenAllParked | tunnel-client/src/client.rs:276-286 | in every run, no stop and no member able to move means all are parked and the permit is posted |
| PoolSession.NeverWedged | tunnel-client/src/client.rs:1245-1291 | until the session ends somebody can move, without a member coming up or a stop |
| PoolSession.VerdictIsRight | tunnel-client/src/client.rs:1245-1291 | without stop or rejection a session ends `Lost` exactly when some member was ever up |
| PoolSession.DownPoolIsReported | tunnel-client/src/client.rs:253-271 | a pool that was up and is down can be reported lost at once |
| PoolSession.LostWhileUpNeedsASecondRise | tunnel-client/src/client.rs:253-271 | a session that ends `Lost` while its pool is up has seen the pool go down and come up again |
| PoolSession.StalePermitEndsALivePool | tunnel-client/src/client.rs:303-306 | in any run, a member that comes up again before the loop took the permit of the last fall can have its pool torn down at once |
| PoolSession.LostWhileUpHappens | tunnel-client/src/client.rs:1254-1260 | a concrete run of a pool of two ends `Lost` with a member up |
| PoolSession.NeverUpIsFinal | tunnel-client/src/client.rs:276-286 | once all parked without ever being up, no member comes up in any continuation |
| PoolSession.NeverUpReportsLatestFailure | tunnel-client/src/client.rs:1318-1331 | a session nobody stopped or rejected reports the most recent member failure, never the stock text |
| PoolSession.EventsAlternate | tunnel-client/src/client.rs:233-271 | before a stop `Established` and `Lost` strictly alternate and the last tells whether the pool is up; always one `Established` a rise |
| PoolSession.DownPoolEndsItsSession | tunnel-client/src/client.rs:1354-1386 | with nobody up, a run in which nobody comes up has at most 8 * size + 3 steps and can stop only with the session ended |
| PoolHistory.PoolIsHistory | tunnel-client/src/client.rs:233-306 | in every run counters, version, permits and events are those read off the steps alone |
| PoolHistory.MembersAreHistory | tunnel-client/src/client.rs:1354-1386 | in every run each member stands where its own steps have taken it |
| PoolHistory.LoopIsHistory | tunnel-client/src/client.rs:1245-1291 | in every run the session has ended as its own steps say, with the latest failure or the stock one |
| PoolHistory.MovesAreHistory | tunnel-client/src/client.rs:1354-1497 | in every run a member can take exactly the steps that follow its own last one |
| PoolHistory.LoopMovesAreHistory | tunnel-client/src/client.rs:1245-1291 | in every run the session loop can act exactly on the reasons the history gives |
| PoolHistory.StoppedLossIsSilent | tunnel-client/src/client.rs:250-266 | a connection lost after stop was asked for is never reported as a loss |
| PoolHistory.LossIsReported | tunnel-client/src/client.rs:253-266 | a connection lost before any stop is reported, with its cause, exactly when it was the last one up |
| PoolHistory.StoppedMemberIsDone | tunnel-client/src/client.rs:1375-1377 | a member that looks for stop after it was asked for never moves again |
| PoolHistory.RejectionEndsTheSession | tunnel-client/src/client.rs:1251-1253 | a rejection can end the session at once, with the latest failure or the stock one |
| Reconnect.RetryState.constructor | tunnel-client/src/client.rs:358-364 | no attempts, backoff at the base |
| Reconnect.RetryState.Failed | tunnel-client/src/client.rs:384-387 | saturating count, returned |
| Reconnect.RetryState.Rejected | tunnel-client/src/client.rs:372-375 | backoff pinned to the maximum and the failure counted |
| Reconnect.RetryState.Recovered | tunnel-client/src/client.rs:378-381 | budget and backoff reset |
| Reconnect.RetryState.Wait | tunnel-client/src/client.rs:395-404 | doubles the backoff, capped, only after an undelayed sleep that stop did not cut short |
| Reconnect.LimitedWait | tunnel-client/src/client.rs:796-805 | a rate-limited wait is the shortest that is at least the base backoff and lasts until the limit ends |
| Reconnect.ConnectionRun | tunnel-client/src/client.rs:728-846 | the loop ends, and reports, exactly as the specification `After` says for every sequence of sessions |
| Reconnect.AttemptsCountCharges | tunnel-client/src/client.rs:371-391 | `attempts` is the saturated number of rejected or never-up sessions since the last recovery, leaving out unrejected rate-limited ones |
| Reconnect.GivesUpExactlyAtTheBudget | tunnel-client/src/client.rs:786-817 | the task gives up exactly at the `maxAttempts`-th charge since recovery, so never with budget 0, with the rejection if that was one |
| Reconnect.WaitsFollowTheSchedule | tunnel-client/src/client.rs:786-844 | in every run, ended or not, a trip reports and sleeps exactly when it comes to its sleep, one that stop cuts short included; the sleep is the maximum after a rejection since recovery, else `min(base * 2^k, max)` with k the undelayed sleeps since start or recovery; limited waits leave k alone; number and cause of each report |
| Reconnect.DelayedWaitIsLeast | tunnel-client/src/client.rs:796-805 | in every run a sleep is delayed exactly for an unrejected rate limit, and is then the shortest meeting both bounds |
| Reconnect.ValidBackoffsAreThoseInRange | tunnel-client/src/client.rs:82-100 | the backoffs `validate` accepts are exactly those whose undelayed sleeps are never zero and never above the ceiling |
| Reconnect.ReturnsExactlyWhenStopped | tunnel-client/src/client.rs:749-844 | a running loop returns normally at a trip exactly when that trip sees stop before it gives up |
| Reconnect.AttemptsSaturate | tunnel-client/src/client.rs:384-387 | the count saturates at 4294967295 |
| Reconnect.ExplainedAlways | tunnel-client/src/client.rs:728-846 | counters, budget and the whole log of a running loop are a function of the session history alone |
| Reconnect.PlainFailuresUseTheBudget | tunnel-client/src/client.rs:806-823 | n plain failures against a budget of n sleep exactly the first n - 1 terms and give up |
| Reconnect.DefaultSleeps | tunnel-client/src/client.rs:44-53 | the default policy sleeps 2, 4, 8 and 16 seconds, then gives up |
| Reconnect.DefaultRejectionSleeps | tunnel-client/src/client.rs:44-53 | under the default policy a first rejection sleeps 32 seconds |
| Reconnect.ReturnsOnlyWhenStopped | tunnel-client/src/client.rs:749-846 | a task returns normally only if some trip saw the stop signal |
| Reconnect.TermDoubles | tunnel-client/src/client.rs:400-402 | the saturating, capped doubling steps through the terms of the schedule |
| JoinLoop.TripEnds | tunnel-client/src/client.rs:780-844 | what a trip of its reconnect loop makes of a task: it returns normally only once stop was given, and fails only with its budget used up |
| JoinLoop.StepKept | tunnel-client/src/client.rs:674-711 | every step, a trip or a panic of any task included, keeps owners, endings, events, last cause and result consistent |
| JoinLoop.FailsOnlyWhenAllGaveUp | tunnel-client/src/client.rs:674-719 | an error is returned only when every spawned task ended for good and was reported exactly once, with its own owner and cause |
| JoinLoop.GaveUpMeansBudgetOrPanic | tunnel-client/src/client.rs:786-817 | every reported task panicked or made exactly `maxAttempts` attempts; under an unlimited policy it panicked |
| JoinHistory.EndingsAreEarned | tunnel-client/src/client.rs:681-711 | a task ends in a panic only by panicking with that cause; any other that ended for good used up its budget, with the rejection of its last trip |
| JoinHistory.TasksAreHistory | tunnel-client/src/client.rs:674-711 | in every run a task is where its own trips and panics have taken it, and joined exactly when `run` joined it |
| JoinHistory.ReportsAreHistory | tunnel-client/src/client.rs:674-719 | in every run the reports, in order, and what `run` returned are those of the history |
| JoinHistory.LiveTasksMove | tunnel-client/src/client.rs:749-846 | a task that has not ended can take any trip, though none that sees a stop nobody asked for, or panic |
| JoinHistory.StopIsAnswered | tunnel-client/src/client.rs:674-676 | once stop was asked for, `run` can answer with `Ok` at its next step |
| JoinHistory.CauseTexts | tunnel-client/src/client.rs:789-815 | what a report says, word for word |
| JoinHistory.DecimalReadsBack | tunnel-client/src/client.rs:809-814 | the number of attempts it names is read back from its digits |
| JoinLoop.FailureCarriesLastCause | tunnel-client/src/client.rs:713-718 | the error carries the cause reported last |
| JoinLoop.NormalReturnMeansStopped | tunnel-client/src/client.rs:702-719 | a task whose reconnect loop returned normally means stop was requested, and `run` can only return `Ok` |
| JoinLoop.OkMeansStopped | tunnel-client/src/client.rs:674-719 | `Ok` is only ever the answer to a stop |
| JoinLoop.NeverWedged | tunnel-client/src/client.rs:674-711 | until `run` returns it can step or some task is live |
| CertOrders.StepKept | tunnel-client/src/acme.rs:224-416 | every step of every caller, a drop at any await included, keeps channels, entries, phases and cache consistent |
| CertOrders.OtherOrdersStay | tunnel-client/src/acme.rs:224-416 | a step touches no order another caller leads, nor its two channels |
| CertOrders.ClosedChannelKept | tunnel-client/src/acme.rs:349-354 | dropping a leader closes exactly the channels it held open |
| CertOrders.SendersPassedOn | tunnel-client/src/acme.rs:224-416 | a step that neither writes nor closes leaves every channel alone and its caller with the senders it held; only a claim brings new ones |
| CertOrders.FollowerSeesOneOrder | tunnel-client/src/acme.rs:238-288 | a follower's key authorization, and the PEM it receives, are of one order of its own domain |
| CertOrders.FollowerResolves | tunnel-client/src/client.rs:1110-1122 | its wait resolves exactly once the PEM was sent or the leader ended, and yields the PEM exactly when one was sent, sender gone or not |
| CertOrders.KeyAuthWaitResolves | tunnel-client/src/acme.rs:263-288 | the wait for a key authorization resolves exactly once it was published or the leader ended its setup, and makes a follower exactly when it was published |
| CertOrders.NeverWedged | tunnel-client/src/acme.rs:224-416 | in every run an unfinished caller, or the leader of the order it awaits, can step without any caller being dropped |
| CertOrders.PemsAreTraced | tunnel-client/src/acme.rs:389-409 | every PEM cached, and every PEM a caller returned with, was issued by an order of its domain (the one led, or the one followed) or seeded |
| CertHistory.CacheIsHistory | tunnel-client/src/acme.rs:195-211 | in every run the cache holds for a domain exactly what was last stored for it: a seed, or what the CA issued to a caller for it |
| CertHistory.StoringIsRemembered | tunnel-client/src/acme.rs:392-403 | a certificate a leader caches, and one that is seeded, is what the domain has from then on, with its renewal time |
| CertHistory.CallsAreAnsweredFromTheCache | tunnel-client/src/acme.rs:226-234 | after any run a new call that probes before the stored PEM is due returns it, and any other goes on to look for an order |
| CertHistory.EntriesAreHistory | tunnel-client/src/acme.rs:291-308 | in every run a domain's entry is that of the last order claimed for it and not removed since, by whichever caller |
| CertHistory.OrdersAreHistory | tunnel-client/src/acme.rs:338-348 | in every run an order's channels hold what its leader published and sent, open while that leader is there |
| CertHistory.CallersAreHistory | tunnel-client/src/acme.rs:224-416 | in every run each caller stands where its own steps, and what it saw at each, have taken it |
| CertHistory.ResultsAreEarned | tunnel-client/src/acme.rs:389-416 | in every run a PEM returned is for the domain called for: what the CA issued to the leader itself, or to the leader whose key authorization was used |
| CertHistory.MovesAreHistory | tunnel-client/src/acme.rs:224-416 | in every run a caller can take exactly the steps its place in the code allows, and can be dropped at every await |
| CertLiveness.AbandonedLeaderNeverWedges | tunnel-client/src/acme.rs:225-357 | from any reachable state with no live leader, an undisturbed `prepare` takes at most ten steps and two trips and ends cached, leader or with a setup error |
| CertLiveness.WaitsEndWithTheLeader | tunnel-client/src/acme.rs:310-416 | however callers interleave and however a leader ends, it takes at most the steps its phase allows, seven at most; until it has ended it can always take one, and once it has, whoever waits for its order can go on |
| CertLiveness.EntriesAreHeld | tunnel-client/src/acme.rs:362-367 | in every run a leader that returns, with a certificate or an error, leaves no entry of its own; only one that was dropped does |
| CertLiveness.FollowsOnlyLiveLeaders | tunnel-client/src/acme.rs:247-262 | in every run, whoever follows an order found its certificate sender alive at the probe |
| CertUniqueness.OneLeaderUnlessEvicted | tunnel-client/src/acme.rs:291-308 | in a run where no removal hits the entry of another leader at work, a domain has at most one leader |
| CertUniqueness.EvictionLetsInASecondLeader | tunnel-client/src/acme.rs:247-254 | after any such removal a continuation with two leaders exists |
| CertUniqueness.TwoLeadersHappen | tunnel-client/src/acme.rs:213-218 | a concrete run in which nobody is dropped and the CA refuses nothing reaches two leaders of one domain |
| CertUniqueness.FreshCallLeads | tunnel-client/src/acme.rs:291-308 | a domain without an entry can be claimed by a fresh call from any reachable state |
| CertPrepare.CertProvisioner.LookUpCert | tunnel-client/src/acme.rs:227-234 | a cached PEM exactly when not due for renewal; one step of the machine |
| CertPrepare.CertProvisioner.LookUpLeader | tunnel-client/src/acme.rs:238-241 | the domain's entry, if any; one step of the machine |
| CertPrepare.CertProvisioner.LeaderGone | tunnel-client/src/acme.rs:251 | gone exactly when the certificate channel is closed; one step of the machine |
| CertPrepare.CertProvisioner.RemoveEntry | tunnel-client/src/acme.rs:252 | removes whatever entry the domain has; one step of the machine |
| CertPrepare.CertProvisioner.BorrowKeyAuth | tunnel-client/src/acme.rs:256-262 | the published key authorization, if any; one step of the machine |
| CertPrepare.CertProvisioner.TryClaim | tunnel-client/src/acme.rs:293-308 | claims with fresh channels exactly when the domain has no entry; one step of the machine |
| CertPrepare.CertProvisioner.Publish | tunnel-client/src/acme.rs:339-347 | publishes the key authorization and drops its sender; one step of the machine |
| CertPrepare.CertProvisioner.Abort | tunnel-client/src/acme.rs:349-354 | removes the entry and then closes both channels; two steps of the machine |
| CertPrepare.CertProvisioner.Prepare | tunnel-client/src/acme.rs:224-357 | the call, waiting included, is a run of the machine with at most two cache probes; its result is the cached PEM, the live leader's challenge (published before or during the wait) or an order of its own, as the state before the call and what the awaited leader does (publish, fail, be dropped) determine |
| CertPrepare.CertProvisioner.Trip | tunnel-client/src/acme.rs:225-356 | one trip gives the final answer, or removed the entry of a leader that was, or went, gone |
| CertPrepare.CertProvisioner.Look | tunnel-client/src/acme.rs:226-241 | what the two probes of a trip find |
| CertPrepare.CertProvisioner.KeyAuthArrives | tunnel-client/src/acme.rs:266-288 | the wait ends with the value sent, or with none from a closed channel; one step of the machine |
| CertPrepare.CertProvisioner.LeaderActs | tunnel-client/src/acme.rs:338-355 | an awaited leader that publishes leaves a value to see; one that fails its setup or is dropped leaves a closed channel |
| CertPrepare.CertProvisioner.AwaitKeyAuth | tunnel-client/src/acme.rs:263-288 | waiting for a live leader yields what it publishes, or nothing once it has failed or was dropped |
| CertPrepare.EveryWaitCanEnd | tunnel-client/src/acme.rs:349-354 | in every run a leader that has to be waited for can still fail its setup or be dropped, since it removes its entry before it drops its senders |
| CertPrepare.CertProvisioner.AskLeader | tunnel-client/src/acme.rs:247-288 | the key authorization of a live leader, published already or while waited for; none exactly when the leader is gone |
| CertPrepare.CertProvisioner.JoinLeader | tunnel-client/src/acme.rs:242-289 | follows exactly when the leader is alive and has published or publishes, else removes the entry |
| CertPrepare.CertProvisioner.Lead | tunnel-client/src/acme.rs:291-355 | a claimed domain ends with leadership and a live entry, or an error and no entry |
| CertPrepare.CertProvisioner.SetupFails | tunnel-client/src/acme.rs:349-354 | a failed setup removes the entry and closes both channels, as a run of the machine |
| EventDelivery.ToTunnelEvent | tunnel-client-ffi/src/ffi/mod.rs:268-315 | no queued item becomes `Started` or terminal, and `ConnectionEstablished` comes only from `Established` |
| EventDelivery.EventTellsItsItem | tunnel-client-ffi/src/ffi/mod.rs:268-315 | every item is read back from its event with all it carries, a wait up to whole milliseconds and 64 bits of them |
| EventDelivery.RenderedReadsBack | tunnel-client-ffi/src/ffi/mod.rs:319-344 | a delivered queue, read back, is the queue in order |
| EventDelivery.EventPump.Deliver | tunnel-client-ffi/src/ffi/mod.rs:319-333 | `Started` directly before the first established connection, then the item |
| EventDelivery.EventPump.Drain | tunnel-client-ffi/src/ffi/mod.rs:336-344 | empties the queue and delivers its rendering in order |
| EventDelivery.RenderedStartsOnce | tunnel-client-ffi/src/ffi/mod.rs:319-344 | a rendered queue has at most one `Started`, directly before the first `ConnectionEstablished`, and nothing terminal |
| ForeignRun.StepKept | tunnel-client-ffi/src/ffi/mod.rs:586-676 | every step, a drop of the future included, keeps the delivered and queued events accounted for |
| ForeignRun.AccountKept | tunnel-client-ffi/src/ffi/mod.rs:628-655 | after any step delivered events are the rendering of the items handed over, and items handed, lost, in hand and queued are all that were queued, in order |
| ForeignRun.TunnelKept | tunnel-client-ffi/src/ffi/mod.rs:414-440 | after any step the terminal event is the one the tunnel, or a drop, calls for |
| ForeignRun.OneTerminalEventLast | tunnel-client-ffi/src/ffi/mod.rs:405-439 | in every run a terminal event is delivered exactly when the stream is over, once, and last |
| ForeignRun.SilentOnceOver | tunnel-client-ffi/src/ffi/mod.rs:405-439 | nothing is delivered after it in any continuation |
| ForeignRun.SecondRunDoesNothing | tunnel-client-ffi/src/ffi/mod.rs:587-591 | a second `run` leaves the state unchanged |
| ForeignRun.DeliveredInOrder | tunnel-client-ffi/src/ffi/mod.rs:628-655 | at every point of every run delivered events are those of the items handed over, and items handed, lost, in hand and queued are all that were queued, in order |
| ForeignRun.UncancelledStream | tunnel-client-ffi/src/ffi/mod.rs:628-675 | an uncancelled run delivers exactly the queued items in order and then the tunnel's own ending |
| ForeignHistory.UncancelledRunIsHistory | tunnel-client-ffi/src/ffi/mod.rs:609-675 | an uncancelled run ends `Stopped` if stop came first, `Failed` without a runtime, and else as its tunnel did; its events, read back, are exactly what was emitted before the queue was last found empty |
| ForeignHistory.RunSpawnsTheTunnel | tunnel-client-ffi/src/ffi/mod.rs:609-626 | `run` spawns the tunnel, and waits for it with nothing delivered, exactly when it begins with a runtime and before any stop |
| ForeignHistory.TunnelIsHistory | tunnel-client-ffi/src/ffi/mod.rs:586-676 | in every run the flags, the tunnel and what was queued are those of the history |
| ForeignHistory.TunnelMoves | tunnel-client-ffi/src/ffi/mod.rs:625-626 | in every run the tunnel can emit until the stream is over, and end once, exactly when it was spawned |
| ForeignHistory.OwnMoves | tunnel-client-ffi/src/ffi/mod.rs:628-675 | in every run `run` and its tail can take exactly the steps of the place they are at |
| ForeignHistory.DropsAtEveryAwait | tunnel-client-ffi/src/ffi/mod.rs:414-439 | the future can be dropped at every await |
| ForeignRun.UncancelledStarted | tunnel-client-ffi/src/ffi/mod.rs:317-333 | there `Started` stands directly before the first `ConnectionEstablished` and nowhere else |
| ForeignRun.CancelledStream | tunnel-client-ffi/src/ffi/mod.rs:414-439 | a cancelled run delivers every queued item in order except the one in mid-delivery, and then `Stopped` |
| ForeignHistory.CancelledRunIsHistory | tunnel-client-ffi/src/ffi/mod.rs:414-439 | a cancelled run ends `Stopped`; its events, read back, are what was emitted before the queue was last found empty, but for at most one item |
| ForeignRun.StartedOnceAndFirst | tunnel-client-ffi/src/ffi/mod.rs:319-333 | in every run `Started` is delivered at most once and before any `ConnectionEstablished` |
| ForeignRun.RunFinishesTheStream | tunnel-client-ffi/src/ffi/mod.rs:586-676 | from any reachable state after the call, `run` and its tail take at most three steps an item and five more; they can stop only with the stream over or awaiting a running tunnel, and only with the stream over once the tunnel ended, the future was dropped or stop came first |
| ForeignRun.UnspawnedRunEnds | tunnel-client-ffi/src/ffi/mod.rs:609-624 | begun stopped, or without a runtime, `run` delivers just its one terminal event and spawns nothing |
| ForeignRun.TailFinishesTheStream | tunnel-client-ffi/src/ffi/mod.rs:424-435 | after a drop the tail takes at most three steps an item and four more, and can stop only with the stream over |
| PendingAlpn.PendingAlpnMap.constructor | tunnel-server/src/lib.rs:99 | tokens start at 0, with no entry |
| PendingAlpn.PendingAlpnMap.Insert | tunnel-server/src/lib.rs:102-106 | a fresh token, and the client's entry replaced by it |
| PendingAlpn.PendingAlpnMap.Remove | tunnel-server/src/lib.rs:109-111 | removes the entry exactly when it carries the token |
| PendingAlpn.Reached | tunnel-server/src/lib.rs:99-111 | every interleaving of registrations and cleanups keeps tokens distinct and each entry its latest inserter's |
| PendingAlpn.EntryFollowsLatestInserter | tunnel-server/src/quic.rs:264-284 | a client's entry is present exactly while its most recent inserter has not cleaned up, and is that one's |
| PendingAlpn.CleanupSparesOthers | tunnel-server/src/lib.rs:108-111 | a cleanup never evicts another handler's entry |
| PendingAlpn.NobodyWaitingMeansEmpty | tunnel-server/src/h2_listener.rs:485-509 | with no handler waiting the map is empty |
| PendingHistory.EntriesAreHistory | tunnel-server/src/lib.rs:99-111 | in every run a client's entry is there exactly while the handler that registered last has not cleaned up, with that handler's token; tokens count up from 0 |
| PendingHistory.MovesAreHistory | tunnel-server/src/quic.rs:271-283 | a handler takes a token, registers and cleans up, once each and in that order |
| AgentPool.AgentPool.constructor | tunnel-server/src/lib.rs:72-79 | counter 0 and no agents |
| AgentPool.AgentPool.Push | tunnel-server/src/lib.rs:54-56 | the agent is appended |
| AgentPool.AgentPool.Remove | tunnel-server/src/lib.rs:57-59 | keeps, in order, exactly the entries with another uid |
| AgentPool.AgentPool.NextAgent | tunnel-server/src/lib.rs:63-69 | none of an empty pool, else the agent at the counter, which advances and wraps at 2^64 |
| AgentPool.RoundRobinIsFair | tunnel-server/src/lib.rs:63-69 | from any counter value, over any window without a wrap, or any window if the pool size divides 2^64, two agents' shares differ by at most one |
| AgentPool.NextAgents | tunnel-server/src/lib.rs:63-69 | any number of calls of `NextAgent` in a row pick the agents at the chosen positions, and over such a window no position is picked twice more than another |
| AgentPool.WrapBreaksFairness | tunnel-server/src/lib.rs:67 | for every other pool size some window across the wrap gives shares two apart |
| AgentPool.RoundsAndExtra | tunnel-server/src/lib.rs:63-69 | in such a window every agent has the same number of rounds, and just the first few from the start one more |
| AgentRegistry.Reached | tunnel-server/src/util.rs:10-29 | every interleaving of registrations and two-step removals keeps each pool equal to its registered agents |
| AgentRegistry.PoolListsRegistered | tunnel-server/src/util.rs:16-28 | an id's pool lists exactly its agents not yet removed, in order; no key means none |
| AgentRegistry.NoEmptyPoolLeaks | tunnel-server/src/util.rs:24-27 | with no remover between its two steps a pool exists exactly when it has an agent |
| AgentRegistry.LiveAgentStays | tunnel-server/src/util.rs:18-26 | in every run an agent not yet removed is in its id's pool |
| RegistryHistory.PoolsAreHistory | tunnel-server/src/util.rs:16-28 | in every run an id's pool lists, in order, the agents that registered for it and are not done, and exists as the steps say |
| RegistryHistory.MovesAreHistory | tunnel-server/src/util.rs:21-28 | a connection that is done takes its uid out and then looks for an empty pool, once each and in that order |
| AgentRegistry.UnmarkRemovesUid | tunnel-server/src/util.rs:24-26 | removing one uid takes just that agent off its id's list, and leaves other lists alone |
| ClientHelloPeek.PeekSniAlpn | tunnel-server/src/public.rs:75-106 | finds a hello exactly when some peek sees a whole one before the connection fails, and then the one the peer sends; so one complete within 16384 bytes is found under every arrival schedule that delivers it, whatever follows; at most two growths and 28672 parses; (room to grow, buffer minus seen) falls on each parse that does not return |
| ClientHelloPeek.DeliveredIsRead | tunnel-server/src/public.rs:91-101 | a delivered hello is seen whole within one, two or three peeks, as its size needs one, two or three buffers |
| ClientHelloPeek.FoundIsTheHello | tunnel-server/src/public.rs:85-88 | the hello is the same in whatever prefix it is found |
| ClientHelloPeek.NothingFits | tunnel-server/src/public.rs:91-97 | a full largest buffer that does not parse rules out every hello of that size |
| ControlFrames.PrefixByValue | tunnel-common/src/lib.rs:259 | the prefix byte by byte, highest first |
| ControlFrames.BigEndianRoundTrip | tunnel-common/src/lib.rs:241 | decoding a length prefix undoes encoding it |
| ControlFrames.BigEndianIsCanonical | tunnel-common/src/lib.rs:259 | encoding undoes decoding |
| ControlFrames.ByteStream.ReadExact | tunnel-common/src/lib.rs:240 | all the bytes asked for, or failure with the stream used up |
| ControlFrames.ByteStream.WriteAll | tunnel-common/src/lib.rs:259-260 | everything is written, or as much as the transport took before it failed |
| ControlFrames.ByteStream.CtrlRead | tunnel-common/src/lib.rs:238-251 | result and bytes left are those of `ReadFrame`: a payload, the end, a transport error, an oversized length or a failed allocation |
| ControlFrames.ByteStream.CtrlWrite | tunnel-common/src/lib.rs:253-262 | appends exactly one frame, nothing when oversized, and a proper prefix of the frame when the transport fails, using up that much of its room |
| ControlFrames.FrameRoundTrip | tunnel-common/src/lib.rs:238-262 | a frame followed by anything is read back whole, leaving what followed, exactly when its buffer can be allocated |
| ControlFrames.TornFrameIsNotRead | tunnel-common/src/lib.rs:240-249 | a frame a failing write cut short is never taken for a whole one: which error, and what is left |
| ControlFrames.ReadsOnlyFrames | tunnel-common/src/lib.rs:238-251 | whatever is read is what writing it would have produced |
| ControlFrames.FramesRoundTrip | tunnel-common/src/lib.rs:238-262 | any sequence of frames followed by arbitrary bytes is read back unchanged, leaving those bytes |
| ControlFrames.ByteStream.WriteFrames | tunnel-common/src/lib.rs:253-262 | frames in a row are all written exactly when each is small enough and the transport has room for them together; otherwise up to the first refused or torn one |
| ControlFrames.ByteStream.ReadMany | tunnel-common/src/lib.rs:238-251 | repeated reads give what `ReadFrames` says |
| ControlFrames.WriteAndReadBack | tunnel-common/src/lib.rs:238-262 | written to a fresh stream and read back, exactly the frames written whole come back, and what a failing transport left is no frame |
| ControlFrames.OversizedIsRefusedAtThePrefix | tunnel-common/src/lib.rs:241-244 | an oversized prefix is refused after four bytes, whatever follows |
| H2Adapters.H2Recv.constructor | tunnel-common/src/lib.rs:130-135 | nothing buffered, received or handed out |
| H2Adapters.H2Recv.PollRead | tunnel-common/src/lib.rs:138-167 | hands out as much as fits of what is available, buffers the rest, polls only when nothing is buffered; bytes handed plus buffered equal bytes received, all of whose capacity is released |
| H2Adapters.H2Recv.ReadMany | tunnel-common/src/lib.rs:138-167 | for every sequence of chunks and buffer sizes, bytes read, then buffered, then still to come are what was there before |
| H2Adapters.H2Recv.ReadToEnd | tunnel-common/src/lib.rs:138-167 | a loop that reads until a zero-byte read gets what was buffered and then what `ReadOut` says, and stops as it says, for every buffer size |
| H2Adapters.ReadsAllUnlessEmptyChunk | tunnel-common/src/lib.rs:153-163 | such a loop gets every byte sent before the end of the stream exactly when no chunk with bytes in it follows an empty one |
| H2Adapters.H2Send.constructor | tunnel-common/src/lib.rs:76 | nothing sent and no window |
| H2Adapters.H2Send.PollWrite | tunnel-common/src/lib.rs:79-109 | never reports zero for a non-empty buffer, accepts a prefix within the window, waits through empty grants for the first real answer, and fails when the stream is gone or the library refuses |
| H2Adapters.H2Send.WriteAll | tunnel-common/src/lib.rs:79-109 | a waiting write-all sends exactly its input or a prefix of it; unless a send is refused it finishes exactly when the window granted before the stream is gone covers the input |
| H2Adapters.CollectH2Body | tunnel-common/src/lib.rs:266-277 | the whole body exactly when it is intact and fits, which of the two errors otherwise, and capacity released for exactly the chunks before |

## Left out

- `h2_pool`, `drive`, the join loop of `run`, `finalize`, the foreign `run` and `register` are
  step machines on values rather than in-place loops, because what matters about them is how
  they interleave; their shared objects are the classes above.
- CertPrepare.CertProvisioner.Prepare: no caller but the awaited leader steps between its critical
  sections; arbitrary interleavings are the runs of `CertOrders`.
- `CertOrders` lets any PEM be seeded with any renewal time: the checks of `seed` on name, key
  and renewal date (tunnel-client/src/acme.rs:195-203) are X.509 work.
- `quic_attempt`, the choice between QUIC and H2 and the reuse of the UDP endpoint: one trip of
  `Reconnect` takes the session's outcome as given.
- Real time: a timeout is a possible failure, sleeps end when a step says so, and the backoff
  between a member's own retries and between peeks is not modelled.
- The tag and address that pool events carry, log lines and log-only counters.
- TLS, QUIC, HTTP/2 framing, X.509, PEM, ECDSA recovery and SHA-256: library calls, kept abstract.
- The ACME HTTP exchange (`finalize_order`, account loading): success or failure is a choice of
  the run.
- `DiskCertResolver` renewal and `renewal_retry_delay`, `Admission`, `allowed_suffix`,
  `txt_authorizes`, `server_name_from_addr`: they would only add easy members.
- The generated Kotlin bindings, the Kotlin wrapper, command-line entry points, scripts and key
  adapters.

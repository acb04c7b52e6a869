# Verification of the RPC layer

A Dafny 4.11 model of the protocol parts of logos-protocol, with proofs about every run
and every input of them. Each file is one module.

**Connection and consumer handle.** `PendingCalls` is the pending-call registry of a peer
as a step relation: each critical section and each load or exchange of the stopped flag is
one step of some thread. `EventSubscriptions` puts the consumer's two subscription indexes,
the frames in flight and the host's table into one state; `PlainHost` is the host's nested
table and its fan-out. `RpcPeer` is the peer as a class over both. `AsyncCalls` is the
consumer handle's asynchronous calls: reply, deadline, re-armed deadline, completion event,
delivery and teardown as interleaved steps, with what every step keeps; `AsyncOffers` says
where every outcome a call is offered comes from, `AsyncRuns` has the other results over
whole runs, and `CallState` is the state block they share.
`LiveRefs` is the count of callers inside a handle that defers its destruction.

**Deferred subscriptions.** `DeferredSubscriptions` has the registry's operations as
functions of its state, user callbacks included: what a callback does is a finite script of
further requests, so a callback may add, cancel, rearm and set a policy, to any depth. `DeferredSafety`
has the invariants, `DeferredRuns` carries them through whole operations, `DeferredTheorems`
through the event loop's steps and the timer, `DeferredGenerations` follows generations and
held entries, and `DeferredGuarantees` states the results over runs. `DeferredArming`,
`DeferredPolicy` and `DeferredOutcomes` say what becomes of each subscription in one
operation: an arming, a loss or a reconnect by restart policy, and the requests and ticks. `PendingRegistry` is the
class that performs the operations, each method equal to its function.

**Tokens.** `TokenStore` is one identity's store and the two maps it stands for, `TokenScan`
the authorization scan and the proxy around it, `TokenIdentity` the registry of stores.

**Handshakes.** `Handshakes` is the coalescing of first calls behind one readiness wait and
one exchange, as steps; `HandshakeAnswers` what its callers are told and which step told
them; `ApiClient` the client that performs them.

**Wire.** `Base64` (base64url of RFC 4648, section 5), `Framing`, `Connection` (the read
loop, the strand's write queue, and the two end to end), `RpcValues`, `JsonMapping` and
`RpcMessages`. `Wrappers` has the options and results the others share.

Where the code and its comments disagree, the model follows the code. An entry of either
registry of calls can outlive its call (`AsyncRuns.InflightFilingCanOutliveItsCall`,
`LateFilingCanOutliveItsCall`), exactly when it was filed late (`InflightEntryIsOutstanding`,
`DeferredEntryIsOutstanding`). Armed edges need not carry consecutive generations
(`DeferredGuarantees.NestedArmingIsNeverTold`); they do exactly when armings of the object
never overlap (`NumberedIffNeverCrossed`). A second subscription advances the generation with
nothing lost (`SecondSubscriptionLooksLikeARestart`); a change of generation is a gap exactly
when the handle was given back in between (`GenerationsApartIffGivenBack`). And an armed
subscription is off the handle held for its object exactly when that handle was replaced under
its own arming (`HandlesHeldOrReleasedOnce`, `StaleReentryDetaches`), which no arming on a
live handle lets happen (`ArmingOnLiveUndercutsNobody`).

## Model

| member | source | states |
|---|---|---|
| PendingCalls.StepKeepsInv | cpp/implementations/plain/rpc_peer.cpp:121-300 | every atomic step of any thread (taking an id, registering, the re-check of the stopped flag, reclaiming, writing, a reply, a cancel, the two halves of teardown, running a handler) keeps each send and its handler accounted for |
| PendingCalls.HandlerRunsAtMostOnce | cpp/implementations/plain/rpc_peer.cpp:19-61 | over every interleaving a reply handler runs at most once, it is the handler that was filed, and the ways it can leave the pending map exclude each other |
| PendingCalls.NothingIsStranded | cpp/implementations/plain/rpc_peer.cpp:215-300 | once teardown and every send have returned, both pending maps are empty and each handler ran exactly once, was withdrawn by a cancel, or is the one reply the io thread is in the middle of delivering |
| PendingCalls.EveryHandlerAnswered | cpp/implementations/plain/rpc_peer.cpp:26-61 | once no reply is being delivered either, each handler ran exactly once or was withdrawn by a cancel, and not both |
| PendingCalls.StoppedAnswerMeansNotWritten | cpp/implementations/plain/rpc_peer.cpp:136-255 | a send that answered its own caller "connection stopped" wrote nothing, and no send writes twice |
| PendingCalls.GivenWhatCame | cpp/implementations/plain/rpc_peer.cpp:26-61 | over every run each handler is given what the step that took it out gives: a reply the very result that came, teardown a failure with its reason and, for a call, TRANSPORT_ERROR, the sender itself "connection stopped" |
| RpcPeer.RpcPeer.NextId | cpp/implementations/plain/rpc_peer.h:74-76 | each id is new: neither map holds anything under it |
| RpcPeer.RpcPeer.CancelPending | cpp/implementations/plain/rpc_peer.cpp:19-24 | withdraws what is filed under the id in both maps, and nothing else |
| RpcPeer.RpcPeer.Send | cpp/implementations/plain/rpc_peer.cpp:215-300 | registers and writes, or on a stopped connection answers its caller with a failure, "connection stopped" and for a call TRANSPORT_CLOSED, and leaves the maps as they were |
| RpcPeer.RpcPeer.DispatchResult | cpp/implementations/plain/rpc_peer.cpp:26-61 | a reply takes out and answers the handler filed for it, once, and touches no other |
| RpcPeer.RpcPeer.DispatchEvent | cpp/implementations/plain/rpc_peer.cpp:63-83 | one event frame calls the subscriptions filed under its name and then those under the wildcard, in the order of registration with their own callbacks, each once, also when the event name is empty |
| RpcPeer.RpcPeer.SendSubscribe | cpp/implementations/plain/rpc_peer.cpp:315-339 | files the caller's callback under a new id at the end of its key's list, leaves every other list, and writes one Subscribe |
| RpcPeer.RpcPeer.SendUnsubscribe | cpp/implementations/plain/rpc_peer.cpp:341-368 | withdraws that registration from both indexes, leaves every other one with its callback, and writes an Unsubscribe only when it was the last local one for its key |
| RpcPeer.RpcPeer.Fail | cpp/implementations/plain/rpc_peer.cpp:380-421 | the first teardown answers every pending handler once with a failure that carries the reason, TRANSPORT_ERROR for a call and no code for an introspection, empties the maps, closes the transport, tells the host once and hands the error to the owner's handler once; later ones do nothing |
| EventSubscriptions.WireConverges | cpp/implementations/plain/rpc_peer.cpp:315-368 | on an open connection, whatever frames are still in flight bring the host's sinks for it to exactly the keys with a local subscription |
| EventSubscriptions.ResubscribingHeals | cpp/implementations/plain/rpc_peer.cpp:315-339 | every subscription is written, not only a key's first, so whatever the host's table has lost it has this one again once the frames in flight are handled |
| EventSubscriptions.IndexesStayInverse | cpp/implementations/plain/rpc_peer.cpp:315-368 | the two consumer indexes are inverse of each other, with no empty list and no id twice, in every state |
| EventSubscriptions.WithdrawKeepsConsistent | cpp/implementations/plain/rpc_peer.cpp:341-368 | withdrawing any id, known or not, keeps the indexes inverse |
| EventSubscriptions.EveryListenerOnce | cpp/implementations/plain/rpc_peer.cpp:63-83 | the listeners of a frame are those under its name or the wildcard, each once |
| EventSubscriptions.FiledIffSubscribed | cpp/implementations/plain/rpc_peer.cpp:315-421 | over every run, a subscription with a callback is filed under a key if and only if it was subscribed to that key with that callback and neither withdrawn nor swept since |
| EventSubscriptions.CallsTheSubscribed | cpp/implementations/plain/rpc_peer.cpp:63-83 | so an event frame calls exactly the callbacks subscribed to its name or the wildcard and still standing |
| EventSubscriptions.WithoutCuts | cpp/implementations/plain/rpc_peer.cpp:341-368 | withdrawing cuts that one registration out of its list and keeps the order of the others |
| EventSubscriptions.ReceivedIffWanted | cpp/implementations/plain/plain_transport_host.cpp:351-380 | with the table converged, a connection is sent an emission if and only if some local subscription wants it |
| EventSubscriptions.EmissionReachesExactlyTheSubscribed | cpp/implementations/plain/plain_transport_host.cpp:351-380 | over every run, once the wire is quiet, an emission reaches the connection exactly when something on it subscribed by name or wildcard |
| PlainHost.PlainTransportHost.OnSubscribe | cpp/implementations/plain/plain_transport_host.cpp:462-479 | one sink per object, event and connection: sets that one and leaves every other lookup as it was |
| PlainHost.PlainTransportHost.OnUnsubscribe | cpp/implementations/plain/plain_transport_host.cpp:481-496 | removes only the requesting connection's sink, and no level of the table is left empty |
| PlainHost.PlainTransportHost.OnConnectionClosed | cpp/implementations/plain/plain_transport_host.cpp:498-514 | removes every sink of the closed connection and none of another |
| PlainHost.PlainTransportHost.FanOutEvent | cpp/implementations/plain/plain_transport_host.cpp:351-380 | exactly one frame for each connection matching by name, by wildcard or both |
| AsyncCalls.StepKeepsInv | cpp/implementations/plain/plain_logos_object.cpp:557-655 | every step of issue, reply, deadline, completion, delivery and teardown keeps: each undelivered call has something on this side that will resolve it, and each unresolved one is registered |
| AsyncOffers.HandedOffAtMostOnce | cpp/implementations/plain/plain_logos_object.cpp:557-655 | a call's callback is handed off at most once, with an outcome some step of the run brought it, and an answer is a value the peer sent as its reply or as a completion; while undelivered a timer or a delivery is outstanding |
| AsyncOffers.OfferedIffBrought | cpp/implementations/plain/plain_logos_object.cpp:1231-1340 | over every run a call has been offered exactly what some step brought it: an answer by its reply, by a completion filed for it or by one parked under its sentinel's id; an error by its reply; the timeout by its deadline; "released" by teardown while in flight, by a refusal during teardown or by finding the handle gone |
| AsyncRuns.PlainReplyIsTheAnswer | cpp/implementations/plain/plain_logos_object.cpp:1276-1290 | a reply that is no sentinel, value or error: until the deadline fires or teardown begins that very outcome is the only one offered and the only one handed off, and what was handed off by then stays so |
| AsyncRuns.FirstClaimDecides | cpp/implementations/plain/plain_logos_object.cpp:600-655 | of the threads racing to resolve a call, what is handed off is what the first to win the exchange came with |
| AsyncRuns.DeadlineAloneFinishes | cpp/implementations/plain/plain_logos_object.cpp:1231-1340 | from every reachable state a call not handed off gets there by steps of its own deadline and delivery, without any reply |
| AsyncRuns.FairDeadlineFinishes | cpp/implementations/plain/plain_logos_object.cpp:557-655 | however everybody's steps interleave, none takes a call further from its hand-off, one step that brings it nearer is always enabled, and six such steps hand it off |
| AsyncRuns.StoppedMeansUnregistered | cpp/implementations/plain/plain_logos_object.cpp:867-899 | after teardown both registries are empty, in every state, and nothing registers again |
| AsyncRuns.DeferredEntryIsOutstanding | cpp/implementations/plain/plain_logos_object.cpp:1276-1330 | over every run, the call of an entry under a provider's id is still outstanding if and only if it was not filed after a thread resolving it had passed the registries |
| AsyncRuns.InflightEntryIsOutstanding | cpp/implementations/plain/plain_logos_object.cpp:1235-1259 | over every run, the call of an in-flight entry is still outstanding if and only if it was not filed after a thread resolving it had passed the registries |
| AsyncRuns.InflightExactlyWhileOutstanding | cpp/implementations/plain/plain_logos_object.h:204-208 | over every run, before teardown and unless it was filed late, a filed call is in flight exactly while no thread has passed the registries to resolve it, nor has it been resolved |
| AsyncRuns.LateFilingCanOutliveItsCall | cpp/implementations/plain/plain_logos_object.cpp:1302-1319 | a run in which the sentinel is filed while the deadline resolves the call: the deferred entry stays with nothing left that would erase it |
| AsyncRuns.InflightFilingCanOutliveItsCall | cpp/implementations/plain/plain_logos_object.h:204-208 | a run in which the deadline, armed before the call is filed, resolves it first: the in-flight entry stays for good, against the statement cited that it exists exactly while its call is outstanding |
| AsyncCalls.ParkKeeps | cpp/implementations/plain/plain_logos_object.cpp:432-450 | parked completions and their arrival order hold the same distinct ids, never more than the cap, and the newest is kept |
| AsyncRuns.ParkedSurvives | cpp/implementations/plain/plain_logos_object.cpp:432-468 | a parked completion survives while the handle is busy, unclaimed, and fewer than 512 newer ones are parked |
| AsyncRuns.ParkedIsUnclaimed | cpp/implementations/plain/plain_logos_object.cpp:432-461 | over every run, what is parked under an id was sent under it and nobody has claimed it since |
| AsyncRuns.IdleParksNothing | cpp/implementations/plain/plain_logos_object.cpp:463-468 | over every run, with nothing outstanding nothing stays parked, but while a thread about to leave the registries has still to drop it |
| AsyncRuns.DeliveredIsNotFiled | cpp/implementations/plain/plain_logos_object.cpp:1298-1302 | a sentinel that finds its call delivered files nothing, then or later |
| AsyncRuns.CompletionThenSentinel | cpp/implementations/plain/plain_logos_object.cpp:1276-1330 | completion first, sentinel second: the call is offered the completion's value and nothing else |
| AsyncRuns.SentinelThenCompletion | cpp/implementations/plain/plain_logos_object.cpp:1051-1106 | sentinel first, completion second: the same |
| AsyncRuns.DeferredCallIsAnswered | cpp/implementations/plain/plain_logos_object.cpp:1070-1330 | both arrive, in either order, before anything else resolves the call: until its deadline fires or teardown begins, the completion's value is the only one offered, a thread is delivering it, and it is the only one handed off |
| AsyncRuns.DeliveryFinishes | cpp/implementations/plain/plain_logos_object.cpp:557-655 | the steps of the threads delivering it alone then hand that value off |
| AsyncRuns.OnlyOfferIsTheAnswer | cpp/implementations/plain/plain_logos_object.cpp:557-655 | a call offered only the completion's value is handed off with it |
| CallState.CallState.ParkCompletion | cpp/implementations/plain/plain_logos_object.cpp:432-450 | drops what cannot be claimed, else parks it and evicts the oldest beyond the cap, map and order together |
| CallState.CallState.TakeCompletion | cpp/implementations/plain/plain_logos_object.cpp:452-461 | hands over what is parked under the id and removes it from map and order |
| CallState.CallState.DropUnclaimedIfIdle | cpp/implementations/plain/plain_logos_object.cpp:463-468 | with nothing outstanding, nothing stays parked |
| CallState.CallState.EndSync | cpp/implementations/plain/plain_logos_object.cpp:182-197 | the last synchronous caller out lets unclaimed completions go |
| CallState.CallState.FileDeferred | cpp/implementations/plain/plain_logos_object.cpp:1276-1330 | claims a parked completion, refuses during teardown, else files the call under the provider's id |
| CallState.CallState.OnCompletion | cpp/implementations/plain/plain_logos_object.cpp:1070-1106 | takes the call filed under the id, or parks the value |
| CallState.CallState.LeaveRegistries | cpp/implementations/plain/plain_logos_object.cpp:579-600 | a call leaves both registries, its deferred entry only if it is its own |
| CallState.CallState.StopAndCancel | cpp/implementations/plain/plain_logos_object.cpp:867-899 | takes every outstanding call and leaves both registries empty for good |
| LiveRefs.ReleaseIsSafe | cpp/implementations/plain/plain_logos_object.cpp:722-768 | for any number of nested and concurrent calls, each entered while the owner or another caller held the object, before release() or during it: the live count is the owner's reference plus the open guards, the object is destroyed exactly when it reaches zero, once, and nobody inside touches it after |
| LiveRefs.LateEntryIsAliveIffHeld | cpp/implementations/plain/plain_logos_object.cpp:1439-1537 | an entry against the contract meets a live object if and only if the owner or another caller still holds it |
| LiveRefs.Counters.Leave | cpp/implementations/plain/plain_logos_object.cpp:748-768 | the last guard out after release destroys, no other does |
| LiveRefs.Counters.Release | cpp/implementations/plain/plain_logos_object.cpp:1526-1537 | release destroys at once exactly when nobody is inside |
| DeferredRuns.ArmAfter | cpp/logos_api_consumer.cpp:512-607 | arming against any handle, live or stale, callbacks re-entering at will, keeps ids conserved, armed entries on the held handle unless undercut, and handles released once, and undoes nothing an outer arming relies on |
| DeferredRuns.PerformAfter | cpp/logos_api_consumer.cpp:46-178 | the same for every request: add, cancel, rearm and setting a policy |
| DeferredArming.AdoptsTheLive | cpp/logos_api_consumer.cpp:512-552 | a handle that arrives is kept if none is held, is given back if a live one is, and replaces and releases a stale one, what was armed on that waiting again |
| DeferredArming.ArmExactly | cpp/logos_api_consumer.cpp:553-601 | with callbacks that ask for nothing, every real subscription waiting for the object is armed, in order, on the handle held, and nobody else moves |
| DeferredArming.ArmReports | cpp/logos_api_consumer.cpp:553-601 | it reports one Armed edge of the next generation if a real subscription was armed, and none otherwise or for another object |
| DeferredArming.ArmTells | cpp/logos_api_consumer.cpp:562-596 | each entry it takes is told yes once and nobody else is told anything; a readiness probe is then gone |
| DeferredTheorems.StepAfter | cpp/logos_api_consumer.cpp:200-249 | the same for every step of the event loop: requests, validity changes, answers to deferred acquires, asked for last or before, reconnects and ticks |
| DeferredGuarantees.EveryIdInOnePlace | cpp/logos_api_consumer.cpp:46-104 | every id issued is pending, armed, held or gone, and only one of them, over every run |
| DeferredGuarantees.GoneForGood | cpp/logos_api_consumer.cpp:566-596 | an id that left stays gone for the reason it left; a readiness answer is the only answer its entry got; "no" is told exactly to the abandoned, last |
| DeferredGuarantees.HeldUntilAsked | cpp/logos_api_consumer.cpp:158-178 | what is held was armed once and is a real subscription, and stays held through every run that neither rearms its object nor cancels it |
| DeferredPolicy.LossFollowsPolicy | cpp/logos_api_consumer.cpp:640-759 | with callbacks that ask for nothing, a subscription armed on a handle found dead: with its object's policy set to manual it is held, neither pending nor armed, and Held is reported; otherwise it is pending or armed again, not held, and Lost is reported; then nothing but armings |
| DeferredPolicy.ReconnectFollowsPolicy | cpp/logos_api_consumer.cpp:200-249 | with callbacks that ask for nothing, a subscription armed when the connection is rebuilt: with manual it is held and Held is reported once; otherwise it is pending or armed again, not held, and neither held nor lost is reported |
| DeferredPolicy.LivePassBy | cpp/logos_api_consumer.cpp:703-711 | an object whose handle is live keeps what it has armed through a liveness check and nothing is reported for it |
| DeferredPolicy.NothingArmedNothingChecked | cpp/logos_api_consumer.cpp:705 | with nothing armed a check changes nothing |
| DeferredPolicy.LostIsChased | cpp/logos_api_consumer.cpp:734-757 | what waits again after a loss is asked for at once, an acquire under way notwithstanding |
| DeferredPolicy.OneAcquireEach | cpp/logos_api_consumer.cpp:299-373 | an object being acquired is not asked for again; else a handle at hand is armed on, or the acquire the transport takes is marked; without deferred acquires one lookup |
| DeferredPolicy.PolicyOnlySets | cpp/logos_api_consumer.cpp:138-152 | setting a policy changes that policy and nothing else |
| DeferredOutcomes.RearmEmptiesHeld | cpp/logos_api_consumer.cpp:158-178 | whatever its callbacks ask for, a rearm leaves nothing of its object held: each is pending, armed, or gone if a callback cancelled it |
| DeferredOutcomes.RearmRevives | cpp/logos_api_consumer.cpp:158-178 | with callbacks that ask for nothing it is pending or armed |
| DeferredOutcomes.HeldWatcherCanRearm | cpp/logos_api_consumer.cpp:744-754 | a watcher told Held may rearm at once: the entries have been parked by then, none is left held, and Held comes before anything else reported for the object |
| DeferredOutcomes.AddLands | cpp/logos_api_consumer.cpp:46-73 | with callbacks that ask for nothing, a subscription added is pending or armed, under the next id, for its object and event, and everybody else still is |
| DeferredOutcomes.ProbeAnswered | cpp/logos_api_consumer.cpp:46-73 | a readiness probe on an object with a live handle is answered yes once, at once, and gone |
| DeferredOutcomes.CancelRemoves | cpp/logos_api_consumer.cpp:85-104 | takes that subscription out of wherever it is and leaves every other where it was; an unknown id changes nothing |
| DeferredOutcomes.AbandonTellsNo | cpp/logos_api_consumer.cpp:672-686 | with callbacks that ask for nothing, each pending entry of the object is told no once and is gone, nobody else is, and one edge is reported if there was one |
| DeferredGuarantees.HandlesHeldOrReleasedOnce | cpp/logos_api_consumer.cpp:512-596 | every handle ever received is the one held for its object or was released exactly once, through replacement, loss, reconnect and duplicate arrival, as when two acquires of an object are in flight and both answer; an armed subscription is on the held handle if and only if no nested arming replaced that handle before it was put down |
| DeferredGuarantees.LiveHandleOutlivesRequests | cpp/logos_api_consumer.cpp:512-536 | no request, whatever its callbacks ask for, replaces a handle that is still live: only a stale one is ever replaced under an arming |
| DeferredGuarantees.LateAnswerIsGivenBack | cpp/logos_api_consumer.cpp:309-314 | an answer that comes while the object has a live handle, as the second of two acquires in flight may, leaves that handle in place, and the one it brings is released once |
| DeferredGuarantees.ArmingOnLiveUndercutsNobody | cpp/logos_api_consumer.cpp:512-607 | after an arming on a handle that is valid, whatever its callbacks do, that handle is held and live, and no subscription of the object is off it that was not before |
| DeferredGuarantees.NoDeadAndSilent | cpp/logos_api_consumer.cpp:392-483 | while the timer is off nothing is armed, and whatever is pending is marked as being acquired, has an acquire the transport may still answer, and has given its last warning |
| DeferredTheorems.StepTicks | cpp/logos_api_consumer.cpp:402-483 | every step keeps the timer running for whatever is pending or armed, but for that one quiet case |
| DeferredOutcomes.BackoffDoubles | cpp/logos_api_consumer.cpp:402-483 | while something pending is still worked on, the timer runs and its interval doubles from 250 ms to 5 s |
| DeferredOutcomes.CadenceWhenQuiet | cpp/logos_api_consumer.cpp:441-478 | otherwise it runs each second if anything is armed, and not at all if nothing is |
| DeferredOutcomes.TimerStartsAndStops | cpp/logos_api_consumer.cpp:402-483 | making sure of the timer never stops it; taking or dropping the last pending entry does if nothing is armed |
| DeferredOutcomes.WarnsTwice | cpp/logos_api_consumer.cpp:490-508 | one warning after 3 s and one after 60 s, at most one a tick |
| DeferredGuarantees.GenerationCountsArmings | cpp/logos_api_consumer.cpp:553-601 | an object's generation is the number of Armed edges reported for it, and never falls |
| DeferredGuarantees.NumberedIffNeverCrossed | cpp/logos_api_consumer.cpp:553-601 | over every run an object's Armed edges carry 1, 2, 3 and so on if and only if no arming of it with a real entry starts between another such arming's advance of the generation and its report |
| DeferredGuarantees.PlainRunsNumberTheirArmings | cpp/logos_api_consumer.cpp:553-601 | in particular they stay so, one for each generation, through every run in which no callback re-enters |
| DeferredGuarantees.NestedArmingIsNeverTold | cpp/logos_api_consumer.cpp:560-601 | a subscriber that subscribes again from its own callback: both reports carry the later generation and the earlier is never reported, against logos_api_consumer.h:283 |
| DeferredGuarantees.FirstArmingCanGoUntold | cpp/logos_api_consumer.cpp:784-792 | that case reached from construction: generation 2 reported twice, 1 never |
| DeferredGuarantees.SecondSubscriptionLooksLikeARestart | cpp/logos_api_consumer.cpp:62-63 | a second subscription on a live handle makes the next generation on the same handle and reports nothing but armings, whatever else is pending and whatever callbacks do, against logos_api_consumer.h:312-314 |
| DeferredGuarantees.GenerationsApartIffGivenBack | cpp/logos_api_consumer.cpp:512-547 | over every run, two generations of an object are on different handles if and only if the earlier one's handle was lost, replaced or dropped by a reconnect in between: when a change of generation does mean a gap |
| DeferredGuarantees.EveryAdvanceExplained | cpp/logos_api_consumer.cpp:553-561 | every advance is the first arming, or one more arming on the handle of the generation before, or follows the giving back of that handle |
| DeferredGuarantees.ArmingStaysIff | cpp/logos_api_consumer.cpp:514-561 | an arming with a real entry makes the next generation on the handle held before if and only if that is still live or is the one handed over; meanwhile only armings are reported, whatever callbacks do |
| DeferredGuarantees.AdvancesInPlaceIff | cpp/logos_api_consumer.cpp:553-561 | when callbacks ask for nothing, a generation advances with the handle kept and no loss reported if and only if a real entry is armed on the handle already held |
| DeferredGuarantees.StaleReentryDetaches | cpp/logos_api_consumer.cpp:514-596 | a run from construction in which a subscriber served with a handle that is not valid subscribes again from its callback: its entry ends up on a handle already released |
| PendingRegistry.PendingSubscriptions.AddEntry | cpp/logos_api_consumer.cpp:46-73 | adds under the next id, arms on a live handle or asks for one, and leaves the timer running |
| PendingRegistry.PendingSubscriptions.CancelEntry | cpp/logos_api_consumer.cpp:85-104 | removes the entry from whichever vector holds it and says whether one did |
| PendingRegistry.PendingSubscriptions.SetRestartPolicy | cpp/logos_api_consumer.cpp:149-152 | records the policy for the next loss; no subscription, handle or generation moves |
| PendingRegistry.PendingSubscriptions.RearmObject | cpp/logos_api_consumer.cpp:158-178 | puts the object's held entries back, warnings restarted, and chases it |
| PendingRegistry.PendingSubscriptions.ArmAgainstHandle | cpp/logos_api_consumer.cpp:512-607 | replaces a stale handle or gives back a redundant one, attaches every pending entry of the object in order with its callbacks run in between, and reports one edge |
| PendingRegistry.PendingSubscriptions.Acquire | cpp/logos_api_consumer.cpp:339-373 | arms on a handle the transport has now, else leaves the object to one deferred acquire, else looks it up once |
| PendingRegistry.PendingSubscriptions.OnAcquired | cpp/logos_api_consumer.cpp:309-314 | a deferred acquire arms with its handle or abandons the object's entries |
| PendingRegistry.PendingSubscriptions.AbandonObject | cpp/logos_api_consumer.cpp:672-686 | takes the object's entries out, tells each "no" and reports one edge |
| PendingRegistry.PendingSubscriptions.OnReconnected | cpp/logos_api_consumer.cpp:200-249 | releases every handle, holds or revives every armed entry by policy, reports, chases and restarts the timer |
| PendingRegistry.PendingSubscriptions.CheckProviders | cpp/logos_api_consumer.cpp:703-759 | drops each dead handle, parks or revives its subscriptions, reports the loss and chases |
| PendingRegistry.PendingSubscriptions.OnTimer | cpp/logos_api_consumer.cpp:413-434 | one tick: liveness, chase, warnings, reschedule |
| PendingRegistry.PendingSubscriptions.Reschedule | cpp/logos_api_consumer.cpp:441-478 | backoff while something is left to do, the liveness cadence while anything is armed, else stop |
| TokenStore.OneMapIsTwo | cpp/token_manager.cpp:236-468 | after any operations the one map answers everything as two independent maps would, reserved names refused on both doors |
| TokenStore.DirectionsDoNotInterfere | cpp/token_manager.cpp:236-311 | an outbound save or removal leaves every inbound token, the list of callers and, but for its two keys, the credential; an inbound save leaves all that is presented outbound |
| TokenStore.CredentialFollows | cpp/token_manager.cpp:457-469 | the credential is what is saved for the core, or else for the capability module, and follows every save and removal of the two |
| TokenStore.PerformKeeps | cpp/token_manager.cpp:236-386 | each operation on the one map is the operation on the two, with the same answer |
| TokenStore.TokenManager.SaveToken | cpp/token_manager.cpp:236-258 | saves under the bare name, and refuses a reserved one |
| TokenStore.TokenManager.RemoveToken | cpp/token_manager.cpp:293-311 | removes an outbound entry only, and says whether there was one |
| TokenStore.TokenManager.SaveInboundToken | cpp/token_manager.cpp:369-386 | files an issued token under its caller's inbound key; refuses empty and reserved names |
| TokenStore.TokenManager.GetTokenKeys | cpp/token_manager.cpp:330-341 | the roster is exactly the outbound names, each once, whatever the order of the map |
| TokenStore.TokenManager.InboundKeyList | cpp/token_manager.cpp:410-437 | the callers' bare names, each once, for every store the doors can produce |
| TokenStore.TokenManager.CredentialValue | cpp/token_manager.cpp:394-398 | the first of the two role keys that is set, as getToken would give it |
| TokenStore.TokenManager.AdoptCredential | cpp/token_manager.cpp:162-169 | the credential is then the one adopted; an empty one changes nothing |
| TokenScan.Comparisons.ConstantTimeEquals | cpp/module_proxy.cpp:190-204 | equal exactly when the byte strings are, counted as one comparison |
| TokenScan.CallerFold.Offer | cpp/module_proxy.cpp:214-246 | the masked fold takes the offered name on a match, nothing for one over 64 bytes, and is unchanged otherwise |
| TokenScan.ScanOutcome.ScanProxy | cpp/module_proxy.cpp:331-341 | for any order of the map: authorized if and only if some entry matches, the number of matches, the sole match's name, one comparison for each entry |
| TokenScan.ModuleProxy.Authorize | cpp/module_proxy.cpp:473-575 | the verdict and the caller meet their specification for any order of the maps, with one comparison for each token of the two records and one for the credential |
| TokenScan.ModuleProxy.InformModuleToken | cpp/module_proxy.cpp:373-465 | records a token exactly when whoever pushes it presents the credential and the provider accepts it |
| TokenScan.ModuleProxy.SaveToken | cpp/module_proxy.cpp:57-71 | records a token for a named module, both non-empty |
| TokenScan.CallerIsUnique | cpp/module_proxy.cpp:549-573 | the specification of the caller admits one answer only |
| TokenScan.OutboundChangesNoVerdict | cpp/module_proxy.cpp:292-362 | no outbound save or removal, but under the two credential names, changes any verdict or any caller |
| TokenScan.InboundSaveAuthorizesThatToken | cpp/token_manager.cpp:369-386 | recording what was issued to a new caller authorizes exactly that token more, whatever the proxy has recorded |
| TokenIdentity.NeverSplitNeverShared | cpp/token_manager.cpp:100-146 | over every run no name is both served the ambient store and isolated, and no two isolated names share a store |
| TokenIdentity.ServedForGood | cpp/token_manager.cpp:100-135 | a name once served is served the same store for ever |
| TokenIdentity.IsolatedWritesStayHome | cpp/token_manager.cpp:171-225 | a write, adoption or reset through one isolated identity leaves every other store as it was |
| TokenIdentity.AdoptionIsNotElevation | cpp/token_manager.cpp:171-190 | an adoption that succeeds never hands over the host's own anchor |
| TokenIdentity.StoreRegistry.ForIdentity | cpp/token_manager.cpp:100-135 | the ambient object for a name nobody isolated, else the one private object of that name, born empty |
| TokenIdentity.StoreRegistry.IsolateIdentity | cpp/token_manager.cpp:137-146 | refuses the empty name and a name already served the ambient store, and is idempotent |
| TokenIdentity.StoreRegistry.AdoptCredentialFor | cpp/token_manager.cpp:171-190 | installs the credential in the identity's own store only, and refuses the host's anchor |
| TokenIdentity.StoreRegistry.ResetIdentity | cpp/token_manager.cpp:214-225 | empties the identity's own store and no other |
| Handshakes.StepKeepsInv | cpp/logos_api_client.cpp:296-495 | every step (a call, readiness, its deadline, an exchange's end, a continuation's turn, a reply) keeps each call in one place and one source of progress for each waiting target |
| Handshakes.OneExchangePerTarget | cpp/logos_api_client.cpp:354-391 | callers wait for a target exactly when one readiness wait or one exchange is outstanding for it, never two |
| Handshakes.DrainedExactlyOnce | cpp/logos_api_client.cpp:460-468 | every continuation queued is drained once, and a call is in one queue or one place of the drained list at a time |
| Handshakes.TwiceSentOnceToldNeverTheSentinel | cpp/logos_api_client.cpp:319-348 | a call is dispatched at most twice, answered at most once, and never with the provider's refusal itself |
| Handshakes.SettledOnce | cpp/logos_api_client.cpp:401-445 | once readiness or its deadline has been reported for a wait, no later report and no deadline of that wait changes anything, whatever happens in between |
| HandshakeAnswers.ToldExactly | cpp/logos_api_client.cpp:319-381 | over every run a caller is told an answer, and only that, if and only if a step told it: the provider's own answer to its call, unauthorized for a refusal with no retry left, unavailable at its turn among the calls drained as unreachable |
| HandshakeAnswers.UnavailableIffDrainedSo | cpp/logos_api_client.cpp:354-445 | over every run a call is told unavailable, or is waiting its turn to be, if and only if it was queued when readiness was denied or timed out, or was first in its queue when asking failed at once |
| HandshakeAnswers.FirstCallWaits | cpp/logos_api_client.cpp:350-398 | a call goes out at once with a token or where none can be had; else to the end of its queue, where only the first begins a wait |
| HandshakeAnswers.ReportSettles | cpp/logos_api_client.cpp:410-443 | the first report of a wait starts one exchange, or drains the whole queue as unreachable, in order |
| HandshakeAnswers.ExchangeDrains | cpp/logos_api_client.cpp:484-493 | the end of an exchange caches a minted token and drains the whole queue as reachable, in order, minted or not |
| HandshakeAnswers.RefusalGoesRound | cpp/logos_api_client.cpp:323-337 | a refusal with a retry left drops the token, uses the retry up, tells nobody and queues the call again |
| ApiClient.LogosAPIClient.InvokeImpl | cpp/logos_api_client.cpp:296-398 | dispatches with a token or for an ineligible target, else queues, and only the first in the queue begins the readiness wait |
| ApiClient.LogosAPIClient.BeginReadinessGatedHandshake | cpp/logos_api_client.cpp:401-445 | one record with one latch, whether readiness answers at once, later or is refused |
| ApiClient.LogosAPIClient.DrainPendingHandshakes | cpp/logos_api_client.cpp:460-468 | the queue is gone before its continuations run, each moved out once in order |
| ApiClient.LogosAPIClient.OnReadiness | cpp/logos_api_client.cpp:417-443 | the first of readiness and deadline starts the exchange or drains; the other does nothing |
| ApiClient.LogosAPIClient.OnExchangeDone | cpp/logos_api_client.cpp:484-493 | caches a minted token and drains the target's queue as reachable |
| ApiClient.LogosAPIClient.OnResult | cpp/logos_api_client.cpp:322-348 | a plain answer is what the caller is told; a refusal with a retry left tells nobody, drops the token and goes round again, else the caller is told unauthorized; the invariant of the queues is kept |
| Base64.EncodeSpellsTheBits | cpp/logos_codec.h:118-142 | section 4 of RFC 4648: character i carries bits 6i to 6i+5 of the input, zeros after its end, by the alphabet of section 5 |
| Base64.DecodersInvertEncode | cpp/logos_codec.h:118-210 | both decoders invert the encoder for every byte string |
| Base64.StrictAcceptsExactly | cpp/logos_codec.h:179-210 | the strict decoder accepts exactly the strings that, stripped of padding, are all alphabet and not 1 long modulo 4, and agrees there with the tolerant one |
| Base64.TolerantReadsWhatItKnows | cpp/logos_codec.h:148-173 | the tolerant decoder reads the characters it knows as groups of four, whatever lies between them |
| Base64.SkimReadsGroups | cpp/logos_codec.h:160-172 | the 32-bit buffer that is never masked loses nothing, whatever junk it starts with |
| Base64.EncodeInvertsGroupedIff | cpp/logos_codec.h:179-210 | encoding what was decoded gives the text back if and only if the unused bits of its last character are clear |
| Base64.StrictAcceptsTwoSpellings | cpp/logos_codec.h:179-210 | two texts the strict decoder reads as the same byte |
| Base64.IndexInvertsTable | cpp/logos_codec.h:118-157 | the decoders' ranges and the encoder's table are one alphabet |
| Base64.EncodeLoop | cpp/logos_codec.h:118-142 | the loop computes the encoding |
| Base64.DecodeLoop | cpp/logos_codec.h:148-173 | the loop computes the tolerant reading |
| Base64.DecodeCheckedLoop | cpp/logos_codec.h:179-210 | the loop computes the strict reading, with nothing left in its output on refusal |
| Framing.Be32RoundTrip | cpp/implementations/plain/rpc_framing.cpp:9-21 | a length written big-endian is read back |
| Framing.EncodeFrame | cpp/implementations/plain/rpc_framing.cpp:25-40 | four bytes of big-endian length, the tag and the payload, or an error when tag and payload exceed 16 MiB |
| Framing.FrameReader.Next | cpp/implementations/plain/rpc_framing.cpp:48-74 | one frame, whose bytes in that layout and the rest are the buffer, or more needed, or an error for a zero or excessive length |
| Framing.AnyInterleavingReadsTheStream | cpp/implementations/plain/rpc_framing.cpp:48-74 | however appends and pulls are interleaved, the frames handed over and those still to come are the frames of the whole stream, in order |
| Framing.DrainReadsStream | cpp/implementations/plain/rpc_framing.cpp:25-74 | frames written one after the other are read back in order, and nothing is left |
| Framing.StreamRestoresBytes | cpp/implementations/plain/rpc_framing.cpp:48-74 | conversely the bytes are exactly the frames read from them and the unread rest |
| Connection.RpcConnection.OnRead | cpp/implementations/plain/rpc_connection.h:124-152 | one completed read hands over every whole frame, keeps the rest, and stops on a frame error; a stopped connection drops it |
| Connection.ChunksDoNotMatter | cpp/implementations/plain/rpc_connection.h:124-152 | what is handed over depends on the bytes alone, not on how they were cut into reads |
| Connection.OneWriteAtATimeInOrder | cpp/implementations/plain/rpc_connection.h:167-205 | at most one write is in flight, and what has gone out is a prefix of the frames in the order asked |
| Connection.RestMeansAllWritten | cpp/implementations/plain/rpc_connection.h:167-205 | an unfailed connection at rest has written everything it was asked to |
| Connection.FramesArriveInOrder | cpp/implementations/plain/rpc_connection.h:124-205 | end to end: any writer's run, any cutting of the bytes: the other end is handed a prefix of the frames asked for, without error, and all of them once all bytes arrive |
| Connection.StrandWriter.RunPosted | cpp/implementations/plain/rpc_connection.h:167-183 | the posted handler queues its frame and starts a write only if none is under way |
| Connection.StrandWriter.OnWritten | cpp/implementations/plain/rpc_connection.h:186-205 | a completed write takes the front frame off and starts the next, or goes idle |
| JsonMapping.RoundTripExactly | cpp/implementations/plain/json_mapping.cpp:34-96 | through any tree that differs only in how it holds integers, a value comes back with its keys sorted and integers canonical if and only if no map in it is a lone string named "_bytes" |
| JsonMapping.SettlingOnlyReorders | cpp/implementations/plain/json_mapping.cpp:48-52 | with canonical integers and each key once, that is the same value up to the order of its map entries |
| JsonMapping.SettledIsFixed | cpp/implementations/plain/json_mapping.cpp:34-96 | what has crossed once crosses unchanged |
| JsonMapping.TagsDoNotMatter | cpp/implementations/plain/json_mapping.cpp:58-65 | integers are read alike whether the tree holds them as signed or as unsigned |
| JsonMapping.IntegersAreExact | cpp/implementations/plain/rpc_value.h:96-100 | every integer from -2^63 to 2^64-1 is exact in either holding |
| JsonMapping.LookalikeIsNotAMap | cpp/implementations/plain/json_mapping.cpp:75-82 | a lone string named "_bytes" comes back as bytes, or as an error |
| JsonMapping.ScalarWrittenAs | cpp/implementations/plain/json_mapping.cpp:34-46 | each scalar is written as itself and bytes as an object with the one key "_bytes" |
| JsonMapping.MapWrittenAs | cpp/implementations/plain/json_mapping.cpp:46-53 | a list is written item by item and a map with the last entry of each key, keys in order |
| JsonMapping.ScalarReadAs | cpp/implementations/plain/json_mapping.cpp:55-74 | each leaf is read as itself, an unsigned integer as signed when it fits |
| JsonMapping.ValueToJson | cpp/implementations/plain/json_mapping.cpp:34-53 | the loops build the tree, the last of a repeated key winning |
| JsonMapping.JsonToValue | cpp/implementations/plain/json_mapping.cpp:55-96 | the loops rebuild the value, refusing bad base64url |
| RpcMessages.MessageRoundTrip | cpp/implementations/plain/json_mapping.cpp:151-282 | every message is read back as sent, its values settled and the fields its ok flag silences cleared, if and only if nothing sent in it looks like bytes |
| RpcMessages.WrittenOnTheWire | cpp/implementations/plain/json_mapping.cpp:151-208 | each message has its own type number and exactly its keys, each with its own field under it |
| RpcMessages.MissingKeysHaveDefaults | cpp/implementations/plain/json_mapping.cpp:112-282 | what each message and each method description is read as when no key is there |
| RpcMessages.IdConverts | cpp/implementations/plain/json_mapping.cpp:210-282 | an id of any numeric kind is taken, a negative one wrapped and a fraction cut; a missing one is zero and anything else is refused |
| RpcMessages.NoCallerNoKey | cpp/implementations/plain/json_mapping.cpp:162-167 | a call that names no caller is written without the key |
| RpcMessages.UnknownKeysAreIgnored | cpp/implementations/plain/json_mapping.cpp:210-282 | a key no decoder reads changes nothing, for every tag |

## Left out

- Sockets, TLS, io_context and resolver code: a strand is a queue of atomic steps, a write's progress is any number of bytes at a time.
- Qt threads and timers: a timer may fire whenever it is armed, and which thread delivers a callback is not distinguished.
- Progress of the network, of peers and of deferred acquires: replies may or may not come.
- JSON and CBOR text: the tree is where the wire stack's model stops.
- Doubles are real numbers: NaN, infinities and rounding are not modelled.
- QVariant conversions, the C ABI in logos_protocol.cpp, the other transports, logging and redaction.
- Names and tokens are UTF-8 byte strings: strings Qt can hold that have no UTF-8 form are not modelled.
- Signals of the token store, and the mutex around each of its operations: every operation is one step.
- The client being destroyed while an exchange is in flight: its guards then drop the callbacks, which the handshake machine does not show.
- The synchronous call path of LogosAPIClient: it blocks, so it never queues.
- LogosAPIConsumer's call cache and reconnect of the transport itself; what the registry does on reconnect is modelled.
- Replay of the current state to a newly installed status callback: it reports and changes nothing.
- Callbacks that reconnect from inside a registry operation: scripts have adds, cancels, rearms and policies.
- Wall-clock waiting times of deferred entries are an input of the tick.
- Frames that fail to decode: the read loop's model ends at tag and payload.
- RpcMessages.Id: a fractional id beyond the range of 64 bits, whose conversion C++ leaves undefined, is an error here.
- TokenScan.Comparisons.ConstantTimeEquals: lengths enter the accumulator as equal or not, which is all their exclusive or is used for; running time itself is not modelled, the number of comparisons is.
- DeferredPolicy.LossFollowsPolicy: for watchers and callbacks that ask for nothing; one that cancels, rearms or sets a policy meanwhile changes where a subscription ends up (HeldWatcherCanRearm is one such case).
- DeferredPolicy.ReconnectFollowsPolicy: the same.
- DeferredArming.ArmExactly: the same; what holds whatever callbacks do is in DeferredRuns.ArmAfter and DeferredGuarantees.
- AsyncRuns.SentinelThenCompletion: assumes the provider mints its ids afresh, so that no other call of this handle was ever filed under the same one.

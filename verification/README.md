# Verified models of the registry fan-out, the endpoint store and the clean-up loops

A Dafny 4.11 project about the stateful protocols of networkservicemesh/sdk-k8s. It
models three protocols as transition systems, in which one action is one atomic step of
one goroutine or one API call, and proves what every run of them guarantees. The code
that updates lists, channels, maps and the store in place is modelled by classes whose
methods are proved against the same definitions that the transition systems use.

`dafny verify dfyconfig.toml` checks everything.

## The modules

| file | content |
|---|---|
| `Fanout.dfy` | the watch fan-out of both registries: executor jobs, bounded buffers, watch loops, any interleaving |
| `FanoutInvariant.dfy` | its inductive invariant, one subscriber at a time and then the whole system |
| `FanoutRuns.dfy` | what every run guarantees: no gaps, what a nil return means, the executor protocol |
| `FanoutLoss.dfy` | when the endpoint registry loses events: the cause of every error, and the one silent loss |
| `FanoutIsolation.dfy` | projection of a run onto one endpoint watcher |
| `FanoutProgress.dfy` | broadcasts that never wait (endpoints) and exactly when a waiting one can end (services) |
| `FanoutWaiting.dfy` | service broadcasts under every schedule: what they wait for, and when they may wait for ever |
| `FanoutActions.dfy` | every job runs in order, and the state of a subscriber is what the actions of the run say |
| `FanoutDelivery.dfy` | a watcher that has lost nothing can always catch up |
| `FanoutServers.dfy` | the subscriber lists, broadcast loops and watch loops as classes and loops |
| `ApiStore.dfy` | the Kubernetes API server: objects with resource versions, and the history that determines them |
| `ApiTraffic.dfy` | calls that other clients make between two calls of a registry |
| `Replicas.dfy` | any number of endpoint registry replicas over one API server, and the invariant |
| `ReplicaRuns.dfy`, `ReplicaFinds.dfy` | what their runs guarantee: Register, Unregister, expiry; Find and the remote watch |
| `NseContext.dfy`, `NseRegistry.dfy`, `NsRegistry.dfy` | the registries' calls as methods, with calls of others in between |
| `DeviceTokens.dfy` | token batches, rollback, ageing, and the two flattenings of a kubelet response |
| `DeviceProtocol.dfy` | poll loops interleaved with Allocate, wake-ups and other users of the pool |
| `DeviceActions.dfy` | what a run says of its Lists, allocations and wake-ups, and what follows |
| `DeviceExposure.dfy` | exactly when a token can be freed on stale evidence |
| `CompletedPods.dfy`, `PodRuns.dfy` | the watch-then-list clean-up of completed pods, and what its runs guarantee |
| `Wrappers.dfy`, `Sequences.dfy` | the option type; the values picked out of a sequence and their positions |

In `Fanout.dfy` each action stands for these lines: `RunAdd`, `RunRemove`, `Cancel` and
`EnqueueRemove` for nse_server.go:279-297 and ns_server.go:219-232; `StartBroadcast`,
`TrySend`, `Mark` and `EndBroadcast` for nse_server.go:158-170 and ns_server.go:127-129;
`Dequeue`, `Check`, `Deliver` and `Finish` for nse_server.go:312-329 and
ns_server.go:238-245. In `Replicas.dfy`: `CallCreate`, `CallGet` and `CallUpdate` for
nse_server.go:179-203, `CallNext` for 203-204, `StartFind` and `FindItem` for 208-234,
`Observe` for 129-146, `RunTask` for 140-144 and 220-224, `CallUnregister` for 250-262. In
`DeviceProtocol.dfy`: the loop actions for deviceplugin/server.go:186-207, `Use` for
288-309, `Notify` for 137-142 and 283.

## What the code does not promise

Some expectations turned out to be false of the code. Each is shown by runs, next to the
exact condition under which the expectation fails or holds.

* The lagged mark is meant to give the client an explicit error on its next read
  (nse_server.go:166-168). If the buffer is drained between the failed try-send and the
  store of the mark, and the watcher then leaves, there is no next read: the watch
  returns without an error and the last event is lost, whatever the capacity
  (`SilentLossHappens`; exact condition: `NilReturnCompleteIff`).
* In the service registry a watcher that left on a Send error is removed by a job that
  waits behind the running broadcast. If its buffer is full the broadcast never ends
  and no later job runs (`StuckForever`, `DeadlockReachable`). Exact conditions: a
  broadcast can still end (`BroadcastEndsIff`); some schedule makes it wait for ever
  (`CanGetStuckIff`); its next step waits (`BroadcastWaitsIff`).
* A failed device batch frees tokens that were held before it
  (`FailedBatchFreesHeldToken`; exact condition: `RollbackRestoresIff`).
* Two overlapping ListAndWatch loops can free a token on a list issued before it was
  allocated (`TwoLoopsFreeOnStaleEvidence`; exact condition: `StaleFreeReachableIff`; a
  sufficient one for the single poll: `NeverFreedOnStaleEvidence`).
* A completed pod's event can lead to the deletion of a new pod of the same name
  (`StaleEventHitsNewPod`; exact condition: `DeleteMeetsUnfinishedIff`).

## Model

| member | source | states |
|---|---|---|
| `FanoutRuns.SentIsContiguousPrefix` | pkg/registry/etcd/nse_server.go:153-171 | in every run the updates sent to a watcher are, in order, the matching part of a gap-free prefix of the events broadcast since it subscribed, although a failed try-send and its mark are separate steps |
| `FanoutActions.NothingPublishedIsLost` | pkg/registry/etcd/nse_server.go:133-137 | in every run of either registry the events broadcast so far, followed by those of the broadcast jobs that wait, are exactly the events published, in order |
| `FanoutActions.SentIsStretchOfPublished` | pkg/registry/etcd/nse_server.go:133-171 | so what a watcher has been sent is the matching part of a gap-free stretch of the events published |
| `FanoutActions.JobsRunInOrder` | pkg/registry/etcd/nse_server.go:279-297 | the executor is first in first out: what waits is what was queued and not taken, in order, for add, remove and broadcast jobs |
| `FanoutActions.IdleExecutorGoesOn` | pkg/registry/etcd/nse_server.go:279-297 | an idle executor can run the job at the head of its queue, whatever it is |
| `FanoutActions.JobsAreTimely` | pkg/registry/etcd/nse_server.go:279-297 | told by the actions of a run alone: each add and remove job runs at most once, a remove job after its add job, and a broadcast sends only to channels added and not yet removed |
| `FanoutActions.SubscriberIsToldByActions` | pkg/registry/etcd/nse_server.go:309-330 | the state of every subscriber is what the actions of the run say: jobs, marks, reads, what its Sends answered, how its watch ended, and which broadcasts its window spans |
| `FanoutActions.ClientsAreFree` | pkg/registry/etcd/nse_server.go:270-301 | any event may be published and any new watcher subscribe at any time; it wakes up after its add job, and its remove job is queued once, after its context is cancelled |
| `FanoutDelivery.CatchesUp` | pkg/registry/etcd/nse_server.go:312-329 | from every state a watcher that has lost nothing can, by its own steps alone, be sent the matching part of all that was offered to it, and returns nil if its channel is closed |
| `FanoutRuns.NilReturnLosesAtMostLast` | pkg/registry/etcd/nse_server.go:309-330 | when watch returns nil, the client got the matching part of every event between subscription and removal; if the subscriber is marked, of all but exactly the last |
| `FanoutRuns.NilReturnCompleteIff` | pkg/registry/etcd/nse_server.go:309-330 | on a nil return nothing that matches is missing if and only if the subscriber is not marked or the last event of its window does not match |
| `FanoutLoss.SilentLossHappens` | pkg/registry/etcd/nse_server.go:163-169 | for every capacity, whatever events fill the buffer and whatever matching event comes next, some run ends with a watch that returned nil and never sent that event: the promised error on the next read does not come |
| `FanoutRuns.MarkedSendsAtMostOne` | pkg/registry/etcd/nse_server.go:314-328 | from the moment the mark is stored, in every continuation at most one more update is sent, the one already past the check |
| `FanoutLoss.ExhaustedMeansLoss` | pkg/registry/etcd/nse_server.go:163-169 | ResourceExhausted is returned only to a watcher whose buffer overflowed: after its add job a try-send found no room, its mark was stored later, and the event of that try-send lies in the window behind everything that was sent |
| `FanoutRuns.ExecutorProtocol` | pkg/registry/etcd/nse_server.go:279-297 | in every run: no send on a closed channel and no other panic, the list is exactly the added and not closed channels once each, each channel closed at most once, each remove job after its add job; for both registries |
| `FanoutRuns.WatchFollowsRounds` | pkg/registry/etcd/nse_server.go:312-329 | in every run the finished iterations of a watch loop got exactly the updates that passed its check, in order, and one that was refused; what it has sent and returned is what the contract of the watch method says for them |
| `FanoutRuns.BlockingIsLossless` | pkg/registry/etcd/ns_server.go:214-246 | service registry: sent, in hand and buffered are always exactly the events enqueued, in order, and these are all events of the window but at most the one whose broadcast is running; a nil return means every matching event between subscription and removal was sent |
| `FanoutInvariant.RunKeepsInv` | pkg/registry/etcd/nse_server.go:153-330 | the inductive invariant of list, queue, worker, buffers, marks and watch loops holds in every state of every run |
| `FanoutIsolation.ProjectionIsRun` | pkg/registry/etcd/nse_server.go:153-171 | deleting all actions of other endpoint watchers from any run leaves a run, of the system with the remaining watcher alone, and that watcher's state is the same |
| `FanoutIsolation.WatcherIsIsolated` | pkg/registry/etcd/nse_server.go:270-330 | two runs that agree on the broadcasts and on one watcher's own steps treat that watcher alike, whatever the others do |
| `FanoutProgress.BroadcastNeverWaits` | pkg/registry/etcd/nse_server.go:158-170 | while an endpoint broadcast runs its next step is always enabled, and however the watch loops interleave it takes at most two steps for each subscriber still to be visited and one to end |
| `FanoutProgress.BufferedIsBounded` | pkg/registry/etcd/nse_server.go:50-64 | in every run the buffered events of any subscribers together are at most capacity times their number |
| `FanoutProgress.StuckForever` | pkg/registry/etcd/ns_server.go:126-130 | a service broadcast that still has to visit a full subscriber whose watch has returned never moves past it, no queued job runs, and no continuation changes this |
| `FanoutProgress.EndBroadcastRun` | pkg/registry/etcd/ns_server.go:126-130 | otherwise it can end: some schedule ends it, with at most one more read from each full channel still to be visited and within four steps for each subscriber |
| `FanoutProgress.BroadcastEndsIff` | pkg/registry/etcd/ns_server.go:126-130 | some schedule ends a running service broadcast if and only if no subscriber still to be visited is full with its watch returned |
| `FanoutWaiting.BroadcastWaitsIff` | pkg/registry/etcd/ns_server.go:126-130 | in every schedule, until a service broadcast ends: it takes at most one step for each subscriber still to be visited, and its next step waits if and only if the subscriber it has reached was full at the beginning and has not read since |
| `FanoutWaiting.CanGetStuckIff` | pkg/registry/etcd/ns_server.go:126-130 | some schedule makes a running service broadcast wait for ever if and only if a subscriber still to be visited is full and its watch has returned or is about to send |
| `FanoutProgress.DeadlockReachable` | pkg/registry/etcd/ns_server.go:226-244 | for every capacity a run reaches such a stuck broadcast, because a watcher that failed to send is removed only by a later job of the same executor |
| `FanoutServers.NseSubscribers.SendEvent` | pkg/registry/etcd/nse_server.go:153-171 | every listed node has the event appended if it has room and is marked otherwise; no node is removed or closed |
| `FanoutServers.NseSubscribers.AddSubscriber` | pkg/registry/etcd/nse_server.go:270-284 | a new node with an empty open channel and no mark is last in the list |
| `FanoutServers.NseSubscribers.RemoveSubscriber` | pkg/registry/etcd/nse_server.go:293-296 | exactly the given node leaves the list, the order of the others is kept, its channel is closed |
| `FanoutServers.NseSubscribers.Watch` | pkg/registry/etcd/nse_server.go:309-330 | the loop sends the matching updates up to the first lagged or failing iteration and returns nil if and only if there is none |
| `FanoutServers.NsSubscribers.SendEvent` | pkg/registry/etcd/ns_server.go:126-130 | the event is appended to the channels up to the first full one, where the loop waits; no other channel changes |
| `FanoutServers.NsSubscribers.RemoveSubscriber` | pkg/registry/etcd/ns_server.go:228-231 | exactly the given channel leaves the list and is closed |
| `FanoutServers.NsSubscribers.Watch` | pkg/registry/etcd/ns_server.go:237-246 | the loop sends the matching updates up to the first failing Send and returns nil if and only if there is none |
| `FanoutServers.UninterruptedBroadcast` | pkg/registry/etcd/nse_server.go:153-171 | a broadcast of the transition system run without interruption gives every listed channel what SendEvent gives it, and the others nothing |
| `FanoutServers.UninterruptedUntilFull` | pkg/registry/etcd/ns_server.go:126-130 | the same for the service registry, up to the first full channel |
| `ApiStore.ReplayIsLookup` | pkg/registry/etcd/nse_server.go:179-197 | replaying the history entry by entry stores under every key what the last entry on it wrote, or nothing if that was a delete |
| `ApiStore.LookupMeans` | pkg/registry/etcd/nse_server.go:191-197 | the stored version of a key is v if and only if entry v wrote it and no later entry touched the key |
| `ApiStore.ApiServer.CreateObject` | pkg/registry/etcd/nse_server.go:179-186 | creates under a new version if the key is free, reports AlreadyExists otherwise |
| `ApiStore.ApiServer.UpdateObject` | pkg/registry/etcd/nse_server.go:197 | replaces the object only if its stored version is the one named |
| `ApiStore.ApiServer.DeleteObject` | pkg/registry/etcd/nse_server.go:255-262 | deletes the object, if a version is named only when it is the stored one |
| `Replicas.RunInv` | pkg/registry/etcd/nse_server.go:129-262 | the invariant of history, calls, clean-up tasks and Finds holds in every run of any number of replicas |
| `ReplicaRuns.ExpiryDeletesOnlyWhatItSaw` | pkg/registry/etcd/nse_server.go:138-146 | a background delete removes exactly a version whose expiration time had passed when it was seen, in the replica's own namespace, with nothing written or deleted under the key in between; so a registration refreshed in between survives |
| `ReplicaRuns.NoLostUpdate` | pkg/registry/etcd/nse_server.go:190-198 | for a write of a Register that replaces an object there is the Get of the same call in the run, which returned the very version that is replaced, and nothing was written or deleted under the key between the two; a write that creates found nothing stored |
| `ReplicaRuns.UpdateSucceedsIff` | pkg/registry/etcd/nse_server.go:191-197 | an Update that reaches the server succeeds if and only if nothing was written or deleted under its key since the Get of its call |
| `ReplicaRuns.SuccessIsOneWrite` | pkg/registry/etcd/nse_server.go:173-205 | a Register that gets to the hand-on has made exactly one write, of the request it was called with, under its key in the namespace its replica was started with, and hands on the version of that write, also when the next element fails afterwards; one that failed before wrote at most once, and only if the reply to that write was lost |
| `ReplicaRuns.RegisterGoesOn` | pkg/registry/etcd/nse_server.go:179-204 | what each call of a Register leads to, told by the store: Create writes or leads to Get, Get leads to Update exactly if it finds the object, Update writes exactly if the version read is stored, a write is handed on |
| `ReplicaRuns.UndisturbedRegister` | pkg/registry/etcd/nse_server.go:173-205 | a Register that nobody interferes with succeeds, with exactly one write, if and only if nothing is stored under its name or the name is its own and not generated |
| `ReplicaRuns.LossyRegister` | pkg/registry/etcd/nse_server.go:179-202 | a write whose reply is lost has the same effect on the store, and the Register fails |
| `ReplicaRuns.NewestOutlivesOlderUnregisters` | pkg/registry/etcd/nse_server.go:245-268 | the newest write of a name is stored if and only if no delete call that names it with its very version, or with no version, has reached the server since; Unregisters and clean-ups that carry other versions, from any replica, do not remove it |
| `ReplicaRuns.UnregisterDeletesOwnRegistration` | pkg/registry/etcd/nse_server.go:250-262 | a delete by an Unregister that carries the version handed on by a Register erases exactly the write of that Register, which is current until then |
| `ReplicaFinds.FindCleansUp` | pkg/registry/etcd/nse_server.go:207-227 | once the list loop of a Find is done and the queue of its replica is empty, no registered object of the own namespace whose expiration time had passed when the Find listed is stored unless it was rewritten since, or the delete call for this very version failed |
| `ReplicaFinds.ObserveCleansUp` | pkg/registry/etcd/nse_server.go:133-146 | the same for an object that the remote watch has shown expired |
| `ReplicaFinds.FindFailsIff` | pkg/registry/etcd/nse_server.go:212-234 | a Find fails exactly at the first live item whose Send fails, has treated every item before that one and takes none after it |
| `NseContext.VersionTravels` | pkg/registry/etcd/context.go:26-33 | the version put into a context is what is read from every context derived from it, an older version is hidden, other values are not |
| `NseContext.VersionIsReadIff` | pkg/registry/etcd/context.go:26-33 | a version is read exactly if one was stored under the key; none is read from a context in which only other elements have stored values |
| `NseRegistry.EtcdNSERegistryServer.Register` | pkg/registry/etcd/nse_server.go:173-205 | with arbitrary calls of others between its own: it fails before the hand-on exactly if the name is taken and it was generated, or gone at the Get, or written or deleted between Get and Update, and then it has not written; otherwise it has written exactly once, what it replaced is what its Get returned, and its version is in the context handed on, whether the next element fails or not |
| `NseRegistry.EtcdNSERegistryServer.Unregister` | pkg/registry/etcd/nse_server.go:245-268 | the store changes only by deleting the named object, only if the version stored in the context, when there is one, is its version; a refused delete is not an error; afterwards an object is stored under the name only if the context holds another version, so without a version the name is free |
| `NseRegistry.EtcdNSERegistryServer.FindList` | pkg/registry/etcd/nse_server.go:212-234 | sends the unexpired matching items with defaulted names in list order and queues one conditional delete for each expired one; it fails if and only if a Send for such an item fails, and stops at the first one |
| `NseRegistry.FindPartitions` | pkg/registry/etcd/nse_server.go:212-234 | what is sent comes from exactly the live items that match and the tasks from exactly the expired ones, each once and in list order, so each item is sent, queued for deletion or passed over, exactly one of the three |
| `NseRegistry.FindTreatsEach` | pkg/registry/etcd/nse_server.go:218-234 | an item whose expiration time has passed is queued for deletion in the version seen; one without, or with a later one, is sent if it matches |
| `NseRegistry.EtcdNSERegistryServer.WatchRemoteStorage` | pkg/registry/etcd/nse_server.go:118-146 | every endpoint event is broadcast once, in order, with its name defaulted, and exactly the expired ones that are not deletions are queued for a conditional delete |
| `NseRegistry.EventsTreatEach` | pkg/registry/etcd/nse_server.go:118-146 | the positions of what is broadcast are exactly those of the endpoint events, the positions of the tasks exactly those of the expired ones that are not deletions, each once and in order |
| `NseRegistry.EtcdNSERegistryServer.RunDelete` | pkg/registry/etcd/nse_server.go:139-145 | one queued delete removes exactly the version it names, or changes nothing, and afterwards that version is not stored |
| `NsRegistry.EtcdNSRegistryServer.Register` | pkg/registry/etcd/ns_server.go:132-168 | it fails before the hand-on exactly if the name is taken and it was generated, or gone at the Get, or written or deleted between Get and Update, and then it has not written; otherwise it has written exactly once, the request, and what it replaced is what its Get returned, whether the next element fails or not |
| `NsRegistry.EtcdNSRegistryServer.Unregister` | pkg/registry/etcd/ns_server.go:198-212 | succeeds if and only if the service was stored, and then it is gone; an error changes nothing; other services are untouched |
| `DeviceTokens.DevicePluginServer.UpdateDevices` | pkg/tools/deviceplugin/server.go:226-241 | for every iteration order of the map: seen tokens become fresh, missed fresh ones stale, missed stale ones are dropped and given back to the pool |
| `DeviceTokens.DevicePluginServer.UseDevices` | pkg/tools/deviceplugin/server.go:288-309 | succeeds if and only if the ids are pairwise different and all free, and then tracks and holds all of them; otherwise none of them is tracked or held |
| `DeviceTokens.RollbackRestoresIff` | pkg/tools/deviceplugin/server.go:301-306 | a failed batch leaves the pool and the tracking as they were if and only if none of its ids was held before; ids outside the batch are never touched |
| `DeviceTokens.FailedBatchFreesHeldToken` | pkg/tools/deviceplugin/server.go:301-306 | every batch that names a held token fails and frees that token, whatever else it names; free tokens stay free |
| `DeviceTokens.DevicePluginServer.Allocate` | pkg/tools/deviceplugin/server.go:265-286 | the ids of all containers form one batch, and the wake-up slot is full afterwards whether it succeeded or not |
| `DeviceTokens.FlagCountsMisses` | pkg/tools/deviceplugin/server.go:230-240 | over any sequence of batches and polls the flag of a tracked token is true exactly if no poll missed it since it was allocated or seen, and false exactly if one did |
| `DeviceTokens.FreedAtSecondMiss` | pkg/tools/deviceplugin/server.go:230-240 | a poll frees a tracked token if and only if it is its second consecutive miss |
| `DeviceActions.TrackedIsTrack` | pkg/tools/deviceplugin/server.go:226-309 | in every run of interleaved loops and batches the tracked tokens and their flags are those of the sequence of batches and polls |
| `DeviceActions.RunFreesAtSecondMiss` | pkg/tools/deviceplugin/server.go:230-240 | in every such run the flag tells whether a poll has missed the token, and the next ageing frees it if and only if that is its second consecutive miss |
| `DeviceActions.TwoAnswersMissIt` | pkg/tools/deviceplugin/server.go:193-241 | an ageing frees a token only if neither the answer it goes by nor the one aged by before names it, and it was not allocated in between |
| `DeviceTokens.DevicePluginServer.RespToDeviceIDs` | pkg/tools/deviceplugin/server.go:210-224 | the set of all ids of the server's resource in the response |
| `DeviceTokens.RespToDeviceMap` | pkg/tools/deviceplugin/server.go:125-135 | a map with exactly the resources of the response, each with its ids in order |
| `DeviceTokens.FlatteningsAgree` | pkg/tools/deviceplugin/server.go:125-135 | on every response the per-server set is the elements of the start-up map at that resource |
| `DeviceTokens.CountIsConserved` | pkg/tools/deviceplugin/server.go:125-135 | the lists of the start-up map together hold as many ids as the response |
| `DeviceProtocol.NeverFreedOnStaleEvidence` | pkg/tools/deviceplugin/server.go:186-207 | with any number of loops: if no ageing has come since its List was issued, a poll frees a token only if that List was issued after the token's latest successful allocation and does not report it |
| `DeviceActions.FreedOnFreshEvidence` | pkg/tools/deviceplugin/server.go:186-207 | the same told by the actions of the run alone: the token was last allocated before the step that issued the List, and the answer to that List does not name it |
| `DeviceActions.LoopFollowsItsSteps` | pkg/tools/deviceplugin/server.go:186-206 | in every run a loop is where its last step has put it, and the ids it ages by are those of the last answer to the last List it issued |
| `DeviceActions.RoundOrder` | pkg/tools/deviceplugin/server.go:186-206 | the round of a loop: list, answer, age, report, wait, with the error exits, and when each step can happen |
| `DeviceActions.OneLoopIsNeverStale` | pkg/tools/deviceplugin/server.go:186-207 | if no loop is started while another one runs, this holds for every ageing |
| `DeviceExposure.StaleFreeReachableIff` | pkg/tools/deviceplugin/server.go:183-241 | without a further loop a token can be freed on stale evidence if and only if two loops run and there is a token to allocate, or the List of some loop is already older than the allocation of a stale token that it has not reported |
| `DeviceExposure.TwoLoopsFreeOnStaleEvidence` | pkg/tools/deviceplugin/server.go:183-208 | from every start in which the server has a token, two overlapping loops can reach a poll that frees it although its List was issued before it was allocated |
| `DeviceActions.NoLostWakeUp` | pkg/tools/deviceplugin/server.go:137-142 | whenever an Allocate or the pool's listener has sent a wake-up and no List was issued since, the one-slot channel is full or a loop is about to issue its next List |
| `DeviceActions.SlotCoalesces` | pkg/tools/deviceplugin/server.go:137-142 | the slot is full exactly if a wake-up was sent since the last one was taken, and every batch is owed one wake-up |
| `DeviceProtocol.TrackedStayHeld` | pkg/tools/deviceplugin/server.go:226-309 | over any run of batches, polls and other servers' use of the pool, tracked tokens are held in the pool and owned by this server, and no step of this server touches a token it does not own |
| `CompletedPods.CreatePodServer.MonitorCompletedPods` | pkg/networkservice/common/createpod/server.go:93-117 | a delete is issued for exactly the finished pods of this server, first those listed, if the list succeeds, then those of the events, in order |
| `CompletedPods.DeletesExactlyDone` | pkg/networkservice/common/createpod/server.go:93-117 | the names deleted are those at exactly the positions of the finished pods of this server, each occurrence once and in order |
| `CompletedPods.CreatePodServer.DeleteSpawnedCompletedPod` | pkg/networkservice/common/createpod/server.go:177-188 | a delete is issued if and only if the pod carries this server's label and has succeeded or failed |
| `PodRuns.NoneForgotten` | pkg/networkservice/common/createpod/server.go:80-117 | while the watch is open, once the list and all events so far are consumed, every stored finished pod of this server has had a delete issued by an action since which it has been stored and finished |
| `PodRuns.OnlyDoneNames` | pkg/networkservice/common/createpod/server.go:177-188 | deletes are issued only for names under which a finished pod of this server was stored at some moment of the run |
| `PodRuns.WatchIsTold` | pkg/networkservice/common/createpod/server.go:80-117 | the watch delivers exactly the changes made before it is closed, and the stored pods are what the changes of the run made them |
| `PodRuns.DeleteMeetsUnfinishedIff` | pkg/networkservice/common/createpod/server.go:93-117 | in every run, for a listed pod or an event: the delete for a finished pod meets a stored pod that is not finished (or not of this server) if and only if the last change of that name not handled yet tells of one, and meets no pod if and only if that change is a deletion |
| `PodRuns.StaleEventHitsNewPod` | pkg/networkservice/common/createpod/server.go:184 | a run in which the delete for a finished pod is issued when a running pod has taken its name |

## Left out

- The gap between the List of a Find and its subscription, and between two remote
  watches: the code does not close it, so the watch results speak of the events
  broadcast while a watcher is subscribed.
- The rest of Find: the End-of-file case of the watch result and the call of the next
  chain element; matching, the next elements and the expire element are parameters.
- The retry delays of the remote watch, logging, error texts, gRPC, sockets, the
  registration with the kubelet and the restart monitor.
- The executor, the linked list and the token pool are modelled by their contracts: jobs
  run one at a time in order, a sequence, and a set of free and a set of held ids.
- Lost replies are part of `Replicas.dfy`; the methods of `NseRegistry.dfy` and
  `NsRegistry.dfy` assume that replies arrive.
- Resource versions are numbers here and strings in the API, compared for equality only;
  that the API server draws them from one increasing counter is an assumption.
- Template and manifest decoding in createPod, and its choice of the node.
- The environment variables of an Allocate response, and the health list sent to the
  kubelet.
- Generated clients and deep copies: only easy members.
- UninterruptedBroadcast: covers the loop without interruption; interruptions are covered
  by the runs of the transition system, not by the method.
- NeverFreedOnStaleEvidence: speaks of polls in whose List no ageing has come since it was
  issued; StaleFreeReachableIff says exactly from which states the other polls go wrong.
- NoneForgotten: assumes that the list succeeded and that the watch is still open; the
  code reopens neither.

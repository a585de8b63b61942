# Verified model of the KafkaTopicChannel data plane

The controller of a `KafkaTopicChannel` marks a subscriber as ready when dispatcher pods have said that
as many partitions are consumed for it as the channel had when it began to ask them. This project models
the code that decides this, and proves what that code promises:

- **The prober** (`pkg/channel/kt/status/status.go`). For each subscription it starts one probe per
  dispatcher pod. A probe has a work item that some worker executes, a goroutine that joins two
  contexts, and a goroutine that reacts to cancellation; success and cancellation race for the pod's
  counter. `ProbeRound` is the state machine of one target state with one step per atomic operation;
  `ProbeRoundInvariant` and `ProbeRoundTheorems` prove its invariant and what it means.
  `ProberSystem` adds the registry, the pod contexts and the interface calls, and `ProberTheorems`
  proves the properties of every run, over all interleavings, among them exactly when a wake-up is
  lost; `LostWakeUp` gives a run that loses one. `ProbeReplies` and
  `ProbeCallbacks` say, in terms of the replies and of the round alone, exactly what a reply does and when
  the callback is called. `PartitionCount` proves which number of partitions an answer is about. `Prober` is the program itself: a class whose methods are the
  interface calls and the goroutine bodies, with `Interfere` or `InterfereWithCalls` at every point where others may run; its
  ghost field `trace` ties each state to a run of `ProberSystem`. `ProberCalls` says what each
  interface call promises and proves that readiness is sticky.
- **The dispatcher's bookkeeping** (`pkg/channel/kt/dispatcher/`). Three maps and the objects they share
  must agree under failures to start or to close consumer groups and any order of map iteration.
  `ConsumerObjects` and `Dispatcher` are the classes. `DispatcherBook` proves the invariant on the
  value that their fields and objects represent. `DispatcherTable` is the plain table of live
  subscriptions that the bookkeeping refines, with the laws of reconciling and cleaning up.
- **The link**. `ReadyMap` relates the ready sets of a pod to the history of `SetReady` calls,
  `SubscriptionEndpoint` serves them, `Lister` finds the pods and the URL, `Encodings` proves the path
  of that URL and the consumer group IDs unambiguous, and `Controller` turns answers of the prober into
  `Status.Subscribers` and proves readiness from end to end.

## How to read the model

- A round's `settlement`, `answers`, `calls` and `disturbed`, a prober's `trace` and `overwritten`, and a
  dispatcher's `home`, `boxes`, `started`, `history` and `closed` record history: no step depends on them.
  A prober's `building` stands for the local variables of calls of `probeTarget` that have not returned.
- What the environment decides is a parameter: what the lister and the network answer, which starts and
  closes fail, in which order a map is iterated (`RefreshPodProbing`), whether the status patch fails.
  Where the order cannot be observed the loops choose an arbitrary element.
- The interface calls of the class `Prober` do not overlap each other. Workers and goroutines run between
  any two of their atomic operations, and between two operations of a worker or goroutine any steps of the
  others and of an interface call may come. The source does not keep calls apart: `IsReady` ejects without
  the lock (line 183) and `RefreshPodProbing` releases it (lines 349-354). `ProberSystem` has no such
  restriction: there any number of calls are in flight. For them `TrackedIffNeverForgotten` says exactly
  which runs lose a round, and `RefreshOverlapForgets` gives the one that a pod event and a reconcile can
  cause.
- A round is never outdated by a change of its channel: `isOutdatedTargetState` compares the generation and
  the pods only (line 499), and `checkReadiness` reads the stored channel (line 148). When `NumPartitions` is
  raised and the subscriber's generation stays, `IsReady` answers true with too few partitions
  (`RaisedAnswersTrue`); `TrueForTheChannel` says when the answer is about the channel that was passed.
- `CancelPodProbing` belongs to the prober's interface, but nothing in this repository calls it: the
  controller answers pod events with `RefreshPodProbing` (`controller.go`, line 139). The run of
  `LostWakeUp`, and the wake-ups that only a pod's cancellation can lose, need some other caller.
- URL parsing, escaping and the HTTP client belong to Go's library. `RequestURI` models them for URLs made
  of the unreserved characters of section 2.3 of RFC 3986 and slashes, which they leave as they are; the
  names and namespaces that Kubernetes admits consist of such characters.
- Cancelling a context and the contexts derived from it is one atomic operation.
- `NumPartitions` is at least 1 where a statement needs it (`Complete`), which validation ensures.
- `ReconcileConsumers` does not look whether a UID belongs to another channel. It is modelled for all
  inputs, and the invariant survives it exactly when no UID is taken over (`ReconcileKeepsInv`).
- Where comments and code of the source differ, the model follows the code: success does not decrement
  the target's counter, only cancellation does (lines 420-443); a round is ready when the number of
  partitions *equals* `NumPartitions` (line 157); an unexpected HTTP status counts as a successful probe
  that names no partition (lines 485-489), although it is logged as abandoned.

## Model

| member | source | states |
|---|---|---|
| ProbeRoundInvariant.StepInv | pkg/channel/kt/status/status.go:361-451 | every atomic operation of a worker, joining goroutine or cancellation goroutine keeps the inductive invariant of a round |
| ProbeRoundInvariant.NewRoundInv | pkg/channel/kt/status/status.go:189-214 | the state `probeTarget` builds satisfies the invariant, also with no pods |
| ProbeRoundInvariant.SpawnedInv | pkg/channel/kt/status/status.go:233-265 | starting the goroutines of one more pod keeps the invariant although earlier pods already run |
| ProbeRoundInvariant.AbandonedInv | pkg/channel/kt/status/status.go:311-317 | ejecting a round at any moment keeps the invariant |
| ProbeRoundInvariant.StepUniqueZero | pkg/channel/kt/status/status.go:441-447 | at most one cancellation goroutine ever brings the target counter to zero |
| ProbeRoundInvariant.StepAttended | pkg/channel/kt/status/status.go:399-431 | a step leaves a complete round without a caller to be if and only if nobody has called, no other worker will, and this worker drops its accepted reply because its context is done or its pod was written off |
| ProbeRoundInvariant.UndisturbedNeverLoses | pkg/channel/kt/status/status.go:393-451 | no such step exists in a round that nothing outside it has cancelled |
| ProbeRoundInvariant.StepWakeUp | pkg/channel/kt/status/status.go:420-451 | no operation loses the wake-up of a round that nothing outside has cancelled |
| ProbeRoundTheorems.SettledOnce | pkg/channel/kt/status/status.go:420-443 | a settlement never changes, a pod counter never grows, and only a worker's `Dec` or a successful compare-and-swap takes it away from 1 |
| ProbeRoundTheorems.PendingCountExact | pkg/channel/kt/status/status.go:200-214 | the target counter is the number of pods not written off by a cancellation, and is zero exactly when all are |
| ProbeRoundTheorems.CallbackPathsExclusive | pkg/channel/kt/status/status.go:420-451 | a callback on the cancellation path happens only when every pod was cancelled, and is then the only callback |
| ProbeRoundTheorems.CallbackBound | pkg/channel/kt/status/status.go:426-446 | callbacks never exceed the number of pods, and no pod causes two |
| ProbeRoundTheorems.NoLostWakeUp | pkg/channel/kt/status/status.go:393-451 | an undisturbed round with exactly `NumPartitions` partitions and no worker on its way has called back |
| ProbeRoundTheorems.ReadinessIsWitnessed | pkg/channel/kt/status/status.go:145-160 | a ready round has at least `NumPartitions` partitions, each named for its own UID in a 200 answer to a probe of one of its pods |
| ProbeRoundTheorems.StepDrains | pkg/channel/kt/status/status.go:361-451 | every operation for a probe whose context is done lowers its rank, so the compare-and-swap loop and the retries end |
| ProbeRoundTheorems.DoneNeverStuck | pkg/channel/kt/status/status.go:399-451 | until its goroutines have ended and its item is forgotten, a probe whose context is done can always make a step |
| ProberSystem.ReachableInv | pkg/channel/kt/status/status.go:145-451 | the invariant of rounds, registry, contexts and cancellations holds after every interleaving of any number of overlapping calls |
| ProberSystem.StepEffect | pkg/channel/kt/status/status.go:162-328 | what any step can change: identity, readiness, cancellation, partitions and answers of existing rounds only grow |
| ProberSystem.StepContexts | pkg/channel/kt/status/status.go:216-256 | an uncancelled context is the current one of its IP, and each probe watches a context of its own IP |
| ProberSystem.StepDisturbed | pkg/channel/kt/status/status.go:239-250 | a round that is registered and was cancelled from outside has a pod whose IP context was cancelled |
| ProberTheorems.ExactAccounting | pkg/channel/kt/status/status.go:200-451 | in every reachable state: target counter, pod counters in 1, 0 and -1, settlements and callbacks agree exactly |
| ProberTheorems.SettledForGood | pkg/channel/kt/status/status.go:420-451 | over every continuation of a run a settled pod stays settled the same way, never both by success and by cancellation |
| ProberTheorems.AttendedIffNeverLost | pkg/channel/kt/status/status.go:393-451 | for every run: a round has at each point, once complete, called back or a worker that will, if and only if no step of the run is a losing one |
| ProberTheorems.LabelAttended | pkg/channel/kt/status/status.go:393-451 | the same for one step of the whole system: interface calls and other rounds never lose a wake-up |
| ProberTheorems.NeverLostIsCalled | pkg/channel/kt/status/status.go:393-451 | when the set is complete and all workers are through, a round whose run took no losing step has called back |
| ProberTheorems.NoLostWakeUp | pkg/channel/kt/status/status.go:393-451 | a registered round without cancelled pods never takes a losing step, so it has called back once its set is complete and its workers are through |
| LostWakeUp.PodCancellationLosesWakeUp | pkg/channel/kt/status/status.go:399-451 | a run with a losing step: it ends with a complete, registered round, all goroutines finished and no callback |
| ProberTheorems.CancelledProbeDrains | pkg/channel/kt/status/status.go:361-418 | from any reachable state in which the target or the pod is cancelled, every continuation dequeues the item at most once more and makes at most 16 operations for it |
| ProbeReplies.VerdictExact | pkg/channel/kt/status/status.go:457-490 | accepted are exactly a 200 that lists the UID and a status other than 200, 404 and 503; a 200 without the UID or without a decodable body, a 404, a 503 and no reply are not |
| ProbeReplies.AnswerExact | pkg/channel/kt/status/status.go:387-397 | a reply is recorded, adds exactly the partitions it reports and leaves the worker with exactly that verdict |
| ProbeReplies.CheckContextExact | pkg/channel/kt/status/status.go:399-416 | a worker drops its item at the context check if and only if the target or the pod is cancelled, and otherwise goes on to success or to a retry |
| ProbeReplies.WaitersExact | pkg/channel/kt/status/status.go:239-256 | the goroutines that wait for the pod's context can go on exactly when the target or the pod is cancelled |
| ProbeReplies.JoinerFires | pkg/channel/kt/status/status.go:239-250 | in every run a probe whose IP context is cancelled is cancelled or has a goroutine that can cancel it, and only then can it |
| ProbeReplies.PartitionsExact | pkg/channel/kt/status/status.go:459-479 | in every run, ready or not, a partition is in the set if and only if a received 200 listed it for the round's UID |
| ProbeReplies.AnswersAreReplies | pkg/channel/kt/status/status.go:393-397 | the recorded replies of a round are those of the run, in order, none lost and none invented |
| ProbeReplies.SuccessIsWitnessed | pkg/channel/kt/status/status.go:407-422 | in every run a pod settled by success got an accepted reply of its own |
| ProbeReplies.PendingIsProbed | pkg/channel/kt/status/status.go:361-418 | in every run a pod neither settled nor cancelled is still being probed: its item is not dropped and its worker can go on |
| ProbeCallbacks.CheckReadyExact | pkg/channel/kt/status/status.go:426-428 | the success path goes on to the callback if and only if the round was ready or has exactly `NumPartitions` partitions |
| ProbeCallbacks.ReviewExact | pkg/channel/kt/status/status.go:444-446 | so does the cancellation path |
| ProbeCallbacks.DecrementTargetExact | pkg/channel/kt/status/status.go:443 | the cancellation path checks readiness exactly at the write-off that brings the target counter to zero |
| ProbeCallbacks.CalledIffFoundReady | pkg/channel/kt/status/status.go:420-451 | in every run a worker or canceller that has ended has called back if and only if it asked and found the round ready |
| ProbeCallbacks.LastWriteOffCalls | pkg/channel/kt/status/status.go:443-446 | when the set is complete before the last pod is written off and stays the same, exactly one cancellation goroutine calls back, and nobody else |
| ProbeCallbacks.CallsAreCallbacks | pkg/channel/kt/status/status.go:428-445 | the recorded callbacks of a round are those of the run, in order |
| ProberTheorems.TrackedIffNotForgotten | pkg/channel/kt/status/status.go:172-186 | with overlapping calls, a step keeps every round registered, cancelled or under construction if and only if it does not register over a live round |
| ProberTheorems.TrackedIffNeverForgotten | pkg/channel/kt/status/status.go:172-186 | for every run of overlapping calls: all rounds are accounted for at each point if and only if no step registers over a live round |
| ProberTheorems.RefreshOverlapForgets | pkg/channel/kt/status/status.go:336-355 | `RefreshPodProbing`, having ejected and unlocked, and `IsReady` both probe for one UID and leave a live round that nobody can cancel |
| ProberTheorems.OverlappingCallsForget | pkg/channel/kt/status/status.go:172-186 | two overlapping calls of `IsReady` for one subscription do leave a live round that nobody can cancel |
| ProberTheorems.RegisteredOrCancelled | pkg/channel/kt/status/status.go:267-317 | between calls that do not overlap every round ever made is registered or cancelled, so a subscription has at most one live round and an unregistered one has none |
| ProberTheorems.PodCancellationReaches | pkg/channel/kt/status/status.go:320-328 | in every run each probe of an IP watches its current context or a cancelled one, so `CancelPodProbing` leaves no probe of the IP with a live context, the contexts of other IPs as they were, and a new context to later probes |
| ProberTheorems.ReadyIsWitnessed | pkg/channel/kt/status/status.go:453-480 | in every run readiness comes only from 200 answers to the round's own probes |
| ProberTheorems.StepKeepsReady | pkg/channel/kt/status/status.go:156-159 | only ejecting the UID or registering another round for it ends the readiness of a UID and generation |
| PartitionCount.TrueForTheChannel | pkg/channel/kt/status/status.go:145-187 | an answer of true means at least as many ready partitions as the channel passed has, if no earlier call for the UID passed fewer and the UID began unregistered or with a round for enough |
| PartitionCount.RaisedAnswersTrue | pkg/channel/kt/status/status.go:494-500 | for all n < m: after a run for a channel with n partitions, `IsReady` for the same channel with m and the same generation answers true with fewer than m ready |
| PartitionCount.TooFewIffRaised | pkg/channel/kt/status/status.go:145-160 | a reachable ready round built for n partitions with fewer than m exists if and only if n < m |
| PartitionCount.CallKeepsSuffices | pkg/channel/kt/status/status.go:162-357 | only an `IsReady` that passes fewer partitions can leave a UID with a round for fewer; a refresh keeps the stored channel |
| ProberCalls.StickyReadiness | pkg/channel/kt/status/status.go:162-187 | once `IsReady` is true for a UID and generation it stays true through refreshes, changed pods and cancelled pods until `CancelProbing` or another generation |
| ProberCalls.CallKeepsReady | pkg/channel/kt/status/status.go:162-357 | each interface call other than those two keeps readiness and answers true |
| ProberCalls.RefreshPass | pkg/channel/kt/status/status.go:332-357 | after a refresh without lister error every key has a ready round, or a new round over the listed pods in place of a cancelled one that was not ready and did not have all partitions |
| ProberCalls.TrueAnswerIsReady | pkg/channel/kt/status/status.go:179-182 | an answer of true means the registered round of that UID and generation is ready |
| ProberObject.Prober.constructor | pkg/channel/kt/status/status.go:122-143 | a new prober has an empty registry and is at the start of a run |
| ProberObject.Prober.CheckReadiness | pkg/channel/kt/status/status.go:145-160 | true exactly when the round was ready or has `NumPartitions` partitions, and one atomic step |
| ProberObject.Prober.IsReady | pkg/channel/kt/status/status.go:162-187 | answers from a round of this generation that is ready or probes the listed pods; otherwise cancels the outdated round and starts and registers a new one; a lister error is returned and changes nothing |
| ProberObject.Prober.ProbeTarget | pkg/channel/kt/status/status.go:189-272 | registers a new round with one probe per listed pod, each on the current context of its IP, while earlier probes run |
| ProberObject.Prober.CancelProbing | pkg/channel/kt/status/status.go:304-308 | exactly one step, which unregisters and cancels the round of the UID |
| ProberObject.Prober.EjectStateUnsafe | pkg/channel/kt/status/status.go:311-317 | the registered round of the UID is cancelled and unregistered, an unknown UID is left alone |
| ProberObject.Prober.CancelPodProbing | pkg/channel/kt/status/status.go:320-328 | one step that cancels and forgets the context of the IP, and leaves the registry alone |
| ProberObject.Prober.RefreshPodProbing | pkg/channel/kt/status/status.go:332-357 | keeps the key set, also after a lister error; keeps ready rounds and rounds found to have all partitions; replaces each other round visited by one for the same subscriber and channel over the listed pods, also when a key is visited again |
| ProberObject.Prober.ProcessWorkItem | pkg/channel/kt/status/status.go:361-418 | the item ends queued or is not queued again: not again when the target or pod was cancelled and when the reply passes, and only if one of them holds in the end; other goroutines and interface calls run between any two operations |
| ProberObject.Prober.OnProbingSuccess | pkg/channel/kt/status/status.go:420-431 | runs to its end through the operations of the state machine, with other goroutines and interface calls between any two of them |
| ProberObject.Prober.OnProbingCancellation | pkg/channel/kt/status/status.go:433-451 | terminates, because the pod counter only decreases, and runs to its end through the operations of the state machine, with others and interface calls between any two of them |
| ProberObject.Prober.ProbeVerifier | pkg/channel/kt/status/status.go:453-492 | passes exactly a 200 that lists the UID or a status other than 200, 404 and 503, and inserts exactly the partitions a 200 lists for the UID |
| ProberObject.OthersLeave | pkg/channel/kt/status/status.go:239-256 | no operation of another goroutine and no piece of an interface call moves the program counter of a running goroutine, raises its pod counter or undoes a cancellation |
| ReadyMap.ReplayedIsLast | pkg/channel/kt/dispatcher/kafka_subscription.go:29-50 | after any history of `SetReady` the map holds exactly the partitions whose last call was true, and no empty set |
| ReadyMap.ReportRoundTrip | pkg/channel/kt/dispatcher/subscription_endpoint.go:42-46 | the reported lists, inserted into sets as the verifier does, give back exactly those partitions |
| ConsumerObjects.KafkaSubscription.SetReady | pkg/channel/kt/dispatcher/kafka_subscription.go:29-50 | the map becomes the replay of the history with this call added |
| ConsumerObjects.ConsumerMessageHandler.SetReady | pkg/channel/kt/dispatcher/consumer_message_handler.go:30-32 | the shared object records the call under the handler's own UID |
| DispatcherTable.WantedKeys | pkg/channel/kt/dispatcher/dispatcher.go:188-192 | a repeated UID is wanted once, with one of its listed subscriptions |
| DispatcherTable.WantedLast | pkg/channel/kt/dispatcher/dispatcher.go:188-192 | and that is the last one listed |
| DispatcherTable.ReconcileAssigns | pkg/channel/kt/dispatcher/dispatcher.go:161-216 | the live set becomes the wanted set minus the failed UIDs, which are exactly the wanted ones not live; what is started stores the last subscription listed for its UID; what is retained and other channels are unchanged |
| DispatcherTable.ReconcilesCommute | pkg/channel/kt/dispatcher/dispatcher.go:155-216 | reconciles of different channels commute, whatever fails |
| DispatcherTable.RepeatIsIdle | pkg/channel/kt/dispatcher/dispatcher.go:181-192 | repeating a reconcile without failure changes nothing |
| DispatcherTable.LastConfigWins | pkg/channel/kt/dispatcher/dispatcher.go:155-216 | after any schedule each channel's live set is that of the last configuration applied to it |
| DispatcherTable.ScheduleIndependence | pkg/channel/kt/dispatcher/dispatcher.go:155-216 | schedules that agree on the last configuration of every channel end with the same live sets |
| DispatcherTable.CleanupIsEmptyReconcile | pkg/channel/kt/dispatcher/dispatcher.go:241-266 | cleaning up is reconciling to no subscriptions |
| DispatcherTable.CleanupDrains | pkg/channel/kt/dispatcher/dispatcher.go:259-263 | however often Close fails, as many calls as the channel has UIDs empty it and touch no other channel |
| DispatcherBook.InsertedInv | pkg/channel/kt/dispatcher/dispatcher.go:309-311 | recording a started group keeps index agreement, sharing and conservation, and adds one table entry |
| DispatcherBook.RemovedInv | pkg/channel/kt/dispatcher/dispatcher.go:318-343 | `unsubscribe` keeps them too and removes one table entry, whether or not the channel becomes empty |
| DispatcherBook.WithBoxInv | pkg/channel/kt/dispatcher/dispatcher.go:277-281 | the empty entry a failed `subscribe` leaves keeps the invariant and no table entry |
| DispatcherBook.TriedAdds | pkg/channel/kt/dispatcher/dispatcher.go:198-202 | any run of attempts in any order keeps the invariant and adds the UIDs that did not fail |
| DispatcherBook.RemovalsRemove | pkg/channel/kt/dispatcher/dispatcher.go:205-210 | any run of removals keeps the invariant and removes exactly its UIDs |
| DispatcherBook.ReconcileRun | pkg/channel/kt/dispatcher/dispatcher.go:155-216 | the bookkeeping after a reconcile satisfies the invariant and represents the reconciled table; live groups and objects are kept by identity |
| DispatcherBook.ReconcileKeepsInv | pkg/channel/kt/dispatcher/dispatcher.go:155-216 | the invariant survives a reconcile if and only if no wanted UID that can be started belongs to another channel |
| DispatcherBook.TakeoverLeaks | pkg/channel/kt/dispatcher/dispatcher.go:309-311 | taking a UID from another channel leaves the group it had there running and never closed |
| DispatcherBook.LeakStays | pkg/channel/kt/dispatcher/dispatcher.go:318-343 | no later run of removals closes such a group |
| DispatcherBook.RemovalsSound | pkg/channel/kt/dispatcher/dispatcher.go:318-343 | removals keep what even a takeover keeps: entries point at objects that exist, groups are indexed by their own UID |
| DispatcherBook.EntryAfterRemovals | pkg/channel/kt/dispatcher/dispatcher.go:330-334 | a channel keeps an entry exactly if it has live UIDs, or had an entry and nothing was removed |
| DispatcherBook.CleanupRun | pkg/channel/kt/dispatcher/dispatcher.go:254-265 | a cleanup that stops at a Close error keeps the invariant and strictly shrinks the channel; without one it empties it |
| DispatcherBook.ReportsReachOneChannel | pkg/channel/kt/dispatcher/dispatcher.go:276-311 | a live group's handler points at the object of its own channel and of no other; a closed one's at most at that of the channel it was started for |
| DispatcherBook.GroupIdsDiffer | pkg/channel/kt/dispatcher/dispatcher.go:274 | live subscriptions have equal consumer group IDs only if they are the same, whatever their namespaces and names, as UIDs have no dot |
| DispatcherObject.SubscriptionsUIDs | pkg/channel/kt/dispatcher/config.go:10-16 | the UIDs in order, repetitions included |
| DispatcherObject.CollectToAdd | pkg/channel/kt/dispatcher/dispatcher.go:188-192 | exactly the missing UIDs that are listed, each with the last subscription listed for it |
| DispatcherObject.KafkaDispatcher.Subscribe | pkg/channel/kt/dispatcher/dispatcher.go:270-314 | the whole new bookkeeping: an object for the channel in any case, the group and its entries only if it could be started |
| DispatcherObject.KafkaDispatcher.Unsubscribe | pkg/channel/kt/dispatcher/dispatcher.go:318-343 | the whole new bookkeeping, with the group closed once, and the error of Close |
| DispatcherObject.KafkaDispatcher.ReconcileConsumers | pkg/channel/kt/dispatcher/dispatcher.go:155-216 | from every state a run can reach: the error lists exactly the UIDs tried that failed, and a channel that holds what is wanted is left alone completely; and when the invariant held, it still does if and only if no UID is taken over, and then the table is the reconciled one |
| DispatcherObject.KafkaDispatcher.CleanupChannel | pkg/channel/kt/dispatcher/dispatcher.go:241-266 | a run of removals from the channel; when the invariant held, it still does, UIDs go up to the first Close error, which is returned, and the channel is empty when there is none |
| DispatcherObject.KafkaDispatcher.ReportReady | pkg/channel/kt/dispatcher/consumer_message_handler.go:30-32 | a group's report is appended to the history of the channel whose object its handler shares and of no other channel |
| SubscriptionEndpointObject.SubscriptionEndpoint.ServeHTTP | pkg/channel/kt/dispatcher/subscription_endpoint.go:19-56 | 405 unless GET; 404 unless the URI has two slashes and names a channel with an entry; otherwise 200, listing for each subscription exactly the partitions whose last `SetReady` was true, ascending, and no subscription without one |
| Encodings.TwoSlashes | pkg/channel/kt/dispatcher/subscription_endpoint.go:25-35 | a URI names a channel if and only if it has exactly two slashes, and then the one between and after them |
| Encodings.PathRoundTrip | pkg/channel/kt/dispatcher/subscription_endpoint.go:25-35 | the endpoint recovers the channel from the request for its probe URL if and only if neither name has a slash, for names of characters that URLs carry as they are |
| Encodings.GroupIdInjective | pkg/channel/kt/dispatcher/dispatcher.go:274 | equal group IDs mean equal channel and UID, for dot-free namespaces and UIDs |
| Encodings.GroupIdParts | pkg/channel/kt/dispatcher/dispatcher.go:274 | for dot-free UIDs, group IDs are equal if and only if the UIDs are and namespace, dot and name together are |
| Encodings.NamespacesCollide | pkg/channel/kt/dispatcher/dispatcher.go:274 | two different namespaces can share a group ID, for dot-free UIDs, if and only if the UIDs are equal and one namespace continues the other after a dot; dot-free ones never do |
| Encodings.UidsCollide | pkg/channel/kt/dispatcher/dispatcher.go:274 | two different UIDs can share a group ID within a namespace if and only if one ends with a dot and the other; dot-free ones never do |
| Lister.ListProbeTargets | pkg/channel/kt/reconciler/controller/lister.go:21-49 | succeeds exactly when the endpoints can be read and have an address, with all addresses of all subsets and, for plain names, a URL whose request leads back to the channel |
| Controller.MarkedIsSublist | pkg/channel/kt/reconciler/controller/kafkachannel.go:188-200 | the new status is the order-preserving sublist of exactly the subscribers answered true |
| Controller.Reconciler.ReconcileSubscribers | pkg/channel/kt/reconciler/controller/kafkachannel.go:188-222 | one `IsReady` per subscriber in order; an error counts as not ready; the status is replaced unless it is unchanged or the patch fails |
| Controller.Reconciler.FinalizeKind | pkg/channel/kt/reconciler/controller/kafkachannel.go:437-449 | afterwards no subscriber of the spec is registered and every round ever made for one is cancelled; other registrations are unchanged |
| Controller.StatusIsReady | pkg/channel/kt/reconciler/controller/kafkachannel.go:191-198 | whoever is in the computed status had a ready round of that UID and generation when asked, still registered and ready at the end when no UID is repeated |
| Controller.ReadyEndToEnd | pkg/channel/kt/status/status.go:453-480 | if 200 answers are what the endpoint reports, a ready round has at least `NumPartitions` partitions whose last `SetReady` in some probed pod was true |
| Controller.StatusEndToEnd | pkg/channel/kt/reconciler/controller/kafkachannel.go:188-200 | from an entry of the computed status to the pods: each ready partition of its round was listed in a 200 answer of a probed pod whose last `SetReady` for it was true; they are at least as many as the round's channel has, and as the reconciled channel has unless the UID was registered with a round for fewer |

## Left out

- Generated clients, listers, informers and deep copies: no logic of the repository.
- The Kubernetes objects the controller creates, and its condition lifecycle: API calls and literals, one branch each.
- Kafka, sarama, CloudEvents, tracing, logging, HTTP transport and JSON bytes: their outcomes are parameters.
- The work queue's delays and rate limits: a queued item may be dequeued at any later time, and an item is never lost by the queue. `Start` and the queue's shutdown are not modelled.
- Unlocked reads in `ServeHTTP`: the request is served as one operation on the dispatcher's state.
- `hostToChannelMap` and `RegisterChannelHost`: a map in which the first writer wins.
- `UpdateError.Error`: the errors are modelled as a map from UID to message, not as the joined string.
- Widths of the integers: the `int32` counters only take values between -1 and the number of pods.
- Renewed probing when only the channel changes: the code does not start it.
- Liveness: that a subscription becomes ready, that a queued item is dequeued, or that only one callback is made is not promised by the code.
- Clearing of readiness: `unsubscribe` does not clear the ready sets, so the endpoint may list UIDs that are no longer subscribed; a changed subscription with the same UID is not restarted.
- DispatcherObject.KafkaDispatcher.ReconcileConsumers: once a UID has been taken from another channel, later calls are only stated to keep what `Coherent` says, to try and report the right UIDs and to do nothing when nothing is wanted; not what becomes of the table.
- DispatcherObject.KafkaDispatcher.CleanupChannel: in such a state it is only stated to be a run of removals that keeps `Coherent`, not which UIDs it removes.
- Encodings.PathRoundTrip: names with other characters than unreserved ones and slashes, such as `#`, `?`, `%` or a space: `url.Parse` cuts, escapes or rejects them, its error is ignored (`lister.go`, line 42), and its rules are not part of this model.
- Lister.ListProbeTargets: for such names it states the formatted URL, not what arrives at the endpoint.
- ProberObject.Prober.IsReady: calls of the interface do not overlap each other in the class; overlapping calls are covered by the statements about runs only.
- ProberObject.Prober.ProcessWorkItem: the request, the verifier's write and the return of `prober.Do` are one step; a reply after the context is done is modelled, its time-out is not.

# Periapsis, verified models

Periapsis is a Kubernetes node agent. Most of it talks to systemd, CNI and the API
server; this project models the parts that keep state of their own and proves what
holds over whole runs of them.

| part | files |
|---|---|
| delayed work queue | `QueueModel` (locked sections as functions), `Queue` (the object), `QueueSystem` (all interleavings), `QueueRuns` (one key over a run), `QueueSteps` (one section, key by key) |
| pod registry | `PodStoreModel`, `PodStore` (the object), `PodStoreRuns` (sequences of operations), `Admission` (capacity) |
| create/delete handshake | `CreateDelete` |
| batch watcher | `Watcher` (one poll of a pod), `RestartProtocol` (overlapping restarts), `Backoff` |
| per-pod state machine | `FociState`, `FociReduce`, `FociLoops`, `FociRuns`, `FociEffects`, `FociFacts` (one fact, field by field), `Syzygy` |
| small algorithms | `IPPool`, `Expansion`, `UnitName`, `Monitor`, `Ports`, `Probes` |

Conventions. An object whose methods change fields is a class; each method is proved
equal to a function on values (`View()`), and the laws are proved about that function.
A protocol is a step system: `Enabled` and `Apply` for one event, `ValidRun` and `Final`
for a sequence of events, and laws about every valid run. The clock, the jitter, the
answers of the rate limiter and what systemd reports are inputs. Times and durations are
integers in nanoseconds; an absent Go time or nil value is an `Option`. Text that the code
treats as bytes is a sequence of bytes.

Where the code and its comments disagree the model follows the code:

- `recomputePhase` says that a pod without containers keeps its phase; the flag that
  should guard this is never cleared, so such a pod is Succeeded (`FociLoops.PhaseLoop`).
- A `PodAdmitFact` is described as the start of tracking; facts about an untracked pod are
  dropped before they are looked at, so no pod is ever added (`Syzygy.NothingIsEverAdmitted`).
- The poll handler of the state machine resets the backoff of a container that has run
  long enough, but compares the present with a start time it has just set, so that branch
  needs the clock to jump within one poll (`FociRuns.PollResetsIff`); else only
  `BackoffResetFact` resets.
- The exit of a container that was never seen running changes its phase without
  recomputing the pod phase (`FociRuns.StepAgreesIff` says exactly when that shows).
- `EvictGhost` and `PurgeHydrated` leave the deleting counter alone
  (`PodStoreRuns.EvictKeepsCountIff`).
- CreatePod admits a pod and registers it later; the capacity can be exceeded in between
  (`Admission.AdmissionIsNotAReservation`), and `Admission.WithinIffAllFit` says exactly when
  it is not.
- The comment on DeletePod counts on it to keep new creations out; deletes also come from the
  eviction loop, outside the work queue, and can then be overtaken by a create
  (`CreateDelete.OverlappingDeletesCanFail`); `CreateDelete.RegistrationIsSafeIff` says
  exactly when a registration is safe.

## Model

| member | source | states |
|---|---|---|
| `Queue.Queue.constructor` | internal/queue/queue.go:100-116 | a new queue is empty, has no pending wakeup and satisfies the invariant |
| `Queue.Queue.Insert` | internal/queue/queue.go:174-252 | a request redirties a key being processed, brings a queued key forward, or queues a new one at its place in the order; sets the wakeup token; keeps the invariant |
| `Queue.Queue.AdjustPosition` | internal/queue/queue.go:254-271 | a queued item is moved to the slot of the earlier time and is never delayed; the walk from its old neighbour finds that slot |
| `Queue.Queue.Forget` | internal/queue/queue.go:135-159 | a queued key leaves the list and the map together; a key being processed is only marked |
| `Queue.Queue.LookAtHead` | internal/queue/queue.go:359-405 | takes the head exactly when it is due; its key is never one that is already being processed |
| `Queue.Queue.Done` | internal/queue/queue.go:439-507 | what goes back on the list when a handler returns, and that OnForget fires exactly for an error that is given up on without a Forget |
| `Queue.Queue.Len` | internal/queue/queue.go:288-296 | the inconsistency panic is unreachable and the length counts queued and processed keys once each |
| `Queue.Queue.UnprocessedLen` | internal/queue/queue.go:299-307 | the inconsistency panic is unreachable and the number of keys is the length of the list |
| `QueueModel.SlotIsUnique` | internal/queue/queue.go:228-252 | in a sorted list there is one cut between earlier items and the rest, so a walk from the back finds the same place as one from the front |
| `QueueModel.ForwardIsMinimum` | internal/queue/queue.go:254-271 | a queued key that is requested again is planned for the minimum of the two times; its retry count and all other items stay |
| `QueueModel.InsertKeepsInv` | internal/queue/queue.go:174-252 | a request keeps the list sorted, its keys distinct and apart from the processed ones |
| `QueueModel.FinishKeepsInv` | internal/queue/queue.go:461-507 | the same for the end of processing; the key leaves the processed ones and is queued exactly when it is to come back |
| `QueueSteps.RequestWhileProcessed` | internal/queue/queue.go:196-210 | a request for a processed key asks for it again at the minimum of the old time and now plus the delay (no delay is 0), with the rate limiting of the request that asked for that time, and undoes a Forget; no other key is touched |
| `QueueSteps.RequestWhileQueued` | internal/queue/queue.go:212-220 | a request for a queued key plans it for the minimum of its time and now plus the delay; nothing else about it or any other key changes |
| `QueueSteps.RequestWhenUnknown` | internal/queue/queue.go:222-252 | a request for an unknown key queues it at now plus the delay, else plus what the limiter says if it is rate limited, else at now, with no retries |
| `QueueSteps.ForgetMeans` | internal/queue/queue.go:135-159 | a queued key goes, a processed one is marked, no other key is touched |
| `QueueSteps.TakeMeans` | internal/queue/queue.go:386-405 | the head moves unchanged to the processed items |
| `QueueSteps.ReturnMeans` | internal/queue/queue.go:461-507 | a returned key is no longer processed, and comes back exactly when it was not forgotten and may be retried or was requested meanwhile |
| `QueueSteps.RetryMeans` | internal/queue/queue.go:471-494 | a retry comes back rate limited after its delay, with one requeue more and its original time |
| `QueueSteps.AgainMeans` | internal/queue/queue.go:495-507 | a key requested meanwhile comes back at the time asked for, as a new item |
| `QueueSystem.StepKeepsInv` | internal/queue/queue.go:359-507 | every step of every worker or producer keeps order, distinct keys, exclusive handling, the single waiter and the wakeup guarantee |
| `QueueSystem.ReachableStatesAreSafe` | internal/queue/queue.go:317-507 | in every interleaving from a new queue: no key is handled by two workers, processed keys are exactly the handled ones, and a waiter overtaken by an earlier head has a token pending |
| `QueueSystem.DueHeadCanBeTaken` | internal/queue/queue.go:359-405 | when the head is due, the waiter (or any worker that may become it) reaches it in at most two of its own steps, whatever it is blocked on |
| `QueueSystem.WorkerGoesOn` | internal/queue/queue.go:350-437 | a worker whose handler has returned may wait for the next item exactly when nobody else waits |
| `QueueRuns.NoLostWork` | internal/queue/queue.go:461-507 | from the taking of a key to the return of its handler, in any interleaving: a last Forget wins, a last enqueue always brings the key back, and without a retry it comes back at the minimum of now plus delay over the enqueues |
| `QueueRuns.RequestsMean` | internal/queue/queue.go:135-210 | the flags left by any sequence of requests during processing mean the last request and the earliest time |
| `QueueRuns.RetriesStayBelowLimit` | internal/queue/queue.go:522-528 | with the default retry function every queued or processed item has fewer than 20 requeues in every reachable state |
| `QueueRuns.ReachableStaysBelowLimit` | internal/queue/queue.go:522-528 | in particular in every state reachable from a new queue |
| `QueueRuns.AlwaysFailingKeyIsDropped` | internal/queue/queue.go:471-507 | a key that always fails and is not requested again is absent exactly after its 20th attempt, in every interleaving, and never attempted after that |
| `PodStore.PodResources` | node/podstore.go:98-113 | the loop computes the sums that CpuOfParts and MemOfParts characterise |
| `PodStoreModel.CpuOfParts` | node/podstore.go:98-113 | CPU sums of parts add up, and one container counts its own CPU request, or 0 when absent |
| `PodStoreModel.MemOfParts` | node/podstore.go:98-113 | the same for memory |
| `PodStoreModel.AllocatableIsRest` | node/podstore.go:1090-1117 | allocatable and used make up the capacity, unless more is used than there is, and then nothing is allocatable |
| `PodStore.PodStore.RegisterPending` | node/podstore.go:332-349 | the record, name and counters after registering a pod in flight, written out; a right registry stays right exactly when no requests are overwritten and no indexed pod is renamed |
| `PodStore.PodStore.AlreadyRunning` | node/podstore.go:351-374 | a stub takes the real pod and only then counts its requests; tells whether the pod was known and was a stub; a right registry stays right exactly when no indexed stub is renamed |
| `PodStore.PodStore.PromoteRunning` | node/podstore.go:380-399 | a registered pod is running, with its address and without a creation handle, an unknown one is ignored; a right registry stays right exactly when requests and indexed name agree |
| `PodStore.PodStore.MarkFailed` | node/podstore.go:572-587 | a registered pod is replaced and failed and the counters stay; a right registry stays right exactly when requests and indexed name agree |
| `PodStore.PodStore.MarkDeleting` | node/podstore.go:401-410 | a registered pod is deleting and otherwise as before, as is everything else; it is counted once, however often it is marked; a right registry stays right |
| `PodStore.PodStore.Unregister` | node/podstore.go:421-449 | record, given name, requests and deleting count all go; a right registry stays right exactly when the name given is that of the pod, if it is indexed |
| `PodStore.PodStore.EvictGhost` | node/podstore.go:250-270 | record, own name and requests go and the deleting count stays; a right registry stays right |
| `PodStore.PodStore.RegisterHydratedBatch` | node/podstore.go:827-850 | the batch with one counter update is the sequence of single registrations; a right registry stays right when each entry may be registered after the ones before it |
| `PodStore.PodStore.PurgeHydrated` | node/podstore.go:899-924 | the purge with one counter update is the sequence of single evictions; a right registry stays right and loses exactly the listed pods |
| `PodStore.PodStore.AdmitPod` | node/podstore.go:1053-1088 | in a right registry, which test refuses a pod: pressure, then CPU, then memory, against the requests of the live pods; a request-free pod is refused under pressure only |
| `PodStore.PodStore.Enroll` | node/lifecycle.go:62-81 | what CreatePod does to the store after admission: skipped in flight, adopted or registered; a right registry stays right when a known pod keeps its name |
| `PodStore.PodStore.Create` | node/lifecycle.go:40-81 | with nothing in between admission and registration: refused, in flight, adopted or registered; a capacity that is kept so far stays kept |
| `PodStoreRuns.RegisterConservesIff` | node/podstore.go:332-349 | registering keeps the sums right exactly for a fresh uid or one whose requests were empty |
| `PodStoreRuns.ReplaceConservesIff` | node/podstore.go:380-399 | swapping the pod object keeps the sums right exactly when the requests agree |
| `PodStoreRuns.AdoptConserves` | node/podstore.go:351-374 | adopting a stub always keeps the sums right |
| `PodStoreRuns.RegisterIndexIff` | node/podstore.go:332-349 | registering keeps the name index sound exactly when it does not rename a pod that the index leads to |
| `PodStoreRuns.DropIndexIff` | node/podstore.go:421-449 | dropping a pod keeps the index sound exactly when the index does not lead to it or the name given is its own |
| `PodStoreRuns.PutKeepsInvIff` | node/podstore.go:332-349 | registering keeps sums, index and deleting bound together exactly when no requests are overwritten and no indexed pod is renamed |
| `PodStoreRuns.ReplaceKeepsInvIff` | node/podstore.go:380-399 | swapping a pod object keeps all three exactly when requests and indexed name agree |
| `PodStoreRuns.AdoptKeepsInvIff` | node/podstore.go:351-374 | adoption keeps all three exactly unless it renames an indexed stub |
| `PodStoreRuns.UnregisterKeepsInvIff` | node/podstore.go:421-449 | unregistering keeps all three exactly when the name given is that of the pod, if it is indexed |
| `PodStoreRuns.RunKeepsInv` | node/podstore.go:250-449 | after every sequence of operations used CPU and memory are the sums over live pods, indexed names lead to live pods of that name, and the deleting count covers the deleting pods |
| `PodStoreRuns.PurgeKeepsInv` | node/podstore.go:899-924 | a purge keeps all of that and removes exactly the listed pods |
| `PodStoreRuns.BatchKeepsInv` | node/podstore.go:827-850 | restoring a batch in which each entry may be registered after the ones before it keeps all of that |
| `PodStoreRuns.BatchAdds` | node/podstore.go:827-850 | a batch adds exactly its uids |
| `PodStoreRuns.BatchRecords` | node/podstore.go:827-850 | after a batch a pod is what its last entry says, running and hydrated; pods without an entry are as before |
| `PodStoreRuns.BatchCounters` | node/podstore.go:827-850 | the counters grow by the requests of all entries |
| `PodStoreRuns.FreshBatchIsLegal` | node/podstore.go:827-850 | every batch of fresh, distinct uids may be registered |
| `PodStoreRuns.EvictKeepsCountIff` | node/podstore.go:250-270 | an exact deleting count stays exact unless a deleting pod is evicted, and then it does not |
| `PodStoreRuns.RunCountsLosses` | node/podstore.go:250-449 | over every sequence of operations the deleting count is the number of deleting pods plus those that were evicted or overwritten while deleting |
| `PodStoreRuns.RunKeepsRecords` | node/podstore.go:332-399 | over every sequence of operations a pending pod is in flight, a running one is not, and neither is a hydrated one |
| `PodStoreRuns.RunKeepsComplete` | node/podstore.go:332-449 | while live names are distinct, every live pod is found under its name |
| `PodStoreRuns.FromStart` | node/podstore.go:250-449 | both hold over every such sequence from an empty registry |
| `Admission.AdmissionIsNotAReservation` | node/lifecycle.go:48-81 | two pods of different names that are both admitted before either is registered: a run that exceeds the capacity |
| `Admission.TwoPodsFitIff` | node/lifecycle.go:48-81 | two pods registered one after the other stay within capacity exactly when the sum of both fits |
| `Admission.BothAdmitted` | node/lifecycle.go:48-81 | whenever each of two pods would be admitted, the interleaving that admits both before registering either is possible |
| `Admission.StepKeepsCapacityIff` | node/podstore.go:332-374 | one operation stays within capacity exactly when there is room for the requests that it counts |
| `Admission.AdmittedFits` | node/podstore.go:1053-1088 | an admitted pod fits at the moment of its admission |
| `Admission.WithinIffAllFit` | node/lifecycle.go:48-81 | over every interleaving of admissions, registrations and all other operations, the capacity is never exceeded exactly when each registration still finds room at its own step |
| `Admission.OnlyAdmittedWait` | node/lifecycle.go:48-55 | in every run a request waits to be registered only if AdmitPod passed it in an earlier state |
| `Admission.OneEnrolmentPerAdmission` | node/lifecycle.go:48-81 | in every run a pod is registered at most as often as it was admitted |
| `Admission.NeverOvercommitted` | node/podstore.go:1053-1117 | so no run exceeds a positive capacity when every registration is made in a state that admits the pod, and allocatable is then exactly what the live pods leave over |
| `CreateDelete.RunKeepsInv` | node/lifecycle.go:62-134 | in every interleaving whose registrations are unexposed, a goroutine that can still launch is the one whose handle the store has, and every delete past its test knows it |
| `CreateDelete.NoLaunchAfterTeardown` | node/lifecycle.go:521-553 | with any number of overlapping deletes and evictions: once a delete begins teardown, no goroutine that existed by then launches any more, if each registration before was made while no delete was past reading the handle and no eviction past its test |
| `CreateDelete.RegistrationIsSafeIff` | node/lifecycle.go:521-553 | and that condition is exact: a registration can be followed, without another one, by a launch after a teardown exactly when a delete is between reading the handle and its end or an eviction between its test and its removal |
| `CreateDelete.ExposedIsUnsafe` | node/eviction.go:203-210 | the run that does so, for every exposed registration |
| `CreateDelete.OverlappingDeletesCanFail` | node/eviction.go:203-210 | such a run from the start: two deletes of a running pod, as an eviction outside the queue makes possible, and a create |
| `CreateDelete.SerialisedIsClean` | node/podcontroller.go:500-545 | when no create overlaps a delete or an eviction, every registration is unexposed |
| `CreateDelete.RunKeepsHandles` | node/podstore.go:589-600 | in every interleaving handles are those of goroutines and a waiting delete has cancelled its own |
| `CreateDelete.OneCreatorAtATime` | node/lifecycle.go:62-81 | under the same condition at most one goroutine per uid can launch at any time |
| `CreateDelete.DeleteIsNotStuck` | node/podstore.go:589-600 | in every interleaving, a delete that waits for a cancelled goroutine is let go within two of that goroutine's own steps, wherever it stands |
| `CreateDelete.PromotionEndsFlight` | node/podstore.go:380-399 | a creation that succeeds ends the flight of its pod, and a delete that starts then has nothing to wait for |
| `CreateDelete.EndsOnlyWhen` | node/lifecycle.go:85-134 | a goroutine ends only when it has nothing more to do or is cancelled while it waits, and only a delete cancels it |
| `CreateDelete.FailedAttemptGoesOn` | node/lifecycle.go:99-134 | a failed attempt is retried after its delay or was the last; the pod stays in flight either way |
| `CreateDelete.CreationRegisters` | node/lifecycle.go:60-84 | an unregistered pod is registered in flight, with a goroutine that waits for a slot |
| `CreateDelete.CreationGoesThrough` | node/lifecycle.go:85-134 | that goroutine can launch any number of containers, promote the pod and end |
| `CreateDelete.CreationIsNotRepeated` | node/lifecycle.go:62-76 | a pod in flight or registered is not created again |
| `CreateDelete.DeletionWaits` | node/lifecycle.go:521-529 | a delete goes on at once when nothing is in flight and otherwise holds the handle in flight |
| `CreateDelete.DeletionCancels` | node/podstore.go:589-600 | it cancels exactly that goroutine and goes on exactly when it is gone |
| `CreateDelete.DeletionGoesThrough` | node/lifecycle.go:541-553 | it tears down and unregisters |
| `Watcher.BatchWatcher.MarkRunning` | node/batchwatcher.go:176-181 | exactly this container becomes seen running |
| `Watcher.BatchWatcher.BumpBackoff` | node/podstore.go:1146-1164 | counts one restart, gives the delay in force and doubles it up to five minutes; an unknown container gives count 0 |
| `Watcher.BatchWatcher.ResetBackoff` | node/podstore.go:1182-1190 | the delay of a known container is the initial one again |
| `Watcher.BatchWatcher.MaybeRestart` | node/batchwatcher.go:1054-1093 | starts one goroutine unless the pod is being deleted, one is running or the store does not know the container; a refusal leaves no trace |
| `Watcher.BatchWatcher.CheckContainer` | node/batchwatcher.go:690-806 | whether one container counts as exited and as succeeded, exactly when it becomes seen running, and what is reset or restarted |
| `Watcher.BatchWatcher.CheckPod` | node/batchwatcher.go:680-885 | by the reported state of each container: a terminal phase is set exactly when all are over, Failed exactly when one failed; exactly the containers that must be restarted become busy, with one goroutine each; exactly the long-running ones are reset; exactly those that have run become seen |
| `Watcher.PollMeans` | node/batchwatcher.go:690-806 | a poll restarts exactly the free, known containers that are failed under a policy other than Never, exited under Always and seen or exited with code 0, or running with a failing probe, unless the pod is being deleted |
| `Watcher.AllSettledIsOver` | node/batchwatcher.go:690-841 | the flags of the loop mean that every container is over, and that none has failed |
| `Watcher.SettledMeans` | node/batchwatcher.go:703-806 | settled, state by state: not restarting, not running or creating, not restartable under the policy, and not exited unseen |
| `Watcher.AlwaysIsTerminalIff` | node/batchwatcher.go:764-806 | under Always a container settles exactly when it is reported Unknown after it was seen running and is not being restarted |
| `Watcher.AlwaysNeverEnds` | node/batchwatcher.go:764-841 | under Always a pod with containers, none reported Unknown, never gets a terminal phase |
| `Watcher.LookupOfMissing` | node/batchwatcher.go:1022-1049 | a container whose machine is gone is shown as completed exactly when checkPod would count it as settled under Never, and as failed exactly while it is restarting |
| `Watcher.VisitsAreConsistent` | node/batchwatcher.go:690-806 | within one poll a container listed twice is judged the same way |
| `Watcher.ServeAllCounts` | node/batchwatcher.go:690-806 | over a whole poll: exactly the wanted containers that the store knows and that were free become busy, each counts one restart, and a long run resets the delay before it is doubled |
| `Watcher.ServeAllLaunchesOnce` | node/batchwatcher.go:1054-1093 | over a whole poll: one goroutine per container that becomes busy, none twice, each with the next count and the delay then in force |
| `RestartProtocol.OneRestartAtATime` | node/batchwatcher.go:1054-1093 | in every interleaving of overlapping calls, a container has at most one claim or restart goroutine, and the restarting set is exactly the claimed containers |
| `RestartProtocol.NoOverlapFromStart` | node/batchwatcher.go:1054-1093 | in particular from the start of the watcher |
| `RestartProtocol.CallStartsIff` | node/batchwatcher.go:1054-1093 | a call for a free, known container gets a goroutine with the next count and the delay in force, and the record is bumped; one for a busy or unknown container gets none and leaves no trace |
| `RestartProtocol.StepKeepsGoroutine` | node/batchwatcher.go:1083-1092 | a goroutine holds its count and delay until it ends |
| `RestartProtocol.GoroutinesMatchCounts` | node/podstore.go:1146-1164 | the restart goroutines of a container themselves hold the counts n+1, n+2, and so on, and number exactly the growth of its count |
| `RestartProtocol.DelaysAreDoubled` | node/podstore.go:1146-1164 | in every interleaving, resets included, the delay of a container is the one last set doubled once for every goroutine since, and each goroutine itself holds the delay it found |
| `RestartProtocol.DoublingIsNth` | node/podstore.go:1146-1164 | between two resets the i-th goroutine waits for the delay in force doubled i times |
| `RestartProtocol.StateMachineIsOneAhead` | internal/foci/reduce.go:96-120 | over any two runs from the initial delay, a restart of the state machine after n others since its reset waits as long as a goroutine of the watcher after n + 1 others since its own |
| `Backoff.NthIsCappedPower` | internal/foci/reduce.go:623-628 | doubling with a cap at every step is min(10s times 2^n, 5min) |
| `FociState.FindContainer` | internal/foci/state.go:140-147 | the first container of that name, or -1 exactly when there is none |
| `FociLoops.NewSpecLoop` | internal/foci/state.go:172-217 | the append loop builds one spec per container, with the probes that are present |
| `FociLoops.NewStateLoop` | internal/foci/state.go:223-247 | the append loop builds a pending pod with one fresh container per spec |
| `FociLoops.CarryLoop` | internal/foci/reduce.go:383-420 | known containers keep their state under the new image, new ones start afresh, the rest is dropped |
| `FociLoops.PhaseLoop` | internal/foci/reduce.go:498-543 | the flag loop computes the phase that the container phases dictate, and Succeeded for no containers |
| `FociLoops.StatusLoop` | internal/foci/convert.go:18-54 | the loops build the status of every container and a pod that is ready exactly when all containers are |
| `FociLoops.SentStatus` | internal/foci/convert.go:92-147 | the status that reaches Kubernetes is the one that was built |
| `FociRuns.ReactionIsSound` | internal/foci/reduce.go:66-379 | every fact about a container keeps its name and image, restarts and counts together or not at all, and changes its phase only with a recomputation, save for the put-off exit |
| `FociRuns.PollResetsIff` | internal/foci/reduce.go:170-180 | the poll handler resets a delay exactly when the clock moves by more than ten minutes between its two readings, so never with one reading |
| `FociRuns.NewPodStateIsOk` | internal/foci/state.go:223-247 | a new pod satisfies the invariants from which runs start |
| `FociRuns.RunKeepsInv` | internal/foci/reduce.go:34-491 | in every run containers stay aligned with the spec, and a Running container was seen running and is not restarting |
| `FociRuns.PhaseOfAgrees` | internal/foci/reduce.go:498-543 | the recomputed phase is the one the container phases dictate |
| `FociRuns.StepAgreesIff` | internal/foci/reduce.go:288-338 | a step keeps the cached pod phase right exactly unless it is the exit of a container never seen running that had left Creating while none is running or being created |
| `FociRuns.CachedPhaseAgrees` | internal/foci/reduce.go:34-575 | over every run without such an exit the cached phase is Running, Pending or terminal as the container phases dictate |
| `FociRuns.SilentExitHappens` | internal/foci/reduce.go:298-301 | such an exit is reachable from a new pod in two facts |
| `FociFacts.FactMeans` | internal/foci/reduce.go:66-379 | for every fact about a container: its next phase, exit code and reason, flags and start time, exactly when a restart is requested and with what count and delay, which events are recorded, exactly when the status is sent, and that no other container changes |
| `FociFacts.RequestCounts` | internal/foci/reduce.go:96-120 | a restart that is asked for is counted once and doubles the delay up to five minutes |
| `FociFacts.UnknownContainerIsIgnored` | internal/foci/reduce.go:66-75 | a fact about a container the pod does not have changes nothing |
| `FociFacts.EvictionMeans` | internal/foci/reduce.go:455-467 | an eviction ends the tracking with one unit reset per container |
| `FociFacts.NewPodMeans` | internal/foci/state.go:172-247 | a new pod is pending, its specs hold the probes of the pod each in its place, and its containers are being created, ready unless they have a readiness probe |
| `FociFacts.NewSpecMeans` | internal/foci/reduce.go:383-451 | after a new spec known containers keep all but their image, new ones start, others go, and the status is sent |
| `FociFacts.PhaseIs` | internal/foci/reduce.go:498-543 | the recomputed phase is Succeeded exactly when all containers ended with code 0, Failed exactly when all ended and one did not, Pending exactly when none runs and one is being created |
| `FociFacts.StatusIs` | internal/foci/convert.go:18-88 | what the status says of each container, by its phase |
| `FociFacts.ConversionMeans` | internal/foci/convert.go:123-147 | conversion keeps one of waiting, running and terminated, in that order, and calls an empty payload being created |
| `FociEffects.EffectsDescribeResult` | internal/foci/reduce.go:498-575 | the pod phase is announced, with one unit reset per container, exactly when it becomes terminal; every status sent is that of the returned state; state is persisted exactly when status is sent |
| `FociEffects.StatusFollowsPhases` | internal/foci/convert.go:18-147 | each container's status has exactly one of waiting, running and terminated, as its phase dictates, and conversion keeps it |
| `FociEffects.RestartsAreConsecutive` | internal/foci/reduce.go:96-120 | in every run the restarts requested for a container that stays carry consecutive counts and number exactly the growth of its restart count |
| `FociEffects.DelaysDouble` | internal/foci/reduce.go:185-231 | in every run, resets included, the delay of a container that stays is the one last set doubled once for every restart since, and each restart requested waits for the delay it leads to |
| `FociEffects.RestartDelay` | internal/foci/reduce.go:96-120 | a restart requested after any run waits for one doubling more than there were since the last reset |
| `FociEffects.BackoffIsCappedPower` | internal/foci/reduce.go:185-231 | from the initial delay on it is always min(10s times 2^n, 5min) after n restarts since the last reset |
| `FociEffects.NewPodBackoff` | internal/foci/state.go:223-247 | in particular from the creation of the pod on |
| `FociEffects.ResetAccounted` | internal/foci/reduce.go:483-491 | a reset puts the delay back to the initial one and requests nothing |
| `FociEffects.PollsRestartOnce` | internal/foci/reduce.go:160-284 | polls alone request at most one restart between two observations of a running container, and none while one is outstanding |
| `Syzygy.Loop.ProcessFact` | internal/syzygy/syzygy.go:242-279 | one fact replaces, removes or leaves one pod's state and gives that pod's effects |
| `Syzygy.ProcessStepsOne` | internal/syzygy/syzygy.go:242-279 | a fact is a step of its own pod and of no other |
| `Syzygy.PodsAreIndependent` | internal/syzygy/syzygy.go:242-279 | however the facts of many pods interleave, each pod goes through the run of its own facts |
| `Syzygy.NothingIsEverAdmitted` | internal/foci/reduce.go:34-62 | no sequence of facts adds a pod to the loop |
| `IPPool.IPPool.constructor` | internal/network/ippool.go:25-42 | base, cursor and last offset in 32-bit arithmetic; the cursor goes round the host offsets exactly with two or more host bits |
| `IPPool.IPPool.Allocate` | internal/network/ippool.go:45-70 | for every prefix: takes the first free offset going round from the cursor, fails exactly when all of them are taken, terminates, and keeps everything in range |
| `IPPool.IPPool.Release` | internal/network/ippool.go:73-83 | frees one offset of the pod, or nothing exactly when it has none |
| `IPPool.IPPool.Subnet` | internal/network/ippool.go:93-96 | the printed length is 32 minus the bit length of the last offset plus one |
| `IPPool.BitLen` | internal/network/ippool.go:98-105 | the shift loop computes the bit length |
| `IPPool.AllocatesIsFunctional` | internal/network/ippool.go:45-70 | what Allocate promises determines its result |
| `IPPool.SubnetRoundTrip` | internal/network/ippool.go:25-105 | for every prefix length the pool prints back the length it was made with, wrap-around included |
| `IPPool.OffsetIsHost` | internal/network/ippool.go:45-90 | with two or more host bits an offset in range is an address of the network and not the network, gateway or broadcast address |
| `IPPool.AddressDoesNotWrap` | internal/network/ippool.go:45-70 | and the 32-bit sum that is printed does not overflow |
| `IPPool.PoolIsUsableIff` | internal/network/ippool.go:25-42 | which offsets the cursor goes round: 2 to the last host exactly with two or more host bits, only 2 with one, all 32-bit numbers with none |
| `IPPool.FirstAddressInNetworkIff` | internal/network/ippool.go:25-42 | the first address lies in the network exactly with two or more host bits |
| `IPPool.RunKeepsOk` | internal/network/ippool.go:45-83 | in every run the cursor and all held offsets stay in range |
| `IPPool.HeldUntilFreed` | internal/network/ippool.go:45-83 | an address stays with its pod until a release of that pod frees it |
| `IPPool.NoAddressIsShared` | internal/network/ippool.go:45-83 | in every run no address is given out again while it is held |
| `IPPool.NotReusedAtOnce` | internal/network/ippool.go:45-83 | an address that is freed is not given out next, unless it is the only one free |
| `Expansion.FirstBindingWins` | internal/expansion/expand.go:25-36 | a name has its value in the first context that binds it |
| `Expansion.UnboundStays` | internal/expansion/expand.go:17-36 | a name that no context binds stays a reference |
| `Expansion.ReadIsToken` | internal/expansion/expand.go:84-105 | what is read behind an operator is the token of the grammar there |
| `Expansion.Expand` | internal/expansion/expand.go:41-76 | the checkpoint and cursor loop stays in range and computes the token-by-token expansion, on all byte strings |
| `Expansion.ParseIsLossless` | internal/expansion/expand.go:41-105 | the tokens of a string spell the string |
| `Expansion.ExpansionRendersTokens` | internal/expansion/expand.go:41-105 | expansion is the rendering of those tokens |
| `Expansion.LiteralExpands` | internal/expansion/expand.go:41-76 | a byte other than a dollar, and a last dollar, stand for themselves |
| `Expansion.EscapeStands` | internal/expansion/expand.go:84-90 | two dollars stand for one |
| `Expansion.ReferenceExpands` | internal/expansion/expand.go:91-99 | a reference stands for the value of its name, which ends at the first closing parenthesis |
| `Expansion.UnclosedExpands` | internal/expansion/expand.go:91-99 | a reference that is never closed stays as it is |
| `Expansion.DollarExpands` | internal/expansion/expand.go:100-105 | a dollar before any other byte stays, with that byte as the text of its code point |
| `Expansion.EscapeRoundTrip` | internal/expansion/expand.go:84-105 | doubling every dollar protects every byte string from every mapping |
| `Expansion.UnboundIsIdentityIff` | internal/expansion/expand.go:17-105 | with nothing bound, expansion is the identity exactly on strings without an escape and without a dollar before a byte outside ASCII |
| `Expansion.PlainIsInert` | internal/expansion/expand.go:84-105 | ASCII strings free of a double dollar are such strings |
| `UnitName.ParseUnitNameInverts` | node/gambit.go:123-139 | every name of the printed shape, with any separator after the uid, gives back its parts |
| `UnitName.ParsedNameHasParts` | node/gambit.go:123-139 | the parser accepts nothing else |
| `UnitName.UnitNameRoundTrip` | internal/stats/cgroup.go:23-26 | printing then parsing recovers uid and container for every pawn, 36-character uid and non-empty container |
| `UnitName.BlindParserAgreesIff` | internal/foci/reduce.go:594-620 | the parser that does not know the pawn recovers the container exactly for pawns whose name does not contain or run into the separator |
| `UnitName.BlindParserCanFail` | internal/foci/reduce.go:594-620 | a pawn name for which it misreads every unit |
| `Monitor.MonitorVariable.constructor` | internal/lock/monitor.go:11-16 | a new variable is the start state of the protocol |
| `Monitor.MonitorVariable.Set` | internal/lock/monitor.go:52-59 | takes the SetValue step of the protocol, whose close never panics: the value is stored and the version grows by one |
| `Monitor.MonitorVariable.Subscribe` | internal/lock/monitor.go:61-78 | takes the NewSubscription step: told at once exactly when a value was ever set |
| `Monitor.MonitorVariable.NewValueReady` | internal/lock/monitor.go:86-91 | the channel is closed exactly when there is a newer version than the one last read |
| `Monitor.MonitorVariable.Value` | internal/lock/monitor.go:93-103 | takes the ReadValue step: value and version together, and an open channel from then on |
| `Monitor.ChannelsTellNews` | internal/lock/monitor.go:52-103 | every run from a good state stays good and closes no channel twice |
| `Monitor.EveryInterleaving` | internal/lock/monitor.go:52-103 | over all interleavings of Set, Subscribe and Value on a new variable, a subscription's channel is closed exactly when a newer version than it read exists |
| `Ports.SetOrderIsIndexOrder` | internal/config/config.go:139-150 | zero padding makes the order of names within a pawn set the order of indices |
| `Ports.PawnNamesAreDistinct` | internal/config/config.go:149-155 | no two places of one or of two pawn sets get the same name |
| `Ports.PawnNameShape` | internal/config/config.go:139-150 | a pawn is called after its set, a dash and its index, padded to the digits of the last index |
| `Ports.ExpandSet` | internal/config/config.go:134-161 | one set: fails exactly when one of its names is taken, otherwise adds exactly its names with port 0 |
| `Ports.ExpandSets` | internal/config/config.go:134-161 | all sets, in whatever order: fails exactly when a manual pawn has a generated name, otherwise adds exactly the generated names |
| `Ports.AddPrimary` | internal/config/config.go:163-181 | the primary entry fails exactly when its name is taken, and causes a port collision exactly when a pawn is given the base port by hand |
| `Ports.ReservePorts` | internal/config/config.go:183-196 | first pass: fails exactly when two pawns are given the same port by hand, otherwise reserves exactly those ports |
| `Ports.NextFree` | internal/config/config.go:203-214 | the search ends, at the next port that nobody reserved or was given |
| `Ports.GivePorts` | internal/config/config.go:198-215 | second pass: fails exactly when a pawn is unreadable, otherwise manual ports are kept and the k-th automatic pawn in order of names gets the free port with exactly k free ports below it |
| `Ports.AssignPorts` | internal/config/config.go:183-215 | both passes: error exactly on a collision or an unreadable pawn, otherwise every pawn has its right port |
| `Ports.KthFreeOrder` | internal/config/config.go:203-214 | free ports are ordered as they are counted, so the k-th is unique |
| `Ports.PortsAreDistinct` | internal/config/config.go:183-215 | right ports of two pawns differ |
| `Ports.SetPortsAscend` | internal/config/config.go:134-215 | the pawns that a set generates get automatic ports, in the order of their indices |
| `Probes.ContainerProbeState.EvalStartup` | node/probes.go:263-278 | new counters, and a restart exactly when the failures reach the threshold |
| `Probes.ContainerProbeState.EvalLiveness` | node/probes.go:282-296 | new counters, and a restart exactly when the failures reach the threshold |
| `Probes.ContainerProbeState.EvalReadiness` | node/probes.go:299-322 | new counters and readiness; any result but success counts as a failure |
| `Probes.ContainerProbeState.IsDue` | node/probes.go:210-245 | the answer, and the invented last probe time of a type that is asked about for the first time |
| `Probes.ContainerProbeState.MarkProbed` | node/probes.go:253-259 | exactly this type was probed now |
| `Probes.StartupCounts` | node/probes.go:263-278 | for every sequence of results the count is the failing streak, and startup has passed once there was a success |
| `Probes.LivenessCounts` | node/probes.go:282-296 | for every sequence of results the count is the failing streak |
| `Probes.ReadinessCounts` | node/probes.go:299-322 | for every sequence of results both counters are the lengths of the trailing streaks |
| `Probes.StreakIsSuffix` | node/probes.go:299-322 | a streak is the longest suffix of like results |
| `Probes.ReadyIsLastWord` | node/probes.go:299-322 | for every sequence of results a container is ready exactly when the last threshold reached was the one of the successes, or it was ready and no failure threshold was reached |
| `Probes.ReadyFlipsAtThreshold` | node/probes.go:299-322 | readiness changes only at the result that makes the streak exactly as long as its threshold |
| `Probes.DueIff` | node/probes.go:210-259 | along every run a probe is due exactly from one period after the last mark, or before any mark from its jitter after start and delay, unless the initial delay holds it back |
| `Probes.FirstProbeKeepsDelay` | node/probes.go:210-259 | with a known start time the first probe never comes before start plus delay, and later ones are a period after the last mark |

## Left out

- Queue.Queue: list elements are values at positions; the identity of an item shared between the list and its worker is not modelled, and the map from keys to list elements is its set of keys.
- Queue.Queue.Insert: the rate limiter is an input; its own state is not modelled.
- QueueSystem.DueHeadCanBeTaken: says what can happen, not that the scheduler lets it happen.
- PodStore.PodStore: every method is one step; the window between the registry lock and the counters is not modelled, nor are snapshots, status merging and the index of completed pods.
- PodStore.PodStore.AdmitPod: pressure readings are one Boolean input.
- PodStore.PodStore.Create: nothing comes between its two steps; Admission interleaves AdmitPod and Enroll with everything else.
- CreateDelete.NoLaunchAfterTeardown: is about the creation goroutine; a watcher restart does not look at deletion again after its delay, and volumes are tracked after promotion, so it does not extend to those.
- CreateDelete.RunKeepsInv: creates of one uid do not overlap each other, as they come from one queue keyed by the name of the pod.
- Watcher.BatchWatcher.CheckContainer: probe outcomes and long runs are inputs, and the statuses and events that are sent out are not modelled.
- Watcher.BatchWatcher.CheckPod: one poll is not interrupted by a restart that ends; RestartProtocol interleaves the restarts themselves.
- FociRuns.CachedPhaseAgrees: does not tell Succeeded from Failed, because an exit code that changes on a terminated container does not recompute the phase.
- FociRuns.RunKeepsInv: states are values; that the code shares the backing array of the container slice with its caller is not modelled.
- Syzygy.Loop.ProcessFact: the bounded effects channel, which may drop effects, is not modelled.
- IPPool.IPPool.Allocate: parsing and printing of dotted addresses is not modelled.
- Ports.AssignPorts: sorting the names is the library's, so they come sorted; what makes CPU or memory unreadable is an input.
- Ports.NextFree: ports are unbounded integers, as nothing in the source limits them to 16 bits.
- Probes.ContainerProbeState.IsDue: the clock is read once per call, and readiness across a reset of the probe state is not modelled.
- Counters of fixed width (restart counts, requeues, versions, probe counts) are unbounded, and Go's saturating time arithmetic is exact.
- Fairness of the image peer selector.
- Running probes, building pod statuses, reconciliation against the API server, hydration from disk, volumes, images, networking, certificates, the control socket and the command line: external calls with little logic of their own.
- CPU weights, resource limits, step planning and the volume tracker: would only add easy members.

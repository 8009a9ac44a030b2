# A verified model of the EVPN gateway bridge

The gateway keeps a database of VRFs, logical bridges, bridge ports and SVIs (InfraDB), and a set
of modules (LGM, LVM, FRR, an optional vendor module) that realize each stored object one after
the other. This project models the four components in which that can go wrong and proves what
holds of them. `dafny verify dfyconfig.toml` checks everything.

**The intent-realization protocol** (`Intents`, `EventBus`, `TaskManager`, `Protocol`). An API call
stores an object whose components are all Pending and starts a task; the task manager notifies the
subscribed modules in priority order and waits for each; modules report back through
`Update*Status`; reports can be late, lost, stale, errors with back-off, or requests for a replay of
the whole store. `Protocol.Apply` is one step of that system and `Protocol.Run` a whole run; every
step is total, and steps can be interleaved in any way. `TaskManager.Manager` is the manager's
nested loops, shown to take exactly the steps `Next` takes. The log of a run records what happened, each
delay with which a task was given to a timer included. The theorems are in `NoLostIntent`, `Realization`,
`Finishing`, `Delivery`, `Order`, `TaskConservation`, `Teardown`, `UpStatus`, `Replay`, `Backoff` and `FrrRuns`.

**InfraDB** (`Store`, `StoreIntegrity`, `StoreReferences`, `StoreRuns`, `StoreEffects`, `Events`, `RoundTrip`,
`Cleanup`, `InfraDB`). `Store` gives the effect of each operation on a value; the class `InfraDB.Db` is the
store as the code has it, with working copies, loops over bridges and early returns, and each of its
methods is shown to have exactly that effect. Integrity means: index maps, VNI set and references
agree, and nothing that is to be deleted is referred to. `StoreView` and `Gateway` join the two
components: seen through the statuses of its objects, every store operation is a step of the
protocol, so the protocol's theorems hold of the stored objects.

**The netlink watcher** (`NetRows`, `Differ`, `NetTables`, `NetClosure`, `NetSources`, `L2Tables`, `NetWatcher`).
Each poll builds new tables, annotates and filters them, compares them with the old ones in
whatever order Go walks its maps, and publishes events; a subscriber applies them.

**The id pool** (`IdPool`), as written.

## Hypotheses

They are preconditions of the theorems that need them. Only what a poll of the netlink watcher looks up
elsewhere is built into its input (`NetTables.World`): there GRD lookups nest no deeper than a given
depth. A deeper chain is a loop, in which the code would not return; wherever resolving ends, the depth makes
no difference (`NetTables.DepthIsEnough`).

- Honest runs (`Protocol.HonestRun`): modules report Success or Error under their own name, no module
  asks for a replay from a bridge port event, and the pre-replay step of a replay succeeds. When an intent
  is lost without each of these is stated, as a condition on the state before, by
  `Realization.VagueStatusLosesIntent`, `Realization.PortReplayLosesIntent` and
  `Realization.FailedReplayLosesIntent`.
- Module FRR reports as its handlers do (`FrrRuns.FrrRun`): from the component stored in the object. It
  makes no difference that a handler reads that component when it begins and reports when it is done:
  `FrrRuns.ReadStaysValid`.
- Careful operations (`StoreRuns.Careful`): what a caller of the store can check before the call.
  `StoreRuns.KeepsIffCareful` says that exactly these operations keep integrity.
- During the clean-up there are no other API calls, and on what it is asked to tear down each module's last
  word is Success (`Cleanup.AllFit`, `Events.Ends`), whatever it reported before and whatever replays come
  in between.
- The store backend does not fail, `generateVersion` and notification ids are fresh, and the
  subscribers do not change after the modules have started.

## Where the code does less than it says

- A report that asks for a replay, but for a version that is no longer stored, makes the manager wait
  for a replay nobody starts: `Realization.StaleReplayBlocks` gives the exact step,
  `Replay.ManagerCanBlock` an honest run that ends there, `Realization.BlockedForEver` what follows.
- A replay request that is current but whose signal is lost starts a replay nobody waits for; its tasks count
  as open, yet they are created only once the manager waits for some other replay:
  `Realization.PairsBreakOnlyOn` gives both kinds of unpaired request, `Realization.HeldForEver` what follows.
- `DeleteAllResources` takes a snapshot of a kind and deletes its objects one call at a time. An object that
  was to be deleted already can go in between; its own deletion is then an error, and the clean-up stops:
  `Cleanup.RefusedIffGoesEarly` and `Cleanup.CanBeRefusedIffDoomed`.
- Bridge ports are gathered for replay under one type name and matched under another
  (pkg/infradb/replay.go:85 and 217), so a replay asked for from a port event loses the port's intent.
- `CreateBP` and `CreateSvi` accept parents that are to be deleted, and leave stray references when they
  fail half-way; `CreateLB` and `CreateVrf` overwrite an object of the same name.
- `addNexthop` logs that it ignores a second nexthop when ECMP is off; it returns nil, and the caller
  crashes: `NetTables.AddRouteCrashesIff`.
- The comment of the id pool promises the same id for the same key and recycled ids; both reuse branches
  drop the old id and return 0: `IdPool.HandedOnce`, `IdPool.SameIdOnlyWhileHeld`,
  `IdPool.ReleasedKeyIsRefused`. A pool that starts at 0 does not initialise: `IdPool.InitPool`.
- The route table comment promises the lowest metric; both branches of `addRoute` keep the first route, and
  so does the model.

## Model

| member | source | states |
|---|---|---|
| `Intents.Status.SetComponentState` | pkg/infradb/bridge.go:216-224 | in place, the first component of the reported name takes the report and no other changes |
| `Intents.Status.CheckForAllSuccess` | pkg/infradb/bridge.go:227-234 | true exactly when every component is Success |
| `Intents.Status.MarkToBeDeleted` | pkg/infradb/infradb.go:170-174 | a deletion makes one component per subscriber Pending, keeps timers, gives the new version and ToBeDeleted |
| `Intents.Status.PrepareObjectsForReplay` | pkg/infradb/bridge.go:246-264 | the loop that resets components and collects subscribers: which components become new ones, the new status and the subscriber list, exactly |
| `Intents.SetComponentAt` | pkg/infradb/vrf.go:243-251 | with distinct names, a report replaces the component of its name and only that |
| `Intents.PreparedSubsExact` | pkg/infradb/vrf.go:275-293 | the subscribers a replay contacts are, in priority order, exactly those whose components are not Success afterwards |
| `EventBus.SortKeeps` | pkg/infradb/subscriberframework/eventbus/eventbus.go:106-108 | whatever order sorting gives equal priorities, a sorted list has the same subscribers and repeats no module the list did not |
| `EventBus.SubscribeKeeps` | pkg/infradb/subscriberframework/eventbus/eventbus.go:89-112 | a new module leaves the list in priority order, duplicate-free, and larger by just that module, however equal priorities are ordered |
| `EventBus.Bus.SubscriberExist` | pkg/infradb/subscriberframework/eventbus/eventbus.go:124-134 | true exactly when the module is in the list of the event type |
| `EventBus.Bus.Subscribe` | pkg/infradb/subscriberframework/eventbus/eventbus.go:89-112 | the list of one event type becomes a sorted permutation of the old one with the module; other lists stay |
| `EventBus.Bus.StartSubscriber` | pkg/infradb/subscriberframework/eventbus/eventbus.go:49-78 | a module is added once per event type, with its priority; every list stays sorted and duplicate-free |
| `TaskManager.Manager.Enqueue` | pkg/infradb/taskmanager/utils.go:15-23 | a FIFO that accepts a task while it holds fewer than 200 |
| `TaskManager.Manager.ProcessNext` | pkg/infradb/taskmanager/taskmanager.go:122-227 | the nested loops over subscribers and statuses: where the pass ends, what becomes of the task and after which delay it comes back, read off the replies (`TaskManager.PassEnds`); they take exactly the steps of `Next` |
| `TaskManager.PassIsPlay` | pkg/infradb/taskmanager/taskmanager.go:122-227 | the steps of the protocol over one task come to the same: all subscribers before some k acknowledged; at k none is left and the task is finished, or a busy or silent subscriber requeues it there after twice its timer, an Error after the time the module asked for, and any other status drops it |
| `TaskManager.Manager.AwaitStatus` | pkg/infradb/taskmanager/taskmanager.go:161-191 | statuses of other notifications are skipped; the first that fits is the answer, none is a retry |
| `NoLostIntent.CreateKeeps` | pkg/infradb/infradb.go:69-139 | storing an object and starting its task keeps: every unrealized component will be contacted under the stored version |
| `NoLostIntent.DeleteKeeps` | pkg/infradb/infradb.go:142-186 | so does a deletion request |
| `NoLostIntent.DequeueKeeps` | pkg/infradb/taskmanager/taskmanager.go:126-134 | so does taking the next task, and an empty remainder finishes it |
| `NoLostIntent.BusyKeeps` | pkg/infradb/taskmanager/taskmanager.go:144-158 | so does a subscriber that is busy: the task is requeued at that subscriber |
| `NoLostIntent.SentKeeps` | pkg/infradb/taskmanager/taskmanager.go:144-164 | so does a notification that is taken |
| `NoLostIntent.TimeoutKeeps` | pkg/infradb/taskmanager/taskmanager.go:179-199 | so does a timeout |
| `NoLostIntent.ReportKeeps` | pkg/infradb/infradb.go:921-1027 | so does an honest report: current or stale, Success, Error or a replay request, delivered or lost |
| `NoLostIntent.GatherKeeps` | pkg/infradb/replay.go:103-254 | so does the part of a replay that rewrites the store |
| `NoLostIntent.FinishKeeps` | pkg/infradb/replay.go:25-34 | so does the end of a replay, when its tasks are created |
| `NoLostIntent.RunKeeps` | pkg/infradb/taskmanager/taskmanager.go:122-227 | the invariant behind no lost intent holds in every state of every honest run |
| `Realization.NoIntentIsLost` | pkg/infradb/taskmanager/taskmanager.go:122-227 | in every state of every honest run, an object with a component that is not Success has a replay ahead, or one open task of its version that still has every such component to contact |
| `Realization.QuiescentMeansRealized` | pkg/infradb/infradb.go:326-384 | when no task and no replay is left, every stored object is all Success and Up, and none is to be deleted |
| `Realization.VagueStatusLosesIntent` | pkg/infradb/taskmanager/taskmanager.go:220-224 | a status that is neither Success nor Error drops the task and loses the intent, unless and only unless a replay of the kind is ahead |
| `Realization.PortReplayLosesIntent` | pkg/infradb/replay.go:81-100 | a replay asked for from a bridge port event loses the intent exactly when some component of the port was not Success |
| `Realization.FailedReplayLosesIntent` | pkg/infradb/replay.go:25-34 | a replay request whose pre-replay step fails loses nothing if and only if every component of the object is Success already or another replay of its kind is ahead |
| `Realization.UndeliveredRequestLosesNothing` | pkg/infradb/taskmanager/taskmanager.go:101-119 | when the signal of that request is lost the task is kept, and a failing replay loses nothing |
| `Realization.StaleReplayBlocks` | pkg/infradb/taskmanager/taskmanager.go:236-241 | the one kind of step after which the manager waits for a replay that does not exist: a delivered, answering replay request for a version that is not stored, with no other replay about |
| `Realization.BlockedForEver` | pkg/infradb/taskmanager/taskmanager.go:239 | blocked that way, no step but another replay request finishes a task or shortens the queue |
| `Realization.PairsBreakOnlyOn` | pkg/infradb/infradb.go:314-320 | while the manager waits exactly when one replay is under way, a step ends that if and only if it is a report that asks for a replay and is current but not heard, or heard but not current |
| `Realization.HeldForEver` | pkg/infradb/replay.go:25-34 | the tasks of a replay nobody waits for are not created as long as no report asks for another replay |
| `Delivery.NextOnlyAfterSuccess` | pkg/infradb/taskmanager/taskmanager.go:129-225 | in any run a task notifies its (k+1)-th subscriber only after the k-th answered Success to the very notification that was out to it |
| `Delivery.RetriedWhereItStopped` | pkg/infradb/taskmanager/taskmanager.go:147-158 | successive notifications of a task go to the same subscriber, or to the next one exactly when the first was acknowledged in between |
| `Delivery.TimerCountsFailures` | pkg/infradb/taskmanager/taskmanager.go:151-202 | the system timer is 2^k seconds after k delivery failures since the last status |
| `Delivery.IndexStaysInList` | pkg/infradb/taskmanager/taskmanager.go:151 | whatever modules do, the index of an open task stays within its list despite the repeated increments |
| `Delivery.AnswerWasWritten` | pkg/infradb/taskmanager/taskmanager.go:204-218 | in every honest run what the manager takes for an answer was just written to the store for that object and version by the module it had notified: an acknowledgement is its Success, and after its Error the task waits exactly as long as the module asked |
| `Delivery.RetryDelayDoubles` | pkg/infradb/taskmanager/taskmanager.go:151-188 | in every run a task that could not be delivered comes back after 2^k seconds, k being the delivery failures in a row, this one included |
| `Delivery.UnreachedIsRetried` | pkg/infradb/taskmanager/taskmanager.go:144-199 | a busy or silent subscriber frees the manager, and the task waits to be tried again at that subscriber |
| `Order.QueueIsFifo` | pkg/infradb/taskmanager/utils.go:15-28 | the queue is first in, first out: a step puts one task at its end while it holds fewer than 200, or gives its first to the idle manager |
| `Order.QueueStaysBounded` | pkg/infradb/taskmanager/utils.go:15-18 | in every run at most 200 tasks are queued |
| `Order.HandsStay` | pkg/infradb/subscriberframework/eventbus/eventbus.go:155-165 | a notification stays with its module until that module reports on it or gives it up; none is overwritten |
| `Order.NotifiedByPriority` | pkg/infradb/taskmanager/taskmanager.go:129-145 | in every run all notifications of a task at one place of its list go to the same module, and later places to modules of lower priority |
| `TaskConservation.EachTaskInOnePlace` | pkg/infradb/taskmanager/taskmanager.go:90-96 | in every run each created task is in exactly one of about to be queued, queued, timed, in process, held by a replay, finished, dropped |
| `TaskConservation.DoneIsForEver` | pkg/infradb/taskmanager/taskmanager.go:144-223 | a finished or dropped task is nowhere else and never returns |
| `TaskConservation.OneLiveTask` | pkg/infradb/taskmanager/taskmanager.go:144-223 | no requeue path duplicates a task: two live tasks of one object and version are one |
| `Teardown.RemovedOnlyAfterTeardown` | pkg/infradb/infradb.go:307-366 | in every run an object is removed only when, since the latest request to delete it, each of its modules has reported Success under the object's current version |
| `Teardown.LeavesOnlyByRemoval` | pkg/infradb/infradb.go:326-366 | no other step takes an object out of the store |
| `Teardown.DoomStays` | pkg/infradb/bridge.go:258-262 | ToBeDeleted is taken back by one step only, storing a new object under the name; reports and replays keep it |
| `UpStatus.PartialReportKeepsOper` | pkg/infradb/infradb.go:377-384 | a report that leaves some component not Success leaves the operational status as it was |
| `UpStatus.UpOnlyWhenAllSucceed` | pkg/infradb/infradb.go:332-376 | only a report on the object turns it Up, and all its components are Success then |
| `UpStatus.UpMeansRealized` | pkg/infradb/infradb.go:285-389 | in every run each module of an object that is Up has reported Success under the version the object then had, since it was created or marked, and every replay since left the module alone |
| `Replay.ReplayIsExact` | pkg/infradb/replay.go:103-272 | each object of a replayed kind gets a new version and one task whose subscribers are exactly, in order, the components now Pending; the others are Success; nothing else changes |
| `Replay.OldVersionsAreDead` | pkg/infradb/replay.go:151-161 | after a gather no notification handed out before is current for a replayed object |
| `Replay.StaleReportsAreIgnored` | pkg/infradb/infradb.go:300-312 | a report for a missing object or for a version that is not stored leaves the store as it is |
| `Finishing.FinishedMeansRealized` | pkg/infradb/taskmanager/taskmanager.go:205-207 | in every honest run, whatever replays are requested, an object whose stored version has a finished task is all Success and Up |
| `Finishing.OpenTaskCoversAll` | pkg/infradb/taskmanager/taskmanager.go:144-223 | an open task of the stored version still has every component that is not Success ahead of it; what it has gone past is Success |
| `Replay.ManagerCanBlock` | pkg/infradb/taskmanager/taskmanager.go:236-241 | an honest run after which the manager waits for a replay nobody runs and a deletion is never carried out |
| `Replay.FailedPreReplayLosesIntent` | pkg/infradb/replay.go:25-34 | one run that meets the condition of `Realization.FailedReplayLosesIntent`: nothing is left to do and the object is not realized |
| `Backoff.Handle` | pkg/frr/frr.go:319-351 | the handler, with the loop over components: which component it reports, its status, its timer doubled from the stored one, and the replay flag above 64 seconds |
| `Backoff.TimerCountsFailures` | pkg/frr/frr.go:331-373 | in every history the stored timer is 0 without failures, else 2^k seconds after k failures since the last success or replay, 64 at most |
| `Backoff.SeventhFailureAsksForReplay` | pkg/infradb/common/common.go:42-44 | a run asks for a replay if and only if it fails and at least six failures came before since the last success or replay |
| `Backoff.TimerRestarts` | pkg/infradb/vrf.go:281-286 | success and replay, whichever module asked for it, return the timer to 0; a deletion request and a report that comes too late keep it |
| `Backoff.TurnsAreStoreUpdates` | pkg/infradb/infradb.go:954-957 | the histories are made of what the store really does to the component on reports, on replays asked for by any module, and on deletions |
| `FrrRuns.StoredTimerCountsFailures` | pkg/frr/frr.go:331-373 | in every state of every run the timer stored for FRR is 0 or 2^k seconds after the k failures the log shows since the last creation, replay or success, and k is at most 6 |
| `FrrRuns.ReplayAskedForOnSeventh` | pkg/infradb/common/common.go:42-44 | in every run a report of FRR on the stored version asks for a replay if and only if it is a failure and six failures are stored |
| `FrrRuns.ReadStaysValid` | pkg/frr/frr.go:290-330 | while FRR works on a notification its component changes only together with the version, so it may be read first and reported on later |
| `FrrRuns.TaskBacksOff` | pkg/infradb/taskmanager/taskmanager.go:208-218 | in every honest run the task that an Error of FRR sends away comes back after 2^k seconds, k being the failures of FRR stored since the last creation, replay or success, from 1 to 6 |
| `StoreIntegrity.MacTableIsBijection` | pkg/infradb/bridge.go:176-208 | with integrity a bridge's MAC table is a bijection onto its port names |
| `StoreIntegrity.SvisHaveOwnBridges` | pkg/infradb/bridge.go:156-163 | no two SVIs share a bridge |
| `StoreIntegrity.VnisAreExclusive` | pkg/infradb/infradb.go:83-116 | no two stored bridges or VRFs share a VNI, and each is a nonzero 24-bit value |
| `StoreIntegrity.CreateLBKeepsIff` | pkg/infradb/infradb.go:69-139 | a created bridge keeps integrity exactly when its VNI is valid and its name free, or held by a bridge without VNI and references |
| `StoreIntegrity.CreateVrfKeepsIff` | pkg/infradb/infradb.go:730-802 | the same for a VRF |
| `StoreIntegrity.DeleteLBKeeps` | pkg/infradb/infradb.go:142-186 | a deletion request for a bridge, granted or refused, keeps integrity |
| `StoreIntegrity.DeleteVrfKeeps` | pkg/infradb/infradb.go:805-843 | so does one for a VRF |
| `StoreIntegrity.DeleteBPKeeps` | pkg/infradb/infradb.go:488-521 | so does one for a port |
| `StoreIntegrity.DeleteSviKeeps` | pkg/infradb/infradb.go:1121-1154 | so does one for an SVI |
| `StoreReferences.AttachAllExact` | pkg/infradb/infradb.go:429-455 | the attaching loop writes a prefix of the bridges and stops before the first that is missing, knows the port or its MAC, or is repeated |
| `StoreReferences.DetachAllExact` | pkg/infradb/infradb.go:653-673 | where every bridge lists the port the detaching loop removes it from exactly these and never meets its error |
| `StoreReferences.CreateBPStores` | pkg/infradb/infradb.go:392-485 | a successful creation stores the port with the bridges it names, or with those of the walk over the index when it names none, and their VLANs in order, lists it on each of them by name and MAC, and changes nothing else |
| `StoreReferences.CreateBPKeepsIff` | pkg/infradb/infradb.go:392-485 | exactly when a created or refused port keeps integrity: doomed bridges, taken names, stray references |
| `StoreReferences.CreateSviStores` | pkg/infradb/infradb.go:1030-1118 | exactly when an SVI is created, and what is then stored |
| `StoreReferences.CreateSviKeepsIff` | pkg/infradb/infradb.go:1030-1118 | exactly when a created or refused SVI keeps integrity |
| `StoreReferences.RemoveBPNeverFails` | pkg/infradb/infradb.go:653-703 | removing a port detaches it everywhere, never fails, and keeps integrity |
| `StoreReferences.RemoveSviNeverFails` | pkg/infradb/infradb.go:1357-1425 | removing an SVI clears both references, never fails, and keeps integrity |
| `StoreReferences.RemoveLBNeverFails` | pkg/infradb/infradb.go:326-362 | removing an unreferenced bridge frees its VNI and its index entry and keeps integrity |
| `StoreReferences.RemoveVrfNeverFails` | pkg/infradb/infradb.go:962-1002 | the same for a VRF |
| `StoreReferences.UpdateLBStatusKeeps` | pkg/infradb/infradb.go:285-389 | no report on a bridge fails or breaks integrity |
| `StoreReferences.UpdateVrfStatusKeeps` | pkg/infradb/infradb.go:921-1027 | nor on a VRF |
| `StoreReferences.UpdateBPStatusKeeps` | pkg/infradb/infradb.go:604-727 | nor on a port |
| `StoreReferences.UpdateSviStatusKeeps` | pkg/infradb/infradb.go:1308-1449 | nor on an SVI |
| `StoreRuns.KeepsIffCareful` | pkg/infradb/infradb.go:69-1154 | any operation on a store with integrity keeps it if and only if it is careful |
| `StoreRuns.CarefulRunsHaveIntegrity` | pkg/infradb/infradb.go:69-1449 | references, indices and VNIs agree after any run of careful operations |
| `StoreEffects.CreateLBEffect` | pkg/infradb/infradb.go:69-139 | a new bridge is refused without subscribers or when some stored bridge or VRF holds its VNI; else it is stored as it is, indexed, its VNI reserved, and nothing else changes |
| `StoreEffects.CreateVrfEffect` | pkg/infradb/infradb.go:730-802 | the same for a VRF |
| `StoreEffects.CreateBPEffect` | pkg/infradb/infradb.go:409-485 | a port that names no bridge spans every stored bridge once, any other exactly those it names, in order; all of them list it by name and MAC, and no other object changes |
| `StoreEffects.CreateBPIff` | pkg/infradb/infradb.go:392-455 | exactly when a port is created |
| `StoreEffects.CreateBPRefused` | pkg/infradb/infradb.go:392-455 | why one is refused: nobody is subscribed, there is no bridge index, or the first bridge that does not fit is missing or taken, each with its own error |
| `StoreEffects.CreateSviOutcome` | pkg/infradb/infradb.go:1030-1118 | when an SVI is created and why it is refused: no other SVI may have its bridge, nor its name in its VRF |
| `StoreEffects.DeletionOutcome` | pkg/infradb/infradb.go:142-186 | a deletion request is refused without subscribers, when the object is missing, or while some stored object refers to it, each with its own error; else it is granted |
| `StoreEffects.DeletionMarks` | pkg/infradb/infradb.go:170-180 | a granted one gives the object the new version and makes it to be deleted; all its components wait again and keep the rest |
| `StoreView.ReportsRefine` | pkg/infradb/infradb.go:285-389 | a report has on the statuses exactly the effect the protocol gives it, and is stale exactly when the protocol says so |
| `StoreView.CreationsRefine` | pkg/infradb/infradb.go:392-485 | a creation writes the new status and no other, whatever references it writes; a refused one writes none |
| `StoreView.DeletionsRefine` | pkg/infradb/infradb.go:142-186 | a granted deletion marks one object, a refused one changes nothing |
| `StoreView.GathersRefine` | pkg/infradb/replay.go:103-254 | a replay keeps integrity and has on the statuses the effect the protocol gives it |
| `Gateway.RunRefines` | pkg/infradb/infradb.go:69-1449 | a run of API calls, reports and replays over the relational store is an honest run of the protocol over its statuses |
| `Gateway.NoStoredIntentIsLost` | pkg/infradb/taskmanager/taskmanager.go:122-227 | no stored bridge, port, VRF or SVI that is not realized is ever without a task or a replay for it |
| `Gateway.QuietGatewayIsRealized` | pkg/infradb/infradb.go:326-384 | with nothing left to do every stored object is realized by all its modules and Up |
| `Gateway.ShownUpIsRealized` | pkg/infradb/infradb.go:332-376 | a stored bridge, port, VRF or SVI is shown Up only when each of its modules has realized it |
| `Gateway.StoredGoesOnlyTornDown` | pkg/infradb/infradb.go:307-366 | a stored bridge, port, VRF or SVI disappears only by a teardown that each of its modules has confirmed since the latest request to delete it |
| `Gateway.DeletedIsGoneWhenQuiet` | pkg/infradb/infradb.go:142-186 | with nothing left to do, an object that was to be deleted is gone, unless a new one was stored under its name |
| `Gateway.IndexWalksReplayed` | pkg/infradb/replay.go:127-137 | a walk over the index maps meets every object a replay covers once, and never a missing one |
| `RoundTrip.TeardownRemoves` | pkg/infradb/infradb.go:646-703 | when the last word of every module on a marked object is Success it is removed, whatever was reported before, and later reports change nothing |
| `RoundTrip.PortRoundTrip` | pkg/infradb/infradb.go:426-703 | create, set up (however far), delete, tear down a port: every bridge's port and MAC tables and all indices are what they were |
| `RoundTrip.SviRoundTrip` | pkg/infradb/infradb.go:1030-1425 | the same for an SVI, with bridge and VRF references |
| `Cleanup.NotRefused` | pkg/infradb/infradb.go:142-186 | once the kinds that refer to it are gone no deletion of a stored object returns a not-empty error |
| `Events.HappenAt` | pkg/infradb/infradb.go:285-389 | what becomes of an object over any reports and replays depends on its own status and those events only; nothing comes into the store |
| `Events.DoomIsKept` | pkg/infradb/infradb.go:326-384 | reports and replays tear down only what is to be deleted, and never take a deletion back |
| `Events.EndsInTeardown` | pkg/infradb/infradb.go:307-366 | a marked object goes when the last word of every module on its then current version is Success, among any errors, stale reports and replays |
| `Events.HearRemoves` | pkg/infradb/infradb.go:326-366 | so after such events the store does not hold the object any more |
| `Cleanup.OneDeletion` | pkg/infradb/infradb.go:488-521 | in a phase a deletion is granted if and only if the object is there, and refused only as not found |
| `Cleanup.RefusedIffGoesEarly` | pkg/infradb/infradb.go:1211-1217 | in any interleaving the deletions of a phase are all granted, or one ends with key not found; that exactly when a listed object is torn down by the events before its own deletion |
| `Cleanup.CanBeRefusedIffDoomed` | pkg/infradb/infradb.go:1211-1217 | for any order of the snapshot some interleaving makes the phase fail if and only if one of the objects was already to be deleted at the snapshot |
| `Cleanup.PhaseEmpties` | pkg/infradb/infradb.go:1209-1227 | one phase, with any reports and replays before each deletion and during the wait: it ends clean and leaves nothing of its kind, or with key not found, and that exactly when a listed object goes before its own deletion |
| `Cleanup.CleanUpLeavesNothing` | pkg/infradb/infradb.go:1209-1280 | the whole clean-up, in any interleaving and from any store with integrity: no object, no index entry and no VNI is left, or it ends with key not found, exactly when a listed object goes before its own deletion |
| `Cleanup.CleanUpFromUndoomed` | pkg/infradb/infradb.go:1209-1280 | with no stored object to be deleted at the start, the clean-up ends clean and leaves nothing |
| `InfraDB.Bridge.AddSvi` | pkg/infradb/bridge.go:156-163 | in place: refused when a bridge has an SVI, else just that reference is set |
| `InfraDB.Bridge.DeleteSvi` | pkg/infradb/bridge.go:166-173 | in place: refused for another SVI, else just that reference is cleared |
| `InfraDB.Bridge.AddBridgePort` | pkg/infradb/bridge.go:176-190 | in place: both tables gain the port, or neither changes |
| `InfraDB.Bridge.DeleteBridgePort` | pkg/infradb/bridge.go:193-208 | in place: both tables lose the port, or neither changes |
| `InfraDB.VrfCopy.AddSvi` | pkg/infradb/vrf.go:217-225 | in place: the SVI is added once |
| `InfraDB.VrfCopy.DeleteSvi` | pkg/infradb/vrf.go:228-235 | in place: the SVI is removed, or the call refused |
| `InfraDB.Walk` | pkg/infradb/replay.go:127 | ranging over a map visits every key once, in some order |
| `InfraDB.ApplyReport` | pkg/infradb/infradb.go:318-384 | a report sets its component; with all components Success the object is gone if it was to be deleted and Up if not, else its operational status stays |
| `InfraDB.NewLogicalBridge` | pkg/infradb/bridge.go:69-110 | a new bridge has no references, one Pending component per subscriber and is Down; without subscribers there is none |
| `InfraDB.NewVrf` | pkg/infradb/vrf.go:125-170 | the same for a VRF |
| `InfraDB.NewBridgePort` | pkg/infradb/port.go:82-129 | the same for a port, which is a transparent trunk exactly when it names no bridge |
| `InfraDB.NewSvi` | pkg/infradb/svi.go:70-113 | the same for an SVI |
| `InfraDB.NewComponents` | pkg/infradb/port.go:97-100 | the loop makes one Pending component per subscriber, in priority order, with no details, timer or replay |
| `InfraDB.Db.CreateLB` | pkg/infradb/infradb.go:69-139 | the method changes the store exactly as the specification says, errors and partial writes included |
| `InfraDB.Db.CreateVrf` | pkg/infradb/infradb.go:730-802 | the same |
| `InfraDB.Db.CreateBP` | pkg/infradb/infradb.go:392-485 | the same, for some walk over the bridge index; a transparent trunk is stored with all bridges of the walk |
| `InfraDB.Db.AttachToBridges` | pkg/infradb/infradb.go:429-455 | the loop, with what it has written when it fails |
| `InfraDB.Db.CreateSvi` | pkg/infradb/infradb.go:1030-1118 | the same |
| `InfraDB.Db.DeleteLB` | pkg/infradb/infradb.go:142-186 | the same |
| `InfraDB.Db.DeleteVrf` | pkg/infradb/infradb.go:805-843 | the same |
| `InfraDB.Db.DeleteBP` | pkg/infradb/infradb.go:488-521 | the same |
| `InfraDB.Db.DeleteSvi` | pkg/infradb/infradb.go:1121-1154 | the same |
| `InfraDB.Db.RemoveVniFromVpns` | pkg/infradb/infradb.go:261-279 | the VNI is taken out of the set; VNI 0 is left alone, a missing set is an error |
| `InfraDB.Db.UpdateLBStatus` | pkg/infradb/infradb.go:285-389 | the same, with what is told to the task manager |
| `InfraDB.Db.UpdateVrfStatus` | pkg/infradb/infradb.go:921-1027 | the same |
| `InfraDB.Db.UpdateBPStatus` | pkg/infradb/infradb.go:604-727 | the same, with the detaching loop |
| `InfraDB.Db.UpdateSviStatus` | pkg/infradb/infradb.go:1308-1449 | the same |
| `InfraDB.Db.GetAll` | pkg/infradb/infradb.go:203-238 | lists exactly what the index map lists, once each, or fails with key not found; that exactly when the index was never stored or lists a missing object |
| `InfraDB.Db.GetObjectTypesToReplay` | pkg/infradb/replay.go:81-100 | the kinds whose subscribers include the component, each once |
| `InfraDB.Db.GatherObjectsAndSubsToReplay` | pkg/infradb/replay.go:103-254 | the nested loops rewrite, in some order, exactly the replayed objects of the index maps and make exactly the tasks the protocol says; a listed object that is missing ends them with key not found, the objects before it rewritten and no task made |
| `NetRows.IPEqualMeans` | pkg/netlink/l2nexthop.go:156-160 | two addresses are equal exactly when their canonical forms are, a 4-byte address and its 16-byte form included |
| `NetRows.DeepCheckComparesLooks` | pkg/netlink/common.go:263-280 | within one table deepEqual is equality of what it looks at |
| `NetRows.DeepCheckIsEquivalence` | pkg/netlink/nexthop.go:392-411 | so it is reflexive, symmetric and transitive |
| `Differ.Watcher.NotifyIfChanged` | pkg/netlink/common.go:230-253 | nothing for an unchanged row; for a changed one a deletion when its VRF is to be deleted, else a deletion and an addition for a route and an update for any other |
| `Differ.Watcher.NotifyCommon` | pkg/netlink/common.go:223-256 | the first loop, in any order: exactly the right events for the common keys, which leave both maps |
| `Differ.Watcher.NotifyChanges` | pkg/netlink/common.go:218-261 | for every key exactly the right events in the right order, whatever the order of the maps |
| `Differ.Watcher.NotifyUpdates` | pkg/netlink/netlink_watcher.go:140-144 | one event for every row of a map and none for any other key |
| `Differ.LastNoticeDecides` | pkg/netlink/common.go:282-285 | what a subscriber holds under a key is decided by the last event about it |
| `Differ.SubscriberTracks` | pkg/netlink/common.go:201-280 | over any run of polls a subscriber lacks exactly the keys last changed while their VRF was to be deleted, and otherwise holds rows equal to the installed ones |
| `Differ.NeverDoomedIsHeld` | pkg/netlink/common.go:218-261 | a key none of whose rows was of a VRF to be deleted is held exactly while it is installed |
| `Differ.ChangedIsHeldUnlessDoomed` | pkg/netlink/common.go:235-246 | a route or nexthop that a poll finds changed is held afterwards exactly when its VRF is not to be deleted |
| `Differ.NoticesFitHeld` | pkg/netlink/common.go:218-261 | a poll adds only what subscribers do not hold and updates or deletes only what they hold, except exactly when it publishes something about a suppressed key |
| `Differ.OnlyRoutesAndNexthopsSuppressed` | pkg/netlink/common.go:232-246 | FDB entries and L2 nexthops are never suppressed |
| `Differ.ShutdownEmpties` | pkg/netlink/netlink_watcher.go:149-163 | after the shutdown events a subscriber holds nothing of the table |
| `NetTables.TryResolveResolves` | pkg/netlink/nexthop.go:103-154 | whatever tryResolve returns is resolved, so addNexthop does not try again |
| `NetTables.DepthIsEnough` | pkg/netlink/nexthop.go:113-137 | wherever resolving a nexthop through GRD routes ends, allowing for longer chains of lookups changes nothing |
| `NetTables.AddRouteCrashesIff` | pkg/netlink/nexthop.go:171-194 | a new route crashes the watcher exactly when ECMP is off and a nexthop that yields something has more to come |
| `NetSources.ResolvesIffUsable` | pkg/netlink/nexthop.go:103-154 | a nexthop resolves to something exactly when it needs no gateway, or its neighbor was read, its type is known and, for a tunnel, some nexthop of the GRD route can be used in turn |
| `NetSources.PlainResolves` | pkg/netlink/nexthop.go:138-153 | one that is no tunnel resolves to itself or to nothing |
| `NetSources.TunnelResolves` | pkg/netlink/nexthop.go:113-137 | a tunnel resolves, in the order of the GRD route, to itself over each nexthop of that route that can be used: with its gateway, device and weight, under the key they make |
| `NetSources.AddRouteStores` | pkg/netlink/route.go:214-233 | the first route under a key stays, and its list holds, in order, what its nexthops stand for; the other routes and nexthops stay as they are, but for references to it |
| `NetSources.FirstRouteStays` | pkg/netlink/route.go:214-233 | over a whole poll the route under a key is the first one read, but for its list |
| `NetSources.TableNexthopsHaveNeighbors` | pkg/netlink/nexthop.go:103-194 | every nexthop in the table of a poll comes from one that was read: parsed resolved, or without gateway, or with a gateway whose neighbor the poll read |
| `NetSources.InstalledNexthopsAre` | pkg/netlink/nexthop.go:255-390 | a nexthop in the table is installed exactly when annotation finds the data its type needs |
| `NetSources.InstalledRoutesAre` | pkg/netlink/route.go:538-558 | a route in the table is installed exactly when its type is one of six, it is no default route, and one of its nexthops is installed; it keeps those that are, in order |
| `NetSources.RouteRowShows` | pkg/netlink/netlink_watcher.go:52-58 | what the row of an installed route shows: its fields, the metadata found, and its installed nexthops in order |
| `NetSources.NexthopRowShows` | pkg/netlink/nexthop.go:255-390 | what the row of an installed nexthop shows: its fields, the type and metadata found, and the routes that list it |
| `NetClosure.AssignKeeps` | pkg/netlink/nexthop.go:157-166 | assigning an id keeps ids at least 16, exclusive and unchanged for cached keys |
| `NetClosure.AddNexthopKeeps` | pkg/netlink/nexthop.go:171-194 | adding a nexthop, resolving it first where needed, keeps routes and nexthops listing each other, and every id the cached one |
| `NetClosure.AddRouteKeeps` | pkg/netlink/route.go:214-233 | so does adding a route |
| `NetClosure.ResolvedHasType` | pkg/netlink/nexthop.go:255-383 | a nexthop that is resolved after annotation has one of the four installable types |
| `NetClosure.InstalledTablesAreClosed` | pkg/netlink/route.go:548-558 | every installed route has a nexthop, and all its nexthops are installed |
| `NetClosure.InstalledRowsAreTables` | pkg/netlink/route.go:569-581 | what is installed are tables the differ can compare: the first nexthop of a route is always there |
| `NetClosure.IdsAreStable` | pkg/netlink/nexthop.go:157-194 | across any polls equal keys have equal ids and different keys different ones, all at least 16, although tables are rebuilt |
| `L2Tables.AddFdbEntryKeeps` | pkg/netlink/l2nexthop.go:81-105 | every entry's L2 nexthop is in the table, lists the entry and has its cached id |
| `L2Tables.LastEntryStays` | pkg/netlink/fdb.go:137-142 | of several entries under one key the last one read stays |
| `L2Tables.FirstL2Stays` | pkg/netlink/l2nexthop.go:93-105 | of several L2 nexthops under one key the first one read stays, and lists every entry read with any of them, in order |
| `L2Tables.L2IdsAreStable` | pkg/netlink/l2nexthop.go:81-105 | across any polls equal L2 keys have equal ids and different keys different ones, all at least 16 |
| `L2Tables.L2Db.L2NHAssignID` | pkg/netlink/l2nexthop.go:81-90 | in place: the cached id, or the next one, and the new cache and counter |
| `L2Tables.L2Db.AddFdb` | pkg/netlink/fdb.go:137-142 | in place: both tables, the cache and the counter after addFdbEntry |
| `L2Tables.L2Db.FilterFdb` | pkg/netlink/netlink_watcher.go:52-58 | the deleting loop leaves exactly the FDB entries to install |
| `L2Tables.InstalledFdbIsClosed` | pkg/netlink/fdb.go:179-185 | every installed FDB entry's L2 nexthop is installed, resolved, and lists the entry |
| `L2Tables.InstalledFdbAre` | pkg/netlink/fdb.go:179-185 | an FDB entry is installed exactly when it has a VLAN and a bridge, is on a bridge port or a tunnel, and its L2 nexthop is resolved, a tunnel with a bridge by a physical neighbor under it |
| `L2Tables.L2RowsShow` | pkg/netlink/l2nexthop.go:108-172 | every L2 nexthop that was read is installed, a tunnel with the destination annotation found, and FDB entries show theirs as installed |
| `L2Tables.InstalledL2RowsAreTables` | pkg/netlink/l2nexthop.go:151-172 | every installed entry has a row, and the rows are tables the differ can compare |
| `L2Tables.SubscribersTrackL2` | pkg/netlink/netlink_watcher.go:123-163 | over any run of polls subscribers hold exactly the installed FDB entries and L2 nexthops, and the L2 nexthop of every FDB entry they hold |
| `NetWatcher.NetDb.NHAssignID` | pkg/netlink/nexthop.go:157-166 | in place: the cached id, or the next one, and the new cache and counter |
| `NetWatcher.NetDb.TryToResolve` | pkg/netlink/nexthop.go:103-154 | nothing without the neighbor of the gateway, itself for a plain nexthop without gateway or whose neighbor was read, what the loop collects for a tunnel |
| `NetWatcher.NetDb.TryUnderlay` | pkg/netlink/nexthop.go:119-136 | the loop over the GRD route's nexthops, tunnels among them: one tunnel nexthop for each that resolves |
| `NetWatcher.NetDb.AddOne` | pkg/netlink/nexthop.go:171-194 | in place: the tables and the route's nexthops after addNexthop, or the crash |
| `NetWatcher.NetDb.AddRouteToDb` | pkg/netlink/route.go:214-233 | in place: the tables after addRoute, or the crash |
| `NetWatcher.NetDb.FilterRoutes` | pkg/netlink/netlink_watcher.go:52-58 | the deleting loop leaves exactly the routes to install, without their unresolved nexthops |
| `NetWatcher.NetDb.FilterNexthops` | pkg/netlink/nexthop.go:386-390 | the deleting loop leaves exactly the nexthops to install |
| `NetWatcher.NetDb.ResyncWithKernel` | pkg/netlink/netlink_watcher.go:123-138 | one poll: the new installed tables, the id cache, and for every key the events published |
| `NetWatcher.SubscribersTrackTheKernel` | pkg/netlink/netlink_watcher.go:123-163 | over any run of polls that does not crash, whatever they read, subscribers hold the installed routes and nexthops but for the suppressed ones |
| `IdPool.InitPool` | pkg/utils/idpool.go:39-57 | refused when max is below min, a panic for every pool from 0, else all ids from max down to min |
| `IdPool.IdsAreExclusive` | pkg/utils/idpool.go:29-36 | unused ids are within range, duplicate-free, and neither in use nor released |
| `IdPool.DoKeeps` | pkg/utils/idpool.go:65-172 | every operation keeps unused, used and released ids duplicate-free, disjoint and in range, and references to ids in use only, never empty |
| `IdPool.PoolStaysExclusive` | pkg/utils/idpool.go:65-172 | after any calls no two keys hold one id, and only ids in use have references |
| `IdPool.HandedOnce` | pkg/utils/idpool.go:65-94 | over any run ids are handed out once each, in the order min, min + 1, ...: none is recycled |
| `IdPool.GetGrantedIff` | pkg/utils/idpool.go:65-108 | after any calls a key gets the id it holds, else the next of the range, else none: exactly when it has released one or all were handed out; a dry pool stays dry |
| `IdPool.RefusalForgets` | pkg/utils/idpool.go:65-94 | a refusal forgets the id the key has released, or in a dry pool one that some other key has |
| `IdPool.ReleasedIdNeverReturns` | pkg/utils/idpool.go:68-82 | an id that was handed out and is not in use is never in use again |
| `IdPool.SameIdOnlyWhileHeld` | pkg/utils/idpool.go:14-28 | a key gets the id it once had if and only if it still holds it |
| `IdPool.ReleasedKeyIsRefused` | pkg/utils/idpool.go:68-70 | for every range: after a release the key is refused once although ids are free, then gets another id |
| `IdPool.ReleaseFreesOnLast` | pkg/utils/idpool.go:148-172 | releasing with a reference drops just that one, reports how many are left, and frees the id exactly when it was the last |
| `IdPool.GetCountsReferences` | pkg/utils/idpool.go:111-126 | getting with a reference adds just that one and counts them; a newly assigned id counts 1 |
| `IdPool.PlainReleaseNeedsNoReferences` | pkg/utils/idpool.go:129-145 | a release without reference returns the id the key held and frees it exactly when the id has no reference; else nothing changes |
| `IdPool.WithoutReference` | pkg/utils/idpool.go:111-172 | the calls that can take a reference, without one: nothing is counted, an id with references stays in use, and a key that holds none is refused |
| `IdPool.IDPool.AssignKey` | pkg/utils/idpool.go:65-94 | in place, the four branches as written, for some choice among the released keys |
| `IdPool.IDPool.GetID` | pkg/utils/idpool.go:97-108 | in place: the id in use, or a newly assigned one |
| `IdPool.IDPool.GetIDWithRef` | pkg/utils/idpool.go:111-126 | in place: the id, the new reference, the count |
| `IdPool.IDPool.ReleaseID` | pkg/utils/idpool.go:129-145 | in place: released, or refused |
| `IdPool.IDPool.ReleaseIDWithRef` | pkg/utils/idpool.go:148-172 | in place: the reference dropped, and the id when none is left |

## Left out

- UpdateLB, UpdateBP, UpdateVrf and UpdateSvi: they overwrite back-references and VNIs, and the code itself calls them not correct (pkg/infradb/infradb.go:577-579); nothing is claimed across them.
- Replay of bridge ports: the code never reaches it; the model has the branch that is taken.
- The store backend (redis, gomap) and its errors: the store is a map with typed keys; an object that is read is a copy.
- Fairness: nothing says that a module answers or that a timer fires; the theorems are about what no run can reach.
- A clock: the delay with which a task is given to a timer is in the log and in `TaskManager.Manager.timers`; timers fire in any order, and the 30 seconds of a wait end at some moment.
- The order of the two channel operations inside one API call, and the moment a status is sent within the lock: a report and its delivery or loss are one step.
- Metadata of objects, and the details string a module reports: carried along, never looked at.
- The 32-bit width of reference counts in the id pool: they are counted as natural numbers.
- Other API calls during the clean-up, and the ten seconds it waits for each kind: the wait ends at some moment, and what is left then decides.
- `IdPool.InitPool`: the order in which a pool from 0 fills its slice before it panics is not stated.
- Pointers between netlink rows are keys: entries are not replaced during a poll, so a key and a pointer reach the same row.
- What annotate looks up (links, router MACs, neighbor types, destinations of tunnels): inputs of the model; the crashes of annotate on missing data are not modelled.
- `NetWatcher.NetDb.TryToResolve`: does not model that resolving a GRD nexthop also sets that nexthop's own flag and neighbor. Where it is in the table it was resolved there, with the same neighbor: neighbors are read before routes, and those of the GRD first. A chain of GRD lookups that leads back to itself, in which the code would not return, is cut at the depth.
- Events for L2 nexthops at shutdown: the code sends none, and nothing is claimed.
- A table of routes or nexthops that shrinks because a poll reads nothing is like any other poll; parsing of kernel and JSON data, neighbors, ParseRoute and lookupRoute are inputs.
- Linux and FRR configuration, telnet, ip and bridge commands, restarts: a module is an environment that answers.
- gRPC servers and their validation, TLS, tracing, configuration, pagination, protobuf conversion, unsubscription and quit channels: plumbing around the core.

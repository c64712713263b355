# A verified model of the NLB pool operator

The operator keeps a pool of pre-warmed network load balancers for game servers.  A pool (`NLBPool`) owns groups of
NLBs, one per lane, and slots (`PortAllocation`, PA for short).  A slot has one cloud ServerGroup per port and one
listener per port and lane.  A PA binds to one pod at a time and puts the pod's address into its ServerGroups.  This
project models the two controllers and the cloud and API server they talk to, and proves what they promise.

The binding protocol, provisioning, pool growth and pool deletion each appear twice: as a transition system, so that
theorems speak about all interleavings, crashes and refusals; and as imperative handlers with the controllers' own loops,
flags and early returns, which keep a ghost record of their steps and so are runs of that system.  Their contracts say
what each handler leaves behind.  The PA finalizer is modelled as handlers alone, around the state they share with the
cloud and the API server.

| files | subject |
|---|---|
| BindModel, BindSafety, BindTheorems, BindRelease, BindFaults, BindHandlers | the PA state machine after provisioning: reserve, claim, bind, disable, release |
| ProvisionModel, ProvisionSafety, ProvisionTheorems, ProvisionLiveness, ProvisionHandlers | creation of ServerGroups and listeners against an idempotent cloud with lost patches |
| PortPlan, Layout | listener ports, the port-major status array and the lane-major endpoints |
| PaTeardown | the PA finalizer |
| PoolGrowth, PoolOrchestrator | sizing of a pool, creation order of EIPs, NLBs and slots |
| DeletionModel, DeletionSafety, DeletionHandlers | cascade deletion over pool controller, PA finalizers, operator and cloud |
| Names | names and labels |

`dafny verify dfyconfig.toml` checks everything.

## Hypotheses

- A read returns the current object at the read step; it may be stale by the next step.  Reconciles of one PA are serial.
- A write that reports an error was not applied, except in provisioning, where every patch may be lost or half-reported.
- Writes of objects are versioned.  Writing a claim that is already there does not change the pod's version.
- Pods are identified by incarnation.  Nobody else edits claims, ServerGroups, listeners of the pool, NLB CRs or PAs.
- Addresses: a pod may change its address at any time, also back, and the address of a pod that is gone may pass to
  another pod once no PA records it as boundPodIP.  The present and the former addresses of a pod object that still
  exists, also of a completed pod, do not pass to another pod.  These are three of the six conditions of
  `BindFaults.ExclusiveRoutingIff`; `handleBound` never compares the addresses again.
- The pool spec is fixed, slotsPerNLB is positive, lane and port names are distinct.
- A repeated create call with the same client token repeats its first answer; a second listener on the same NLB and port
  is refused.  Deleting an NLB deletes its listeners.  An accepted change of backends is visible to later Lists, and
  an accepted removal call is executed.  (Its token repeats within one minute, lines 1278-1293; a repeated call for a
  removal that is already executing changes nothing.)
- In an undisturbed (calm) visit of a handler no call is refused and nobody else acts; in a fault-free one no call is
  refused and no listener vanishes.  Both are only used in statements about progress.

## What turned out false, and when it holds

- Exclusive routing does not survive six faults: an error of the Get of the claimed PA (any error counts as "stale
  claim", `portallocation_controller.go:898`); a failed Get or a lost patch inside `clearPodClaim` (both errors are
  swallowed, lines 1665-1673); a lost "Adding" patch (the release skips a ServerGroup whose status is empty, line 1252);
  an address that passes to another pod while a PA still records it; a former address of an existing pod that passes to
  another pod (`availableResumeBind` may be about to record it, line 1022); and a present address shared by two existing
  pods.  Under the other hypotheses above, `BindFaults.ExclusiveRoutingIff` proves that it holds over all runs exactly
  when none of the six occurs.
- The client token of a re-created listener does not change between re-creations.  When the replacement vanishes too, the
  cloud repeats the dead ID and the PA can never become Available.  `ProvisionLiveness.CompletableIff` gives the exact
  condition, `ProvisionLiveness.LosingTwiceSticks` a reachable example.
- The README promises new groups whenever available slots fall below the minimum.  The code counts only Bound slots as
  used, so slots in Binding, Releasing or Disabled can leave the pool without any.  `PoolGrowth.ExpandsWhenShortIff`
  gives the exact condition, `PoolGrowth.DisabledSlotsStarve` a run that reaches such a pool.
- "Repeated reconciles with an unchanged bound count add nothing after the first" fails when creation stopped midway: with
  3 slots per NLB and minAvailableNLBs 1, a pool of 4 slots with 1 bound and 3 available wants no more, and with 2
  available the next reconcile adds 2 (`PoolGrowth.HalfCreatedGroupGrows`).  `PoolGrowth.NoRunawayExpansionIff` proves
  that nothing is added exactly when the pool already has the slots that the bound count and the headroom need, in
  complete groups (one group without headroom); in any case it grows at most to that size
  (`PoolGrowth.GrowsAtMostToEnough`).
- The cascade order needs that no NLB receives its ID after the IDs were collected, and a removed pool finalizer means
  "nothing left" only if in addition the Lists for children succeed (their errors read as "none") and created
  ServerGroups were recorded: `DeletionSafety.CascadeOrderIff` and `DeletionSafety.NothingLeftBehindIff`.
- Under the hypotheses three branches are dead: the dedup release of `handleBound` (`BindTheorems.HeldClaimIsOwn`), and in
  `handleBinding` the case "Removing" and the reset of an added server that the List does not show
  (`BindTheorems.BindingNeverRemoves`).

## Model

| member | source | states |
|---|---|---|
| BindTheorems.ExclusiveRouting | pkg/controller/portallocation_controller.go:861-1524 | in every interleaving of any number of PA workers, with crashes, conflicts, stale reads and pods that change their address, a pod is a backend of at most one PA, and each ServerGroup of a PA holds at most the one backend (boundPodIP, container port); the address of a pod that is gone may be reused once no PA records it |
| BindFaults.ExclusiveRoutingIff | pkg/controller/portallocation_controller.go:861-1674 | exclusive routing holds over all runs if and only if the Get of the claimed PA succeeds with the current object, clearPodClaim reads and patches the pod, an accepted AddServers is recorded, and an address passes to another pod only when no PA records it and it is neither a former nor the present address of an existing pod |
| BindFaults.FailedReadBreaks | pkg/controller/portallocation_controller.go:898 | a run in which any error of that Get counts as a stale claim: two PAs then route to one pod |
| BindFaults.LostClearBreaks | pkg/controller/portallocation_controller.go:1665-1673 | a run in which the swallowed error of clearPodClaim leaves the claim, and a later bind breaks exclusivity |
| BindFaults.UnrecordedAddBreaks | pkg/controller/portallocation_controller.go:1142-1165 | a run in which the "Adding" patch is lost, the release skips that ServerGroup, and a backend outlives its binding |
| BindFaults.ReusedAddressBreaks | pkg/controller/portallocation_controller.go:1131-1141 | a run in which an address passes to a new pod before the PA of its dead owner has released it: both PAs then serve that address |
| BindFaults.LiveAddressBreaks | pkg/controller/portallocation_controller.go:1015-1029 | a run in which a pod gives up an address that its PA is about to record, and another pod gets it while no PA records it: both PAs then serve that address |
| BindFaults.SharedAddressBreaks | pkg/controller/portallocation_controller.go:881-913 | a run in which two existing pods show the same address and are bound by two PAs |
| BindTheorems.RouterHolds | pkg/controller/portallocation_controller.go:1060-1090 | whoever routes to a pod is the PA its claim annotation names, and names the pod itself |
| BindTheorems.OneHolder | pkg/controller/portallocation_controller.go:961-972 | of all PAs that reserved one pod at most one is ever in Binding, Bound or Disabled |
| BindTheorems.ClaimOrdering | pkg/controller/portallocation_controller.go:910-957 | at every step a live claim names a PA whose spec names the pod: reserved before claimed, unclaimed before freed |
| BindTheorems.CandidateIsEligible | pkg/controller/portallocation_controller.go:874-904 | a candidate was listed as existing, of the pool and with an address, and its claim was absent, the PA's own, or names a PA that does not exist or reserves another pod |
| BindTheorems.StaleTakeoverNeverCommits | pkg/controller/portallocation_controller.go:895-903 | a worker that judged a claim stale from two separate reads can never, at any later time, succeed with its pod write: the pod version has moved on |
| BindTheorems.ClaimNeverStolen | pkg/controller/portallocation_controller.go:922-957 | no step replaces the claim of one PA by that of another; a claim only ever goes away, and only by its own PA |
| BindTheorems.ClearOnlyErasesOwnClaim | pkg/controller/portallocation_controller.go:1660-1674 | whenever the unversioned clear patch is sent, the pod still carries the sender's own claim |
| BindTheorems.ClearMeansEmpty | pkg/controller/portallocation_controller.go:1251-1254 | an empty serverStatus means an empty ServerGroup, except between an accepted add and its patch |
| BindTheorems.RemovingIsRequested | pkg/controller/portallocation_controller.go:1398-1441 | a serverStatus "Removing" means that every backend still registered has an accepted removal |
| BindTheorems.BackendsHavePorts | pkg/controller/portallocation_controller.go:1127-1141 | no backend is ever registered without a port |
| BindTheorems.IdlePhasesAreEmpty | pkg/controller/portallocation_controller.go:1507-1512 | Available, Disabled and unreserved PAs, and those whose claim is about to be dropped, have only empty ServerGroups |
| BindTheorems.BoundIsEnteredServing | pkg/controller/portallocation_controller.go:1174-1181 | Bound is entered only with every ServerGroup holding exactly the bound backend, after any number of disable and re-enable cycles |
| BindTheorems.BindingFixedByStep | pkg/controller/portallocation_controller.go:1496-1505 | outside Available, boundPod and boundPodIP change in one place, the reset at the end of Releasing, and then every ServerGroup is empty |
| BindTheorems.BindingFixed | pkg/controller/portallocation_controller.go:1481-1505 | over a whole run without that reset, boundPod and boundPodIP of a PA in Binding, Bound or Disabled stay as they are and it does not return to Available |
| BindTheorems.HeldClaimIsOwn | pkg/controller/portallocation_controller.go:1206-1213 | while the bound pod exists its claim is that of the PA: the dedup release is never taken |
| BindTheorems.BindingNeverRemoves | pkg/controller/portallocation_controller.go:1112-1126 | in Binding no ServerGroup is "Removing", and a poll of an added server always finds it |
| BindRelease.ReleaseNeverRegresses | pkg/controller/portallocation_controller.go:1246-1311 | no step of any run undoes progress of a release: confirmed groups stay so, no backend is added, accepted removals stay accepted |
| BindRelease.ReleaseRank | pkg/controller/portallocation_controller.go:1246-1311 | a rank over unconfirmed ServerGroups and their backends never rises while a PA is Releasing, and falls exactly with every accepted removal, finished removal and confirmation |
| BindRelease.ReleaseIsBounded | pkg/controller/portallocation_controller.go:1224-1342 | over any run the steps of progress in a release number at most its rank, whatever else is refused, throttled or crashes |
| BindTheorems.VersionsGrow | pkg/controller/portallocation_controller.go:929 | pods are never forgotten along a run and their versions never go back |
| BindTheorems.ChangesAreVersioned | pkg/controller/portallocation_controller.go:913-918 | no step changes a stored PA without a higher version |
| BindTheorems.StaleWritesAreRefused | pkg/controller/portallocation_controller.go:913-918 | a worker whose version is outdated changes neither binding nor phase |
| BindTheorems.StableOnlyWhenClaimed | pkg/controller/portallocation_controller.go:1188-1217 | under no guarantees at all, a Bound PA stays as it is only for an existing, enabled pod of the pool that claims it |
| BindTheorems.AttachOnlyWhenClaimed | pkg/controller/portallocation_controller.go:1060-1090 | under no guarantees at all, servers are added only after a look at an existing pod that claims the PA |
| BindTheorems.ResetClearsMarks | pkg/controller/portallocation_controller.go:1507-1515 | the write that ends a release leaves every serverStatus empty |
| BindSafety.StepKeepsInv | pkg/controller/portallocation_controller.go:861-1674 | every step of every worker and of the environment keeps the protocol invariant |
| BindSafety.RunsAreSafe | pkg/controller/portallocation_controller.go:861-1674 | the invariant holds at the end of every legal run |
| BindSafety.StepRely | pkg/controller/portallocation_controller.go:1660-1674 | all that another worker or the environment may do to a PA's slot, its pods and its cloud ServerGroups |
| BindHandlers.Controller.HandleAvailable | pkg/controller/portallocation_controller.go:861-973 | Binding only with the pod claimed; unless a write of the PA is refused or the reserved pod cannot be read, a visit leaves no reservation without the pod's claim on this PA, so a loser ends with boundPod empty, whoever else acts; an undisturbed visit binds an existing pod of the pool at its address, unclaimed, its own or with a stale claim, and stays Available only when there is none |
| BindHandlers.Controller.FindCandidate | pkg/controller/portallocation_controller.go:867-908 | undisturbed, a candidate is found if and only if one exists, and it is the listed version of an existing pod of the pool with its address |
| BindHandlers.Controller.ReserveAndClaim | pkg/controller/portallocation_controller.go:910-972 | PA write, pod write, phase; after a refused pod write the reservation is gone, unless the PA write that undoes it is refused too; undisturbed it ends in Binding with exactly the chosen pod and address |
| BindHandlers.Controller.AvailableResumeBind | pkg/controller/portallocation_controller.go:978-1043 | finishes the bind for an own or absent claim, waits for an address, rolls back otherwise; a failed read keeps the reservation and is reported, as is a refused write of the PA |
| BindHandlers.Controller.ResolveClaim | pkg/controller/portallocation_controller.go:979-1013 | the claim counts as confirmed exactly when the pod exists and its claim was absent or the PA's own; a failed read decides nothing |
| BindHandlers.Controller.ClaimAgain | pkg/controller/portallocation_controller.go:993-1007 | the repeated pod write succeeds only on the version read; any refusal leads to the rollback |
| BindHandlers.Controller.HandleBinding | pkg/controller/portallocation_controller.go:1045-1186 | leaves Binding only for Bound with every ServerGroup serving, or for Releasing with the pod gone; undisturbed each serverStatus moves on by one and the PA is Bound once all are, pods and ports untouched |
| BindHandlers.Controller.BindingCompletes | pkg/controller/portallocation_controller.go:1045-1186 | two undisturbed visits bring a PA whose pod lives to Bound, with every ServerGroup serving it |
| BindHandlers.Controller.AttachAll | pkg/controller/portallocation_controller.go:1092-1172 | the allBound flag is true only with every status "Bound"; undisturbed every status advances |
| BindHandlers.Controller.AddOne | pkg/controller/portallocation_controller.go:1126-1166 | an accepted or duplicate add is recorded as "Adding" for this ServerGroup alone |
| BindHandlers.Controller.PollOne | pkg/controller/portallocation_controller.go:1102-1124 | the answer of the List is recorded for this ServerGroup alone; undisturbed an added server is found |
| BindHandlers.Controller.RecordSeen | pkg/controller/portallocation_controller.go:1112-1124 | the patch that follows a List touches only the status of its own ServerGroup, or is refused and changes nothing |
| BindHandlers.Controller.BecomeBound | pkg/controller/portallocation_controller.go:1174-1181 | the status write enters Bound with every ServerGroup serving |
| BindHandlers.Controller.HandleBound | pkg/controller/portallocation_controller.go:1188-1217 | a gone or withdrawn pod leads to Releasing, a disabled one is detached, otherwise nothing changes |
| BindHandlers.Controller.HandleDisable | pkg/controller/portallocation_controller.go:1373-1460 | Disabled is entered only with every ServerGroup empty; an undisturbed visit leaves only backends with an accepted removal and enters Disabled once the groups are empty |
| BindHandlers.Controller.DisableCompletes | pkg/controller/portallocation_controller.go:1188-1460 | disabling terminates: one undisturbed visit, the cloud finishing what it accepted, and a second visit reach Disabled with every ServerGroup empty |
| BindHandlers.Controller.DetachOne | pkg/controller/portallocation_controller.go:1380-1441 | one ServerGroup: a requested removal is polled, any other status leads to a removal call |
| BindHandlers.Controller.DetachAll | pkg/controller/portallocation_controller.go:1375-1445 | the allClear flag is true only with every status empty; undisturbed no status stays "Adding" or "Bound" |
| BindHandlers.Controller.RemoveOne | pkg/controller/portallocation_controller.go:1398-1441 | the removal of the bound backend is recorded as "Removing", or as done when the server is absent; a refused patch leaves the status as it was |
| BindHandlers.Controller.RecordRemoval | pkg/controller/portallocation_controller.go:1412-1440 | the patch that follows a removal call touches only the status of its own ServerGroup, or is refused and changes nothing |
| BindHandlers.Controller.HandleDisabled | pkg/controller/portallocation_controller.go:1344-1371 | a gone pod leads to Releasing, an enabled one back to Binding, otherwise nothing changes |
| BindHandlers.Controller.HandleReleasing | pkg/controller/portallocation_controller.go:1224-1342 | Available is reached only with spec, statuses and ServerGroups all cleared and the claim gone; progress is never undone; an undisturbed visit finishes or asks every listed backend to leave, lowering the rank if any was not asked yet, and finishes once the groups are empty |
| BindHandlers.Controller.ReleaseCompletes | pkg/controller/portallocation_controller.go:1224-1342 | release terminates: from any Releasing PA one undisturbed visit, the cloud finishing what it accepted, and a second visit reach Available |
| BindHandlers.Controller.BecomeAvailable | pkg/controller/portallocation_controller.go:1507-1520 | the last status write enters Available with every ServerGroup empty; refused, it leaves Releasing with nothing bound |
| BindHandlers.Controller.DrainAll | pkg/controller/portallocation_controller.go:1243-1311 | allClear only with every status empty; undisturbed every listed server of every ServerGroup has an accepted removal |
| BindHandlers.Controller.DrainOne | pkg/controller/portallocation_controller.go:1256-1276 | one ServerGroup is recorded as empty or all its listed servers are asked to leave |
| BindHandlers.Controller.RequestRemovals | pkg/controller/portallocation_controller.go:1278-1310 | one removal call for each listed backend; nothing else of the PA changes |
| BindHandlers.Controller.ClearPodClaim | pkg/controller/portallocation_controller.go:1660-1674 | afterwards the bound pod, if alive, no longer names this PA |
| BindHandlers.Controller.ResetToAvailable | pkg/controller/portallocation_controller.go:1481-1524 | claim, spec, then status; a refused write leaves Releasing, which a later run repairs |
| BindHandlers.Controller.Commit | pkg/controller/portallocation_controller.go:913-918 | a versioned write is accepted only on the version read, and otherwise leaves the stored object alone |
| BindHandlers.Controller.Interfere | pkg/controller/portallocation_controller.go:861-1674 | whatever runs between two calls of a worker stays within the rely relation |
| BindHandlers.Controller.Reconcile | pkg/controller/portallocation_controller.go:57-165 | the phase changes one reconcile can make, with the state of the ServerGroups after each |
| ProvisionTheorems.ListenerRecordsAccurate | pkg/controller/portallocation_controller.go:510-684 | whatever mix of creation, lost patch, port conflict, adoption and re-creation: the recorded listener is on the NLB of its lane and group, at the planned port, and forwards to the PA's own ServerGroup for that port |
| ProvisionTheorems.GroupsCreatedOnce | pkg/controller/portallocation_controller.go:433-468 | a ServerGroup exists in the cloud for a PA's port exactly when it is the recorded one |
| ProvisionTheorems.OneGroupPerPort | pkg/controller/portallocation_controller.go:833-839 | at most one ServerGroup exists per PA and port, however many patches were lost |
| ProvisionTheorems.GroupsDisjoint | pkg/controller/portallocation_controller.go:433-468 | no two PAs, and no two ports of one, share a ServerGroup |
| ProvisionTheorems.ListenersDisjoint | pkg/controller/portallocation_controller.go:517-594 | no two entries of any PAs record the same listener |
| ProvisionTheorems.ListenersAfterGroups | pkg/controller/portallocation_controller.go:500-510 | no listener exists before every ServerGroup of its PA is Active |
| ProvisionTheorems.RecordsCovered | pkg/controller/portallocation_controller.go:492-497 | every record is Pending without an ID or later with one: the default branches of both switches are dead |
| ProvisionTheorems.AvailableIsComplete | pkg/controller/portallocation_controller.go:694-768 | an Available PA has all ServerGroups Active, all listeners Running, an address for every lane, and a spec with exactly the recorded IDs |
| ProvisionTheorems.FilledIsAddressed | pkg/controller/portallocation_controller.go:711-724 | along every run a spec is filled only once the NLB of every lane of the slot has its address |
| ProvisionTheorems.ListenersOnReadyNlbs | pkg/controller/portallocation_controller.go:518-528 | listeners are only ever created on NLBs that have their load balancer |
| ProvisionTheorems.CreateAnswers | pkg/controller/portallocation_controller.go:536-543 | before any listener runs a repeated create call gets the first answer back; once one runs, the first re-creation of an entry gets a new listener |
| ProvisionTheorems.RecordsOnlyGrow | pkg/controller/portallocation_controller.go:429-692 | along every run a recorded ServerGroup ID never changes, a Running listener keeps its record, an Available PA stays as it is |
| ProvisionSafety.RunsAreSafe | pkg/controller/portallocation_controller.go:366-768 | the provisioning invariant holds in every reachable state |
| ProvisionSafety.StepKeepsInv | pkg/controller/portallocation_controller.go:366-768 | every call, lost patch and vanished listener keeps it |
| ProvisionSafety.FoundIsOwn | pkg/controller/portallocation_controller.go:564-577 | adoption by port never takes another slot's listener: what is found at an entry's place was created for that entry |
| ProvisionSafety.PlacesApart | pkg/controller/portallocation_controller.go:386-412 | no two entries of any two slots share an NLB and port |
| ProvisionSafety.FirstUse | pkg/controller/portallocation_controller.go:536-543 | a listener entry first uses the plain token, unless a listener of the PA already runs |
| ProvisionLiveness.CompletableIff | pkg/controller/portallocation_controller.go:536-543 | from a reachable state some run makes the PA Available if and only if no entry is doomed: not Running or just seen running, nothing live at its place, and its re-create token used |
| ProvisionLiveness.Completes | pkg/controller/portallocation_controller.go:366-768 | such a run is built from every reachable state without a doomed entry |
| ProvisionLiveness.DoomedForever | pkg/controller/portallocation_controller.go:645-676 | a doomed entry stays doomed along every run, and its PA never becomes Available |
| ProvisionLiveness.SpentMeansReplay | pkg/controller/portallocation_controller.go:536-543 | once the re-create token is used, every create call for the entry repeats an old answer |
| ProvisionLiveness.LosingTwiceSticks | pkg/controller/portallocation_controller.go:645-676 | a reachable state that no run completes: a listener and its replacement both vanish |
| ProvisionLiveness.LossFreeCompletes | pkg/controller/portallocation_controller.go:429-692 | as long as no listener vanishes, no lost patch, conflict or restart keeps a PA from completing |
| ProvisionHandlers.Provisioner.HandleProvisioning | pkg/controller/portallocation_controller.go:366-768 | records only move forward; a fault-free visit climbs at least one of four levels; on a complete PA no create call is issued and no record changes |
| ProvisionHandlers.Provisioner.ProvisioningCompletes | pkg/controller/portallocation_controller.go:366-768 | at most four fault-free visits, with any steps of others in between, make the PA Available |
| ProvisionHandlers.Provisioner.EnsureServerGroups | pkg/controller/portallocation_controller.go:429-504 | phase 2 is entered only with all ServerGroups Active; fault-free each moves on by one phase; Active ones are left alone without a call |
| ProvisionHandlers.Provisioner.CreateSg | pkg/controller/portallocation_controller.go:433-468 | the recorded ID is the one the cloud keeps for the token, whether it is new or repeated |
| ProvisionHandlers.Provisioner.RecordSg | pkg/controller/portallocation_controller.go:461-468 | the ServerGroup in hand is recorded as Creating for its port alone, or nothing changes |
| ProvisionHandlers.Provisioner.RecordActive | pkg/controller/portallocation_controller.go:470-490 | a ServerGroup polled as available becomes Active under its ID, or nothing changes |
| ProvisionHandlers.Provisioner.EnsureListeners | pkg/controller/portallocation_controller.go:508-697 | phase 3 is entered only with all listeners Running; fault-free each moves on by one phase; Running ones are left alone without a call |
| ProvisionHandlers.Provisioner.CreateLsn | pkg/controller/portallocation_controller.go:517-592 | the Pending branch records one listener for its entry and changes no other |
| ProvisionHandlers.Provisioner.CallCreate | pkg/controller/portallocation_controller.go:536-581 | the answer is the token's listener, a port conflict while something listens at the place, or a failure |
| ProvisionHandlers.Provisioner.AdoptLsn | pkg/controller/portallocation_controller.go:564-577 | after a port conflict the listener at the place is taken, if the List finds it |
| ProvisionHandlers.Provisioner.PollLsn | pkg/controller/portallocation_controller.go:594-684 | each answer of the cloud settles the entry: running, forgotten, found by port or re-created, or unchanged; no other entry changes |
| ProvisionHandlers.Provisioner.PollCloud | pkg/controller/portallocation_controller.go:594-614 | "running" is answered only for a listener that exists; fault-free, exactly then |
| ProvisionHandlers.Provisioner.RecordRunning | pkg/controller/portallocation_controller.go:677-684 | a listener polled as running becomes Running under its ID, or nothing changes, even if it vanishes before the patch |
| ProvisionHandlers.Provisioner.RecordLsn | pkg/controller/portallocation_controller.go:587-592 | the listener in hand is recorded as Creating for its entry alone, or nothing changes |
| ProvisionHandlers.Provisioner.FindAt | pkg/controller/portallocation_controller.go:567 | the listener found is live at the place asked for; undisturbed it is found whenever there is one |
| ProvisionHandlers.Provisioner.EnsureResources | pkg/controller/portallocation_controller.go:429-768 | the three phases in order; a complete PA sees no create call |
| ProvisionHandlers.Provisioner.RecreateLsn | pkg/controller/portallocation_controller.go:617-676 | the entry ends Creating again, with the ID found by port or of the repeated create call |
| ProvisionHandlers.Provisioner.CreateAgain | pkg/controller/portallocation_controller.go:645-671 | the repeated create call yields a listener for its entry, or the visit ends; a port conflict is a plain failure here |
| ProvisionHandlers.Provisioner.FillAndPromote | pkg/controller/portallocation_controller.go:699-770 | only spec and phase change; Available only with the spec filled from the records |
| ProvisionHandlers.Climbs | pkg/controller/portallocation_controller.go:429-770 | a visit that advances every record raises the level of the PA |
| PortPlan.PlanInjective | pkg/controller/portallocation_controller.go:386-412 | no two (slot, port index) pairs share a listener port on one NLB group |
| PortPlan.PlanFills | pkg/controller/portallocation_controller.go:107-131 | every port in [min, min + slotsPerNLB * ports) of a group belongs to a slot of that group |
| PortPlan.PlanFitsIff | pkg/controller/portallocation_controller.go:119-131 | the ports of all slots stay within [min, max] if and only if the range covers slotsPerNLB * ports |
| PortPlan.GroupPortsExact | pkg/controller/portallocation_controller.go:119-131 | a port is used by some slot of a group exactly when it is one of the slotsPerNLB * ports values from min on |
| PortPlan.ListenerLimit | README.md:263-265 | an NLB carries slotsPerNLB * ports listeners, at most 500 exactly when that product is at most 500 |
| Layout.InitListeners | pkg/controller/portallocation_controller.go:401-413 | the nested loops build the array whose entry p * lanes + l is port p on lane l at the planned port |
| Layout.CellAt | pkg/controller/portallocation_controller.go:730-732 | reading position p * lanes + l gives port p on lane l, whatever IDs were filled in since |
| Layout.IndexDecodes | pkg/controller/portallocation_controller.go:510-514 | division and remainder by the lane count undo the index |
| Layout.DecodeIndexes | pkg/controller/portallocation_controller.go:510-514 | every array position is the index of its quotient and remainder |
| Layout.AssembleEndpoints | pkg/controller/portallocation_controller.go:710-743 | the endpoints are the transpose of the listener array with each lane's address; none without every address |
| Layout.EndpointsShowTheirListeners | pkg/controller/portallocation_controller.go:728-742 | an endpoint entry shows the ID and port of the one listener with its port name and its endpoint's lane |
| Layout.EveryListenerIsShown | pkg/controller/portallocation_controller.go:728-742 | every listener is shown by the entry of its port in the endpoint of its lane, with the pool's protocol and container port |
| Layout.CellOf | pkg/controller/portallocation_controller.go:510-514 | every listener of the array belongs to one port and one lane |
| Layout.LookupContainerPort | pkg/controller/portallocation_controller.go:1622-1637 | the first usable entry of the first lane that has one; 0 exactly when no lane has one |
| Layout.ContainerPortRoundTrip | pkg/controller/portallocation_controller.go:1622-1637 | looking a pool port up in assembled endpoints yields the pool's container port or the listener port, whichever lane is met first |
| Layout.BuildExternalAddresses | pkg/controller/portallocation_controller.go:1639-1656 | the published addresses preserve lanes, addresses, names, ports and protocols of the endpoints in order |
| PaTeardown.Finalizer.HandleDeletion | pkg/controller/portallocation_controller.go:172-289 | no backend but the binding's and no claim but the PA's own is touched; only tracked ServerGroups are deleted, only after every tracked listener is gone; the finalizer goes only when all that was ever tracked is gone, also across lost status writes; undisturbed the stored lists keep nothing dealt with, and it finishes once nothing is held |
| PaTeardown.Finalizer.Unbind | pkg/controller/portallocation_controller.go:188-198 | removes at most the binding's own backends and the PA's own claim, then clears the binding; undisturbed all three happen |
| PaTeardown.Finalizer.RemoveServers | pkg/controller/portallocation_controller.go:1546-1585 | undisturbed no backend with the bound address and the container port of its ServerGroup is left; never is any other backend removed; throttling skips one group, another failure ends the loop |
| PaTeardown.Finalizer.ClearPodClaim | pkg/controller/portallocation_controller.go:1660-1674 | a claim is dropped only from the bound pod and only if it names this PA |
| PaTeardown.Finalizer.CleanUp | pkg/controller/portallocation_controller.go:200-288 | ServerGroups are deleted only after every tracked listener is gone, the finalizer only after every tracked ServerGroup |
| PaTeardown.Finalizer.AwaitListeners | pkg/controller/portallocation_controller.go:200-236 | every way out leaves a suffix of the list; it is empty only with every tracked listener gone |
| PaTeardown.Finalizer.DeleteGroups | pkg/controller/portallocation_controller.go:241-277 | every way out leaves a suffix of the list whose dropped part is deleted; nothing untracked is deleted |
| PaTeardown.Finalizer.DropListener | pkg/controller/portallocation_controller.go:213-231 | a listener confirmed absent is dropped and, if it had an ID, the status is saved |
| PaTeardown.Finalizer.DropGroup | pkg/controller/portallocation_controller.go:252-276 | a ServerGroup that is gone is dropped and, if it had an ID, the status is saved |
| PaTeardown.Pop | pkg/controller/portallocation_controller.go:205-236 | dropping a confirmed head keeps the rest a suffix whose dropped part is gone |
| PoolGrowth.DesiredIsLeast | pkg/controller/nlbpool_controller.go:237-252 | when headroom is short the result is the least group count, not below the current one, that covers bound slots plus headroom |
| PoolGrowth.DesiredBounded | pkg/controller/nlbpool_controller.go:237-252 | the result lies between the current count and the larger of it and ceil(bound / slotsPerNLB) + minAvailableNLBs, or one group without headroom |
| PoolGrowth.EnoughAvailableKeeps | pkg/controller/nlbpool_controller.go:237-252 | with enough slots available nothing more is wanted |
| PoolGrowth.CurrentIsComplete | pkg/controller/nlbpool_controller.go:237-252 | the current count is the number of complete groups, at least one |
| PoolGrowth.ExpandsWhenShortIff | README.md:273 | the documented rule "expand when available falls short" holds exactly when availability suffices or bound slots plus headroom exceed the current capacity |
| PoolGrowth.DisabledSlotsStarve | README.md:273 | a reachable pool with all slots disabled has nothing available and does not expand |
| PoolGrowth.ZeroHeadroomLocks | README.md:216 | minAvailableNLBs = 0 keeps the current size, at least one group |
| PoolGrowth.HeadroomRestored | pkg/controller/nlbpool_controller.go:237-252 | after a completed expansion the headroom is back once every slot is available or bound, and stays short while a group's worth of slots is in neither count |
| PoolGrowth.NoOverflow | pkg/controller/nlbpool_controller.go:237-252 | the wrapping int32 code computes the exact result while bound + slotsPerNLB * minAvailableNLBs + slotsPerNLB fits in 31 bits |
| PoolGrowth.BoundedGrowth | pkg/controller/nlbpool_controller.go:703-753 | over all runs from an empty pool the groups never exceed ceil(peak bound / slotsPerNLB) + minAvailableNLBs, or one without headroom |
| PoolGrowth.BoundedGrowthFrom | pkg/controller/nlbpool_controller.go:703-753 | the slot count never shrinks along any run and keeps the bound, wherever creation stops |
| PoolGrowth.NoRunawayExpansionIff | pkg/controller/nlbpool_controller.go:159-189 | reconciles that keep seeing one bound count add nothing, however availability moves, if and only if the pool already has the slots that count and the headroom need in complete groups |
| PoolGrowth.GrowsAtMostToEnough | pkg/controller/nlbpool_controller.go:159-189 | however often a pool is reconciled with an unchanged bound count, it grows at most to that size |
| PoolGrowth.CompletionSettles | pkg/controller/nlbpool_controller.go:703-753 | after a first reconcile that found the headroom short and finished slot creation, later ones with the same bound count add nothing |
| PoolGrowth.OneMoreReconcile | pkg/controller/nlbpool_controller.go:237-252 | a pool below that size gains a slot in some reconcile with the same bound count |
| PoolGrowth.HalfCreatedGroupGrows | pkg/controller/nlbpool_controller.go:726-752 | a reachable pool whose second group is half created: one reconcile adds nothing, the next with the same bound count adds two slots |
| PoolOrchestrator.PoolController.Reconcile | pkg/controller/nlbpool_controller.go:159-195 | slots stay a prefix with their infrastructure in place whatever fails; the pool grows only to the size computed from one sync and stays within the limit of the largest bound count ever synced; undisturbed it reaches that size exactly when the NLBs are Active |
| PoolOrchestrator.PoolController.SlotsBounded | pkg/controller/nlbpool_controller.go:703-753 | over the whole life of a pool its handlers keep the slots within the limit of the largest bound count ever synced |
| PoolOrchestrator.PoolController.GrowthSince | pkg/controller/nlbpool_controller.go:159-189 | while every reconcile since a given moment saw one bound count, the pool grew at most to what it needs |
| PoolOrchestrator.PoolController.EnsureResources | pkg/controller/nlbpool_controller.go:163-189 | past the first sync: NLBs, then slots, then the counters again, each only if the step before succeeded |
| PoolOrchestrator.PoolController.EnsureGroup | pkg/controller/nlbpool_controller.go:608-693 | undisturbed, a group is ready exactly when the NLB of every lane exists and is Active |
| PoolOrchestrator.PoolController.FixDrift | pkg/controller/nlbpool_controller.go:671-688 | the zone mappings of an existing NLB become the allocation IDs just read, or nothing changes |
| PoolOrchestrator.PoolController.CreateSlot | pkg/controller/nlbpool_controller.go:727-747 | one PA for the next slot, in phase Provisioning; the others are left alone |
| PoolOrchestrator.CountsAdded | pkg/controller/nlbpool_controller.go:756-780 | a new slot changes the total counter alone |
| PoolOrchestrator.PoolController.PerLane | pkg/controller/nlbpool_controller.go:781-787 | the least positive number of groups that holds all slots |
| PoolOrchestrator.PoolController.EnsureSlotResources | pkg/controller/nlbpool_controller.go:703-753 | slots are created in order up to the wanted number, stopping at the first refusal; ready exactly when they existed before and none is provisioning |
| PoolOrchestrator.PoolController.CreateSlots | pkg/controller/nlbpool_controller.go:726-752 | existing slots are left alone, new ones extend the prefix |
| PoolOrchestrator.PoolController.EnsureNLBsAndEIPs | pkg/controller/nlbpool_controller.go:605-696 | ready only with every NLB of every wanted group in place; undisturbed, ready exactly when all of them exist and are Active |
| PoolOrchestrator.PoolController.EnsureNlb | pkg/controller/nlbpool_controller.go:650-692 | an NLB is created only with the allocation IDs of all its zone EIPs, and its zone mappings follow them afterwards; ready only when it is Active |
| PoolOrchestrator.PoolController.EnsureEips | pkg/controller/nlbpool_controller.go:616-648 | undisturbed, ready exactly with an allocation ID for every zone; afterwards every zone has its EIP |
| PoolOrchestrator.PoolController.EnsureEip | pkg/controller/nlbpool_controller.go:618-643 | a missing EIP is created without an ID; an existing one is read and left alone |
| PoolOrchestrator.PoolController.SyncPoolStatus | pkg/controller/nlbpool_controller.go:756-796 | the counters are the numbers of all, Available and Bound slots, or unchanged when the List fails; nlbsPerLane is the least positive number of groups that holds them; a refused write leaves the stored status behind |
| PoolOrchestrator.PoolController.SlotHasInfrastructure | pkg/controller/nlbpool_controller.go:163-179 | every existing slot has the NLB of its group in every lane, each with a mapping for every zone and every zone EIP with its allocation ID |
| PoolOrchestrator.CountsFit | pkg/controller/nlbpool_controller.go:764-780 | total, available and bound are the numbers of all slots, of the Available and of the Bound ones |
| DeletionSafety.CascadeOrder | pkg/controller/nlbpool_controller.go:59-126 | whenever a PA of the pool is being deleted, no cloud NLB and no listener of the pool is left |
| DeletionSafety.CascadeOrderIff | pkg/controller/nlbpool_controller.go:531-554 | this order holds over all runs if and only if no NLB receives its ID after the IDs were collected |
| DeletionSafety.LateIdBreaks | pkg/controller/nlbpool_controller.go:537 | a run with a late ID in which a PA is deleted while its listener is still there |
| DeletionSafety.IdsPersistedBeforeDeletion | pkg/controller/nlbpool_controller.go:548-567 | no NLB CR with a live cloud NLB is deleted before its ID is stored, whatever crashes happen |
| DeletionSafety.DeleteGroupNeverInUse | pkg/controller/portallocation_controller.go:250-263 | the finalizer's DeleteServerGroup is never refused with ResourceInUse |
| DeletionSafety.NoDanglingListener | pkg/controller/portallocation_controller.go:257-263 | in no run, under no guarantees, does a listener forward to a ServerGroup that is gone |
| DeletionSafety.ListenersDropWhenGone | pkg/controller/portallocation_controller.go:205-236 | a PA's listeners are dropped from the front, each only when the cloud has none of that ID |
| DeletionSafety.GroupsGoAfterListeners | pkg/controller/portallocation_controller.go:241-277 | a PA's ServerGroups go from the front, only when it tracks no listener any more |
| DeletionSafety.ForeignEipsAreLeft | pkg/controller/nlbpool_controller.go:518-529 | in no run, under no guarantees, is an EIP of another owner deleted |
| DeletionSafety.NothingLeftBehind | pkg/controller/nlbpool_controller.go:118-136 | a removed pool finalizer means no CR of any kind, PA, NLB, listener or ServerGroup is left |
| DeletionSafety.NothingLeftBehindIff | pkg/controller/nlbpool_controller.go:573-598 | this holds over all runs if and only if IDs settle before collection, the Lists for children succeed, and created ServerGroups are recorded |
| DeletionSafety.RunsAreSafe | pkg/controller/nlbpool_controller.go:59-137 | the invariant of the cascade holds at the end of every run of pool worker, finalizers, operator and cloud |
| DeletionHandlers.PoolController.ReconcileDeletion | pkg/controller/nlbpool_controller.go:70-138 | the finalizer goes only when nothing is left; an undisturbed reconcile deletes every NLB and other child CR, every PA once the NLBs are gone, and finishes once those are gone |
| DeletionHandlers.PoolController.Phases | pkg/controller/nlbpool_controller.go:103-136 | the three phases in order, each only after the one before is complete |
| DeletionHandlers.PoolController.DeleteInfrastructure | pkg/controller/nlbpool_controller.go:478-570 | the other child CRs first; on success every existing cloud NLB is recorded and every listed CR deleted |
| DeletionHandlers.PoolController.SweepChildren | pkg/controller/nlbpool_controller.go:483-529 | undisturbed, every Listener CR, ServerGroup CR and own EIP is marked for deletion, and EIPs of another owner stay exactly as they are |
| DeletionHandlers.PoolController.SweepKind | pkg/controller/nlbpool_controller.go:513-529 | undisturbed, exactly the children of one kind are marked, of the EIPs only those the pool controls; nothing else changes |
| DeletionHandlers.PoolController.DeleteChildren | pkg/controller/nlbpool_controller.go:518-529 | exactly the listed children are marked for deletion |
| DeletionHandlers.PoolController.DeleteNlbs | pkg/controller/nlbpool_controller.go:531-567 | the IDs are recorded before any NLB CR is deleted; a refused ID write deletes no NLB CR |
| DeletionHandlers.PoolController.DeleteCRs | pkg/controller/nlbpool_controller.go:556-567 | exactly the listed CRs are marked for deletion |
| DeletionHandlers.PoolController.HasCloudNLBs | pkg/controller/nlbpool_controller.go:448-472 | "none" is answered only with every NLB and every listener gone; any failed answer counts as "still there" |
| DeletionHandlers.PoolController.DeletePortAllocations | pkg/controller/nlbpool_controller.go:412-431 | every listed PA is marked for deletion, nothing else changes |
| DeletionHandlers.PoolController.DeleteAllocs | pkg/controller/nlbpool_controller.go:421-429 | exactly the listed PAs are marked for deletion |
| DeletionHandlers.PoolController.Finish | pkg/controller/nlbpool_controller.go:124-136 | undisturbed the finalizer goes exactly when no PA and no CR of any kind is left |
| Names.NlbNamesInjective | pkg/controller/nlbpool_controller.go:256-258 | NLB names tell (lane, group) apart, whatever dashes and digits lane names contain |
| Names.EipNamesInjective | pkg/controller/nlbpool_controller.go:261-263 | EIP names tell (lane, group, zone) apart |
| Names.PaNamesInjective | pkg/controller/nlbpool_controller.go:728 | PA names tell slots apart |
| Names.NameFormats | pkg/controller/nlbpool_controller.go:256-263 | what the three names look like, on examples |
| Names.SlotLabelRoundTrip | pkg/controller/portallocation_controller.go:96-100 | the slot label parses back to its slot |

## Left out

- Watches, event routing, labels, events, messages, requeue delays, release age, backoff and stuck alarms: no effect on what is proved.
- The text of cloud errors: replies are accepted, throttled or failed; not-found, duplicate and port conflict are separate branches.
- The hash inside client tokens: a token stands for the PA and the parts it is made of.
- PA deletion together with binding: the binding theorems speak about PAs that are not being deleted; the finalizer drops the claim before the ServerGroups are gone.
- A PA deleted and created again in the same slot: provisioning identifies a PA with its slot.
- `removeServers` inside `resetToAvailable`: a step of the transition system, but no call of the handler; the ServerGroups are empty there.
- The comparison of pool names on pods: one flag says that the pod belongs to the pool of the PAs; several pools in one namespace are not modelled.
- A ServerGroup without an ID in `handleBinding`, `handleReleasing` and `handleDisable`: PAs enter the binding model with all IDs, as `ProvisionTheorems.AvailableIsComplete` proves for the end of provisioning.
- BindHandlers.Controller.RequestRemovals: the order of calls inside one ServerGroup is arbitrary, and "already being removed" counts as accepted.
- The deletion-protection and dry-run gates: they return before anything happens.
- PoolOrchestrator.PoolController.SyncPoolStatus: phase, message and the unused per-lane list of the status are not modelled.
- DeletionSafety.NothingLeftBehind: what the operators of EIPs and of the older CRs hold in the cloud; their CRs are modelled.
- DeletionHandlers.PoolController.Finish: the five Lists of the check for children are one step; nothing is created any more at that point.
- PaTeardown.Finalizer.Unbind: a backend counts as gone when its removal was accepted.
- ProvisionHandlers.Provisioner.FillAndPromote: the spec is kept as the lists of IDs in the order of the status arrays; their arrangement into endpoints is `Layout.AssembleEndpoints`.
- Names.SlotLabelRoundTrip: the range check of strconv.Atoi and the conversion to int32 are not modelled.
- `deleteAllChildren`, `cleanupOrphanListeners`, `acquireNLBSlot`, `releaseNLBSlot`, `lookupPortForSG`, `buildServerGroupCR`, `buildListenerCR`, `validateLaneConfig`: no caller, or no effect.
- The kruise-game plugin, the NLB and EIP operators, the rate limiter and the cloud SDK: they appear as environment steps only.

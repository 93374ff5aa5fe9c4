# Onload operator: a verified model of the reconcile loop

The Onload operator installs and upgrades the Onload kernel modules and device plugin on the nodes of a Kubernetes
cluster. Its controller keeps no state of its own. Each call of `Reconcile` reads the cluster, performs the first phase
that has something to do, and returns. Everything that an upgrade promises follows from the order of the phases, the
guards on single writes, and what the rest of the cluster may do between two calls: one node at a time, in name order,
drained before the module is unloaded, and never with new modules under old userland. This project models
`controllers/onload_controller.go` and proves those promises for all inputs, all reachable states and all runs.

## How the model is built

| module | content |
|---|---|
| `Ordering`, `Wrappers` | the order on node names; `Option` |
| `Kubernetes` | nodes, pods, Modules, DaemonSets, label selection, and the effect `Apply` of one accepted write |
| `OnloadTypes` | the custom resource, every derived name and label, the kernel mappers, the objects the operator builds |
| `Outcomes` | how a call or a phase ends, and the plan of writes it makes |
| `Planning` | for each Go function, the writes it makes against a snapshot, in order, and how it returns |
| `Controller` | the reconciler itself: classes `ApiServer` and `OnloadReconciler`, one method for each Go function or closure, with the loops, `changesMade` flags and early returns of the source |
| `Machine`, `Refinement` | the guard of each write, and the proof that a Reconcile is a run of guarded writes from a single phase |
| `Agreement`, `Relabelling` | what every Reconcile keeps, however often the resource is edited |
| `Upgrade`, `UpgradeRuns`, `UpgradeTheorems` | the invariant of a rolling upgrade, whole upgrade runs, and what they guarantee |
| `Convergence`, `Measure`, `ExactCount`, `BlockedRuns` | when a Reconcile is quiet, when it waits, what it gains, and how long an upgrade takes, blocked or not |
| `Concerns`, `Spelled` | a reference definition of Reconcile without phases or loops; names, fields and constants written out |
| `Deletion`, `Isolation` | clean-up after deletion, independence of two resources |
| `Objects`, `FreshInstall` | generated objects and name lengths; an upgrade ends in what a fresh install creates |
| `Limits`, `Leader`, `ReachableLimits` | exact conditions for what a Reconcile does to a node, the limits they show, and upgrade runs that reach them |

The parts fit together as follows.

* **Methods follow plans.** Every call on `ApiServer` may fail, and a write that fails may or may not have taken effect.
  The API server records each failed call. Every method of `OnloadReconciler` ends with its writes a prefix of the plan
  (`Follows`) and says how many calls have failed since it began (`Reported`): one if it returns the error of an API
  call, one if the List of the pods to evict failed, and otherwise none, in which case all of the plan is done. On a
  healthy API server no method records a failure. `Controller.OnloadReconciler.Reconcile` ties the final cluster to
  `Agreement.ReconciledTo`, the step relation that all statements about runs are made of.
* **Plans are guarded.** `Refinement.ReconcileIsGuarded` shows that every write meets `Machine.Guarded` in the state in
  which it is made. An invariant is then proved write by write, so it survives a Reconcile cut short anywhere.
* **Plans are what is due.** `Concerns.WritesAreDue` compares the plan of a Reconcile with a definition that knows no
  phases and no loops: twelve concerns in order, and for the first that is not settled exactly the writes that are due.
* **Runs.** An upgrade run starts converged for the old resource and is driven by an edit of it to another version. It is
  any interleaving of Reconciles, complete or cut short, with steps of the environment.

## What is assumed

* Node names are unique, and so are pods. The selector is compared key by key and does not mention the three label keys
  that the operator itself writes (`Machine.Sane`). The API server stores each resource under its own name
  (`Controller.ApiServer.Valid`).
* The cluster does not move inside a single Reconcile. In an upgrade run it may move arbitrarily between two of them,
  within `UpgradeRuns.Environment`: the selected nodes keep their operator labels, the two Modules and the DaemonSet of
  the resource stay; unselected nodes come and go; pods may stop at any time. A device-plugin pod starts only on a
  selected node with the onload label, from the current DaemonSet template (required affinity and OnDelete strategy,
  `controllers/onload_controller.go:1135-1170`). A pod that requests `amd.com/onload` starts only where a device-plugin
  pod of the resource runs. `ReachableLimits.InstalledIsStart` shows that upgrade starts exist for every resource, every
  edit to another version and every set of nodes.
* In the runs of `Agreement` others may do anything that carries the operator labels of a node along or drops all of
  them: edit the resource, its version and selector included, and add, remove and relabel nodes.
* The List of pods to evict is allowed to fail. The controller logs that and carries on with no pods
  (`controllers/onload_controller.go:661-664`). The parameter `listed` says whether the List succeeded. Only the claims
  about drained pods need it; label and ordering claims hold either way.

## What the proofs show to be limits of the code

* **A node must not join the selector half-cleaned.** Stale clean-up removes the KMM label in one call and the onload
  label in a later one. A node that rejoins in between has an onload label without a KMM label
  (`Agreement.EarlyRejoinDisagrees`). Labels agree throughout a run if and only if every node that joins the selector
  carries the KMM label or none of the three (`Agreement.AgreementIffCleanJoins`), which can be checked on the node
  before it is relabelled.
* **A failed pod List unloads under a user.** A node is next in line when nothing but node upgrades is left to do and no
  outdated node sorts before it (`Machine.NextInLine`). A selected node loses its KMM label if and only if it is next in
  line and drained as far as the operator could see (`Limits.UnloadIffDrained`). After a failed List that is not far enough
  (`Limits.FailedListUnloadsUnderUser`), and from every upgrade start without pods there is a run in which it happens
  (`ReachableLimits.UnloadUnderUserIsReachable`).
* **Pods are looked up without a namespace.** A device-plugin pod or a module pod of a resource of the same name in another
  namespace holds up an upgrade (`Limits.SameNameElsewhereHoldsUp`, `Limits.SameNameModuleHoldsUp`).
* **Dots in namespaces would clash.** Label keys are disjoint exactly when the dotted names differ
  (`Isolation.ShareKeyIffSameQualified`, `Isolation.DottedNamespacesClash`). Kubernetes forbids such namespaces
  (section 2.1 of RFC 1123).
* **Edits that keep the version are ignored.** A changed user image or mapping list reaches existing objects only if the
  version changes as well; `Objects.ModuleUpgradeIsFreshInstall` and `Objects.DaemonSetUpgradeIsFreshInstall` give the
  exact condition.
* **Clean-up does not retry.** After deletion of the resource a failed label patch is logged and skipped while the call
  still succeeds; what is left behind is exactly what failed (`Deletion.CleanIffAllRemoved`).
* **A node counts as upgraded when its labels are back.** `README.md:468-469` speaks of completing a node before moving on.
  The code withdraws a selected node if and only if it is next in line and its onload label is at another version,
  whatever pods run anywhere (`Limits.WithdrawIffNextInLine`). From every upgrade start of two nodes with no pod in the
  way there is a run to a state in which the first node is upgraded without a device-plugin pod and the next call
  withdraws another (`ReachableLimits.NextNodeDoesNotWaitForPlugin`). Out of service means here that the onload label is
  absent.

## Model

| member | source | states |
|---|---|---|
| Controller.OnloadReconciler.Reconcile | controllers/onload_controller.go:59-153 | whatever calls fail, the final cluster is the old one after a prefix of the planned writes; an API error is returned exactly if a call other than the List of pods to evict failed; with no failed call writes and result are those of the plan, and for a missing resource every own label is gone and nothing else has changed |
| Controller.OnloadReconciler.RunPhases | controllers/onload_controller.go:106-152 | the five phases run in order and the first that does not fall through decides writes and result |
| Controller.OnloadReconciler.AddKmmLabelToNode | controllers/onload_controller.go:252-290 | adds a missing label at the version of the resource, skips the SFC label unless the Onload label is current, waits for lingering module pods, and updates the node the SFC step then sees |
| Controller.OnloadReconciler.AddKmmLabelsToNode | controllers/onload_controller.go:292-310 | Onload label first, then the SFC label on the node as just changed |
| Controller.OnloadReconciler.AddMissingKmmLabels | controllers/onload_controller.go:240-315 | the whole labelling loop: writes so far kept when a node makes the call wait or fail, requeue exactly if something changed |
| Controller.OnloadReconciler.AddKmmLabelsToNodes | controllers/onload_controller.go:312-324 | stale clean-up of the Onload key, then of the SFC key, only when nothing was added |
| Controller.OnloadReconciler.RemoveStaleLabels | controllers/onload_controller.go:366-402 | removes the key from each listed node outside the selector, stopping at the first failure |
| Controller.OnloadReconciler.AddMissingOnloadLabels | controllers/onload_controller.go:326-361 | adds the onload label to each selected node at the current KMM version that lacks it |
| Controller.OnloadReconciler.AddOnloadLabelsToNodes | controllers/onload_controller.go:326-364 | additions first, stale clean-up only if there were none |
| Controller.OnloadReconciler.CreateAndAddModule | controllers/onload_controller.go:776-816 | creates a missing Module as specified, leaves an existing one alone |
| Controller.OnloadReconciler.CreateAndAddModules | controllers/onload_controller.go:770-828 | Onload Module always, SFC Module only if used, one creation per call |
| Controller.OnloadReconciler.CreateDevicePluginDaemonSet | controllers/onload_controller.go:882-1192 | creates a missing DaemonSet as specified and requeues |
| Controller.OnloadReconciler.HandleDevicePluginUpdate | controllers/onload_controller.go:426-459 | patches version label and init image together when the label is not current; a missing DaemonSet is an error |
| Controller.OnloadReconciler.PatchOrDeleteModule | controllers/onload_controller.go:499-534 | patch, delete, error or continue as existence and use demand |
| Controller.OnloadReconciler.HandleModuleUpdate | controllers/onload_controller.go:496-543 | Onload Module first, SFC Module only if that fell through |
| Controller.OnloadReconciler.GetNodesToUpgrade | controllers/onload_controller.go:404-424 | the labelled nodes not at the version of the resource, in list order, unless the List failed |
| Controller.OnloadReconciler.HasOnloadRequest | controllers/onload_controller.go:674-680 | the inner loop answers yes if and only if some container, whichever, requests a positive number of `amd.com/onload` |
| Controller.OnloadReconciler.GetPodsUsingOnload | controllers/onload_controller.go:656-684 | the pods on the node with a positive onload request, or none exactly when the List failed |
| Controller.OnloadReconciler.EvictOnloadedPods | controllers/onload_controller.go:686-720 | evicts every user not yet terminating, then waits; falls through only without users |
| Controller.OnloadReconciler.HandleNodeUpdate | controllers/onload_controller.go:545-601 | onload label, device-plugin pod, users, KMM labels: one stage per call in that order |
| Controller.OnloadReconciler.RemoveKmmLabels | controllers/onload_controller.go:583-600 | SFC label before Onload label; a failure between leaves only the SFC label removed |
| Controller.OnloadReconciler.HandleUpdate | controllers/onload_controller.go:605-634 | DaemonSet, Modules, then the alphabetically first outdated node |
| Controller.OnloadReconciler.DeleteLabel | controllers/onload_controller.go:206-220 | a removal is submitted for every node that has the label; those refused are the failures recorded, and without a failure none is left |
| Controller.OnloadReconciler.RemoveFromEach | controllers/onload_controller.go:212-218 | the loop tries every listed node once and goes on after a refusal |
| Controller.OnloadReconciler.DeleteLabels | controllers/onload_controller.go:203-238 | the same over all three keys in sequence, stopping at a failed List |
| Controller.OnloadKernelMapper | controllers/onload_controller.go:724-746 | the append loop copies every build argument in order |
| Controller.KernelMapper | controllers/onload_controller.go:748-760 | the SFC mapper skips entries without SFC section and drops the build |
| Controller.BuildKernelMappings | controllers/onload_controller.go:835-848 | the append loop builds the list of mappings, skipped entries left out |
| Controller.BuildModule | controllers/onload_controller.go:830-877 | the Module of one kind for the resource |
| Controller.FollowsIsReconciled | controllers/onload_controller.go:59-153 | a call that followed its plan is a step of the run relation |
| Kubernetes.First | controllers/onload_controller.go:626-629 | the result is listed and no listed name sorts before it |
| Ordering.BelowIsAlphabetical | controllers/onload_controller.go:627-629 | the order on names is alphabetical: a proper prefix, or the smaller character at the first difference |
| Planning.Outdated | controllers/onload_controller.go:416-421 | exactly the listed nodes not at the version, a missing label reading as empty |
| Planning.OnloadedAmong | controllers/onload_controller.go:673-681 | exactly the listed pods that use Onload |
| Refinement.OnePhasePerCall | controllers/onload_controller.go:106-150 | a Reconcile writes exactly what its first busy phase, of twelve, writes; all earlier phases are idle |
| Refinement.PhasesInOrder | controllers/onload_controller.go:106-150 | the nested early returns amount to one flat ordered list of phases |
| Refinement.UpgradeReachedIffReady | controllers/onload_controller.go:605-633 | node upgrades are reached if and only if labels are complete, nothing is stale and DaemonSet and Modules are current |
| Refinement.NextNodeIsFirstOutdated | controllers/onload_controller.go:404-424 | the node picked is selected, outdated, and no outdated node sorts before it |
| Refinement.KmmLabelsGuarded | controllers/onload_controller.go:292-310 | each addition of the loop is guarded in the state the earlier ones left |
| Refinement.EvictionsGuarded | controllers/onload_controller.go:700-713 | each eviction hits a running user of Onload on the next node in line, its plugin gone |
| Refinement.KmmRemovalsGuarded | controllers/onload_controller.go:583-595 | after the SFC removal the Onload removal still meets its guard |
| Refinement.ReconcileIsGuarded | controllers/onload_controller.go:59-153 | every write of every Reconcile meets its guard in the state in which it is made |
| Agreement.TruncatedIsGuarded | controllers/onload_controller.go:59-153 | so does every write of a Reconcile cut short |
| Agreement.ReconcileKeepsAgreement | controllers/onload_controller.go:263-266 | one Reconcile, cut short anywhere, keeps onload and SFC labels equal to the KMM label |
| Agreement.ReconcileKeepsCoherence | controllers/onload_controller.go:263-266 | and keeps a present KMM label equal to the others on every node, selected or not |
| Agreement.FreeMoveAgreesIff | controllers/onload_controller.go:318-323 | whatever others do in one step, labels still agree if and only if every node that joins has the KMM label or none of the three |
| Agreement.AgreementIffCleanJoins | controllers/onload_controller.go:339-356 | over any run, with any edits of version and selector, any movement of nodes and any failures, labels agree up to a point if and only if no node joined half-cleaned before it |
| Agreement.AgreementAlways | controllers/onload_controller.go:339-356 | label agreement in every state of a run whose joins are clean |
| Agreement.EarlyRejoinDisagrees | controllers/onload_controller.go:318-323 | one clean-up call and a rejoin right after it that may not join and breaks agreement |
| Relabelling.OneKindOfWritePerCall | controllers/onload_controller.go:106-150 | one call only adds labels, only deletes labels, only evicts, or writes one object |
| Relabelling.NoInPlaceRelabel | controllers/onload_controller.go:254-256 | across any Reconcile, cut short or not, labels only come or only go and a label kept keeps its value |
| Relabelling.UnselectedNeverGain | controllers/onload_controller.go:366-402 | unselected nodes gain no label and foreign labels of all nodes are unchanged |
| Upgrade.WriteKeepsUpgrading | controllers/onload_controller.go:545-634 | the upgrade invariant survives every single guarded write |
| Upgrade.MoveKeeps | controllers/onload_controller.go:545-601 | moving one node one stage on keeps name order, agreement and infrastructure first |
| UpgradeRuns.UpgradingAlways | controllers/onload_controller.go:605-634 | the upgrade invariant and new userland hold in every reachable state of every upgrade run |
| UpgradeRuns.WriteKeepsUserland | controllers/onload_controller.go:563-575 | no write lets an old device-plugin pod or a running user onto a node that leaves the old version |
| UpgradeRuns.EnvironmentKeepsPods | controllers/onload_controller.go:1135-1170 | neither does a step of the environment |
| UpgradeTheorems.OneNodeOutOfService | controllers/onload_controller.go:605-634 | at most one selected node lacks its onload label in any reachable state |
| UpgradeTheorems.WhichNodeIsOut | controllers/onload_controller.go:626-633 | that node is the least outdated one or the one just reloaded; lower nodes are finished, higher ones untouched |
| UpgradeTheorems.NameOrder | controllers/onload_controller.go:626-633 | the nodes at the new version are a prefix of the selected nodes in name order |
| UpgradeTheorems.UpgradedNodesRunNewUserland | controllers/onload_controller.go:426-459 | every device-plugin pod on a node at the new version comes from the new user image |
| UpgradeTheorems.DrainedUntilServing | controllers/onload_controller.go:686-720 | with pod Lists succeeding, nothing uses Onload on a node from unloading until its onload label is back |
| UpgradeTheorems.InfrastructureBeforeNodes | controllers/onload_controller.go:605-633 | no node is touched before DaemonSet and Modules carry the target version |
| UpgradeTheorems.InfrastructureStays | controllers/onload_controller.go:605-633 | and they carry it for the rest of the run |
| UpgradeTheorems.DrainBeforeUnload | controllers/onload_controller.go:545-601 | whenever a Reconcile takes the KMM label off a selected node, that node has no onload or SFC label, no device-plugin pod and, if listed, no pod with a container requesting a positive number of `amd.com/onload`, and is next in line |
| UpgradeTheorems.ReloadAfterModulePodsLeft | controllers/onload_controller.go:268-279 | a KMM label is added only once the pods of that module have left, the SFC label only at the current version |
| UpgradeTheorems.UpgradeTouchesOnlySelected | controllers/onload_controller.go:404-424 | although the list is not filtered by the selector, a node being upgraded always matches it |
| UpgradeTheorems.EvictsOnlyNextInLine | controllers/onload_controller.go:686-720 | whenever a Reconcile evicts, it is a running user on the next node in line, withdrawn and without device-plugin pod; nobody elsewhere is evicted |
| UpgradeTheorems.SfcReloadsAtMostOnce | controllers/onload_controller.go:583-595 | over a whole run, failures included, each SFC label goes at most once and comes at most once, and then at the new version |
| Convergence.DefensiveErrorsUnreachable | controllers/onload_controller.go:521-528 | against a consistent snapshot the only error is the name check, for a live resource that fails it |
| Convergence.QuiescentIffConverged | controllers/onload_controller.go:59-153 | an error-free Reconcile is quiet if and only if labels, Modules and DaemonSet are all as the resource demands |
| Convergence.WaitingShowsBlockingPod | controllers/onload_controller.go:274-279 | every timed requeue exhibits a pod in the way of a selected node |
| Measure.NoWorkIffConverged | controllers/onload_controller.go:59-153 | the measure is zero exactly when the cluster is converged |
| Measure.StalePhaseExact | controllers/onload_controller.go:366-402 | a stale phase removes the key from exactly the nodes outside the selector that carry it |
| Measure.TruncatedNeverAddsWork | controllers/onload_controller.go:59-153 | a Reconcile cut short anywhere never raises the measure, from any state |
| Measure.RequeueMakesProgress | controllers/onload_controller.go:59-153 | a Reconcile that requeues strictly lowers the measure, from any state |
| Measure.UnblockedProgress | controllers/onload_controller.go:59-153 | without blocking pods a Reconcile lowers the measure or is quiet |
| Measure.ConvergesFromAnywhere | controllers/onload_controller.go:59-153 | unblocked Reconciles reach convergence from any state within the measure, and stay there |
| Measure.RequeuesAreBounded | controllers/onload_controller.go:59-153 | however calls are cut short or blocked and pods change, the measure bounds the number of completed requeues |
| ExactCount.KmmLoopEffect | controllers/onload_controller.go:292-310 | a completed labelling loop treats exactly the listed nodes |
| ExactCount.OnloadLoopEffect | controllers/onload_controller.go:339-356 | likewise for the onload label |
| ExactCount.UnblockedStep | controllers/onload_controller.go:59-153 | in an upgrade each unblocked Reconcile takes exactly one step off the count, or is quiet |
| ExactCount.ExactUpgradeLength | controllers/onload_controller.go:545-634 | N nodes take exactly 4N+2 writing Reconciles, one more if SFC is used before or after, then none writes |
| ExactCount.UpgradeCompletes | controllers/onload_controller.go:545-634 | with no plugin, module or user pod on the selected nodes, n calls of Reconcile complete the upgrade if and only if n is at least 4N+2, or 4N+3 with SFC |
| BlockedRuns.CallCounts | controllers/onload_controller.go:59-153 | in an upgrade any complete call takes exactly one step if it requeues at once and none if it waits or is quiet, whatever pods are in the way |
| BlockedRuns.EnvironmentKeepsSteps | controllers/onload_controller.go:1135-1170 | no step of the environment adds or takes any |
| BlockedRuns.ConvergedIffAllRequeues | controllers/onload_controller.go:545-634 | in every failure-free upgrade run, blocked or not, the cluster has converged if and only if exactly 4N+2 calls, or 4N+3 with SFC, have requeued at once, and there are never more |
| Limits.ReconcileHandlesNext | controllers/onload_controller.go:605-634 | with a node next in line a Reconcile is the update of that node and nothing else |
| Limits.UnloadIffDrained | controllers/onload_controller.go:545-601 | a Reconcile takes the KMM label off a selected node if and only if that node is next in line and drained as far as the operator could see |
| Limits.WithdrawIffNextInLine | controllers/onload_controller.go:548-561 | it takes the onload label off a selected node if and only if that node is next in line and the label is at another version, whatever pods run |
| Limits.EvictedIff | controllers/onload_controller.go:686-720 | it evicts a pod if and only if the List succeeds and the pod runs and uses Onload on the next node in line with the plugin gone |
| Limits.EveryUserEvicted | controllers/onload_controller.go:686-720 | then exactly the running users on that node are evicted, and the call waits |
| Limits.AnyContainerCounts | controllers/onload_controller.go:673-681 | a pod one of whose containers, at any position, requests a positive number of `amd.com/onload` keeps the KMM label on its node, and once the plugin is gone is evicted if it runs while the call waits |
| Limits.OthersAreSpared | controllers/onload_controller.go:673-681 | a pod none of whose containers does so is never evicted |
| Limits.AlphabeticallyFirstOnly | controllers/onload_controller.go:626-629 | of two outdated nodes whose names first differ in a smaller and a larger character the second is neither withdrawn nor unloaded |
| Limits.ShorterNameFirst | controllers/onload_controller.go:626-629 | nor is a node whose name extends that of another outdated node |
| Limits.FailedListUnloadsUnderUser | controllers/onload_controller.go:661-664 | with a failed List a Reconcile takes both KMM labels under a user, where a listed one does not |
| Limits.SameNameElsewhereHoldsUp | controllers/onload_controller.go:563-575 | a device-plugin pod from another namespace is taken for one's own if and only if the resource names agree, and then makes the Reconcile wait |
| Limits.SameNameModuleHoldsUp | controllers/onload_controller.go:273-279 | likewise a module pod, which makes labelling wait |
| Leader.LeaderPhase | controllers/onload_controller.go:605-634 | the number of steps left tells the phase of the first node by name and that all others are untouched |
| ReachableLimits.UnloadUnderUserIsReachable | controllers/onload_controller.go:661-664 | from every upgrade start with a selected node and no pods there is an upgrade run whose last call unloads a node under a user that started by the rules |
| ReachableLimits.NextNodeDoesNotWaitForPlugin | controllers/onload_controller.go:605-634 | from every upgrade start of two nodes with nothing in the way there is an upgrade run to a state in which the first is upgraded without a device-plugin pod and the next call withdraws another |
| ReachableLimits.InstalledIsStart | controllers/onload_controller.go:59-153 | for every resource, edit to another version and set of node names there is an upgrade start |
| Isolation.ShareKeyIffSameQualified | controllers/onload_controller.go:168-180 | two resources share a label key if and only if their dotted names coincide |
| Isolation.LabelKeysDisjoint | controllers/onload_controller.go:168-180 | distinct resources in namespaces without dots share none |
| Isolation.DottedNamespacesClash | controllers/onload_controller.go:168-180 | a pair that would clash |
| Isolation.ObjectKeysDisjoint | controllers/onload_controller.go:818-824 | Module and DaemonSet names identify resource and kind |
| Isolation.ResourcesDoNotInterfere | controllers/onload_controller.go:197-238 | any interleaving of other resources' Reconciles and clean-ups, cut short or not, leaves the resource's labels, Modules and DaemonSet alone |
| Isolation.ForeignStateSurvives | controllers/onload_controller.go:366-402 | a label that none of them owns and a pod that does not use Onload survive any interleaving of Reconciles and clean-ups unchanged |
| Deletion.CleanupRemovesOwnLabels | controllers/onload_controller.go:203-238 | the clean-up asks for exactly the removals of own labels that are present |
| Deletion.RemovalEffect | controllers/onload_controller.go:197-201 | after any set of removals a label is gone exactly if its removal is among them, and all else is unchanged |
| Deletion.CleanIffAllRemoved | controllers/onload_controller.go:212-218 | nothing is left behind if and only if every removal went through |
| Deletion.AllRemovedIsCleanedUp | controllers/onload_controller.go:203-238 | then every own label is gone and nothing else has changed |
| Deletion.DeletionCleansUp | controllers/onload_controller.go:67-80 | a clean-up without failures is complete, touches nothing else, and has nothing to do when repeated |
| Objects.OnloadMappingsMirrorSpec | controllers/onload_controller.go:724-746 | the Onload Module has one mapping for each entry, field by field, builds included |
| Objects.SfcMappingsFilterSpec | controllers/onload_controller.go:748-760 | the SFC Module has those of the SFC entries in order, every build dropped |
| Objects.UsesSFCIffMapped | controllers/onload_controller.go:763-768 | SFC is used if and only if that list is non-empty |
| Objects.ModuleUpgradeIsFreshInstall | controllers/onload_controller.go:461-494 | the updated Module equals a freshly created one if and only if the version changed or the mappings did not |
| Objects.DaemonSetUpgradeIsFreshInstall | controllers/onload_controller.go:442-458 | the updated DaemonSet equals a freshly created one if and only if the version changed or the image did not |
| FreshInstall.ObjectsMadeAlways | controllers/onload_controller.go:426-543 | over a whole upgrade run, failures included, each Module and the DaemonSet is what creation from the old or from the new resource makes |
| FreshInstall.UpgradedIsFreshInstall | controllers/onload_controller.go:426-543 | in every reachable state an object is at the new version if and only if it equals a freshly created one, and ready infrastructure is exactly a fresh install |
| Objects.GeneratedLengths | controllers/onload_controller.go:155-180 | the exact length of each generated label name and value |
| Objects.LengthCheckSuffices | controllers/onload_controller.go:101-104 | a resource that passes the 39-character check has only names and values of legal length |
| Concerns.ReconcileIsConcern | controllers/onload_controller.go:59-153 | a Reconcile is the phase of the first of twelve concerns that is not settled, each a condition on the cluster |
| Concerns.LoopExact | controllers/onload_controller.go:292-310 | the labelling loop adds a label if and only if it is due and no node listed before waits for a lingering module pod |
| Concerns.WritesAreDue | controllers/onload_controller.go:59-153 | the writes of a Reconcile are exactly those due for the first unsettled concern; it ends quiet if all are settled, waiting if a pod is in the way, and asking again otherwise |
| Spelled.LabelKeysSpelled | controllers/onload_controller.go:155-180 | the label keys as literals |
| Spelled.PodLookupsSpelled | controllers/onload_controller.go:566-568 | which pod labels count as device plugin and as module pod, as literals |
| Spelled.DeletingDoesNothing | controllers/onload_controller.go:87-92 | a resource marked for deletion gives no writes and an empty result |
| Spelled.RefusedIffTooLong | controllers/onload_controller.go:101-104 | a live resource is refused, with nothing written, if and only if namespace and name have more than 32 characters together |
| Spelled.EndingsSpelled | controllers/onload_controller.go:603-603 | every call ends quiet, asking again at once, waiting five seconds, or refusing the name |
| Spelled.QuietIffInPlace | controllers/onload_controller.go:59-153 | a call is quiet if and only if every node carries exactly the labels, and every object has the version, that the resource demands, all keys and names as literals |
| Spelled.CreatedModuleFields | controllers/onload_controller.go:818-877 | a Module that a Reconcile creates, field by field with literals: modprobe onload without in-tree module, or sfc with it, and everything else from the resource |
| Spelled.CreatedDaemonSetFields | controllers/onload_controller.go:1093-1170 | the DaemonSet that a Reconcile creates, field by field, and that its pods carry the labels and need the node label by which they are looked up |
| Spelled.EveryWriteSpelled | controllers/onload_controller.go:59-153 | every label and object that a Reconcile changes and to what, with literals |

## Left out

- Library plumbing: controller-runtime, client-go, watches, field indexers, `SetupWithManager` and `nodeLabelWatchFunc`.
- Selector strings: `labels.FormatLabels` and `labels.Parse` are modelled as "the labels include the selector map". An empty selector, which those libraries do not round-trip, is not modelled as a special case.
- Patch encoding: a merge patch is modelled by its effect on the one label or field it changes.
- Owner references: `SetControllerReference` and the garbage collection of Modules and the DaemonSet it leads to.
- Controller.OnloadReconciler.CreateDevicePluginDaemonSet: container commands, volumes, environment, security contexts and argument strings are not built; they are represented by the fields of `Template` from which they are computed, fixed at creation and taken only from parts of the resource that an upgrade does not touch.
- Moves inside a Reconcile: the cluster changes only between two calls, so stale caches, conflicts and a node or Module vanishing between two reads of one call are not modelled.
- Eviction policy: an accepted eviction marks the pod terminating. Disruption budgets appear only as failing calls. Pods are addressed by a unique identifier instead of namespace and name.
- Fairness: that pods in the way eventually leave is a matter of the environment. Convergence is stated for unblocked calls and as a bound on requeues, not as a liveness property.
- Second edits: the one-at-a-time, name-order, new-userland and infrastructure-first claims do not cover another version edit in the middle of an upgrade. Label agreement and the absence of in-place relabelling do.
- Node arrivals: the set of selected nodes is fixed during an upgrade run. Unselected nodes may come and go, and label agreement allows any movement.
- Isolation.ResourcesDoNotInterfere: covers labels, Modules and DaemonSets. Pods that use Onload may be evicted for any resource whose node is next in line, and pod lookups by node cross resources of the same name.
- Recreation: the runs of `Agreement` cover one lifetime of a resource. A clean-up that failed half-way may leave a node half-cleaned for a successor of the same name.
- Other programs: `pkg/deviceplugin`, `pkg/control_plane`, `pkg/client_helper` and `cmd`, generated code, manifests, and the behaviour of Kernel Module Management itself.

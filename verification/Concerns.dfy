// A reference definition of Reconcile that knows no phases and no loops: twelve concerns in
// order, each a condition on the cluster, and for the first that is not settled exactly the
// writes that are due.

module Concerns {
  import opened Wrappers
  import opened Kubernetes
  import opened OnloadTypes
  import opened Outcomes
  import opened Planning
  import opened Machine
  import opened Refinement
  import opened Convergence
  import opened Measure
  import opened Limits

  // ---- The concerns ----

  predicate AllLabelled(cr: Onload, c: ClusterState) {
    forall n | n in c.nodes && Selected(cr, n) :: KmmComplete(cr, n)
  }

  predicate NoneStale(cr: Onload, c: ClusterState, key: string) {
    forall n | n in c.nodes && !Selected(cr, n) :: key !in n.labels
  }

  /** The node has its current kernel module but not yet its onload label. */
  predicate LacksPlugin(cr: Onload, n: Node) {
    Selected(cr, n) && Kmm(cr, n) == Some(cr.Version()) && Plugin(cr, n).None?
  }

  predicate SfcModuleOff(cr: Onload, c: ClusterState) {
    var key := ModuleKey(cr.id, SfcKind);
    key in c.modules && (!UsesSFC(cr) || c.modules[key].version != cr.Version())
  }

  /** The number of the first concern that is not settled; 12 if all are. */
  function Concern(cr: Onload, c: ClusterState): (i: nat)
    ensures i <= 12
  {
    var onload, sfc, ds := ModuleKey(cr.id, OnloadKind), ModuleKey(cr.id, SfcKind), DevicePluginKey(cr.id);
    if !AllLabelled(cr, c) then 0
    else if !NoneStale(cr, c, KmmLabelName(cr.id, OnloadKind)) then 1
    else if !NoneStale(cr, c, KmmLabelName(cr.id, SfcKind)) then 2
    else if onload !in c.modules then 3
    else if UsesSFC(cr) && sfc !in c.modules then 4
    else if exists n | n in c.nodes :: LacksPlugin(cr, n) then 5
    else if !NoneStale(cr, c, OnloadLabelName(cr.id)) then 6
    else if ds !in c.daemonSets then 7
    else if Read(c.daemonSets[ds].labels, ONLOAD_VERSION_LABEL) != cr.Version() then 8
    else if c.modules[onload].version != cr.Version() then 9
    else if SfcModuleOff(cr, c) then 10
    else if exists n | n in c.nodes :: IsOutdated(cr, n) then 11
    else 12
  }

  // ---- What is due ----

  predicate AddsKmm(cr: Onload, c: ClusterState, n: Node) {
    Kmm(cr, n).None? && NoModulePods(cr, c, OnloadKind, n.name)
  }

  /** The SFC label is due on a node whose Onload label is current or about to be. */
  predicate SfcDue(cr: Onload, c: ClusterState, n: Node) {
    UsesSFC(cr) && Sfc(cr, n).None? && (Kmm(cr, n) == Some(cr.Version()) || AddsKmm(cr, c, n))
  }

  predicate AddsSfc(cr: Onload, c: ClusterState, n: Node) {
    SfcDue(cr, c, n) && NoModulePods(cr, c, SfcKind, n.name)
  }

  /** A module pod lingers on the node where a label is due. */
  predicate Waits(cr: Onload, c: ClusterState, n: Node) {
    || (Kmm(cr, n).None? && !NoModulePods(cr, c, OnloadKind, n.name))
    || (SfcDue(cr, c, n) && !NoModulePods(cr, c, SfcKind, n.name))
  }

  predicate LabelDueOn(cr: Onload, c: ClusterState, n: Node, w: ClusterWrite) {
    || (AddsKmm(cr, c, n) && w == SetLabel(n.name, KmmLabelName(cr.id, OnloadKind), cr.Version()))
    || (AddsSfc(cr, c, n) && w == SetLabel(n.name, KmmLabelName(cr.id, SfcKind), cr.Version()))
  }

  /** The write is due on node number `i`, and labelling gets that far: no node listed before it waits. */
  predicate LabelDueAt(cr: Onload, c: ClusterState, items: seq<Node>, i: nat, w: ClusterWrite)
    requires i < |items|
  {
    LabelDueOn(cr, c, items[i], w) && forall j | 0 <= j < i :: !Waits(cr, c, items[j])
  }

  predicate LabelDue(cr: Onload, c: ClusterState, items: seq<Node>, w: ClusterWrite) {
    exists i | 0 <= i < |items| :: LabelDueAt(cr, c, items, i, w)
  }

  predicate StaleDue(cr: Onload, c: ClusterState, key: string, w: ClusterWrite) {
    exists n | n in c.nodes :: key in n.labels && !Selected(cr, n) && w == RemoveLabel(n.name, key)
  }

  predicate PluginDue(cr: Onload, c: ClusterState, w: ClusterWrite) {
    exists n | n in c.nodes :: LacksPlugin(cr, n) && w == SetLabel(n.name, OnloadLabelName(cr.id), cr.Version())
  }

  predicate UpgradeDueOn(cr: Onload, c: ClusterState, n: Node, listed: bool, w: ClusterWrite) {
    || (Plugin(cr, n).Some? && Plugin(cr, n) != Some(cr.Version())
        && w == RemoveLabel(n.name, OnloadLabelName(cr.id)))
    || (listed && PluginGone(cr, c, n)
        && exists p | p in c.pods :: p.node == n.name && UsesOnload(p) && !p.terminating && w == EvictPod(p.uid))
    || (Drained(cr, c, n, listed)
        && (w == RemoveLabel(n.name, KmmLabelName(cr.id, SfcKind)) || w == RemoveLabel(n.name, KmmLabelName(cr.id, OnloadKind))))
  }

  predicate UpgradeDue(cr: Onload, c: ClusterState, listed: bool, w: ClusterWrite) {
    exists n | n in c.nodes :: NextInLine(cr, c, n) && UpgradeDueOn(cr, c, n, listed, w)
  }

  /** The write is due in this state. */
  predicate Due(cr: Onload, image: string, c: ClusterState, listed: bool, w: ClusterWrite) {
    var i := Concern(cr, c);
    if i == 0 then LabelDue(cr, c, SelectedNodes(cr, c), w)
    else if i == 1 then StaleDue(cr, c, KmmLabelName(cr.id, OnloadKind), w)
    else if i == 2 then StaleDue(cr, c, KmmLabelName(cr.id, SfcKind), w)
    else if i == 3 then w == CreateModule(ModuleKey(cr.id, OnloadKind), NewModule(cr, OnloadKind))
    else if i == 4 then w == CreateModule(ModuleKey(cr.id, SfcKind), NewModule(cr, SfcKind))
    else if i == 5 then PluginDue(cr, c, w)
    else if i == 6 then StaleDue(cr, c, OnloadLabelName(cr.id), w)
    else if i == 7 then w == CreateDaemonSet(DevicePluginKey(cr.id), NewDaemonSet(cr, image))
    else if i == 8 then
      w == PatchDaemonSet(DevicePluginKey(cr.id), ONLOAD_VERSION_LABEL, cr.Version(), cr.spec.onload.userImage)
    else if i == 9 then
      w == PatchModule(ModuleKey(cr.id, OnloadKind), cr.Version(), MapKernels(OnloadKind, cr.spec.onload.kernelMappings))
    else if i == 10 then
      if UsesSFC(cr) then
        w == PatchModule(ModuleKey(cr.id, SfcKind), cr.Version(), MapKernels(SfcKind, cr.spec.onload.kernelMappings))
      else w == DeleteModule(ModuleKey(cr.id, SfcKind))
    else i == 11 && UpgradeDue(cr, c, listed, w)
  }

  /** A pod that makes the call wait. */
  predicate MustWait(cr: Onload, c: ClusterState, listed: bool) {
    || (Concern(cr, c) == 0 && exists n | n in c.nodes :: Selected(cr, n) && Waits(cr, c, n))
    || (Concern(cr, c) == 11 && exists n | n in c.nodes ::
          && NextInLine(cr, c, n) && (Plugin(cr, n).None? || Plugin(cr, n) == Some(cr.Version()))
          && !Drained(cr, c, n, listed))
  }

  // ---- Phases are concerns ----

  lemma LabelPhasesSettle(cr: Onload, c: ClusterState)
    ensures AddMissingKmmLabels(cr, c).flow.Continue? <==> AllLabelled(cr, c)
    ensures forall key :: RemoveStaleLabels(cr, c, key).flow.Continue? <==> NoneStale(cr, c, key)
    ensures AllLabelled(cr, c) ==>
      (AddMissingOnloadLabels(cr, c).flow.Continue? <==> !exists n | n in c.nodes :: LacksPlugin(cr, n))
  {
    KmmPhaseIdle(cr, c);
    forall key ensures RemoveStaleLabels(cr, c, key).flow.Continue? <==> NoneStale(cr, c, key) {
      StalePhaseIdle(cr, c, key);
    }
    if AllLabelled(cr, c) {
      assert forall n | n in c.nodes && Selected(cr, n) :: KmmComplete(cr, n);
      OnloadPhaseIdle(cr, c);
      PluginsComplete(cr, c);
    }
  }

  lemma PluginsComplete(cr: Onload, c: ClusterState)
    ensures (forall n | n in c.nodes && Selected(cr, n) :: PluginComplete(cr, n))
      <==> !exists n | n in c.nodes :: LacksPlugin(cr, n)
  {
    if n :| n in c.nodes && LacksPlugin(cr, n) { assert !PluginComplete(cr, n); }
    if n :| n in c.nodes && Selected(cr, n) && !PluginComplete(cr, n) { assert LacksPlugin(cr, n); }
  }

  lemma OutdatedExists(cr: Onload, c: ClusterState, listed: bool)
    ensures UpgradeNextNode(cr, c, listed).flow.Continue? <==> !exists n | n in c.nodes :: IsOutdated(cr, n)
  {
    hide HandleNodeUpdate;
    NoNodesToUpgrade(cr, c);
    UpgradeFallsThrough(cr, c, listed);
  }

  lemma LabelConcerns(cr: Onload, image: string, c: ClusterState, listed: bool)
    ensures var ps, i := PhaseList(cr, image, c, listed), Concern(cr, c);
      && (forall j | 0 <= j < 8 && j < i :: ps[j].flow.Continue?)
      && (i < 8 ==> !ps[i].flow.Continue?)
  {
    hide AddMissingKmmLabels, RemoveStaleLabels, AddMissingOnloadLabels, HandleDevicePluginUpdate, PatchOrDeleteModule,
      UpgradeNextNode, KmmLabelName, OnloadLabelName, ModuleKey, DevicePluginKey, NewModule, NewDaemonSet,
      AllLabelled, NoneStale, LacksPlugin, UsesSFC;
    LabelPhasesSettle(cr, c);
  }

  lemma UpdateConcerns(cr: Onload, image: string, c: ClusterState, listed: bool)
    requires Concern(cr, c) >= 8
    ensures var ps, i := PhaseList(cr, image, c, listed), Concern(cr, c);
      && (forall j | 8 <= j < i :: ps[j].flow.Continue?)
      && (i < 12 ==> !ps[i].flow.Continue?)
  {
    hide AddMissingKmmLabels, RemoveStaleLabels, AddMissingOnloadLabels, CreateAndAddModuleIfUsed,
      CreateDevicePluginDaemonSet, UpgradeNextNode, KmmLabelName, OnloadLabelName, ModuleKey, DevicePluginKey, MapKernels,
      AllLabelled, NoneStale, LacksPlugin, UsesSFC, IsOutdated;
    OutdatedExists(cr, c, listed);
  }

  lemma ConcernIsBusy(cr: Onload, image: string, c: ClusterState, listed: bool)
    ensures FirstBusy(PhaseList(cr, image, c, listed), 0) == Concern(cr, c)
  {
    hide PhaseList, Concern, RunFrom;
    LabelConcerns(cr, image, c, listed);
    if Concern(cr, c) >= 8 { UpdateConcerns(cr, image, c, listed); }
    PhaseListLength(cr, image, c, listed);
    var ps := PhaseList(cr, image, c, listed);
    var i := FirstBusy(ps, 0);
    assert forall j | 0 <= j < Concern(cr, c) :: ps[j].flow.Continue?;
  }

  lemma PhaseListLength(cr: Onload, image: string, c: ClusterState, listed: bool)
    ensures |PhaseList(cr, image, c, listed)| == 12
  {
  }

  /** A Reconcile is the phase of its first unsettled concern. */
  lemma ReconcileIsConcern(cr: Onload, image: string, c: ClusterState, listed: bool)
    requires Eligible(cr)
    ensures var ps := PhaseList(cr, image, c, listed);
      Reconcile(cr, image, c, listed)
      == if Concern(cr, c) < 12 then ps[Concern(cr, c)] else Plan([], Return(Done))
  {
    hide Phases, PhaseList, Concern, RunFrom;
    PhaseListLength(cr, image, c, listed);
    ConcernIsBusy(cr, image, c, listed);
    OnePhasePerCall(cr, image, c, listed);
  }

  // ---- The labelling loop, exactly ----

  lemma PodsListedIff(cr: Onload, c: ClusterState, kind: ModuleKind, node: string)
    ensures PodsOn(c.pods, ModulePodLabels(cr.id, kind), node) == [] <==> NoModulePods(cr, c, kind, node)
  {
    hide Selects, ModulePodLabels;
    var listed := PodsOn(c.pods, ModulePodLabels(cr.id, kind), node);
    if listed != [] {
      assert listed[0] in listed;
    } else {
      NoPodsListed(cr, c, ModulePodLabels(cr.id, kind), node);
    }
  }

  lemma NodeLabelsExact(cr: Onload, c: ClusterState, n: Node, w: ClusterWrite)
    ensures var s := AddKmmLabelsToNode(cr, c.pods, n);
      && (s.flow != Continue <==> Waits(cr, c, n))
      && (w in s.writes <==> LabelDueOn(cr, c, n, w))
  {
    hide NoModulePods, PodsOn, UsesSFC, KmmLabelName, ModulePodLabels;
    OwnKeysDiffer(cr.id);
    PodsListedIff(cr, c, OnloadKind, n.name);
    PodsListedIff(cr, c, SfcKind, n.name);
  }

  lemma {:induction false} LoopExact(cr: Onload, c: ClusterState, items: seq<Node>, w: ClusterWrite)
    ensures w in AddKmmLabelsTo(cr, c.pods, items).writes <==> LabelDue(cr, c, items, w)
    ensures AddKmmLabelsTo(cr, c.pods, items).flow != Continue <==> exists n | n in items :: Waits(cr, c, n)
  {
    hide AddKmmLabelsToNode, Waits, LabelDueOn;
    if items != [] {
      var rest := items[1..];
      NodeLabelsExact(cr, c, items[0], w);
      LoopExact(cr, c, rest, w);
      assert forall n :: n in items <==> n == items[0] || n in rest;
      DueInHeadOrTail(cr, c, items, w);
    }
  }

  lemma DueInHeadOrTail(cr: Onload, c: ClusterState, items: seq<Node>, w: ClusterWrite)
    requires items != []
    ensures LabelDue(cr, c, items, w) <==>
      LabelDueOn(cr, c, items[0], w) || (!Waits(cr, c, items[0]) && LabelDue(cr, c, items[1..], w))
  {
    hide Waits, LabelDueOn;
    var rest := items[1..];
    if LabelDueOn(cr, c, items[0], w) { assert LabelDueAt(cr, c, items, 0, w); }
    if i :| 0 <= i < |items| && LabelDueAt(cr, c, items, i, w) {
      if i > 0 { assert rest[i - 1] == items[i] && LabelDueAt(cr, c, rest, i - 1, w); }
    }
    if !Waits(cr, c, items[0]) && LabelDue(cr, c, rest, w) {
      var i :| 0 <= i < |rest| && LabelDueAt(cr, c, rest, i, w);
      forall j | 0 <= j < i + 1 ensures !Waits(cr, c, items[j]) {
        if j > 0 { assert items[j] == rest[j - 1]; }
      }
      assert LabelDueAt(cr, c, items, i + 1, w);
    }
  }

  lemma {:induction false} PluginsExact(cr: Onload, items: seq<Node>, w: ClusterWrite)
    requires forall n | n in items :: Selected(cr, n) && Kmm(cr, n).Some?
    ensures w in OnloadAdditions(cr, items) <==>
      exists n | n in items :: LacksPlugin(cr, n) && w == SetLabel(n.name, OnloadLabelName(cr.id), cr.Version())
  {
    hide Selects, KmmLabelName, OnloadLabelName;
    if items != [] {
      var n := items[0];
      assert n in items && forall m | m in items[1..] :: m in items;
      PluginsExact(cr, items[1..], w);
      assert forall m :: m in items <==> m == n || m in items[1..];
      assert Kmm(cr, n) == Some(Read(n.labels, KmmLabelName(cr.id, OnloadKind)));
    }
  }

  lemma PluginPhaseExact(cr: Onload, c: ClusterState, w: ClusterWrite)
    requires AllLabelled(cr, c)
    ensures w in AddMissingOnloadLabels(cr, c).writes <==> PluginDue(cr, c, w)
  {
    hide Selects, OnloadAdditions, KmmLabelName, OnloadLabelName;
    var items := SelectedNodes(cr, c);
    forall n | n in items ensures Selected(cr, n) && Kmm(cr, n).Some? {
      assert KmmComplete(cr, n);
    }
    PluginsExact(cr, items, w);
    if n :| n in c.nodes && LacksPlugin(cr, n) && w == SetLabel(n.name, OnloadLabelName(cr.id), cr.Version()) {
      assert n in items;
    }
  }

  // ---- Upgrades, exactly ----

  /** If nothing but upgrades is left and a node is outdated, some node is next in line. */
  lemma SomeoneIsNext(cr: Onload, image: string, c: ClusterState, listed: bool) returns (n: Node)
    requires Concern(cr, c) == 11
    ensures n in c.nodes && NextInLine(cr, c, n)
  {
    hide Concern, PhaseList, RunFrom;
    ConcernIsBusy(cr, image, c, listed);
    UpgradeReachedIffReady(cr, image, c, listed);
    OutdatedAtEleven(cr, c);
    NoNodesToUpgrade(cr, c);
    NextNodeIsFirstOutdated(cr, c);
    n := First(NodesToUpgrade(cr, c));
  }

  lemma OutdatedAtEleven(cr: Onload, c: ClusterState)
    requires Concern(cr, c) == 11
    ensures exists n | n in c.nodes :: IsOutdated(cr, n)
  {
    hide AllLabelled, NoneStale, LacksPlugin, SfcModuleOff, UsesSFC;
  }

  lemma UpgradeExactOn(cr: Onload, c: ClusterState, n: Node, listed: bool, w: ClusterWrite)
    ensures w in HandleNodeUpdate(cr, c, n, listed).writes <==> UpgradeDueOn(cr, c, n, listed, w)
  {
    hide HandleNodeUpdate, UsesOnload, Selects, KmmLabelName, OnloadLabelName;
    if w.EvictPod? {
      NodeUpdateEvicts(cr, c, n, listed, w.uid);
    } else if w.RemoveLabel? {
      NodeUpdateWrites(cr, c, n, listed, w);
    } else {
      NodeUpdateStages(cr, c, n, listed);
      EvictionsExact(PodsUsingOnload(c, n.name, true), w);
    }
  }

  lemma UpgradeExact(cr: Onload, image: string, c: ClusterState, listed: bool, w: ClusterWrite)
    requires Eligible(cr) && DistinctNames(c.nodes) && Concern(cr, c) == 11
    ensures w in Reconcile(cr, image, c, listed).writes <==> UpgradeDue(cr, c, listed, w)
    ensures Reconcile(cr, image, c, listed).flow == if MustWait(cr, c, listed) then WAIT else AGAIN
  {
    hide Reconcile, HandleNodeUpdate, Concern, NextInLine, UpgradeDueOn, Drained;
    var n := SomeoneIsNext(cr, image, c, listed);
    ReconcileHandlesNext(cr, image, c, n, listed);
    UpgradeExactOn(cr, c, n, listed, w);
    NodeUpdateStages(cr, c, n, listed);
    forall m | m in c.nodes && NextInLine(cr, c, m) ensures m == n {
      NextIsUnique(cr, c, m, n);
    }
    OutdatedPluginIsNotDrained(cr, c, n, listed);
  }

  lemma OutdatedPluginIsNotDrained(cr: Onload, c: ClusterState, n: Node, listed: bool)
    ensures Drained(cr, c, n, listed) ==> PluginGone(cr, c, n)
    ensures PluginGone(cr, c, n) ==> Plugin(cr, n).None? || Plugin(cr, n) == Some(cr.Version())
  {
  }

  // ---- The theorem ----

  lemma ObjectConcernExact(cr: Onload, image: string, c: ClusterState, listed: bool, w: ClusterWrite)
    requires Concern(cr, c) in {3, 4, 7, 8, 9, 10}
    ensures var p := PhaseList(cr, image, c, listed)[Concern(cr, c)];
      && (w in p.writes <==> Due(cr, image, c, listed, w)) && p.flow == AGAIN
  {
    hide AddMissingKmmLabels, RemoveStaleLabels, AddMissingOnloadLabels, UpgradeNextNode, KmmLabelName, OnloadLabelName,
      ModuleKey, DevicePluginKey, MapKernels, NewModule, NewDaemonSet, AllLabelled, NoneStale, LacksPlugin, UsesSFC,
      IsOutdated, LabelDue, StaleDue, PluginDue, UpgradeDue;
  }

  lemma LabelConcernExact(cr: Onload, image: string, c: ClusterState, listed: bool, w: ClusterWrite)
    requires Concern(cr, c) in {0, 1, 2, 5, 6}
    ensures var p := PhaseList(cr, image, c, listed)[Concern(cr, c)];
      && (w in p.writes <==> Due(cr, image, c, listed, w))
      && p.flow == if MustWait(cr, c, listed) then WAIT else AGAIN
  {
    hide RemoveStaleLabels, AddMissingOnloadLabels, UpgradeNextNode, HandleDevicePluginUpdate, PatchOrDeleteModule,
      CreateAndAddModuleIfUsed, CreateDevicePluginDaemonSet, KmmLabelName, OnloadLabelName, ModuleKey, DevicePluginKey,
      MapKernels, NewModule, NewDaemonSet, AllLabelled, NoneStale, LacksPlugin, UsesSFC, IsOutdated, LabelDue, StaleDue,
      PluginDue, UpgradeDue, AddKmmLabelsTo, Waits, SfcModuleOff;
    LabelPhasesSettle(cr, c);
    LoopExact(cr, c, SelectedNodes(cr, c), w);
    KmmIdle(cr, c.pods, SelectedNodes(cr, c));
    forall key ensures w in RemoveStaleLabels(cr, c, key).writes <==> StaleDue(cr, c, key, w) {
      StalePhaseExact(cr, c, key, w);
      StaleDueMeans(cr, c, key, w);
    }
    StaleFlows(cr, c);
    if AllLabelled(cr, c) { PluginPhaseExact(cr, c, w); }
    assert forall n :: n in SelectedNodes(cr, c) <==> n in c.nodes && Selected(cr, n);
  }

  lemma StaleDueMeans(cr: Onload, c: ClusterState, key: string, w: ClusterWrite)
    ensures StaleDue(cr, c, key, w) <==>
      exists n :: n in c.nodes && key in n.labels && !Selected(cr, n) && w == RemoveLabel(n.name, key)
  {
  }

  lemma StaleFlows(cr: Onload, c: ClusterState)
    ensures forall key :: RemoveStaleLabels(cr, c, key).flow in {Continue, AGAIN}
    ensures AddMissingOnloadLabels(cr, c).flow in {Continue, AGAIN}
  {
  }

  /**
   * The writes of a Reconcile are exactly those due for the first concern that is not settled, and it ends
   * quiet when all are settled, waiting when a pod is in the way, and asking again otherwise.
   */
  lemma WritesAreDue(cr: Onload, image: string, c: ClusterState, listed: bool, w: ClusterWrite)
    requires Eligible(cr) && DistinctNames(c.nodes)
    ensures w in Reconcile(cr, image, c, listed).writes <==> Due(cr, image, c, listed, w)
    ensures Reconcile(cr, image, c, listed).flow
      == if Concern(cr, c) == 12 then Return(Done) else if MustWait(cr, c, listed) then WAIT else AGAIN
  {
    hide Reconcile, PhaseList, Concern, LabelDue, StaleDue, PluginDue, UpgradeDue, NewModule, NewDaemonSet, MapKernels,
      NextInLine, Drained, Waits, ModuleKey, DevicePluginKey, KmmLabelName, OnloadLabelName, UsesSFC;
    ReconcileIsConcern(cr, image, c, listed);
    PhaseListLength(cr, image, c, listed);
    var i := Concern(cr, c);
    if i in {0, 1, 2, 5, 6} {
      LabelConcernExact(cr, image, c, listed, w);
    } else if i in {3, 4, 7, 8, 9, 10} {
      ObjectConcernExact(cr, image, c, listed, w);
    } else if i == 11 {
      UpgradeExact(cr, image, c, listed, w);
    }
  }
}

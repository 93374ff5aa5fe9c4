// What a Reconcile does to a node being upgraded, as exact conditions on the state it
// finds, and the limits these conditions show: a failed List, lookups without a namespace,
// and a plugin nobody waits for.

module Limits {
  import opened Wrappers
  import opened Ordering
  import opened Kubernetes
  import opened OnloadTypes
  import opened Outcomes
  import opened Planning
  import opened Machine
  import opened Refinement
  import opened Convergence
  import opened Measure
  import opened Isolation
  import opened ExactCount

  /** The resource is live and its name fits, so that Reconcile runs its phases. */
  predicate Eligible(cr: Onload) {
    !cr.deleting && NameFits(cr.id)
  }

  // ---- From handleNodeUpdate to Reconcile ----

  lemma NextIsUnique(cr: Onload, c: ClusterState, m: Node, n: Node)
    requires DistinctNames(c.nodes) && m in c.nodes && n in c.nodes && NextInLine(cr, c, m) && NextInLine(cr, c, n)
    ensures m == n
  {
    hide ReadyToUpgrade;
    BelowTotal(m.name, n.name);
    if m.name == n.name { SameName(c, n); }
  }

  /** When a node is next in line, a Reconcile is the update of that node and nothing else. */
  lemma ReconcileHandlesNext(cr: Onload, image: string, c: ClusterState, n: Node, listed: bool)
    requires Eligible(cr) && DistinctNames(c.nodes) && n in c.nodes && NextInLine(cr, c, n)
    ensures Reconcile(cr, image, c, listed) == HandleNodeUpdate(cr, c, n, listed)
  {
    hide Phases, HandleNodeUpdate, RunFrom, ReadyToUpgrade, Selects;
    var ps := PhaseList(cr, image, c, listed);
    NoNodesToUpgrade(cr, c);
    NextNodeIsFirstOutdated(cr, c);
    NextIsUnique(cr, c, First(NodesToUpgrade(cr, c)), n);
    UpgradeReachedIffReady(cr, image, c, listed);
    UpgradeFallsThrough(cr, c, listed);
    OnePhasePerCall(cr, image, c, listed);
    assert ps[11] == UpgradeNextNode(cr, c, listed);
  }

  /** The writes of the phases before the node upgrades. */
  predicate Early(cr: Onload, c: ClusterState, w: ClusterWrite) {
    && !w.EvictPod?
    && (w.RemoveLabel? ==> exists m :: m in c.nodes && m.name == w.node && !Selected(cr, m))
  }

  lemma LabelPhasesAreEarly(cr: Onload, c: ClusterState, w: ClusterWrite)
    ensures w in AddMissingKmmLabels(cr, c).writes || w in AddMissingOnloadLabels(cr, c).writes ==> Early(cr, c, w)
    ensures forall key :: w in RemoveStaleLabels(cr, c, key).writes ==> Early(cr, c, w)
  {
    var items := SelectedNodes(cr, c);
    KmmWritesAreAdditions(cr, c.pods, items);
    OnloadWritesAreAdditions(cr, items);
    forall key | w in RemoveStaleLabels(cr, c, key).writes ensures Early(cr, c, w) {
      StalePhaseExact(cr, c, key, w);
    }
  }

  lemma ObjectPhasesAreEarly(cr: Onload, image: string, c: ClusterState, w: ClusterWrite)
    ensures w in CreateDevicePluginDaemonSet(cr, image, c).writes ==> Early(cr, c, w)
    ensures w in HandleDevicePluginUpdate(cr, c).writes ==> Early(cr, c, w)
    ensures forall kind :: w in CreateAndAddModuleIfUsed(cr, c, kind).writes ==> Early(cr, c, w)
    ensures forall kind :: w in PatchOrDeleteModule(cr, c, kind).writes ==> Early(cr, c, w)
  {
  }

  /** A write that no early phase makes shows that the cluster was ready and a node was next in line. */
  lemma LateWriteShowsNext(cr: Onload, image: string, c: ClusterState, listed: bool, w: ClusterWrite) returns (n: Node)
    requires Eligible(cr) && DistinctNames(c.nodes)
    requires w in Reconcile(cr, image, c, listed).writes && !Early(cr, c, w)
    ensures n in c.nodes && NextInLine(cr, c, n) && w in HandleNodeUpdate(cr, c, n, listed).writes
  {
    hide Phases, HandleNodeUpdate, RunFrom, ReadyToUpgrade, NextInLine, Early, RemoveStaleLabels, NodesToUpgrade,
      AddMissingKmmLabels, CreateAndAddModuleIfUsed, AddMissingOnloadLabels, CreateDevicePluginDaemonSet,
      HandleDevicePluginUpdate, PatchOrDeleteModule;
    var ps := PhaseList(cr, image, c, listed);
    var i := FirstBusy(ps, 0);
    OnePhasePerCall(cr, image, c, listed);
    LabelPhasesAreEarly(cr, c, w);
    ObjectPhasesAreEarly(cr, image, c, w);
    assert w in ps[i].writes && i >= 11;
    UpgradeReachedIffReady(cr, image, c, listed);
    NextNodeIsFirstOutdated(cr, c);
    n := First(NodesToUpgrade(cr, c));
  }

  lemma {:induction false} EvictionsExact(pods: seq<Pod>, w: ClusterWrite)
    ensures w in Evictions(pods) <==> exists p :: p in pods && !p.terminating && w == EvictPod(p.uid)
  {
    if pods != [] {
      EvictionsExact(pods[1..], w);
      assert forall p :: p in pods <==> p == pods[0] || p in pods[1..];
    }
  }

  lemma NoneToList(cr: Onload, c: ClusterState, node: string)
    ensures PodsOn(c.pods, DevicePluginPodLabels(cr.id), node) == []
      <==> forall p | p in c.pods && p.node == node :: !Selects(Includes(DevicePluginPodLabels(cr.id)), p.labels)
  {
    var plugins := PodsOn(c.pods, DevicePluginPodLabels(cr.id), node);
    if plugins != [] {
      assert plugins[0] in plugins;
    } else {
      NoPodsListed(cr, c, DevicePluginPodLabels(cr.id), node);
    }
  }

  lemma NoUsersToEvict(c: ClusterState, node: string)
    ensures PodsUsingOnload(c, node, true) == [] <==> forall p | p in c.pods && p.node == node :: !UsesOnload(p)
  {
    var users := PodsUsingOnload(c, node, true);
    if users != [] {
      assert users[0] in users;
    }
    forall p | p in c.pods && p.node == node && UsesOnload(p) ensures p in users {
      assert p in PodsOn(c.pods, map[], node);
    }
  }

  /** The stages of one node: withdraw, wait for the plugin, evict and wait, unload. */
  lemma NodeUpdateStages(cr: Onload, c: ClusterState, n: Node, listed: bool)
    ensures var p := HandleNodeUpdate(cr, c, n, listed);
      if Plugin(cr, n).Some? && Plugin(cr, n) != Some(cr.Version()) then
        p == Plan([RemoveLabel(n.name, OnloadLabelName(cr.id))], AGAIN)
      else if !PluginGone(cr, c, n) then p == Plan([], WAIT)
      else if !Drained(cr, c, n, listed) then p == Plan(Evictions(PodsUsingOnload(c, n.name, true)), WAIT)
      else p == Plan([RemoveLabel(n.name, KmmLabelName(cr.id, SfcKind)),
                      RemoveLabel(n.name, KmmLabelName(cr.id, OnloadKind))], AGAIN)
  {
    hide UsesOnload, Selects, PodsUsingOnload, PodsOn;
    NoneToList(cr, c, n.name);
    NoUsersToEvict(c, n.name);
    assert PodsUsingOnload(c, n.name, false) == [] by { FailedListIsEmpty(c, n.name); }
  }

  lemma FailedListIsEmpty(c: ClusterState, node: string)
    ensures PodsUsingOnload(c, node, false) == []
  {
  }

  // ---- Exact conditions ----

  /** A selected node loses its KMM label if and only if it is next in line and drained as far as the operator could see. */
  lemma UnloadIffDrained(cr: Onload, image: string, c: ClusterState, n: Node, listed: bool)
    requires Eligible(cr) && Sane(cr, c) && n in c.nodes && Selected(cr, n)
    ensures RemoveLabel(n.name, KmmLabelName(cr.id, OnloadKind)) in Reconcile(cr, image, c, listed).writes
      <==> NextInLine(cr, c, n) && Drained(cr, c, n, listed)
  {
    hide Reconcile, HandleNodeUpdate, ReadyToUpgrade, UsesOnload, Selects;
    OwnKeysDiffer(cr.id);
    SameName(c, n);
    var w: ClusterWrite := RemoveLabel(n.name, KmmLabelName(cr.id, OnloadKind));
    if w in Reconcile(cr, image, c, listed).writes {
      var m := LateWriteShowsNext(cr, image, c, listed, w);
      NodeUpdateWrites(cr, c, m, listed, w);
    }
    if NextInLine(cr, c, n) {
      ReconcileHandlesNext(cr, image, c, n, listed);
      NodeUpdateWrites(cr, c, n, listed, w);
    }
  }

  /** Which label removals an update of a node can make. */
  lemma NodeUpdateWrites(cr: Onload, c: ClusterState, n: Node, listed: bool, w: ClusterWrite)
    requires w.RemoveLabel?
    ensures w in HandleNodeUpdate(cr, c, n, listed).writes <==>
      if Plugin(cr, n).Some? && Plugin(cr, n) != Some(cr.Version()) then
        w == RemoveLabel(n.name, OnloadLabelName(cr.id))
      else
        && Drained(cr, c, n, listed)
        && (w == RemoveLabel(n.name, KmmLabelName(cr.id, SfcKind)) || w == RemoveLabel(n.name, KmmLabelName(cr.id, OnloadKind)))
  {
    hide HandleNodeUpdate, UsesOnload, Selects, PodsUsingOnload, KmmLabelName, OnloadLabelName;
    NodeUpdateStages(cr, c, n, listed);
    EvictionsExact(PodsUsingOnload(c, n.name, true), w);
  }

  /**
   * A selected node loses its onload label if and only if it is next in line and the label is at another
   * version.  No pod on any node has a say in it: the plugin of the node upgraded before need not have started.
   */
  lemma WithdrawIffNextInLine(cr: Onload, image: string, c: ClusterState, n: Node, listed: bool)
    requires Eligible(cr) && Sane(cr, c) && n in c.nodes && Selected(cr, n)
    ensures RemoveLabel(n.name, OnloadLabelName(cr.id)) in Reconcile(cr, image, c, listed).writes
      <==> NextInLine(cr, c, n) && Plugin(cr, n).Some? && Plugin(cr, n) != Some(cr.Version())
  {
    hide Reconcile, HandleNodeUpdate, ReadyToUpgrade, Drained, PluginGone, Selects;
    OwnKeysDiffer(cr.id);
    SameName(c, n);
    var w: ClusterWrite := RemoveLabel(n.name, OnloadLabelName(cr.id));
    if w in Reconcile(cr, image, c, listed).writes {
      var m := LateWriteShowsNext(cr, image, c, listed, w);
      NodeUpdateWrites(cr, c, m, listed, w);
    }
    if NextInLine(cr, c, n) {
      ReconcileHandlesNext(cr, image, c, n, listed);
      NodeUpdateWrites(cr, c, n, listed, w);
    }
  }

  lemma NodeUpdateEvicts(cr: Onload, c: ClusterState, n: Node, listed: bool, uid: nat)
    ensures EvictPod(uid) in HandleNodeUpdate(cr, c, n, listed).writes <==>
      && listed && PluginGone(cr, c, n)
      && exists p :: p in c.pods && p.uid == uid && p.node == n.name && UsesOnload(p) && !p.terminating
  {
    hide HandleNodeUpdate, UsesOnload, Selects;
    var users := PodsUsingOnload(c, n.name, true);
    NodeUpdateStages(cr, c, n, listed);
    EvictionsExact(users, EvictPod(uid));
    if p :| p in c.pods && p.uid == uid && p.node == n.name && UsesOnload(p) && !p.terminating {
      UserIsListed(c, n.name, p);
    }
  }

  lemma UserIsListed(c: ClusterState, node: string, p: Pod)
    requires p in c.pods && p.node == node && UsesOnload(p)
    ensures p in PodsUsingOnload(c, node, true)
  {
    hide UsesOnload;
    assert p in PodsOn(c.pods, map[], node);
  }

  /** A pod is evicted if and only if it runs and uses Onload on the next node in line, the plugin is gone and the List succeeds. */
  lemma EvictedIff(cr: Onload, image: string, c: ClusterState, listed: bool, uid: nat)
    requires Eligible(cr) && Sane(cr, c)
    ensures EvictPod(uid) in Reconcile(cr, image, c, listed).writes
      <==> listed && exists p :: p in c.pods && p.uid == uid && MayEvict(cr, c, p)
  {
    hide Reconcile, HandleNodeUpdate, NextInLine, PluginGone, UsesOnload;
    if EvictPod(uid) in Reconcile(cr, image, c, listed).writes {
      var n := LateWriteShowsNext(cr, image, c, listed, EvictPod(uid));
      NodeUpdateEvicts(cr, c, n, listed, uid);
      var p :| p in c.pods && p.uid == uid && p.node == n.name && UsesOnload(p) && !p.terminating;
      assert MayEvict(cr, c, p);
    }
    if p :| p in c.pods && p.uid == uid && MayEvict(cr, c, p) {
      var n :| n in c.nodes && n.name == p.node && NextInLine(cr, c, n) && PluginGone(cr, c, n);
      ReconcileHandlesNext(cr, image, c, n, listed);
      NodeUpdateEvicts(cr, c, n, listed, uid);
    }
  }

  /** While Onload is in use on the next node in line, with the plugin gone, the call evicts its running users and waits. */
  lemma EveryUserEvicted(cr: Onload, image: string, c: ClusterState, n: Node, user: Pod, w: ClusterWrite)
    requires Eligible(cr) && Sane(cr, c) && n in c.nodes && NextInLine(cr, c, n) && PluginGone(cr, c, n)
    requires user in c.pods && user.node == n.name && UsesOnload(user)
    ensures var plan := Reconcile(cr, image, c, true);
      && plan.flow == WAIT
      && (w in plan.writes <==>
          exists p :: p in c.pods && p.node == n.name && UsesOnload(p) && !p.terminating && w == EvictPod(p.uid))
  {
    hide Reconcile, HandleNodeUpdate, NextInLine, UsesOnload, Selects;
    ReconcileHandlesNext(cr, image, c, n, true);
    NodeUpdateStages(cr, c, n, true);
    EvictionsExact(PodsUsingOnload(c, n.name, true), w);
    if p :| p in c.pods && p.node == n.name && UsesOnload(p) && !p.terminating && w == EvictPod(p.uid) {
      UserIsListed(c, n.name, p);
    }
  }

  /** With a failed List the node is unloaded under its user, where a listed call would have waited. */
  lemma FailedListUnloadsUnderUser(cr: Onload, image: string, c: ClusterState, n: Node, p: Pod)
    requires Eligible(cr) && Sane(cr, c) && n in c.nodes && NextInLine(cr, c, n) && PluginGone(cr, c, n)
    requires p in c.pods && p.node == n.name && UsesOnload(p)
    ensures var kmm := RemoveLabel(n.name, KmmLabelName(cr.id, OnloadKind));
      && kmm in Reconcile(cr, image, c, false).writes && kmm !in Reconcile(cr, image, c, true).writes
      && Reconcile(cr, image, c, false)
         == Plan([RemoveLabel(n.name, KmmLabelName(cr.id, SfcKind)), kmm], AGAIN)
  {
    hide Reconcile, HandleNodeUpdate, ReadyToUpgrade, UsesOnload, Selects;
    UnloadIffDrained(cr, image, c, n, false);
    UnloadIffDrained(cr, image, c, n, true);
    ReconcileHandlesNext(cr, image, c, n, false);
    NodeUpdateStages(cr, c, n, false);
    OwnKeysDiffer(cr.id);
  }

  // ---- The same in the words of the cluster ----

  /** Container number `k` of the pod requests a positive number of Onload devices. */
  lemma AnyContainerCounts(cr: Onload, image: string, c: ClusterState, n: Node, p: Pod, k: nat)
    requires Eligible(cr) && Sane(cr, c) && n in c.nodes && Selected(cr, n)
    requires p in c.pods && p.node == n.name && k < |p.containers|
    requires "amd.com/onload" in p.containers[k].requests && p.containers[k].requests["amd.com/onload"] > 0
    ensures var plan := Reconcile(cr, image, c, true);
      && RemoveLabel(n.name, KmmLabelName(cr.id, OnloadKind)) !in plan.writes
      && (NextInLine(cr, c, n) && PluginGone(cr, c, n) ==>
          plan.flow == WAIT && (EvictPod(p.uid) in plan.writes <==> !p.terminating))
  {
    hide Reconcile, NextInLine, PluginGone;
    assert RequestsOnload(p.containers[k]);
    UnloadIffDrained(cr, image, c, n, true);
    if NextInLine(cr, c, n) && PluginGone(cr, c, n) {
      EveryUserEvicted(cr, image, c, n, p, EvictPod(p.uid));
      SameUid(c, p);
    }
  }

  lemma SameUid(c: ClusterState, p: Pod)
    requires DistinctPods(c.pods) && p in c.pods
    ensures forall q | q in c.pods && q.uid == p.uid :: q == p
  {
    var i :| 0 <= i < |c.pods| && c.pods[i] == p;
    forall q | q in c.pods && q.uid == p.uid ensures q == p {
      var j :| 0 <= j < |c.pods| && c.pods[j] == q;
      assert i == j;
    }
  }

  /** A pod none of whose containers requests a device is never evicted. */
  lemma OthersAreSpared(cr: Onload, image: string, c: ClusterState, p: Pod, listed: bool)
    requires Eligible(cr) && Sane(cr, c) && p in c.pods
    requires forall k | 0 <= k < |p.containers| ::
      "amd.com/onload" in p.containers[k].requests ==> p.containers[k].requests["amd.com/onload"] <= 0
    ensures EvictPod(p.uid) !in Reconcile(cr, image, c, listed).writes
  {
    hide Reconcile, NextInLine, PluginGone;
    EvictedIff(cr, image, c, listed, p.uid);
    SameUid(c, p);
    assert !UsesOnload(p);
  }

  /** Of two outdated nodes whose names first differ in `x < y`, the second is neither withdrawn nor unloaded. */
  lemma AlphabeticallyFirstOnly(
    cr: Onload, image: string, c: ClusterState, m: Node, n: Node, p: string, x: char, s: string, y: char, t: string,
    listed: bool)
    requires Eligible(cr) && Sane(cr, c) && m in c.nodes && n in c.nodes && Selected(cr, n) && IsOutdated(cr, m)
    requires m.name == p + [x] + s && n.name == p + [y] + t && x < y
    ensures var ws := Reconcile(cr, image, c, listed).writes;
      && RemoveLabel(n.name, OnloadLabelName(cr.id)) !in ws
      && RemoveLabel(n.name, KmmLabelName(cr.id, OnloadKind)) !in ws
  {
    hide Reconcile, ReadyToUpgrade, Drained, Selects;
    SmallerCharacterFirst(p, x, s, y, t);
    WithdrawIffNextInLine(cr, image, c, n, listed);
    UnloadIffDrained(cr, image, c, n, listed);
  }

  /** Nor is a node whose name extends that of another outdated node. */
  lemma ShorterNameFirst(cr: Onload, image: string, c: ClusterState, m: Node, n: Node, rest: string, listed: bool)
    requires Eligible(cr) && Sane(cr, c) && m in c.nodes && n in c.nodes && Selected(cr, n) && IsOutdated(cr, m)
    requires n.name == m.name + rest && rest != ""
    ensures var ws := Reconcile(cr, image, c, listed).writes;
      && RemoveLabel(n.name, OnloadLabelName(cr.id)) !in ws
      && RemoveLabel(n.name, KmmLabelName(cr.id, OnloadKind)) !in ws
  {
    hide Reconcile, ReadyToUpgrade, Drained, Selects;
    ShorterFirst(m.name, rest);
    WithdrawIffNextInLine(cr, image, c, n, listed);
    UnloadIffDrained(cr, image, c, n, listed);
  }

  // ---- Pods are looked up by node and label, not by namespace ----

  lemma PluginLabelsShared(a: ObjectKey, b: ObjectKey, p: Pod)
    requires Selects(Includes(DevicePluginPodLabels(b)), p.labels)
    ensures Selects(Includes(DevicePluginPodLabels(a)), p.labels) <==> a.name == b.name
  {
    assert ONLOAD_NAME_LABEL in DevicePluginPodLabels(a) && ONLOAD_NAME_LABEL in DevicePluginPodLabels(b);
    if DevicePluginName(a) == DevicePluginName(b) {
      SuffixInjective(a.name, DEVICE_PLUGIN_NAME_SUFFIX, b.name, DEVICE_PLUGIN_NAME_SUFFIX);
    }
  }

  lemma ModuleLabelsShared(a: ObjectKey, b: ObjectKey, kind: ModuleKind, other: ModuleKind, p: Pod)
    requires Selects(Includes(ModulePodLabels(b, other)), p.labels)
    ensures Selects(Includes(ModulePodLabels(a, kind)), p.labels) <==> a.name == b.name && kind == other
  {
    assert KMM_MODULE_NAME_LABEL in ModulePodLabels(a, kind) && KMM_MODULE_NAME_LABEL in ModulePodLabels(b, other);
    if ModuleName(a, kind) == ModuleName(b, other) {
      SuffixInjective(a.name, ModuleSuffix(kind), b.name, ModuleSuffix(other));
      assert ModuleSuffix(OnloadKind)[6] == 'e' && ModuleSuffix(SfcKind)[6] == 'd';
    }
  }

  /** A device-plugin pod of a resource of the same name in another namespace holds up an upgrade as one's own would. */
  lemma SameNameElsewhereHoldsUp(
    a: Onload, b: ObjectKey, image: string, c: ClusterState, n: Node, p: Pod, listed: bool)
    requires Eligible(a) && Sane(a, c) && n in c.nodes && NextInLine(a, c, n) && Plugin(a, n).None?
    requires p in c.pods && p.node == n.name && Selects(Includes(DevicePluginPodLabels(b)), p.labels)
    ensures Selects(Includes(DevicePluginPodLabels(a.id)), p.labels) <==> a.id.name == b.name
    ensures a.id.name == b.name ==> Reconcile(a, image, c, listed) == Plan([], WAIT)
  {
    hide Reconcile, HandleNodeUpdate, NextInLine, Selects;
    PluginLabelsShared(a.id, b, p);
    ReconcileHandlesNext(a, image, c, n, listed);
    NodeUpdateStages(a, c, n, listed);
  }

  /** The labelling loop has come to the point of adding this label to the node. */
  predicate DueLabel(cr: Onload, n: Node, kind: ModuleKind) {
    && Selected(cr, n) && ModuleUsed(cr, kind) && KmmLabelName(cr.id, kind) !in n.labels
    && (kind == SfcKind ==> Kmm(cr, n) == Some(cr.Version()))
  }

  lemma LingeringPodStops(cr: Onload, pods: seq<Pod>, n: Node, p: Pod, kind: ModuleKind)
    requires DueLabel(cr, n, kind)
    requires p in pods && p.node == n.name && Selects(Includes(ModulePodLabels(cr.id, kind)), p.labels)
    ensures AddKmmLabelsToNode(cr, pods, n).flow != Continue
  {
    OwnKeysDiffer(cr.id);
    assert p in PodsOn(pods, ModulePodLabels(cr.id, kind), n.name);
  }

  /** So does a module pod of a resource of the same name: labelling waits for it to leave. */
  lemma SameNameModuleHoldsUp(
    a: Onload, b: ObjectKey, image: string, c: ClusterState, n: Node, p: Pod, kind: ModuleKind, listed: bool)
    requires Eligible(a) && n in c.nodes && DueLabel(a, n, kind)
    requires p in c.pods && p.node == n.name && Selects(Includes(ModulePodLabels(b, kind)), p.labels)
    ensures forall k :: Selects(Includes(ModulePodLabels(a.id, k)), p.labels) <==> a.id.name == b.name && k == kind
    ensures a.id.name == b.name ==> Reconcile(a, image, c, listed).flow == WAIT
  {
    hide Selects, AddKmmLabelsTo, AddKmmLabelsToNode, CreateAndAddModules, AddOnloadLabelsToNodes,
      CreateDevicePluginDaemonSet, HandleUpdate, RemoveStaleLabels;
    forall k
      ensures Selects(Includes(ModulePodLabels(a.id, k)), p.labels) <==> a.id.name == b.name && k == kind
    {
      ModuleLabelsShared(a.id, b, k, kind, p);
    }
    if a.id.name == b.name {
      var items := SelectedNodes(a, c);
      LingeringPodStops(a, c.pods, n, p, kind);
      assert n in items;
      if AddKmmLabelsTo(a, c.pods, items).flow == Continue {
        KmmLoopContinues(a, c.pods, items);
        assert false;
      }
      KmmIdle(a, c.pods, items);
    }
  }
}

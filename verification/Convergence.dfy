// Reconcile makes progress from any state: it is quiet exactly when converged,
// requeues only after strictly reducing a measure, and waits only for a pod.

module Convergence {
  import opened Wrappers
  import opened Kubernetes
  import opened OnloadTypes
  import opened Outcomes
  import opened Planning
  import opened Machine
  import opened Refinement
  import opened UpgradeRuns

  // ---- How phases can end ----

  const WAIT: Flow := Return(RequeueAfter(DEFAULT_REQUEUE_TIME))
  const AGAIN: Flow := Return(Requeue)

  lemma LabelPhaseFlows(cr: Onload, c: ClusterState)
    ensures AddKmmLabelsToNodes(cr, c).flow in {Continue, AGAIN, WAIT}
    ensures AddOnloadLabelsToNodes(cr, c).flow in {Continue, AGAIN}
  {
    KmmPhaseIdle(cr, c);
  }

  lemma CreationPhaseFlows(cr: Onload, image: string, c: ClusterState)
    ensures CreateAndAddModules(cr, c).flow in {Continue, AGAIN}
    ensures CreateDevicePluginDaemonSet(cr, image, c).flow in {Continue, AGAIN}
    ensures CreateAndAddModules(cr, c).flow.Continue? ==> HandleModuleUpdate(cr, c).flow in {Continue, AGAIN}
    ensures CreateDevicePluginDaemonSet(cr, image, c).flow.Continue? ==>
      HandleDevicePluginUpdate(cr, c).flow in {Continue, AGAIN}
  {
  }

  lemma UpgradeFlows(cr: Onload, c: ClusterState, listed: bool)
    ensures UpgradeNextNode(cr, c, listed).flow in {Continue, AGAIN, WAIT}
    ensures UpgradeNextNode(cr, c, listed).flow.Continue? <==> NodesToUpgrade(cr, c) == []
  {
    UpgradeFallsThrough(cr, c, listed);
  }

  lemma UpdateFlows(cr: Onload, image: string, c: ClusterState, listed: bool)
    requires CreateAndAddModules(cr, c).flow.Continue? && CreateDevicePluginDaemonSet(cr, image, c).flow.Continue?
    ensures HandleUpdate(cr, c, listed).flow in {Continue, AGAIN, WAIT}
    ensures HandleUpdate(cr, c, listed).flow.Continue? <==>
      HandleDevicePluginUpdate(cr, c).flow.Continue? && HandleModuleUpdate(cr, c).flow.Continue?
      && NodesToUpgrade(cr, c) == []
  {
    CreationPhaseFlows(cr, image, c);
    UpgradeFlows(cr, c, listed);
  }

  lemma DoneIffIdle(cr: Onload, image: string, c: ClusterState, listed: bool)
    ensures Phases(cr, image, c, listed).flow in {Return(Done), AGAIN, WAIT}
    ensures Phases(cr, image, c, listed).flow == Return(Done) <==> EarlyIdle(cr, image, c) && NodesToUpgrade(cr, c) == []
    ensures Phases(cr, image, c, listed).flow == Return(Done) ==> Phases(cr, image, c, listed).writes == []
  {
    LabelPhaseFlows(cr, c);
    CreationPhaseFlows(cr, image, c);
    if CreateAndAddModules(cr, c).flow.Continue? && CreateDevicePluginDaemonSet(cr, image, c).flow.Continue? {
      UpdateFlows(cr, image, c, listed);
    }
  }

  /** Against a consistent snapshot the defensive errors of handleUpdate cannot occur. */
  lemma DefensiveErrorsUnreachable(cr: Onload, image: string, c: ClusterState, listed: bool)
    ensures Reconcile(cr, image, c, listed).flow.Fail?
      ==> Reconcile(cr, image, c, listed) == Plan([], Fail(NameTooLong)) && !cr.deleting && !NameFits(cr.id)
  {
    if !cr.deleting && NameFits(cr.id) {
      DoneIffIdle(cr, image, c, listed);
    }
  }

  lemma NoNodesToUpgrade(cr: Onload, c: ClusterState)
    ensures NodesToUpgrade(cr, c) == [] <==> forall n | n in c.nodes :: !IsOutdated(cr, n)
  {
    var nodes := NodesToUpgrade(cr, c);
    forall n | n in c.nodes && IsOutdated(cr, n) ensures n in nodes {
      assert n in SelectNodes(c.nodes, Exists(KmmLabelName(cr.id, OnloadKind)));
    }
    if nodes != [] {
      assert nodes[0] in nodes && IsOutdated(cr, nodes[0]);
    }
  }

  lemma ConvergedIffReady(cr: Onload, c: ClusterState)
    ensures Converged(cr, c) <==> ReadyToUpgrade(cr, c) && forall n | n in c.nodes :: !IsOutdated(cr, n)
  {
  }

  /** An error-free Reconcile of a live resource does nothing and asks for nothing exactly when the cluster is converged. */
  lemma QuiescentIffConverged(cr: Onload, image: string, c: ClusterState, listed: bool)
    requires !cr.deleting && NameFits(cr.id)
    ensures Reconcile(cr, image, c, listed) == Plan([], Return(Done)) <==> Converged(cr, c)
    ensures Reconcile(cr, image, c, listed).flow == Return(Done) <==> Converged(cr, c)
  {
    DoneIffIdle(cr, image, c, listed);
    EarlyIdleIsReady(cr, image, c);
    NoNodesToUpgrade(cr, c);
    ConvergedIffReady(cr, c);
  }

  // ---- Waiting means a pod is in the way ----

  /** A pod of a kernel module that the operator is about to label the node for again. */
  predicate LingersOn(cr: Onload, n: Node, p: Pod, kind: ModuleKind) {
    && ModuleUsed(cr, kind) && KmmLabelName(cr.id, kind) !in n.labels
    && Selects(Includes(ModulePodLabels(cr.id, kind)), p.labels)
  }

  /** A pod that has to go before the node can be upgraded. */
  predicate HoldsUp(cr: Onload, n: Node, p: Pod) {
    && IsOutdated(cr, n) && (Plugin(cr, n).None? || Plugin(cr, n) == Some(cr.Version()))
    && (Selects(Includes(DevicePluginPodLabels(cr.id)), p.labels) || UsesOnload(p))
  }

  predicate Blocks(cr: Onload, n: Node, p: Pod) {
    && Selected(cr, n) && p.node == n.name
    && (LingersOn(cr, n, p, OnloadKind) || LingersOn(cr, n, p, SfcKind) || HoldsUp(cr, n, p))
  }

  predicate Unblocked(cr: Onload, c: ClusterState) {
    forall n, p | n in c.nodes && p in c.pods :: !Blocks(cr, n, p)
  }

  lemma NodeLabellingBlocked(cr: Onload, pods: seq<Pod>, n: Node)
    requires Selected(cr, n) && AddKmmLabelsToNode(cr, pods, n).flow != Continue
    ensures exists p :: p in pods && Blocks(cr, n, p)
  {
    OwnKeysDiffer(cr.id);
    var first := AddKmmLabelToNode(cr, pods, n, OnloadKind);
    var kind := if first.flow != Continue then OnloadKind else SfcKind;
    var listed := PodsOn(pods, ModulePodLabels(cr.id, kind), n.name);
    assert listed[0] in listed;
    assert LingersOn(cr, n, listed[0], kind);
  }

  lemma {:induction false} LabellingBlocked(cr: Onload, pods: seq<Pod>, items: seq<Node>)
    requires forall n | n in items :: Selected(cr, n)
    requires AddKmmLabelsTo(cr, pods, items).flow != Continue
    ensures exists n, p :: n in items && p in pods && Blocks(cr, n, p)
  {
    if AddKmmLabelsToNode(cr, pods, items[0]).flow != Continue {
      NodeLabellingBlocked(cr, pods, items[0]);
      assert items[0] in items;
    } else {
      LabellingBlocked(cr, pods, items[1..]);
      var n, p :| n in items[1..] && p in pods && Blocks(cr, n, p);
      assert n in items;
    }
  }

  lemma NodeUpdateBlocked(cr: Onload, c: ClusterState, n: Node, listed: bool)
    requires Selected(cr, n) && IsOutdated(cr, n) && HandleNodeUpdate(cr, c, n, listed).flow == WAIT
    ensures exists p :: p in c.pods && Blocks(cr, n, p)
  {
    var plugins := PodsOn(c.pods, DevicePluginPodLabels(cr.id), n.name);
    if plugins != [] {
      assert plugins[0] in plugins && HoldsUp(cr, n, plugins[0]);
    } else {
      var users := PodsUsingOnload(c, n.name, listed);
      assert users[0] in users && HoldsUp(cr, n, users[0]);
    }
  }

  lemma UpgradeBlocked(cr: Onload, c: ClusterState, listed: bool)
    requires ReadyToUpgrade(cr, c) && UpgradeNextNode(cr, c, listed).flow == WAIT
    ensures exists n, p :: n in c.nodes && p in c.pods && Blocks(cr, n, p)
  {
    NextNodeIsFirstOutdated(cr, c);
    NodeUpdateBlocked(cr, c, First(NodesToUpgrade(cr, c)), listed);
  }

  /** Every RequeueAfter exhibits a blocking pod. */
  lemma WaitingShowsBlockingPod(cr: Onload, image: string, c: ClusterState, listed: bool)
    requires Phases(cr, image, c, listed).flow == WAIT
    ensures exists n, p :: n in c.nodes && p in c.pods && Blocks(cr, n, p)
  {
    LabelPhaseFlows(cr, c);
    if AddKmmLabelsToNodes(cr, c).flow == WAIT {
      var items := SelectNodes(c.nodes, Includes(cr.spec.selector));
      LabellingBlocked(cr, c.pods, items);
      var n, p :| n in items && p in c.pods && Blocks(cr, n, p);
      assert n in c.nodes;
    } else {
      CreationPhaseFlows(cr, image, c);
      assert EarlyIdle(cr, image, c);
      EarlyIdleIsReady(cr, image, c);
      UpgradeBlocked(cr, c, listed);
    }
  }
}

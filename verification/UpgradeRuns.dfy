// Whole upgrade runs: any interleaving of Reconciles, each possibly cut short,
// with steps of the environment.

module UpgradeRuns {
  import opened Wrappers
  import opened Ordering
  import opened Kubernetes
  import opened OnloadTypes
  import opened Planning
  import opened Machine
  import opened Agreement
  import opened Upgrade

  // ---- The environment ----

  /** A device-plugin pod of this resource. */
  predicate IsDevicePlugin(cr: Onload, p: Pod) {
    p.namespace == cr.id.namespace && Selects(Includes(DevicePluginPodLabels(cr.id)), p.labels)
  }

  /** The same pod; only its termination may have begun. */
  predicate SamePod(p: Pod, q: Pod) {
    && p.uid == q.uid && p.namespace == q.namespace && p.node == q.node && p.labels == q.labels
    && p.containers == q.containers && p.initImage == q.initImage
  }

  predicate Survives(c: ClusterState, p: Pod) {
    exists q :: q in c.pods && SamePod(p, q)
  }

  /** The DaemonSet controller starts pods only on selected nodes with the onload label, from the current template. */
  predicate StartedByDaemonSet(cr: Onload, c: ClusterState, p: Pod) {
    && DevicePluginKey(cr.id) in c.daemonSets
    && p.initImage == c.daemonSets[DevicePluginKey(cr.id)].initImage
    && exists n :: n in c.nodes && n.name == p.node && Selected(cr, n) && Plugin(cr, n).Some?
  }

  /** Onload devices are offered only where a device-plugin pod runs. */
  predicate StartedWithDevices(cr: Onload, c: ClusterState, p: Pod) {
    exists q :: q in c.pods && IsDevicePlugin(cr, q) && q.node == p.node
  }

  /** The same selected nodes in the same order, with the same operator labels. */
  predicate SelectedKept(cr: Onload, c: ClusterState, d: ClusterState) {
    var a, b := SelectedNodes(cr, c), SelectedNodes(cr, d);
    |a| == |b| && forall i | 0 <= i < |a| :: SameNode(cr, a[i], b[i])
  }

  predicate SameNode(cr: Onload, n: Node, m: Node) {
    m.name == n.name && OperatorLabelsKept(cr, n, m)
  }

  /**
   * Foreign labels and objects may change; unselected nodes come and go, and carry no operator labels;
   * pods stop at any time and start as above.
   */
  predicate Environment(cr: Onload, c: ClusterState, d: ClusterState) {
    && DistinctNames(d.nodes)
    && SelectedKept(cr, c, d)
    && (forall m | m in d.nodes && !Selected(cr, m) :: NoOperatorLabels(cr, m))
    && SameObject(c.modules, d.modules, ModuleKey(cr.id, OnloadKind))
    && SameObject(c.modules, d.modules, ModuleKey(cr.id, SfcKind))
    && SameObject(c.daemonSets, d.daemonSets, DevicePluginKey(cr.id))
    && DistinctPods(d.pods)
    && (forall p | p in d.pods && !Survives(c, p) ::
          && (IsDevicePlugin(cr, p) ==> StartedByDaemonSet(cr, c, p))
          && (UsesOnload(p) ==> StartedWithDevices(cr, c, p)))
  }

  /** Where a selected node comes from in a step of the environment. */
  lemma SelectedBefore(cr: Onload, c: ClusterState, d: ClusterState, m: Node) returns (n: Node)
    requires SelectedKept(cr, c, d) && m in d.nodes && Selected(cr, m)
    ensures n in c.nodes && Selected(cr, n) && SameNode(cr, n, m)
  {
    hide Selects;
    var a, b := SelectedNodes(cr, c), SelectedNodes(cr, d);
    assert m in b;
    var i :| 0 <= i < |b| && b[i] == m;
    n := a[i];
    assert n in a;
  }

  lemma EnvironmentKeepsInfrastructure(cr: Onload, c: ClusterState, d: ClusterState)
    requires Environment(cr, c, d)
    ensures InfrastructureReady(cr, d) == InfrastructureReady(cr, c)
    ensures DaemonSetCurrent(cr, d) == DaemonSetCurrent(cr, c)
  {
  }

  lemma SameNodeSamePhase(from: string, cr: Onload, n: Node, m: Node)
    requires SameNode(cr, n, m)
    ensures Untouched(from, cr, m) == Untouched(from, cr, n) && Finished(cr, m) == Finished(cr, n)
    ensures InPhase(from, cr, m) == InPhase(from, cr, n)
  {
  }

  lemma EnvironmentKeepsUpgrading(from: string, cr: Onload, c: ClusterState, d: ClusterState)
    requires Upgrading(from, cr, c) && Environment(cr, c, d)
    ensures Upgrading(from, cr, d)
  {
    hide SelectedKept, SameNode, InPhase, Untouched, Finished, InfrastructureReady, DaemonSetCurrent, Selects;
    EnvironmentKeepsInfrastructure(cr, c, d);
    forall m | m in d.nodes && Selected(cr, m)
      ensures InPhase(from, cr, m) && (!Untouched(from, cr, m) ==> InfrastructureReady(cr, c))
    {
      var n := SelectedBefore(cr, c, d, m);
      SameNodeSamePhase(from, cr, n, m);
    }
    forall a, b | a in d.nodes && b in d.nodes && Selected(cr, a) && Selected(cr, b) && Below(a.name, b.name)
      ensures Finished(cr, a) || Untouched(from, cr, b)
    {
      OrderBefore(from, cr, c, d, a, b);
    }
  }

  lemma OrderBefore(from: string, cr: Onload, c: ClusterState, d: ClusterState, a: Node, b: Node)
    requires InNameOrder(from, cr, c) && SelectedKept(cr, c, d)
    requires a in d.nodes && b in d.nodes && Selected(cr, a) && Selected(cr, b) && Below(a.name, b.name)
    ensures Finished(cr, a) || Untouched(from, cr, b)
  {
    hide SelectedKept, InPhase, Untouched, Finished, Selects;
    var m := SelectedBefore(cr, c, d, a);
    var n := SelectedBefore(cr, c, d, b);
    SameNodeSamePhase(from, cr, m, a);
    SameNodeSamePhase(from, cr, n, b);
  }

  // ---- Pods ----

  /** A device-plugin pod needs the onload label and comes from the new image. */
  predicate RunsNewUserland(cr: Onload, n: Node, p: Pod) {
    IsDevicePlugin(cr, p) ==> Plugin(cr, n).Some? && p.initImage == cr.spec.onload.userImage
  }

  /** A pod uses Onload only while the node has the onload label. */
  predicate RunsNoOnload(cr: Onload, n: Node, p: Pod) {
    Plugin(cr, n).None? ==> !UsesOnload(p)
  }

  /** On a node that has left the old version every device-plugin pod is from the new image. */
  predicate NewUserland(from: string, cr: Onload, c: ClusterState) {
    forall n, p | n in c.nodes && p in c.pods && Selected(cr, n) && Kmm(cr, n) != Some(from) && p.node == n.name ::
      RunsNewUserland(cr, n, p)
  }

  /** No pod uses Onload on a node between the removal of its old module and the return of its onload label. */
  predicate StaysDrained(from: string, cr: Onload, c: ClusterState) {
    forall n, p | n in c.nodes && p in c.pods && Selected(cr, n) && Kmm(cr, n) != Some(from) && p.node == n.name ::
      RunsNoOnload(cr, n, p)
  }

  /** Where a node of the new state comes from; `key` was taken off only if the upgrade guard held. */
  lemma NodeBefore(from: string, cr: Onload, c: ClusterState, w: ClusterWrite, listed: bool, n: Node)
    returns (m: Node)
    requires Upgrading(from, cr, c) && Guarded(cr, c, w, listed)
    requires n in Apply(w, c).nodes && Selected(cr, n) && Kmm(cr, n) != Some(from)
    ensures m in c.nodes && m.name == n.name && Selected(cr, m) && (Plugin(cr, m).Some? ==> Plugin(cr, n).Some?)
    ensures Kmm(cr, m) == Some(from) ==> Drained(cr, c, m, listed)
  {
    OwnKeysDiffer(cr.id);
    var d := Apply(w, c);
    var i :| 0 <= i < |d.nodes| && d.nodes[i] == n;
    m := c.nodes[i];
    assert m in c.nodes;
    if w.SetLabel? {
      SetLabelEffect(cr, c, w.node, w.key, w.value);
      if w.node == m.name { AddMoves(from, cr, c, m, w.key); }
    } else if w.RemoveLabel? {
      RemoveLabelEffect(cr, c, w.node, w.key);
      if w.node == m.name { RemoveMoves(from, cr, c, m, w.key, listed); }
    }
  }

  lemma PodBefore(c: ClusterState, w: ClusterWrite, p: Pod) returns (q: Pod)
    requires p in Apply(w, c).pods
    ensures q in c.pods && SamePod(p, q)
  {
    var d := Apply(w, c);
    var k :| 0 <= k < |d.pods| && d.pods[k] == p;
    q := c.pods[k];
  }

  lemma PodStays(from: string, cr: Onload, c: ClusterState, m: Node, q: Pod, n: Node, p: Pod, listed: bool)
    requires m in c.nodes && q in c.pods && SamePod(p, q) && m.name == n.name == p.node && Selected(cr, m)
    requires Plugin(cr, m).Some? ==> Plugin(cr, n).Some?
    requires Kmm(cr, m) == Some(from) ==> Drained(cr, c, m, listed)
    requires NewUserland(from, cr, c)
    ensures RunsNewUserland(cr, n, p)
    ensures listed && StaysDrained(from, cr, c) ==> RunsNoOnload(cr, n, p)
  {
  }

  lemma PodAfterWrite(
    from: string, cr: Onload, c: ClusterState, w: ClusterWrite, listed: bool, d: ClusterState, n: Node, p: Pod)
    requires Upgrading(from, cr, c) && Guarded(cr, c, w, listed) && NewUserland(from, cr, c)
    requires d == Apply(w, c) && n in d.nodes && p in d.pods && Selected(cr, n) && Kmm(cr, n) != Some(from)
    requires p.node == n.name
    ensures RunsNewUserland(cr, n, p)
    ensures listed && StaysDrained(from, cr, c) ==> RunsNoOnload(cr, n, p)
  {
    var m := NodeBefore(from, cr, c, w, listed, n);
    var q := PodBefore(c, w, p);
    PodStays(from, cr, c, m, q, n, p, listed);
  }

  lemma WriteKeepsUserland(from: string, cr: Onload, c: ClusterState, w: ClusterWrite, listed: bool)
    requires Upgrading(from, cr, c) && Guarded(cr, c, w, listed) && NewUserland(from, cr, c)
    ensures NewUserland(from, cr, Apply(w, c))
    ensures listed && StaysDrained(from, cr, c) ==> StaysDrained(from, cr, Apply(w, c))
  {
    var d := Apply(w, c);
    forall n, p | n in d.nodes && p in d.pods && Selected(cr, n) && Kmm(cr, n) != Some(from) && p.node == n.name
      ensures RunsNewUserland(cr, n, p)
      ensures listed && StaysDrained(from, cr, c) ==> RunsNoOnload(cr, n, p)
    {
      PodAfterWrite(from, cr, c, w, listed, d, n, p);
    }
  }

  /** A pod started by the environment on a node that has left the old version. */
  lemma PodStarts(from: string, cr: Onload, c: ClusterState, m: Node, p: Pod)
    requires Upgrading(from, cr, c) && NewUserland(from, cr, c)
    requires m in c.nodes && Selected(cr, m) && Kmm(cr, m) != Some(from) && p.node == m.name
    requires IsDevicePlugin(cr, p) ==> StartedByDaemonSet(cr, c, p)
    requires UsesOnload(p) ==> StartedWithDevices(cr, c, p)
    ensures RunsNewUserland(cr, m, p) && RunsNoOnload(cr, m, p)
  {
    SameName(c, m);
    assert !Untouched(from, cr, m);
    assert InfrastructureReady(cr, c);
  }

  lemma EnvironmentKeepsPods(from: string, cr: Onload, c: ClusterState, d: ClusterState)
    requires Upgrading(from, cr, c) && Environment(cr, c, d) && NewUserland(from, cr, c)
    ensures NewUserland(from, cr, d)
    ensures StaysDrained(from, cr, c) ==> StaysDrained(from, cr, d)
  {
    forall n, p | n in d.nodes && p in d.pods && Selected(cr, n) && Kmm(cr, n) != Some(from) && p.node == n.name
      ensures RunsNewUserland(cr, n, p)
      ensures StaysDrained(from, cr, c) ==> RunsNoOnload(cr, n, p)
    {
      var m := SelectedBefore(cr, c, d, n);
      if Survives(c, p) {
        var q :| q in c.pods && SamePod(p, q);
        PodStays(from, cr, c, m, q, n, p, true);
      } else {
        PodStarts(from, cr, c, m, p);
      }
    }
  }

  // ---- Runs ----

  /** Every selected node is fully labelled at the version, nothing else is, and the infrastructure matches. */
  predicate Converged(cr: Onload, c: ClusterState) {
    && (forall n | n in c.nodes && Selected(cr, n) ::
          Kmm(cr, n) == Some(cr.Version()) && Plugin(cr, n).Some? && (UsesSFC(cr) ==> Sfc(cr, n).Some?))
    && NoStaleLabels(cr, c)
    && InfrastructureReady(cr, c)
  }

  /** Converged for the old resource, about to be driven by an edit of it to another version. */
  predicate UpgradeStart(older: Onload, cr: Onload, c: ClusterState) {
    && older.id == cr.id && older.spec.selector == cr.spec.selector && older.Version() != cr.Version()
    && Sane(cr, c) && Converged(older, c) && LabelsAgree(older, c)
  }

  ghost predicate UpgradeStep(cr: Onload, image: string, c: ClusterState, d: ClusterState) {
    Environment(cr, c, d) || exists listed, k :: ReconciledTo(cr, image, c, d, listed, k)
  }

  ghost predicate StepAt(cr: Onload, image: string, run: seq<ClusterState>, i: nat)
    requires i + 1 < |run|
  {
    UpgradeStep(cr, image, run[i], run[i + 1])
  }

  ghost predicate UpgradeRun(older: Onload, cr: Onload, image: string, run: seq<ClusterState>) {
    && |run| > 0 && UpgradeStart(older, cr, run[0])
    && forall i: nat | i + 1 < |run| :: StepAt(cr, image, run, i)
  }

  ghost predicate ListedStep(cr: Onload, image: string, c: ClusterState, d: ClusterState) {
    Environment(cr, c, d) || exists k :: ReconciledTo(cr, image, c, d, true, k)
  }

  ghost predicate ListedStepAt(cr: Onload, image: string, run: seq<ClusterState>, i: nat)
    requires i + 1 < |run|
  {
    ListedStep(cr, image, run[i], run[i + 1])
  }

  /** As UpgradeRun, with every List of the pods to evict succeeding. */
  ghost predicate ListedRun(older: Onload, cr: Onload, image: string, run: seq<ClusterState>) {
    && |run| > 0 && UpgradeStart(older, cr, run[0])
    && forall i: nat | i + 1 < |run| :: ListedStepAt(cr, image, run, i)
  }

  lemma StartIsUpgrading(older: Onload, cr: Onload, c: ClusterState)
    requires UpgradeStart(older, cr, c)
    ensures Upgrading(older.Version(), cr, c)
    ensures NewUserland(older.Version(), cr, c) && StaysDrained(older.Version(), cr, c)
    ensures forall n | n in c.nodes && Selected(cr, n) :: Untouched(older.Version(), cr, n)
  {
    forall n | n in c.nodes && Selected(cr, n) ensures Untouched(older.Version(), cr, n) {
      assert Selected(older, n) && Agrees(older, n);
    }
    forall n | n in c.nodes && Selected(cr, n) ensures InPhase(older.Version(), cr, n) {
      assert Selected(older, n) && Agrees(older, n);
    }
    assert forall n | n in c.nodes && !Selected(cr, n) :: !Selected(older, n);
  }

  lemma {:induction false} RunKeepsUserland(
    from: string, cr: Onload, c: ClusterState, ws: seq<ClusterWrite>, listed: bool)
    requires Upgrading(from, cr, c) && GuardedRun(cr, c, ws, listed) && NewUserland(from, cr, c)
    ensures NewUserland(from, cr, ApplyAll(ws, c))
    ensures listed && StaysDrained(from, cr, c) ==> StaysDrained(from, cr, ApplyAll(ws, c))
    decreases |ws|
  {
    if ws != [] {
      WriteKeepsUpgrading(from, cr, c, ws[0], listed);
      WriteKeepsUserland(from, cr, c, ws[0], listed);
      RunKeepsUserland(from, cr, Apply(ws[0], c), ws[1..], listed);
    }
  }

  lemma ReconcileKeepsUpgrading(
    from: string, cr: Onload, image: string, c: ClusterState, d: ClusterState, listed: bool, k: nat)
    requires Upgrading(from, cr, c) && NewUserland(from, cr, c) && ReconciledTo(cr, image, c, d, listed, k)
    ensures Upgrading(from, cr, d) && NewUserland(from, cr, d)
    ensures listed && StaysDrained(from, cr, c) ==> StaysDrained(from, cr, d)
  {
    var ws := Reconcile(cr, image, c, listed).writes[..k];
    TruncatedIsGuarded(cr, image, c, listed, k);
    RunKeepsUpgrading(from, cr, c, ws, listed);
    RunKeepsUserland(from, cr, c, ws, listed);
  }

  lemma StepKeepsUpgrading(from: string, cr: Onload, image: string, c: ClusterState, d: ClusterState)
    requires Upgrading(from, cr, c) && NewUserland(from, cr, c) && UpgradeStep(cr, image, c, d)
    ensures Upgrading(from, cr, d) && NewUserland(from, cr, d)
  {
    if Environment(cr, c, d) {
      EnvironmentKeepsUpgrading(from, cr, c, d);
      EnvironmentKeepsPods(from, cr, c, d);
    } else {
      var listed, k: nat :| ReconciledTo(cr, image, c, d, listed, k);
      ReconcileKeepsUpgrading(from, cr, image, c, d, listed, k);
    }
  }

  lemma ListedStepKeepsDrained(from: string, cr: Onload, image: string, c: ClusterState, d: ClusterState)
    requires Upgrading(from, cr, c) && NewUserland(from, cr, c) && StaysDrained(from, cr, c)
    requires ListedStep(cr, image, c, d)
    ensures Upgrading(from, cr, d) && NewUserland(from, cr, d) && StaysDrained(from, cr, d)
  {
    if Environment(cr, c, d) {
      EnvironmentKeepsUpgrading(from, cr, c, d);
      EnvironmentKeepsPods(from, cr, c, d);
    } else {
      var k: nat :| ReconciledTo(cr, image, c, d, true, k);
      ReconcileKeepsUpgrading(from, cr, image, c, d, true, k);
    }
  }

  /** The invariant holds in every reachable state of an upgrade run. */
  lemma {:induction false} UpgradingAlways(older: Onload, cr: Onload, image: string, run: seq<ClusterState>, i: nat)
    requires UpgradeRun(older, cr, image, run) && i < |run|
    ensures Upgrading(older.Version(), cr, run[i]) && NewUserland(older.Version(), cr, run[i])
  {
    hide Upgrading, NewUserland, UpgradeStep, UpgradeStart;
    if i == 0 {
      StartIsUpgrading(older, cr, run[0]);
    } else {
      UpgradingAlways(older, cr, image, run, i - 1);
      assert StepAt(cr, image, run, i - 1);
      StepKeepsUpgrading(older.Version(), cr, image, run[i - 1], run[i]);
    }
  }
}

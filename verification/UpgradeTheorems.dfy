// What an upgrade run guarantees: one node out of service at a time, name order,
// infrastructure first, drain before unload, new userland only, one SFC reload.

module UpgradeTheorems {
  import opened Wrappers
  import opened Ordering
  import opened Kubernetes
  import opened OnloadTypes
  import opened Planning
  import opened Machine
  import opened Refinement
  import opened Agreement
  import opened Upgrade
  import opened UpgradeRuns

  // ---- One node at a time, in name order ----

  predicate OutOfService(cr: Onload, c: ClusterState, n: Node) {
    n in c.nodes && Selected(cr, n) && Plugin(cr, n).None?
  }

  lemma OneNodeOutInState(from: string, cr: Onload, c: ClusterState, m: Node, n: Node)
    requires Upgrading(from, cr, c) && OutOfService(cr, c, m) && OutOfService(cr, c, n)
    ensures m == n
  {
    BelowTotal(m.name, n.name);
    if m.name == n.name { SameName(c, n); }
  }

  /** At most one selected node lacks its onload label in any reachable state. */
  lemma OneNodeOutOfService(
    older: Onload, cr: Onload, image: string, run: seq<ClusterState>, i: nat, m: Node, n: Node)
    requires UpgradeRun(older, cr, image, run) && i < |run|
    requires OutOfService(cr, run[i], m) && OutOfService(cr, run[i], n)
    ensures m == n
  {
    UpgradingAlways(older, cr, image, run, i);
    OneNodeOutInState(older.Version(), cr, run[i], m, n);
  }

  /** It is the least-named outdated node, or the one whose KMM label is absent or just restored. */
  lemma WhichNodeIsOut(older: Onload, cr: Onload, image: string, run: seq<ClusterState>, i: nat, n: Node)
    requires UpgradeRun(older, cr, image, run) && i < |run| && OutOfService(cr, run[i], n)
    ensures || (Kmm(cr, n) == Some(older.Version())
                && forall m | m in run[i].nodes && IsOutdated(cr, m) :: !Below(m.name, n.name))
            || Kmm(cr, n) in {None, Some(cr.Version())}
    ensures forall m | m in run[i].nodes && Selected(cr, m) && Below(m.name, n.name) :: Finished(cr, m)
    ensures forall m | m in run[i].nodes && Selected(cr, m) && Below(n.name, m.name) ::
      Untouched(older.Version(), cr, m)
  {
    hide UpgradeRun, NewUserland, InfrastructureFirst;
    UpgradingAlways(older, cr, image, run, i);
    assert InPhase(older.Version(), cr, n);
  }

  /** The nodes at the new KMM version are a prefix of the selected nodes in name order. */
  lemma NameOrder(older: Onload, cr: Onload, image: string, run: seq<ClusterState>, i: nat, m: Node, n: Node)
    requires UpgradeRun(older, cr, image, run) && i < |run|
    requires m in run[i].nodes && n in run[i].nodes && Selected(cr, m) && Selected(cr, n)
    requires Below(m.name, n.name) && Kmm(cr, n) == Some(cr.Version())
    ensures Kmm(cr, m) == Some(cr.Version())
  {
    UpgradingAlways(older, cr, image, run, i);
  }

  // ---- Userland ----

  /** Every device-plugin pod on a node at the new KMM version was created from the new image. */
  lemma UpgradedNodesRunNewUserland(
    older: Onload, cr: Onload, image: string, run: seq<ClusterState>, i: nat, n: Node, p: Pod)
    requires UpgradeRun(older, cr, image, run) && i < |run|
    requires n in run[i].nodes && Selected(cr, n) && Kmm(cr, n) == Some(cr.Version())
    requires p in run[i].pods && p.node == n.name && IsDevicePlugin(cr, p)
    ensures p.initImage == cr.spec.onload.userImage
  {
    UpgradingAlways(older, cr, image, run, i);
    assert RunsNewUserland(cr, n, p);
  }

  /** With every pod List succeeding, no pod uses Onload on a node whose old module is gone and whose plugin is not back. */
  lemma {:induction false} DrainedUntilServing(
    older: Onload, cr: Onload, image: string, run: seq<ClusterState>, i: nat)
    requires ListedRun(older, cr, image, run) && i < |run|
    ensures Upgrading(older.Version(), cr, run[i]) && NewUserland(older.Version(), cr, run[i])
    ensures StaysDrained(older.Version(), cr, run[i])
  {
    hide Upgrading, NewUserland, StaysDrained, ListedStep, UpgradeStart;
    if i == 0 {
      StartIsUpgrading(older, cr, run[0]);
    } else {
      DrainedUntilServing(older, cr, image, run, i - 1);
      assert ListedStepAt(cr, image, run, i - 1);
      ListedStepKeepsDrained(older.Version(), cr, image, run[i - 1], run[i]);
    }
  }

  // ---- Infrastructure first ----

  lemma WriteKeepsInfrastructure(cr: Onload, c: ClusterState, w: ClusterWrite, listed: bool)
    requires Guarded(cr, c, w, listed) && InfrastructureReady(cr, c)
    ensures InfrastructureReady(cr, Apply(w, c))
  {
    ModuleKeysDiffer(cr.id);
  }

  lemma {:induction false} WritesKeepInfrastructure(
    cr: Onload, c: ClusterState, ws: seq<ClusterWrite>, listed: bool)
    requires GuardedRun(cr, c, ws, listed) && InfrastructureReady(cr, c)
    ensures InfrastructureReady(cr, ApplyAll(ws, c))
    decreases |ws|
  {
    if ws != [] {
      WriteKeepsInfrastructure(cr, c, ws[0], listed);
      WritesKeepInfrastructure(cr, Apply(ws[0], c), ws[1..], listed);
    }
  }

  /** No node is touched before DaemonSet and Modules carry the target version. */
  lemma InfrastructureBeforeNodes(
    older: Onload, cr: Onload, image: string, run: seq<ClusterState>, i: nat, n: Node)
    requires UpgradeRun(older, cr, image, run) && i < |run|
    requires n in run[i].nodes && Selected(cr, n)
    requires Kmm(cr, n) != Some(older.Version()) || Plugin(cr, n) != Some(older.Version())
    ensures InfrastructureReady(cr, run[i])
  {
    UpgradingAlways(older, cr, image, run, i);
    assert !Untouched(older.Version(), cr, n);
  }

  lemma ReconcileKeepsInfrastructure(
    cr: Onload, image: string, c: ClusterState, d: ClusterState, listed: bool, k: nat)
    requires Sane(cr, c) && InfrastructureReady(cr, c) && ReconciledTo(cr, image, c, d, listed, k)
    ensures InfrastructureReady(cr, d)
  {
    TruncatedIsGuarded(cr, image, c, listed, k);
    WritesKeepInfrastructure(cr, c, Reconcile(cr, image, c, listed).writes[..k], listed);
  }

  lemma StepKeepsInfrastructure(cr: Onload, image: string, c: ClusterState, d: ClusterState)
    requires Sane(cr, c) && InfrastructureReady(cr, c) && UpgradeStep(cr, image, c, d)
    ensures InfrastructureReady(cr, d)
  {
    if Environment(cr, c, d) {
      EnvironmentKeepsInfrastructure(cr, c, d);
    } else {
      var listed, k: nat :| ReconciledTo(cr, image, c, d, listed, k);
      ReconcileKeepsInfrastructure(cr, image, c, d, listed, k);
    }
  }

  /** Once the infrastructure carries the target version it stays so for the rest of the run. */
  lemma {:induction false} InfrastructureStays(
    older: Onload, cr: Onload, image: string, run: seq<ClusterState>, i: nat, j: nat)
    requires UpgradeRun(older, cr, image, run) && i <= j < |run| && InfrastructureReady(cr, run[i])
    ensures InfrastructureReady(cr, run[j])
    decreases j - i
  {
    hide InfrastructureReady, UpgradeStep, UpgradeStart, InNameOrder, InfrastructureFirst, NoStaleLabels, NewUserland;
    if i < j {
      InfrastructureStays(older, cr, image, run, i, j - 1);
      UpgradingAlways(older, cr, image, run, j - 1);
      assert StepAt(cr, image, run, j - 1);
      StepKeepsInfrastructure(cr, image, run[j - 1], run[j]);
    }
  }

  // ---- Drain before unload ----

  lemma {:induction false} GuardedAt(cr: Onload, c: ClusterState, ws: seq<ClusterWrite>, listed: bool, k: nat)
    requires GuardedRun(cr, c, ws, listed) && k < |ws|
    ensures Guarded(cr, ApplyAll(ws[..k], c), ws[k], listed)
  {
    assert ws == ws[..k] + ws[k..];
    GuardedConcat(cr, c, ws[..k], ws[k..], listed);
    assert ws[k..][0] == ws[k];
  }

  /** The state of the cluster just before write number `k` of a Reconcile. */
  function Before(cr: Onload, image: string, c: ClusterState, listed: bool, k: nat): ClusterState
    requires k <= |Reconcile(cr, image, c, listed).writes|
  {
    ApplyAll(Reconcile(cr, image, c, listed).writes[..k], c)
  }

  lemma ReconcileGuardAt(cr: Onload, image: string, c: ClusterState, listed: bool, k: nat)
    requires Sane(cr, c) && LabelsAgree(cr, c) && k < |Reconcile(cr, image, c, listed).writes|
    ensures var s := Before(cr, image, c, listed, k);
      && Guarded(cr, s, Reconcile(cr, image, c, listed).writes[k], listed)
      && Sane(cr, s) && LabelsAgree(cr, s)
  {
    ReconcileIsGuarded(cr, image, c, listed);
    GuardedAt(cr, c, Reconcile(cr, image, c, listed).writes, listed, k);
    assert ReconciledTo(cr, image, c, Before(cr, image, c, listed, k), listed, k);
    ReconcileKeepsAgreement(cr, image, c, Before(cr, image, c, listed, k), listed, k);
  }

  /** The KMM label leaves a selected node only once the node is drained, and only the next node in line. */
  lemma DrainBeforeUnload(cr: Onload, image: string, c: ClusterState, listed: bool, k: nat, n: Node)
    requires Sane(cr, c) && LabelsAgree(cr, c) && k < |Reconcile(cr, image, c, listed).writes|
    requires Reconcile(cr, image, c, listed).writes[k] == RemoveLabel(n.name, KmmLabelName(cr.id, OnloadKind))
    requires n in Before(cr, image, c, listed, k).nodes && Selected(cr, n)
    ensures var s := Before(cr, image, c, listed, k);
      && Plugin(cr, n).None? && Sfc(cr, n).None? && IsOutdated(cr, n)
      && (forall p | p in s.pods && p.node == n.name :: !IsDevicePlugin(cr, p))
      && (listed ==> forall p, i | p in s.pods && p.node == n.name && 0 <= i < |p.containers| ::
            "amd.com/onload" in p.containers[i].requests ==> p.containers[i].requests["amd.com/onload"] <= 0)
      && (forall m | m in s.nodes && IsOutdated(cr, m) :: !Below(m.name, n.name))
  {
    OwnKeysDiffer(cr.id);
    ReconcileGuardAt(cr, image, c, listed, k);
    assert Agrees(cr, n);
    var s := Before(cr, image, c, listed, k);
    assert MayRemoveForUpgrade(cr, s, n, KmmLabelName(cr.id, OnloadKind), listed);
    forall p, i | listed && p in s.pods && p.node == n.name && 0 <= i < |p.containers|
      ensures "amd.com/onload" in p.containers[i].requests ==> p.containers[i].requests["amd.com/onload"] <= 0
    {
      assert !UsesOnload(p) && !RequestsOnload(p.containers[i]);
    }
  }

  /** The KMM label comes back only when the pods of the previous module have left the node. */
  lemma ReloadAfterModulePodsLeft(cr: Onload, image: string, c: ClusterState, listed: bool, k: nat, n: Node, kind: ModuleKind)
    requires Sane(cr, c) && LabelsAgree(cr, c) && k < |Reconcile(cr, image, c, listed).writes|
    requires Reconcile(cr, image, c, listed).writes[k] == SetLabel(n.name, KmmLabelName(cr.id, kind), cr.Version())
    requires n in Before(cr, image, c, listed, k).nodes
    ensures var s := Before(cr, image, c, listed, k);
      && Selected(cr, n) && ModuleUsed(cr, kind)
      && NoModulePods(cr, s, kind, n.name)
      && (kind == SfcKind ==> Kmm(cr, n) == Some(cr.Version()))
  {
    OwnKeysDiffer(cr.id);
    ReconcileGuardAt(cr, image, c, listed, k);
    assert MayAdd(cr, Before(cr, image, c, listed, k), n, KmmLabelName(cr.id, kind));
  }

  /** Only users of Onload on the next node in line are evicted, and only once its device plugin has left. */
  lemma EvictsOnlyNextInLine(cr: Onload, image: string, c: ClusterState, listed: bool, k: nat, uid: nat)
    returns (p: Pod, n: Node)
    requires Sane(cr, c) && LabelsAgree(cr, c) && k < |Reconcile(cr, image, c, listed).writes|
    requires Reconcile(cr, image, c, listed).writes[k] == EvictPod(uid)
    ensures var s := Before(cr, image, c, listed, k);
      && p in s.pods && p.uid == uid && UsesOnload(p) && !p.terminating
      && n in s.nodes && n.name == p.node && NextInLine(cr, s, n) && Plugin(cr, n).None?
      && (forall q | q in s.pods && q.node == n.name :: !IsDevicePlugin(cr, q))
  {
    hide Reconcile, NextInLine, Selects, UsesOnload;
    ReconcileGuardAt(cr, image, c, listed, k);
    p, n := EvictedUser(cr, Before(cr, image, c, listed, k), uid, listed);
  }

  lemma EvictedUser(cr: Onload, s: ClusterState, uid: nat, listed: bool) returns (p: Pod, n: Node)
    requires LabelsAgree(cr, s) && Guarded(cr, s, EvictPod(uid), listed)
    ensures p in s.pods && p.uid == uid && UsesOnload(p) && !p.terminating
    ensures n in s.nodes && n.name == p.node && NextInLine(cr, s, n) && Plugin(cr, n).None?
    ensures forall q | q in s.pods && q.node == n.name :: !IsDevicePlugin(cr, q)
  {
    p :| p in s.pods && p.uid == uid && MayEvict(cr, s, p);
    n :| n in s.nodes && n.name == p.node && NextInLine(cr, s, n) && PluginGone(cr, s, n);
    assert Agrees(cr, n);
  }

  /** The upgrade path, reached through Reconcile, only ever handles a selected node. */
  lemma UpgradeTouchesOnlySelected(cr: Onload, image: string, c: ClusterState, listed: bool)
    requires FirstBusy(PhaseList(cr, image, c, listed), 0) == 11
    ensures NodesToUpgrade(cr, c) != [] && Selected(cr, First(NodesToUpgrade(cr, c)))
  {
    UpgradeReachedIffReady(cr, image, c, listed);
    UpgradeFallsThrough(cr, c, listed);
    assert PhaseList(cr, image, c, listed)[11] == UpgradeNextNode(cr, c, listed);
    NextNodeIsFirstOutdated(cr, c);
  }

  // ---- SFC reloads at most once ----

  /** How far the SFC label of a node has got: old, removed, removable for good, renewed. */
  function SfcStage(from: string, cr: Onload, n: Node): nat {
    if Sfc(cr, n).Some? then (if Kmm(cr, n) == Some(from) then 0 else 3)
    else if Kmm(cr, n) != Some(cr.Version()) then 1
    else 2
  }

  /** The selected nodes are the same, and none's SFC stage goes back between the two states. */
  predicate SfcForward(from: string, cr: Onload, c: ClusterState, d: ClusterState) {
    var a, b := SelectedNodes(cr, c), SelectedNodes(cr, d);
    |a| == |b| && forall i | 0 <= i < |a| :: SfcForwardAt(from, cr, a[i], b[i])
  }

  predicate SfcForwardAt(from: string, cr: Onload, n: Node, m: Node) {
    m.name == n.name && SfcStage(from, cr, n) <= SfcStage(from, cr, m)
  }

  lemma SfcForwardTransitive(from: string, cr: Onload, c: ClusterState, d: ClusterState, e: ClusterState)
    requires SfcForward(from, cr, c, d) && SfcForward(from, cr, d, e)
    ensures SfcForward(from, cr, c, e)
  {
    hide SfcStage, SelectNodes;
    var x, y, z := SelectedNodes(cr, c), SelectedNodes(cr, d), SelectedNodes(cr, e);
    forall i | 0 <= i < |x| ensures SfcForwardAt(from, cr, x[i], z[i]) {
      assert SfcForwardAt(from, cr, x[i], y[i]) && SfcForwardAt(from, cr, y[i], z[i]);
    }
  }

  lemma WriteMovesSfcForward(from: string, cr: Onload, c: ClusterState, w: ClusterWrite, listed: bool)
    requires Upgrading(from, cr, c) && Guarded(cr, c, w, listed)
    ensures SfcForward(from, cr, c, Apply(w, c))
  {
    OwnKeysDiffer(cr.id);
    var d := Apply(w, c);
    if w.SetLabel? {
      SetLabelEffect(cr, c, w.node, w.key, w.value);
    } else if w.RemoveLabel? {
      RemoveLabelEffect(cr, c, w.node, w.key);
    }
    forall i | 0 <= i < |c.nodes| && Selected(cr, c.nodes[i])
      ensures SfcForwardAt(from, cr, c.nodes[i], d.nodes[i])
    {
      var n := c.nodes[i];
      assert n in c.nodes;
      if w.SetLabel? && n.name == w.node {
        AddMoves(from, cr, c, n, w.key);
      } else if w.RemoveLabel? && n.name == w.node {
        RemoveMoves(from, cr, c, n, w.key, listed);
      }
    }
    SfcPairs(from, cr, c, d);
  }

  lemma SfcPairs(from: string, cr: Onload, c: ClusterState, d: ClusterState)
    requires |d.nodes| == |c.nodes|
    requires forall i | 0 <= i < |c.nodes| :: Selected(cr, d.nodes[i]) == Selected(cr, c.nodes[i])
    requires forall i | 0 <= i < |c.nodes| && Selected(cr, c.nodes[i]) :: SfcForwardAt(from, cr, c.nodes[i], d.nodes[i])
    ensures SfcForward(from, cr, c, d)
  {
    hide Selects, SelectNodes, SfcForwardAt;
    SelectPairs(c.nodes, d.nodes, Includes(cr.spec.selector), (n, m) => SfcForwardAt(from, cr, n, m));
  }

  lemma {:induction false} WritesMoveSfcForward(
    from: string, cr: Onload, c: ClusterState, ws: seq<ClusterWrite>, listed: bool)
    requires Upgrading(from, cr, c) && GuardedRun(cr, c, ws, listed)
    ensures SfcForward(from, cr, c, ApplyAll(ws, c))
    decreases |ws|
  {
    if ws != [] {
      var d := Apply(ws[0], c);
      WriteMovesSfcForward(from, cr, c, ws[0], listed);
      WriteKeepsUpgrading(from, cr, c, ws[0], listed);
      WritesMoveSfcForward(from, cr, d, ws[1..], listed);
      SfcForwardTransitive(from, cr, c, d, ApplyAll(ws, c));
    }
  }

  lemma ReconcileMovesSfcForward(
    from: string, cr: Onload, image: string, c: ClusterState, d: ClusterState, listed: bool, k: nat)
    requires Upgrading(from, cr, c) && ReconciledTo(cr, image, c, d, listed, k)
    ensures SfcForward(from, cr, c, d)
  {
    TruncatedIsGuarded(cr, image, c, listed, k);
    WritesMoveSfcForward(from, cr, c, Reconcile(cr, image, c, listed).writes[..k], listed);
  }

  lemma EnvironmentMovesSfcForward(from: string, cr: Onload, c: ClusterState, d: ClusterState)
    requires Environment(cr, c, d)
    ensures SfcForward(from, cr, c, d)
  {
    hide SelectNodes;
    var a, b := SelectedNodes(cr, c), SelectedNodes(cr, d);
    forall i | 0 <= i < |a| ensures SfcForwardAt(from, cr, a[i], b[i]) {
      assert SameNode(cr, a[i], b[i]);
    }
  }

  lemma StepMovesSfcForward(from: string, cr: Onload, image: string, c: ClusterState, d: ClusterState)
    requires Upgrading(from, cr, c) && UpgradeStep(cr, image, c, d)
    ensures SfcForward(from, cr, c, d)
  {
    if Environment(cr, c, d) {
      EnvironmentMovesSfcForward(from, cr, c, d);
    } else {
      var listed, k: nat :| ReconciledTo(cr, image, c, d, listed, k);
      ReconcileMovesSfcForward(from, cr, image, c, d, listed, k);
    }
  }

  lemma SfcForwardReflexive(from: string, cr: Onload, c: ClusterState)
    ensures SfcForward(from, cr, c, c)
  {
  }

  lemma {:induction false} RunMovesSfcForward(
    older: Onload, cr: Onload, image: string, run: seq<ClusterState>, i: nat, j: nat)
    requires UpgradeRun(older, cr, image, run) && i <= j < |run|
    ensures SfcForward(older.Version(), cr, run[i], run[j])
    decreases j - i
  {
    hide SfcForward, Upgrading, UpgradeStep, UpgradeStart;
    if i == j {
      SfcForwardReflexive(older.Version(), cr, run[i]);
    } else {
      RunMovesSfcForward(older, cr, image, run, i, j - 1);
      UpgradingAlways(older, cr, image, run, j - 1);
      assert StepAt(cr, image, run, j - 1);
      StepMovesSfcForward(older.Version(), cr, image, run[j - 1], run[j]);
      SfcForwardTransitive(older.Version(), cr, run[i], run[j - 1], run[j]);
    }
  }

  /** Step `i` of the run takes the SFC label off the selected node number `x`. */
  predicate SfcRemoved(cr: Onload, run: seq<ClusterState>, i: nat, x: nat)
    requires i + 1 < |run|
  {
    var a, b := SelectedNodes(cr, run[i]), SelectedNodes(cr, run[i + 1]);
    x < |a| && x < |b| && Sfc(cr, a[x]).Some? && Sfc(cr, b[x]).None?
  }

  /** Step `i` of the run puts the SFC label on the selected node number `x`. */
  predicate SfcAdded(cr: Onload, run: seq<ClusterState>, i: nat, x: nat)
    requires i + 1 < |run|
  {
    var a, b := SelectedNodes(cr, run[i]), SelectedNodes(cr, run[i + 1]);
    x < |a| && x < |b| && Sfc(cr, a[x]).None? && Sfc(cr, b[x]).Some?
  }

  /** Over a whole upgrade each node's SFC label goes at most once and comes at most once, and then at the new version. */
  lemma SfcReloadsAtMostOnce(
    older: Onload, cr: Onload, image: string, run: seq<ClusterState>, i: nat, j: nat, x: nat)
    requires UpgradeRun(older, cr, image, run) && i < j && j + 1 < |run|
    ensures !(SfcRemoved(cr, run, i, x) && SfcRemoved(cr, run, j, x))
    ensures !(SfcAdded(cr, run, i, x) && SfcAdded(cr, run, j, x))
    ensures SfcAdded(cr, run, i, x) ==> Kmm(cr, SelectedNodes(cr, run[i + 1])[x]) == Some(cr.Version())
  {
    hide UpgradeRun, SelectNodes;
    if x < |SelectedNodes(cr, run[i])| {
      SfcStagesInOrder(older, cr, image, run, i, j, x);
    }
  }

  /** The stages of one node, the same by name, before and after two steps of the run. */
  lemma SfcStagesInOrder(
    older: Onload, cr: Onload, image: string, run: seq<ClusterState>, i: nat, j: nat, x: nat)
    requires UpgradeRun(older, cr, image, run) && i < j && j + 1 < |run| && x < |SelectedNodes(cr, run[i])|
    ensures var a, b, c, d := SelectedNodes(cr, run[i]), SelectedNodes(cr, run[i + 1]),
        SelectedNodes(cr, run[j]), SelectedNodes(cr, run[j + 1]);
      |a| == |b| == |c| == |d| && a[x].name == b[x].name == c[x].name == d[x].name
    ensures var from := older.Version();
      var a, b, c, d := SelectedNodes(cr, run[i])[x], SelectedNodes(cr, run[i + 1])[x],
        SelectedNodes(cr, run[j])[x], SelectedNodes(cr, run[j + 1])[x];
      && SfcStage(from, cr, a) <= SfcStage(from, cr, b) <= SfcStage(from, cr, c) <= SfcStage(from, cr, d)
      && InPhase(from, cr, a) && InPhase(from, cr, b) && from != cr.Version()
  {
    hide UpgradeRun, InPhase, SfcStage, InNameOrder, InfrastructureFirst, NoStaleLabels, NewUserland, SelectNodes;
    var from := older.Version();
    UpgradingAlways(older, cr, image, run, i + 1);
    UpgradingAlways(older, cr, image, run, i);
    RunMovesSfcForward(older, cr, image, run, i, i + 1);
    RunMovesSfcForward(older, cr, image, run, i + 1, j);
    RunMovesSfcForward(older, cr, image, run, j, j + 1);
    var a, b, c, d := SelectedNodes(cr, run[i])[x], SelectedNodes(cr, run[i + 1])[x],
      SelectedNodes(cr, run[j])[x], SelectedNodes(cr, run[j + 1])[x];
    assert a in SelectedNodes(cr, run[i]) && b in SelectedNodes(cr, run[i + 1]);
    assert SfcForwardAt(from, cr, a, b) && SfcForwardAt(from, cr, b, c) && SfcForwardAt(from, cr, c, d);
  }
}

// The limits are reached: from every cluster about to be upgraded there is an upgrade run
// in which a node is unloaded under its user, and one in which the next node is withdrawn
// although the node before it has no device-plugin pod.

module ReachableLimits {
  import opened Wrappers
  import opened Ordering
  import opened Kubernetes
  import opened OnloadTypes
  import opened Outcomes
  import opened Planning
  import opened Machine
  import opened Refinement
  import opened Agreement
  import opened Upgrade
  import opened UpgradeRuns
  import opened Convergence
  import opened ExactCount
  import opened Limits
  import opened Leader

  // ---- A node unloaded under its user ----

  /** A device-plugin pod as the DaemonSet controller starts it. */
  function PluginPod(cr: Onload, c: ClusterState, node: string): Pod
    requires DevicePluginKey(cr.id) in c.daemonSets
  {
    Pod(0, cr.id.namespace, node, DevicePluginPodLabels(cr.id), [], false,
      c.daemonSets[DevicePluginKey(cr.id)].initImage)
  }

  /** An application pod with one Onload device. */
  function UserPod(node: string): Pod {
    Pod(1, "default", node, map[], [Container(map[ONLOAD_RESOURCE := 1])], false, "")
  }

  lemma PodFacts(cr: Onload, c: ClusterState, node: string)
    requires DevicePluginKey(cr.id) in c.daemonSets
    ensures IsDevicePlugin(cr, PluginPod(cr, c, node)) && !UsesOnload(PluginPod(cr, c, node))
    ensures UsesOnload(UserPod(node)) && !Selects(Includes(DevicePluginPodLabels(cr.id)), UserPod(node).labels)
    ensures forall kind :: !Selects(Includes(ModulePodLabels(cr.id, kind)), PluginPod(cr, c, node).labels)
    ensures forall kind :: !Selects(Includes(ModulePodLabels(cr.id, kind)), UserPod(node).labels)
  {
    UserUsesOnload(node);
    assert ONLOAD_NAME_LABEL in DevicePluginPodLabels(cr.id) && KMM_MODULE_NAME_LABEL != ONLOAD_NAME_LABEL;
    assert forall kind :: KMM_MODULE_NAME_LABEL in ModulePodLabels(cr.id, kind);
    assert KMM_MODULE_NAME_LABEL !in DevicePluginPodLabels(cr.id);
  }

  lemma UserUsesOnload(node: string)
    ensures UsesOnload(UserPod(node)) && !UserPod(node).terminating
  {
    assert RequestsOnload(UserPod(node).containers[0]);
  }

  /** The environment may start and stop pods within its rules. */
  lemma PodsMayChange(from: string, cr: Onload, c: ClusterState, pods: seq<Pod>)
    requires Upgrading(from, cr, c) && DistinctPods(pods)
    requires forall p | p in pods && !Survives(c, p) ::
      && (IsDevicePlugin(cr, p) ==> StartedByDaemonSet(cr, c, p))
      && (UsesOnload(p) ==> StartedWithDevices(cr, c, p))
    ensures Environment(cr, c, c.(pods := pods))
  {
    hide InPhase, InNameOrder, InfrastructureFirst, IsDevicePlugin, UsesOnload, Survives, StartedByDaemonSet,
      StartedWithDevices, Selects, SelectNodes;
  }

  lemma PluginStarts(from: string, cr: Onload, c: ClusterState, x: nat)
    requires Upgrading(from, cr, c) && x < |c.nodes| && Selected(cr, c.nodes[x]) && Plugin(cr, c.nodes[x]).Some?
    ensures DevicePluginKey(cr.id) in c.daemonSets
    ensures Environment(cr, c, c.(pods := [PluginPod(cr, c, c.nodes[x].name)]))
  {
    hide InPhase, InNameOrder, InfrastructureFirst, NoStaleLabels, Selects, UsesOnload, Environment;
    var p := PluginPod(cr, c, c.nodes[x].name);
    PodFacts(cr, c, c.nodes[x].name);
    assert c.nodes[x] in c.nodes && StartedByDaemonSet(cr, c, p);
    PodsMayChange(from, cr, c, [p]);
  }

  lemma UserStarts(from: string, cr: Onload, c: ClusterState, p: Pod)
    requires Upgrading(from, cr, c) && c.pods == [p] && IsDevicePlugin(cr, p) && p.uid == 0
    ensures Environment(cr, c, c.(pods := [p, UserPod(p.node)]))
  {
    hide InPhase, InNameOrder, InfrastructureFirst, NoStaleLabels, UsesOnload, Environment, IsDevicePlugin;
    var user := UserPod(p.node);
    assert p in c.pods && SamePod(p, p) && Survives(c, p);
    assert !IsDevicePlugin(cr, user) by { PodFacts(cr, c, p.node); NotAPlugin(cr, user); }
    assert StartedWithDevices(cr, c, user);
    PodsMayChange(from, cr, c, [p, user]);
  }

  lemma NotAPlugin(cr: Onload, p: Pod)
    requires !Selects(Includes(DevicePluginPodLabels(cr.id)), p.labels)
    ensures !IsDevicePlugin(cr, p)
  {
  }

  lemma PluginStops(from: string, cr: Onload, c: ClusterState, p: Pod, q: Pod)
    requires Upgrading(from, cr, c) && c.pods == [p, q]
    ensures Environment(cr, c, c.(pods := [q]))
  {
    hide InPhase, InNameOrder, InfrastructureFirst, NoStaleLabels, UsesOnload, Environment, IsDevicePlugin;
    assert q in c.pods && SamePod(q, q) && Survives(c, q);
    PodsMayChange(from, cr, c, [q]);
  }

  /** While the first node is untouched, plugin and user on it hold nothing up. */
  lemma UntouchedIsUnblocked(from: string, cr: Onload, c: ClusterState, x: nat, p: Pod)
    requires Upgrading(from, cr, c) && x < |c.nodes| && Untouched(from, cr, c.nodes[x])
    requires p.node == c.nodes[x].name && c.pods == [p, UserPod(p.node)]
    requires forall kind :: !Selects(Includes(ModulePodLabels(cr.id, kind)), p.labels)
    requires forall kind :: !Selects(Includes(ModulePodLabels(cr.id, kind)), UserPod(p.node).labels)
    ensures Unblocked(cr, c)
  {
    hide InPhase, InNameOrder, InfrastructureFirst, NoStaleLabels, Selects, UsesOnload;
    SameName(c, c.nodes[x]);
  }

  /** Calls with plugin and user in place, until the first node has been withdrawn. */
  lemma {:induction false} CallsUntilWithdrawn(
    older: Onload, cr: Onload, image: string, run: seq<ClusterState>, x: nat, p: Pod) returns (longer: seq<ClusterState>)
    requires UpgradeRun(older, cr, image, run) && Eligible(cr) && Leads(cr, run[|run| - 1], x)
    requires p.node == run[|run| - 1].nodes[x].name && run[|run| - 1].pods == [p, UserPod(p.node)]
    requires forall kind :: !Selects(Includes(ModulePodLabels(cr.id, kind)), p.labels)
    requires forall kind :: !Selects(Includes(ModulePodLabels(cr.id, kind)), UserPod(p.node).labels)
    requires Steps(older.Version(), cr, run[|run| - 1]) >= 4 * |SelectedNodes(cr, run[|run| - 1])| - 1 >= 0
    ensures UpgradeRun(older, cr, image, longer) && longer[0] == run[0]
    ensures var d := longer[|longer| - 1];
      && Leads(cr, d, x) && d.pods == [p, UserPod(p.node)] && d.nodes[x].name == p.node
      && Steps(older.Version(), cr, d) == 4 * |SelectedNodes(cr, d)| - 1
    decreases Steps(older.Version(), cr, run[|run| - 1])
  {
    hide UpgradeStart, StepAt, Steps, Upgrading, Unblocked, Untouched, Selects, SelectNodes, NewUserland, OthersUntouched;
    var c := run[|run| - 1];
    if Steps(older.Version(), cr, c) == 4 * |SelectedNodes(cr, c)| - 1 {
      longer := run;
    } else {
      UpgradingAlways(older, cr, image, run, |run| - 1);
      LeaderPhase(older.Version(), cr, c, x);
      UntouchedIsUnblocked(older.Version(), cr, c, x, p);
      var d := OneMoreCall(older, cr, image, run, x);
      longer := CallsUntilWithdrawn(older, cr, image, run + [d], x, p);
    }
  }

  lemma Unloaded(cr: Onload, image: string, c: ClusterState, x: nat)
    requires DistinctNames(c.nodes) && x < |c.nodes|
    requires Reconcile(cr, image, c, false).writes
      == [RemoveLabel(c.nodes[x].name, KmmLabelName(cr.id, SfcKind)),
          RemoveLabel(c.nodes[x].name, KmmLabelName(cr.id, OnloadKind))]
    ensures var d := AfterCall(cr, image, c, false);
      d.pods == c.pods && x < |d.nodes| && d.nodes[x].name == c.nodes[x].name && Kmm(cr, d.nodes[x]).None?
  {
    hide Reconcile;
    var sfc: ClusterWrite := RemoveLabel(c.nodes[x].name, KmmLabelName(cr.id, SfcKind));
    var kmm: ClusterWrite := RemoveLabel(c.nodes[x].name, KmmLabelName(cr.id, OnloadKind));
    TwoWrites(sfc, kmm, c);
  }

  /** Plugin and user start on the first node before the upgrade touches it. */
  lemma RunWithUser(older: Onload, cr: Onload, image: string, c: ClusterState, x: nat)
    returns (run: seq<ClusterState>, p: Pod)
    requires UpgradeStart(older, cr, c) && c.pods == [] && Leads(cr, c, x)
    ensures UpgradeRun(older, cr, image, run) && run[0] == c
    ensures DevicePluginKey(cr.id) in c.daemonSets && p == PluginPod(cr, c, c.nodes[x].name)
    ensures run[|run| - 1] == c.(pods := [p, UserPod(c.nodes[x].name)])
  {
    hide UpgradeStart, StepAt, Environment, Upgrading, NewUserland, StaysDrained, Selects;
    StartIsUpgrading(older, cr, c);
    assert c.nodes[x] in c.nodes;
    PluginStarts(older.Version(), cr, c, x);
    p := PluginPod(cr, c, c.nodes[x].name);
    PodFacts(cr, c, c.nodes[x].name);
    run := [c];
    assert UpgradeRun(older, cr, image, run) by { OneStateRun(older, cr, image, c); }
    var c1 := c.(pods := [p]);
    Extend(older, cr, image, run, c1);
    run := run + [c1];
    UpgradingAlways(older, cr, image, run, 1);
    UserStarts(older.Version(), cr, c1, p);
    var c2 := c1.(pods := [p, UserPod(c.nodes[x].name)]);
    Extend(older, cr, image, run, c2);
    run := run + [c2];
  }

  lemma OneStateRun(older: Onload, cr: Onload, image: string, c: ClusterState)
    requires UpgradeStart(older, cr, c)
    ensures UpgradeRun(older, cr, image, [c])
  {
  }

  lemma SameNodesSameSteps(from: string, cr: Onload, c: ClusterState, pods: seq<Pod>)
    ensures Steps(from, cr, c.(pods := pods)) == Steps(from, cr, c)
  {
  }

  /** A run to the point where the first node has been withdrawn, its plugin and its user still there. */
  lemma RunToWithdrawn(older: Onload, cr: Onload, image: string, c: ClusterState, x: nat)
    returns (run: seq<ClusterState>, p: Pod)
    requires UpgradeStart(older, cr, c) && c.pods == [] && Eligible(cr) && Leads(cr, c, x)
    ensures UpgradeRun(older, cr, image, run) && run[0] == c
    ensures var b := run[|run| - 1];
      && Leads(cr, b, x) && b.nodes[x].name == p.node && b.pods == [p, UserPod(p.node)]
      && Upgrading(older.Version(), cr, b) && InfrastructureReady(cr, b)
      && Withdrawn(older.Version(), cr, b.nodes[x]) && OthersUntouched(older.Version(), cr, b, x)
  {
    hide UpgradeStart, StepAt, Upgrading, Steps, NewUserland, OthersUntouched, Withdrawn, Selects, UsesOnload, InfrastructureReady;
    var from := older.Version();
    var start;
    start, p := RunWithUser(older, cr, image, c, x);
    StartSteps(older, cr, c);
    PodFacts(cr, c, p.node);
    SameNodesSameSteps(from, cr, c, [p, UserPod(p.node)]);
    assert c.nodes[x] in c.nodes && c.nodes[x] in SelectedNodes(cr, c);
    run := CallsUntilWithdrawn(older, cr, image, start, x, p);
    UpgradingAlways(older, cr, image, run, |run| - 1);
    LeaderPhase(from, cr, run[|run| - 1], x);
  }

  /** The plugin leaves the withdrawn node, which is now next in line; its user stays. */
  lemma PluginLeaves(older: Onload, cr: Onload, image: string, run: seq<ClusterState>, x: nat, p: Pod)
    returns (d: ClusterState)
    requires UpgradeRun(older, cr, image, run)
    requires var b := run[|run| - 1];
      && Leads(cr, b, x) && b.nodes[x].name == p.node && b.pods == [p, UserPod(p.node)]
      && Upgrading(older.Version(), cr, b) && InfrastructureReady(cr, b)
      && Withdrawn(older.Version(), cr, b.nodes[x]) && OthersUntouched(older.Version(), cr, b, x)
    ensures d == run[|run| - 1].(pods := [UserPod(p.node)])
    ensures UpgradeRun(older, cr, image, run + [d]) && Sane(cr, d)
    ensures d.nodes[x] in d.nodes && NextInLine(cr, d, d.nodes[x]) && PluginGone(cr, d, d.nodes[x])
  {
    hide UpgradeStart, StepAt, Environment, NewUserland, InPhase, Selects, UsesOnload, InfrastructureReady,
      NoStaleLabels, InfrastructureFirst;
    var from := older.Version();
    var b := run[|run| - 1];
    d := b.(pods := [UserPod(p.node)]);
    PluginStops(from, cr, b, p, UserPod(p.node));
    Extend(older, cr, image, run, d);
    assert d.nodes[x] in d.nodes;
    EnvironmentKeepsUpgrading(from, cr, b, d);
    SameInfrastructure(cr, b, d);
    ReadyWithLeader(from, cr, d, x);
    LeaderIsNext(from, cr, d, x);
    PodFacts(cr, d, p.node);
  }

  lemma LeaderIsNext(from: string, cr: Onload, c: ClusterState, x: nat)
    requires Upgrading(from, cr, c) && Leads(cr, c, x) && ReadyToUpgrade(cr, c) && Withdrawn(from, cr, c.nodes[x])
    ensures NextInLine(cr, c, c.nodes[x])
  {
    hide InPhase, InNameOrder, InfrastructureFirst, InfrastructureReady, Labelled, Selects;
    forall m | m in c.nodes && IsOutdated(cr, m) ensures !Below(m.name, c.nodes[x].name) {
      var i :| 0 <= i < |c.nodes| && c.nodes[i] == m;
      BelowIrreflexive(m.name);
      if i != x && Below(m.name, c.nodes[x].name) {
        BelowTransitive(m.name, c.nodes[x].name, m.name);
      }
    }
  }

  /**
   * From every upgrade start with a selected node there is an upgrade run whose last call takes the KMM
   * label of a node under a running user: the List of the pods to evict fails in that call alone.
   */
  lemma UnloadUnderUserIsReachable(older: Onload, cr: Onload, image: string, c: ClusterState)
    returns (run: seq<ClusterState>, x: nat, user: Pod)
    requires UpgradeStart(older, cr, c) && c.pods == [] && Eligible(cr) && SelectedNodes(cr, c) != []
    ensures UpgradeRun(older, cr, image, run) && run[0] == c && |run| > 1
    ensures var d, e := run[|run| - 2], run[|run| - 1];
      && e == AfterCall(cr, image, d, false)
      && x < |d.nodes| && Selected(cr, d.nodes[x]) && Kmm(cr, d.nodes[x]) == Some(older.Version())
      && x < |e.nodes| && e.nodes[x].name == d.nodes[x].name && Kmm(cr, e.nodes[x]).None?
      && user in d.pods && user in e.pods && user.node == e.nodes[x].name && UsesOnload(user) && !user.terminating
  {
    hide Converged, LabelsAgree, StepAt, Reconcile, ApplyAll, Upgrading, OthersUntouched, Selects, SelectNodes, UsesOnload,
      ReadyToUpgrade, InfrastructureReady, NextInLine, PluginGone;
    var p;
    x := LeaderExists(cr, c);
    run, p := RunToWithdrawn(older, cr, image, c, x);
    var d := PluginLeaves(older, cr, image, run, x, p);
    user := UserPod(p.node);
    UserUsesOnload(p.node);
    FailedListUnloadsUnderUser(cr, image, d, d.nodes[x], user);
    Unloaded(cr, image, d, x);
    CallIsStep(cr, image, d, false);
    Extend(older, cr, image, run + [d], AfterCall(cr, image, d, false));
    run := run + [d] + [AfterCall(cr, image, d, false)];
  }

  // ---- The next node withdrawn while the one before has no plugin ----

  lemma CallKeepsWayClear(cr: Onload, image: string, c: ClusterState, listed: bool)
    requires Sane(cr, c) && NothingInTheWay(cr, c)
    ensures NothingInTheWay(cr, AfterCall(cr, image, c, listed))
  {
    hide Reconcile, NothingInTheWay;
    ReconcileIsGuarded(cr, image, c, listed);
    WritesKeepWayClear(cr, c, Reconcile(cr, image, c, listed).writes, listed);
  }

  /** Calls with nothing in the way, until the first node is finished and the others are still to come. */
  lemma {:induction false} CallsUntilFinished(
    older: Onload, cr: Onload, image: string, run: seq<ClusterState>, x: nat) returns (longer: seq<ClusterState>)
    requires UpgradeRun(older, cr, image, run) && Eligible(cr) && Leads(cr, run[|run| - 1], x)
    requires NothingInTheWay(cr, run[|run| - 1])
    requires Steps(older.Version(), cr, run[|run| - 1]) >= 4 * |SelectedNodes(cr, run[|run| - 1])| - 4 >= 0
    ensures UpgradeRun(older, cr, image, longer) && longer[0] == run[0]
    ensures var d := longer[|longer| - 1];
      && Leads(cr, d, x) && NothingInTheWay(cr, d)
      && |SelectedNodes(cr, d)| == |SelectedNodes(cr, run[|run| - 1])|
      && Steps(older.Version(), cr, d) == 4 * |SelectedNodes(cr, d)| - 4
    decreases Steps(older.Version(), cr, run[|run| - 1])
  {
    hide UpgradeStart, StepAt, Steps, Unblocked, NothingInTheWay, Leads, SelectNodes, NewUserland, Reconcile,
      InPhase, InNameOrder, InfrastructureFirst, NoStaleLabels;
    var c := run[|run| - 1];
    if Steps(older.Version(), cr, c) == 4 * |SelectedNodes(cr, c)| - 4 {
      longer := run;
    } else {
      UpgradingAlways(older, cr, image, run, |run| - 1);
      HarmlessDoNotBlock(cr, c);
      var d := OneMoreCall(older, cr, image, run, x);
      CallKeepsWayClear(cr, image, c, true);
      longer := CallsUntilFinished(older, cr, image, run + [d], x);
    }
  }

  lemma AnotherSelected(cr: Onload, c: ClusterState, x: nat) returns (n: Node)
    requires DistinctNames(c.nodes) && x < |c.nodes| && |SelectedNodes(cr, c)| >= 2
    ensures n in c.nodes && Selected(cr, n) && n != c.nodes[x]
  {
    hide Selects;
    var items := SelectedNodes(cr, c);
    SelectKeepsDistinct(c.nodes, Includes(cr.spec.selector));
    assert items[0] in items && items[1] in items;
    n := if items[0] == c.nodes[x] then items[1] else items[0];
  }

  /** In a ready state with untouched nodes the next call withdraws one of them. */
  lemma NextIsWithdrawn(from: string, cr: Onload, image: string, c: ClusterState, x: nat, listed: bool) returns (n: Node)
    requires Eligible(cr) && Upgrading(from, cr, c) && Leads(cr, c, x) && ReadyToUpgrade(cr, c)
    requires Finished(cr, c.nodes[x]) && OthersUntouched(from, cr, c, x) && |SelectedNodes(cr, c)| >= 2
    ensures n in c.nodes && Selected(cr, n) && n.name != c.nodes[x].name && Untouched(from, cr, n)
    ensures Reconcile(cr, image, c, listed) == Plan([RemoveLabel(n.name, OnloadLabelName(cr.id))], AGAIN)
  {
    hide Reconcile, HandleNodeUpdate, Phases, InPhase, InNameOrder, InfrastructureFirst, NoStaleLabels,
      InfrastructureReady, Labelled, Selects, SelectNodes;
    var m := AnotherSelected(cr, c, x);
    var k :| 0 <= k < |c.nodes| && c.nodes[k] == m;
    NoNodesToUpgrade(cr, c);
    NextNodeIsFirstOutdated(cr, c);
    n := First(NodesToUpgrade(cr, c));
    var i :| 0 <= i < |c.nodes| && c.nodes[i] == n;
    assert i != x;
    ReconcileHandlesNext(cr, image, c, n, listed);
    NodeUpdateStages(cr, c, n, listed);
  }

  /**
   * From every upgrade start of two nodes or more, with nothing in the way, there is an upgrade run to a
   * state in which the first node is upgraded but runs no device-plugin pod, nor does any other, and the
   * next call withdraws another node all the same.
   */
  lemma NextNodeDoesNotWaitForPlugin(older: Onload, cr: Onload, image: string, c: ClusterState, listed: bool)
    returns (run: seq<ClusterState>, x: nat, n: Node)
    requires UpgradeStart(older, cr, c) && NothingInTheWay(cr, c) && Eligible(cr) && |SelectedNodes(cr, c)| >= 2
    ensures UpgradeRun(older, cr, image, run) && run[0] == c
    ensures var d := run[|run| - 1];
      && x < |d.nodes| && Selected(cr, d.nodes[x]) && Finished(cr, d.nodes[x])
      && (forall p | p in d.pods && p.node == d.nodes[x].name :: !IsDevicePlugin(cr, p))
      && n in d.nodes && Selected(cr, n) && n.name != d.nodes[x].name && Untouched(older.Version(), cr, n)
      && Reconcile(cr, image, d, listed) == Plan([RemoveLabel(n.name, OnloadLabelName(cr.id))], AGAIN)
  {
    hide Converged, LabelsAgree, StepAt, Upgrading, Steps, NewUserland, OthersUntouched, Finished, Untouched, Selects, SelectNodes,
      Reconcile, InfrastructureReady, ReadyToUpgrade;
    x := LeaderExists(cr, c);
    StartSteps(older, cr, c);
    assert UpgradeRun(older, cr, image, [c]) by { OneStateRun(older, cr, image, c); }
    run := CallsUntilFinished(older, cr, image, [c], x);
    var d := run[|run| - 1];
    UpgradingAlways(older, cr, image, run, |run| - 1);
    LeaderPhase(older.Version(), cr, d, x);
    ReadyWithLeader(older.Version(), cr, d, x);
    n := NextIsWithdrawn(older.Version(), cr, image, d, x, listed);
    assert d.nodes[x] in d.nodes;
    forall p | p in d.pods && p.node == d.nodes[x].name ensures !IsDevicePlugin(cr, p) {
      assert Harmless(cr, p);
    }
  }

  // ---- Upgrade starts exist for every resource ----

  /** A node as a converged operator leaves it. */
  function ServedNode(cr: Onload, name: string): Node {
    var labels := cr.spec.selector[KmmLabelName(cr.id, OnloadKind) := cr.Version()];
    var all := labels[OnloadLabelName(cr.id) := cr.Version()];
    Node(name, if UsesSFC(cr) then all[KmmLabelName(cr.id, SfcKind) := cr.Version()] else all)
  }

  /** A cluster of the given nodes, converged for the resource, without pods. */
  function Installed(cr: Onload, image: string, names: seq<string>): ClusterState {
    var onload := map[ModuleKey(cr.id, OnloadKind) := NewModule(cr, OnloadKind)];
    Cluster(
      seq(|names|, i requires 0 <= i < |names| => ServedNode(cr, names[i])),
      if UsesSFC(cr) then onload[ModuleKey(cr.id, SfcKind) := NewModule(cr, SfcKind)] else onload,
      map[DevicePluginKey(cr.id) := NewDaemonSet(cr, image)],
      [])
  }

  lemma ServedNodeIsServed(cr: Onload, name: string)
    requires SelectorIsForeign(cr)
    ensures var n := ServedNode(cr, name);
      && n.name == name && Selected(cr, n) && Kmm(cr, n) == Some(cr.Version()) == Plugin(cr, n)
      && Sfc(cr, n) == if UsesSFC(cr) then Some(cr.Version()) else None
  {
    hide UsesSFC, KmmLabelName, OnloadLabelName;
    OwnKeysDiffer(cr.id);
    SelectorStays(cr, cr.spec.selector);
  }

  lemma SelectorStays(cr: Onload, labels: Labels)
    requires SelectorIsForeign(cr)
    ensures Selects(Includes(cr.spec.selector), ServedNode(cr, "").labels)
  {
  }

  lemma {:induction false} AllSelected(nodes: seq<Node>, s: LabelSelector)
    requires forall i | 0 <= i < |nodes| :: Selects(s, nodes[i].labels)
    ensures SelectNodes(nodes, s) == nodes
  {
    hide Selects;
    if nodes != [] {
      AllSelected(nodes[1..], s);
    }
  }

  /** Any edit of a resource to another version, on any set of nodes it is installed on, starts an upgrade. */
  lemma InstalledIsStart(older: Onload, cr: Onload, image: string, names: seq<string>)
    requires SelectorIsForeign(older) && older.id == cr.id && older.spec.selector == cr.spec.selector
    requires older.Version() != cr.Version()
    requires forall i, j | 0 <= i < j < |names| :: names[i] != names[j]
    ensures var c := Installed(older, image, names);
      UpgradeStart(older, cr, c) && c.pods == [] && |SelectedNodes(cr, c)| == |names|
  {
    hide ServedNode, UsesSFC, ModuleKey, DevicePluginKey, NewModule, NewDaemonSet, KmmLabelName, OnloadLabelName;
    var c := Installed(older, image, names);
    forall i | 0 <= i < |names|
      ensures Selected(older, c.nodes[i]) && Agrees(older, c.nodes[i])
      ensures Kmm(older, c.nodes[i]) == Some(older.Version()) && Plugin(older, c.nodes[i]).Some?
      ensures UsesSFC(older) ==> Sfc(older, c.nodes[i]).Some?
      ensures c.nodes[i].name == names[i]
    {
      ServedNodeIsServed(older, names[i]);
    }
    AllSelected(c.nodes, Includes(cr.spec.selector));
    InstalledIsReady(older, image, names);
  }

  lemma InstalledIsReady(cr: Onload, image: string, names: seq<string>)
    ensures InfrastructureReady(cr, Installed(cr, image, names))
  {
    ModuleKeysDiffer(cr.id);
  }
}

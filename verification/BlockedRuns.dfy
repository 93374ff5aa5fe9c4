// Upgrades in which pods do get in the way: however long it waits, and whatever the
// environment does meanwhile, an upgrade is requeued an exact number of times.

module BlockedRuns {
  import opened Kubernetes
  import opened OnloadTypes
  import opened Outcomes
  import opened Planning
  import opened Machine
  import opened Refinement
  import opened Agreement
  import opened Upgrade
  import opened UpgradeRuns
  import opened Convergence
  import opened Measure
  import opened Relabelling
  import opened ExactCount

  // ---- A call that ends in a wait takes no step ----

  /** Where the labelling loop stops; if every other node is complete, all its writes are for that node. */
  lemma {:induction false} LoopStopsAt(cr: Onload, pods: seq<Pod>, items: seq<Node>) returns (n: Node)
    requires AddKmmLabelsTo(cr, pods, items).flow != Continue
    ensures n in items && AddKmmLabelsToNode(cr, pods, n).flow != Continue
    ensures (forall m | m in items && m != n :: KmmComplete(cr, m)) ==>
      AddKmmLabelsTo(cr, pods, items).writes == AddKmmLabelsToNode(cr, pods, n).writes
  {
    hide AddKmmLabelsToNode, KmmComplete;
    if AddKmmLabelsToNode(cr, pods, items[0]).flow != Continue {
      n := items[0];
    } else {
      n := LoopStopsAt(cr, pods, items[1..]);
      KmmIdleNode(cr, pods, items[0]);
      assert items[0] in items && forall m | m in items[1..] :: m in items;
    }
  }

  /** A node that makes the labelling wait is the one node in the middle, and its remaining steps stay as many. */
  lemma WaitingNodeCounts(from: string, cr: Onload, c: ClusterState, n: Node)
    requires Upgrading(from, cr, c) && n in c.nodes && Selected(cr, n)
    requires AddKmmLabelsToNode(cr, c.pods, n).flow != Continue
    ensures !Finished(cr, n) && !Untouched(from, cr, n)
    ensures NodeSteps(from, cr, AddKmmLabelsToNode(cr, c.pods, n).node) == NodeSteps(from, cr, n)
  {
    hide Upgrading, Agrees, PodsOn;
    UpgradingPhase(from, cr, c, n);
    OwnKeysDiffer(cr.id);
  }

  lemma CompleteOrInTheMiddle(from: string, cr: Onload, c: ClusterState, n: Node, m: Node)
    requires Upgrading(from, cr, c) && n in c.nodes && m in c.nodes && Selected(cr, n) && Selected(cr, m)
    requires !Finished(cr, n) && !Untouched(from, cr, n) && m != n
    ensures KmmComplete(cr, m)
  {
    OthersAreComplete(from, cr, c, n, m);
  }

  lemma LabellingWaitKeepsSteps(from: string, cr: Onload, c: ClusterState, items: seq<Node>)
    requires Upgrading(from, cr, c) && items == SelectedNodes(cr, c)
    requires AddKmmLabelsTo(cr, c.pods, items).flow != Continue
    ensures Steps(from, cr, ApplyAll(AddKmmLabelsTo(cr, c.pods, items).writes, c)) == Steps(from, cr, c)
  {
    hide Steps, NodeSteps, AddKmmLabelsTo, AddKmmLabelsToNode, KmmComplete, Finished, Untouched, Selects,
      InPhase, InNameOrder, InfrastructureFirst, NoStaleLabels, DaemonSetCurrent, ApplyAll;
    var n := LoopStopsAt(cr, c.pods, items);
    WaitingNodeCounts(from, cr, c, n);
    forall m | m in items && m != n ensures KmmComplete(cr, m) {
      CompleteOrInTheMiddle(from, cr, c, n, m);
    }
    var i :| 0 <= i < |c.nodes| && c.nodes[i] == n;
    BothLabelsEffect(cr, c, i);
    var d := c.(nodes := c.nodes[i := AddKmmLabelsToNode(cr, c.pods, n).node]);
    StepsFollowNode(from, cr, c, d, i);
  }

  lemma {:induction false} EvictionsKeepSteps(from: string, cr: Onload, c: ClusterState, ws: seq<ClusterWrite>)
    requires OnlyEvicts(ws)
    ensures SameButPods(c, ApplyAll(ws, c)) && Steps(from, cr, ApplyAll(ws, c)) == Steps(from, cr, c)
    decreases |ws|
  {
    hide NodeSteps;
    if ws != [] {
      assert ws[0] in ws;
      EvictionsKeepSteps(from, cr, Apply(ws[0], c), ws[1..]);
    }
  }

  lemma NodeUpdateWaits(cr: Onload, c: ClusterState, n: Node, listed: bool)
    requires HandleNodeUpdate(cr, c, n, listed).flow == WAIT
    ensures OnlyEvicts(HandleNodeUpdate(cr, c, n, listed).writes)
  {
    EvictionsOnlyEvict(PodsUsingOnload(c, n.name, listed));
  }

  lemma UpdateWaits(cr: Onload, image: string, c: ClusterState, listed: bool)
    requires CreateAndAddModules(cr, c).flow.Continue? && CreateDevicePluginDaemonSet(cr, image, c).flow.Continue?
    requires HandleUpdate(cr, c, listed).flow == WAIT
    ensures OnlyEvicts(HandleUpdate(cr, c, listed).writes)
  {
    hide HandleNodeUpdate, NodesToUpgrade;
    CreationPhaseFlows(cr, image, c);
    NodeUpdateWaits(cr, c, First(NodesToUpgrade(cr, c)), listed);
  }

  /** A complete Reconcile takes exactly one step if it asks to be requeued, and none otherwise. */
  lemma CallCounts(from: string, cr: Onload, image: string, c: ClusterState, listed: bool)
    requires Upgrading(from, cr, c) && !cr.deleting && NameFits(cr.id)
    ensures var p := Reconcile(cr, image, c, listed);
      Steps(from, cr, ApplyAll(p.writes, c)) + One(p.flow == AGAIN) == Steps(from, cr, c)
  {
    hide Steps, Upgrading, AddMissingKmmLabels, RemoveStaleLabels, HandleUpdate;
    DoneIffIdle(cr, image, c, listed);
    if Reconcile(cr, image, c, listed).flow == AGAIN {
      RequeueIsOneStep(from, cr, image, c, listed);
    } else if Reconcile(cr, image, c, listed).flow == WAIT {
      WaitCounts(from, cr, image, c, listed);
    }
  }

  lemma WaitCounts(from: string, cr: Onload, image: string, c: ClusterState, listed: bool)
    requires Upgrading(from, cr, c) && Phases(cr, image, c, listed).flow == WAIT
    ensures Steps(from, cr, ApplyAll(Phases(cr, image, c, listed).writes, c)) == Steps(from, cr, c)
  {
    hide Steps, Upgrading, HandleUpdate, AddKmmLabelsTo, RemoveStaleLabels, ApplyAll;
    LabelPhaseFlows(cr, c);
    CreationPhaseFlows(cr, image, c);
    StaleNeverWaits(cr, c, KmmLabelName(cr.id, OnloadKind));
    StaleNeverWaits(cr, c, KmmLabelName(cr.id, SfcKind));
    if AddKmmLabelsToNodes(cr, c).flow == WAIT {
      LabellingWaitKeepsSteps(from, cr, c, SelectedNodes(cr, c));
    } else {
      UpdateWaits(cr, image, c, listed);
      EvictionsKeepSteps(from, cr, c, HandleUpdate(cr, c, listed).writes);
    }
  }

  lemma StaleNeverWaits(cr: Onload, c: ClusterState, key: string)
    ensures RemoveStaleLabels(cr, c, key).flow != WAIT
  {
  }

  // ---- The environment takes no step ----

  lemma {:induction false} TotalOfSelected(from: string, cr: Onload, nodes: seq<Node>)
    ensures Total(nodes, NodeStepsOf(from, cr))
      == Total(SelectNodes(nodes, Includes(cr.spec.selector)), NodeStepsOf(from, cr))
  {
    hide Selects;
    if nodes != [] {
      TotalOfSelected(from, cr, nodes[1..]);
      assert !Selected(cr, nodes[0]) ==> NodeStepsOf(from, cr)(nodes[0]) == 0;
    }
  }

  lemma {:induction false} TotalsAgree(a: seq<Node>, b: seq<Node>, work: Node -> nat)
    requires |a| == |b| && forall i | 0 <= i < |a| :: work(a[i]) == work(b[i])
    ensures Total(a, work) == Total(b, work)
  {
    if a != [] {
      TotalsAgree(a[1..], b[1..], work);
    }
  }

  lemma SameNodeSameSteps(from: string, cr: Onload, n: Node, m: Node)
    requires SameNode(cr, n, m) && Selected(cr, n) && Selected(cr, m)
    ensures NodeSteps(from, cr, m) == NodeSteps(from, cr, n)
  {
    hide Selects;
  }

  lemma EnvironmentKeepsSteps(from: string, cr: Onload, c: ClusterState, d: ClusterState)
    requires Environment(cr, c, d)
    ensures Steps(from, cr, d) == Steps(from, cr, c)
  {
    hide SelectNodes, SameNode, NodeSteps, Selects;
    var a, b := SelectedNodes(cr, c), SelectedNodes(cr, d);
    TotalOfSelected(from, cr, c.nodes);
    TotalOfSelected(from, cr, d.nodes);
    assert InfrastructureWork(cr, d) == InfrastructureWork(cr, c);
    forall i | 0 <= i < |a| ensures NodeStepsOf(from, cr)(a[i]) == NodeStepsOf(from, cr)(b[i]) {
      assert a[i] in a && b[i] in b;
      SameNodeSameSteps(from, cr, a[i], b[i]);
    }
    TotalsAgree(a, b, NodeStepsOf(from, cr));
  }

  // ---- Runs without API failures ----

  /** A step of the environment, or a complete call; the List of pods to evict may still fail. */
  datatype Happening = Elsewhere | Call(listed: bool)

  predicate HappensAt(cr: Onload, image: string, happenings: seq<Happening>, run: seq<ClusterState>, i: nat)
    requires i < |happenings| && |run| == |happenings| + 1
  {
    match happenings[i]
    case Elsewhere => Environment(cr, run[i], run[i + 1])
    case Call(listed) => run[i + 1] == ApplyAll(Reconcile(cr, image, run[i], listed).writes, run[i])
  }

  predicate CompleteRun(
    older: Onload, cr: Onload, image: string, happenings: seq<Happening>, run: seq<ClusterState>)
  {
    && |run| == |happenings| + 1 && UpgradeStart(older, cr, run[0]) && !cr.deleting && NameFits(cr.id)
    && forall i: nat | i < |happenings| :: HappensAt(cr, image, happenings, run, i)
  }

  predicate AsksAgain(cr: Onload, image: string, c: ClusterState, h: Happening) {
    h.Call? && Reconcile(cr, image, c, h.listed).flow == AGAIN
  }

  /** How many of the first `i` happenings were calls that asked to be requeued at once. */
  function RequeuesSoFar(
    cr: Onload, image: string, happenings: seq<Happening>, run: seq<ClusterState>, i: nat): nat
    requires i <= |happenings| && |run| == |happenings| + 1
  {
    if i == 0 then 0
    else RequeuesSoFar(cr, image, happenings, run, i - 1) + One(AsksAgain(cr, image, run[i - 1], happenings[i - 1]))
  }

  lemma HappeningCounts(
    from: string, cr: Onload, image: string, happenings: seq<Happening>, run: seq<ClusterState>, i: nat)
    requires i < |happenings| && |run| == |happenings| + 1 && HappensAt(cr, image, happenings, run, i)
    requires Upgrading(from, cr, run[i]) && !cr.deleting && NameFits(cr.id)
    ensures Upgrading(from, cr, run[i + 1])
    ensures Steps(from, cr, run[i + 1]) + One(AsksAgain(cr, image, run[i], happenings[i])) == Steps(from, cr, run[i])
  {
    hide Steps, Upgrading, Environment, Reconcile;
    match happenings[i]
    case Elsewhere =>
      EnvironmentKeepsUpgrading(from, cr, run[i], run[i + 1]);
      EnvironmentKeepsSteps(from, cr, run[i], run[i + 1]);
    case Call(listed) =>
      CompleteKeepsUpgrading(from, cr, image, run[i], listed);
      CallCounts(from, cr, image, run[i], listed);
  }

  /** What has been done and what is left always add up. */
  lemma {:induction false} RequeuesAndStepsAddUp(
    older: Onload, cr: Onload, image: string, happenings: seq<Happening>, run: seq<ClusterState>, i: nat)
    requires CompleteRun(older, cr, image, happenings, run) && i <= |happenings|
    ensures Upgrading(older.Version(), cr, run[i])
    ensures RequeuesSoFar(cr, image, happenings, run, i) + Steps(older.Version(), cr, run[i])
      == UpgradeLength(older, cr, run[0])
  {
    hide Steps, Upgrading, HappensAt, UpgradeStart, AsksAgain, UpgradeLength;
    if i == 0 {
      StartIsUpgrading(older, cr, run[0]);
      StartSteps(older, cr, run[0]);
    } else {
      RequeuesAndStepsAddUp(older, cr, image, happenings, run, i - 1);
      assert HappensAt(cr, image, happenings, run, i - 1);
      HappeningCounts(older.Version(), cr, image, happenings, run, i - 1);
    }
  }

  /**
   * Blocked or not, an upgrade of N nodes has converged exactly when 4N+2 calls, or one more with SFC,
   * have asked to be requeued at once; no run ever sees more of them.
   */
  lemma ConvergedIffAllRequeues(
    older: Onload, cr: Onload, image: string, happenings: seq<Happening>, run: seq<ClusterState>, i: nat)
    requires CompleteRun(older, cr, image, happenings, run) && i <= |happenings|
    ensures RequeuesSoFar(cr, image, happenings, run, i) <= UpgradeLength(older, cr, run[0])
    ensures Converged(cr, run[i])
      <==> RequeuesSoFar(cr, image, happenings, run, i) == UpgradeLength(older, cr, run[0])
  {
    hide HappensAt, UpgradeStart, Steps, Upgrading, RequeuesSoFar, UpgradeLength;
    RequeuesAndStepsAddUp(older, cr, image, happenings, run, i);
    NoStepsIffConverged(older.Version(), cr, run[i]);
  }
}

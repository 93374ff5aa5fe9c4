// The first node by name in an upgrade: the number of steps left tells how far it has
// got, and runs can be built call by call until it has got there.

module Leader {
  import opened Ordering
  import opened Kubernetes
  import opened OnloadTypes
  import opened Planning
  import opened Machine
  import opened Refinement
  import opened Agreement
  import opened Upgrade
  import opened UpgradeRuns
  import opened Convergence
  import opened Measure
  import opened Relabelling
  import opened ExactCount
  import opened BlockedRuns
  import opened Limits

  // ---- Counting from the other end ----

  /** Steps already taken on one node, of the four it needs. */
  function Taken(from: string, cr: Onload, n: Node): nat {
    if Selected(cr, n) && NodeSteps(from, cr, n) <= 4 then 4 - NodeSteps(from, cr, n) else 0
  }

  function TakenOf(from: string, cr: Onload): Node -> nat {
    n => Taken(from, cr, n)
  }

  lemma {:induction false} LeftAndTaken(from: string, cr: Onload, nodes: seq<Node>)
    ensures Total(nodes, NodeStepsOf(from, cr)) + Total(nodes, TakenOf(from, cr))
      == 4 * |SelectNodes(nodes, Includes(cr.spec.selector))|
  {
    hide Selects;
    if nodes != [] {
      LeftAndTaken(from, cr, nodes[1..]);
      StepsOrTaken(from, cr, nodes[0]);
    }
  }

  lemma StepsOrTaken(from: string, cr: Onload, n: Node)
    ensures NodeStepsOf(from, cr)(n) + TakenOf(from, cr)(n) == if Selected(cr, n) then 4 else 0
  {
  }

  /** One node's share of a sum, and when it is all of it. */
  lemma {:induction false} ShareOf(nodes: seq<Node>, x: nat, work: Node -> nat)
    requires x < |nodes|
    ensures Total(nodes, work) >= work(nodes[x])
    ensures Total(nodes, work) == work(nodes[x]) <==> forall i | 0 <= i < |nodes| && i != x :: work(nodes[i]) == 0
  {
    if x == 0 {
      TotalZero(nodes[1..], work);
      assert forall i | 0 < i < |nodes| :: nodes[i] == nodes[1..][i - 1];
      assert forall n | n in nodes[1..] :: exists i :: 0 < i < |nodes| && nodes[i] == n;
    } else {
      ShareOf(nodes[1..], x - 1, work);
      assert forall i | 0 < i < |nodes| :: nodes[i] == nodes[1..][i - 1];
    }
  }

  lemma TakenTellsPhase(from: string, cr: Onload, c: ClusterState, n: Node)
    requires Upgrading(from, cr, c) && n in c.nodes && Selected(cr, n)
    ensures TakenOf(from, cr)(n) == 0 <==> Untouched(from, cr, n)
    ensures TakenOf(from, cr)(n) == 1 <==> Withdrawn(from, cr, n)
    ensures TakenOf(from, cr)(n) == 4 <==> Finished(cr, n)
  {
    hide Upgrading;
    UpgradingPhase(from, cr, c, n);
  }

  // ---- The first node by name ----

  /** Node number `x` is selected and sorts before all others. */
  predicate Leads(cr: Onload, c: ClusterState, x: nat) {
    && x < |c.nodes| && Selected(cr, c.nodes[x])
    && forall i | 0 <= i < |c.nodes| && i != x && Selected(cr, c.nodes[i]) :: Below(c.nodes[x].name, c.nodes[i].name)
  }

  lemma LeaderExists(cr: Onload, c: ClusterState) returns (x: nat)
    requires DistinctNames(c.nodes) && SelectedNodes(cr, c) != []
    ensures Leads(cr, c, x)
  {
    hide Selects;
    var items := SelectedNodes(cr, c);
    var n := First(items);
    assert n in items;
    var i :| 0 <= i < |c.nodes| && c.nodes[i] == n;
    x := i;
    forall k | 0 <= k < |c.nodes| && k != x && Selected(cr, c.nodes[k]) ensures Below(n.name, c.nodes[k].name) {
      assert c.nodes[k] in c.nodes && c.nodes[k] in items;
      BelowTotal(n.name, c.nodes[k].name);
    }
  }

  predicate OthersUntouched(from: string, cr: Onload, c: ClusterState, x: nat) {
    forall i | 0 <= i < |c.nodes| && i != x && Selected(cr, c.nodes[i]) :: Untouched(from, cr, c.nodes[i])
  }

  lemma OthersWait(from: string, cr: Onload, c: ClusterState, x: nat)
    requires Upgrading(from, cr, c) && Leads(cr, c, x) && !Finished(cr, c.nodes[x])
    ensures OthersUntouched(from, cr, c, x)
  {
    hide Finished, Untouched, Selects;
    assert c.nodes[x] in c.nodes;
    forall i | 0 <= i < |c.nodes| && i != x && Selected(cr, c.nodes[i]) ensures Untouched(from, cr, c.nodes[i]) {
      assert c.nodes[i] in c.nodes;
    }
  }

  lemma TakenFromLeader(from: string, cr: Onload, c: ClusterState, x: nat)
    requires Upgrading(from, cr, c) && Leads(cr, c, x)
    ensures var all, first := Total(c.nodes, TakenOf(from, cr)), TakenOf(from, cr)(c.nodes[x]);
      all >= first && (all == first <==> OthersUntouched(from, cr, c, x))
    ensures Steps(from, cr, c)
      == 4 * |SelectedNodes(cr, c)| - Total(c.nodes, TakenOf(from, cr)) + InfrastructureWork(cr, c)
  {
    hide Upgrading, Untouched, InfrastructureWork, Selects, NodeSteps;
    LeftAndTaken(from, cr, c.nodes);
    ShareOf(c.nodes, x, TakenOf(from, cr));
    forall i | 0 <= i < |c.nodes|
      ensures TakenOf(from, cr)(c.nodes[i]) == 0 <==> !Selected(cr, c.nodes[i]) || Untouched(from, cr, c.nodes[i])
    {
      assert c.nodes[i] in c.nodes;
      if Selected(cr, c.nodes[i]) { TakenTellsPhase(from, cr, c, c.nodes[i]); }
    }
  }

  lemma TouchedMeansReady(from: string, cr: Onload, c: ClusterState, n: Node)
    requires Upgrading(from, cr, c) && n in c.nodes && Selected(cr, n) && !Untouched(from, cr, n)
    ensures InfrastructureReady(cr, c) && InfrastructureWork(cr, c) == 0
  {
    hide Untouched, InPhase, NoStaleLabels, InNameOrder, Selects;
  }

  /** The number of steps left tells how far the first node has got. */
  lemma LeaderPhase(from: string, cr: Onload, c: ClusterState, x: nat)
    requires Upgrading(from, cr, c) && Leads(cr, c, x)
    ensures var n, all := c.nodes[x], 4 * |SelectedNodes(cr, c)|;
      && (Steps(from, cr, c) >= all ==> Untouched(from, cr, n))
      && (Steps(from, cr, c) < all ==> InfrastructureReady(cr, c))
      && (Steps(from, cr, c) == all - 1 ==> Withdrawn(from, cr, n) && OthersUntouched(from, cr, c, x))
      && (Steps(from, cr, c) == all - 4 ==> Finished(cr, n) && OthersUntouched(from, cr, c, x))
  {
    hide Upgrading, Steps, Untouched, Finished, Withdrawn, InfrastructureReady, InfrastructureWork, OthersUntouched,
      Taken, Total, Selects;
    var n := c.nodes[x];
    assert n in c.nodes;
    TakenFromLeader(from, cr, c, x);
    TakenTellsPhase(from, cr, c, n);
    if !Finished(cr, n) { OthersWait(from, cr, c, x); }
    if !Untouched(from, cr, n) { TouchedMeansReady(from, cr, c, n); }
  }

  // ---- Building runs ----

  lemma Extend(older: Onload, cr: Onload, image: string, run: seq<ClusterState>, d: ClusterState)
    requires UpgradeRun(older, cr, image, run) && UpgradeStep(cr, image, run[|run| - 1], d)
    ensures UpgradeRun(older, cr, image, run + [d])
  {
    hide UpgradeStep, UpgradeStart;
    var longer := run + [d];
    forall i: nat | i + 1 < |longer| ensures StepAt(cr, image, longer, i) {
      if i + 1 < |run| { assert StepAt(cr, image, run, i); }
    }
  }

  /** The cluster after one complete Reconcile. */
  function AfterCall(cr: Onload, image: string, c: ClusterState, listed: bool): ClusterState {
    ApplyAll(Reconcile(cr, image, c, listed).writes, c)
  }

  lemma CallIsStep(cr: Onload, image: string, c: ClusterState, listed: bool)
    ensures UpgradeStep(cr, image, c, AfterCall(cr, image, c, listed))
  {
    hide Reconcile, ApplyAll;
    var ws := Reconcile(cr, image, c, listed).writes;
    assert ws[..|ws|] == ws;
    assert ReconciledTo(cr, image, c, AfterCall(cr, image, c, listed), listed, |ws|);
  }

  lemma {:induction false} OthersKeepPods(c: ClusterState, ws: seq<ClusterWrite>)
    requires forall w | w in ws :: !w.EvictPod?
    ensures ApplyAll(ws, c).pods == c.pods
    decreases |ws|
  {
    if ws != [] {
      assert ws[0] in ws;
      OthersKeepPods(Apply(ws[0], c), ws[1..]);
    }
  }

  /** A call that takes a step evicts nobody. */
  lemma StepKeepsPods(from: string, cr: Onload, image: string, c: ClusterState, listed: bool)
    requires OneStepFewer(from, cr, c, Reconcile(cr, image, c, listed).writes)
    ensures AfterCall(cr, image, c, listed).pods == c.pods
  {
    hide Reconcile, Steps, ApplyAll;
    var ws := Reconcile(cr, image, c, listed).writes;
    OneKindOfWritePerCall(cr, image, c, listed);
    if OnlyEvicts(ws) {
      EvictionsKeepSteps(from, cr, c, ws);
      assert false;
    }
    OthersKeepPods(c, ws);
  }

  lemma LeaderStays(cr: Onload, image: string, c: ClusterState, listed: bool, x: nat)
    requires Sane(cr, c) && Leads(cr, c, x)
    ensures var d := AfterCall(cr, image, c, listed);
      && Leads(cr, d, x) && d.nodes[x].name == c.nodes[x].name && |SelectedNodes(cr, d)| == |SelectedNodes(cr, c)|
  {
    hide Reconcile, ApplyAll, SelectNodes, Selects, Within, ForeignLabelsKept;
    ReconcileIsGuarded(cr, image, c, listed);
    WritesAreBounded(cr, c, Reconcile(cr, image, c, listed).writes, listed);
    var d := AfterCall(cr, image, c, listed);
    assert forall i | 0 <= i < |c.nodes| :: Bounded(cr, c.nodes[i], d.nodes[i]);
    SelectPairs(c.nodes, d.nodes, Includes(cr.spec.selector), (n, m) => true);
  }

  /** One more unblocked call in an upgrade run. */
  lemma OneMoreCall(older: Onload, cr: Onload, image: string, run: seq<ClusterState>, x: nat) returns (d: ClusterState)
    requires UpgradeRun(older, cr, image, run) && Eligible(cr)
    requires Unblocked(cr, run[|run| - 1]) && Leads(cr, run[|run| - 1], x)
    requires Steps(older.Version(), cr, run[|run| - 1]) > 0
    ensures d == AfterCall(cr, image, run[|run| - 1], true) && UpgradeRun(older, cr, image, run + [d])
    ensures Upgrading(older.Version(), cr, d)
    ensures Steps(older.Version(), cr, d) == Steps(older.Version(), cr, run[|run| - 1]) - 1
    ensures var c := run[|run| - 1];
      && d.pods == c.pods && Leads(cr, d, x) && d.nodes[x].name == c.nodes[x].name
      && |SelectedNodes(cr, d)| == |SelectedNodes(cr, c)|
  {
    hide Reconcile, Steps, UpgradeStart, StepAt, UpgradeStep, Unblocked, Leads, SelectNodes, NewUserland,
      InPhase, InNameOrder, InfrastructureFirst, NoStaleLabels;
    var c := run[|run| - 1];
    d := AfterCall(cr, image, c, true);
    UpgradingAlways(older, cr, image, run, |run| - 1);
    CallIsStep(cr, image, c, true);
    Extend(older, cr, image, run, d);
    UnblockedStep(older.Version(), cr, image, c, true);
    StepKeepsPods(older.Version(), cr, image, c, true);
    LeaderStays(cr, image, c, true, x);
    UpgradingAlways(older, cr, image, run + [d], |run|);
  }

  /** When the first outdated node is known, all other selected nodes are untouched or finished, and nothing else is left. */
  lemma ReadyWithLeader(from: string, cr: Onload, c: ClusterState, x: nat)
    requires Upgrading(from, cr, c) && Leads(cr, c, x) && InfrastructureReady(cr, c) && OthersUntouched(from, cr, c, x)
    requires Withdrawn(from, cr, c.nodes[x]) || Finished(cr, c.nodes[x])
    ensures ReadyToUpgrade(cr, c)
  {
    hide InfrastructureReady, InNameOrder, InfrastructureFirst, Selects;
    forall n | n in c.nodes && Selected(cr, n)
      ensures Untouched(from, cr, n) || Withdrawn(from, cr, n) || Finished(cr, n)
    {
      var i :| 0 <= i < |c.nodes| && c.nodes[i] == n;
    }
  }
}

// An unblocked upgrade of N nodes takes an exact number of writing Reconciles.

module ExactCount {
  import opened Wrappers
  import opened Ordering
  import opened Kubernetes
  import opened OnloadTypes
  import opened Outcomes
  import opened Planning
  import opened Machine
  import opened Refinement
  import opened Agreement
  import opened Upgrade
  import opened UpgradeRuns
  import opened Convergence
  import opened Measure

  // ---- What the labelling phases do in full ----

  lemma SetLabelAt(c: ClusterState, i: nat, key: string, value: string)
    requires DistinctNames(c.nodes) && i < |c.nodes|
    ensures var n := c.nodes[i];
      Apply(SetLabel(n.name, key, value), c) == c.(nodes := c.nodes[i := n.(labels := n.labels[key := value])])
  {
  }

  lemma RemoveLabelAt(c: ClusterState, i: nat, key: string)
    requires DistinctNames(c.nodes) && i < |c.nodes|
    ensures var n := c.nodes[i];
      Apply(RemoveLabel(n.name, key), c) == c.(nodes := c.nodes[i := n.(labels := n.labels - {key})])
  {
  }

  lemma OneLabelEffect(cr: Onload, c: ClusterState, i: nat, kind: ModuleKind)
    requires DistinctNames(c.nodes) && i < |c.nodes|
    ensures var s := AddKmmLabelToNode(cr, c.pods, c.nodes[i], kind);
      ApplyAll(s.writes, c) == c.(nodes := c.nodes[i := s.node]) && s.node.name == c.nodes[i].name
  {
    SetLabelAt(c, i, KmmLabelName(cr.id, kind), cr.Version());
    assert c.nodes[i := c.nodes[i]] == c.nodes;
  }

  lemma BothLabelsEffect(cr: Onload, c: ClusterState, i: nat)
    requires DistinctNames(c.nodes) && i < |c.nodes|
    ensures var s := AddKmmLabelsToNode(cr, c.pods, c.nodes[i]);
      ApplyAll(s.writes, c) == c.(nodes := c.nodes[i := s.node]) && s.node.name == c.nodes[i].name
  {
    var first := AddKmmLabelToNode(cr, c.pods, c.nodes[i], OnloadKind);
    OneLabelEffect(cr, c, i, OnloadKind);
    if first.flow == Continue && UsesSFC(cr) {
      var d := c.(nodes := c.nodes[i := first.node]);
      OneLabelEffect(cr, d, i, SfcKind);
      var second := AddKmmLabelToNode(cr, d.pods, first.node, SfcKind);
      ApplyAllConcat(first.writes, second.writes, c);
      assert d.nodes[i := second.node] == c.nodes[i := second.node];
    }
  }

  /** The labelling loop treats every listed node, and only those. */
  predicate Treated(c: ClusterState, d: ClusterState, items: seq<Node>, treat: Node -> Node) {
    && SameObjects(c, d) && |d.nodes| == |c.nodes|
    && forall k | 0 <= k < |c.nodes| :: d.nodes[k] == if c.nodes[k] in items then treat(c.nodes[k]) else c.nodes[k]
  }

  predicate SameObjects(c: ClusterState, d: ClusterState) {
    d.modules == c.modules && d.daemonSets == c.daemonSets && d.pods == c.pods
  }

  /** Treating the head and then the tail treats the whole list. */
  lemma TreatedStep(c: ClusterState, i: nat, e: ClusterState, items: seq<Node>, treat: Node -> Node)
    requires items != [] && Current(c, items) && DistinctNames(c.nodes)
    requires i < |c.nodes| && c.nodes[i] == items[0] && treat(items[0]).name == items[0].name
    requires Treated(c.(nodes := c.nodes[i := treat(items[0])]), e, items[1..], treat)
    ensures Treated(c, e, items, treat)
  {
    var d := c.(nodes := c.nodes[i := treat(items[0])]);
    forall k | 0 <= k < |c.nodes|
      ensures e.nodes[k] == if c.nodes[k] in items then treat(c.nodes[k]) else c.nodes[k]
    {
      if k == i {
        assert treat(items[0]) !in items[1..];
      } else {
        assert d.nodes[k] == c.nodes[k] && c.nodes[k] != items[0];
        assert c.nodes[k] in items <==> c.nodes[k] in items[1..];
      }
    }
  }

  function KmmTreatment(cr: Onload, pods: seq<Pod>): Node -> Node {
    n => AddKmmLabelsToNode(cr, pods, n).node
  }

  lemma {:induction false} KmmLoopEffect(cr: Onload, c: ClusterState, items: seq<Node>)
    requires DistinctNames(c.nodes) && Current(c, items)
    requires AddKmmLabelsTo(cr, c.pods, items).flow == Continue
    ensures Treated(c, ApplyAll(AddKmmLabelsTo(cr, c.pods, items).writes, c), items, KmmTreatment(cr, c.pods))
    decreases |items|
  {
    if items != [] {
      var step := AddKmmLabelsToNode(cr, c.pods, items[0]);
      var rest := AddKmmLabelsTo(cr, c.pods, items[1..]);
      assert items[0] in items;
      var i :| 0 <= i < |c.nodes| && c.nodes[i] == items[0];
      BothLabelsEffect(cr, c, i);
      var d := c.(nodes := c.nodes[i := step.node]);
      CurrentTail(c, d, items);
      KmmLoopEffect(cr, d, items[1..]);
      ApplyAllConcat(step.writes, rest.writes, c);
      TreatedStep(c, i, ApplyAll(rest.writes, d), items, KmmTreatment(cr, c.pods));
    }
  }

  function WithPlugin(cr: Onload, n: Node): Node {
    if Read(n.labels, KmmLabelName(cr.id, OnloadKind)) == cr.Version() && OnloadLabelName(cr.id) !in n.labels
    then n.(labels := n.labels[OnloadLabelName(cr.id) := cr.Version()]) else n
  }

  function PluginTreatment(cr: Onload): Node -> Node {
    n => WithPlugin(cr, n)
  }

  /** The onload label of one node: what the loop writes for it gives the treated node. */
  lemma OnePluginEffect(cr: Onload, c: ClusterState, i: nat)
    requires DistinctNames(c.nodes) && i < |c.nodes|
    ensures var d := c.(nodes := c.nodes[i := WithPlugin(cr, c.nodes[i])]);
      c.nodes[i] == WithPlugin(cr, c.nodes[i]) ==> d == c
    ensures c.nodes[i] != WithPlugin(cr, c.nodes[i]) ==>
      ApplyAll([SetLabel(c.nodes[i].name, OnloadLabelName(cr.id), cr.Version())], c)
      == c.(nodes := c.nodes[i := WithPlugin(cr, c.nodes[i])])
  {
    hide OnloadLabelName, KmmLabelName;
    var w: ClusterWrite := SetLabel(c.nodes[i].name, OnloadLabelName(cr.id), cr.Version());
    SetLabelAt(c, i, OnloadLabelName(cr.id), cr.Version());
    assert ApplyAll([w], c) == Apply(w, c);
  }

  lemma OnloadAdditionsHead(cr: Onload, items: seq<Node>)
    requires items != []
    ensures OnloadAdditions(cr, items)
      == (if WithPlugin(cr, items[0]) == items[0] then []
          else [SetLabel(items[0].name, OnloadLabelName(cr.id), cr.Version())]) + OnloadAdditions(cr, items[1..])
  {
    hide OnloadLabelName, KmmLabelName;
    var n := items[0];
    assert WithPlugin(cr, n) == n || OnloadLabelName(cr.id) in WithPlugin(cr, n).labels;
  }

  lemma {:induction false} OnloadLoopEffect(cr: Onload, c: ClusterState, items: seq<Node>)
    requires DistinctNames(c.nodes) && Current(c, items)
    ensures Treated(c, ApplyAll(OnloadAdditions(cr, items), c), items, PluginTreatment(cr))
    decreases |items|
  {
    hide WithPlugin, Apply;
    if items == [] {
      assert OnloadAdditions(cr, items) == [];
    } else {
      hide OnloadAdditions, Treated;
      var n := items[0];
      var rest := OnloadAdditions(cr, items[1..]);
      assert n in items;
      var i :| 0 <= i < |c.nodes| && c.nodes[i] == n;
      var d := c.(nodes := c.nodes[i := WithPlugin(cr, n)]);
      WithPluginKeepsName(cr, n);
      CurrentTail(c, d, items);
      OnloadLoopEffect(cr, d, items[1..]);
      OnePluginEffect(cr, c, i);
      OnloadAdditionsHead(cr, items);
      if WithPlugin(cr, n) == n {
        assert OnloadAdditions(cr, items) == rest;
      } else {
        ApplyAllConcat([SetLabel(n.name, OnloadLabelName(cr.id), cr.Version())], rest, c);
      }
      TreatedStep(c, i, ApplyAll(rest, d), items, PluginTreatment(cr));
    }
  }

  lemma WithPluginKeepsName(cr: Onload, n: Node)
    ensures WithPlugin(cr, n).name == n.name
  {
  }

  // ---- Writing Reconciles still to come in an upgrade ----

  function NodeSteps(from: string, cr: Onload, n: Node): nat {
    if !Selected(cr, n) then 0
    else if Kmm(cr, n) == Some(from) then 3 + One(Plugin(cr, n).Some?)
    else
      One(Kmm(cr, n).None?) + One(Plugin(cr, n).None?)
      + One(UsesSFC(cr) && Kmm(cr, n).Some? && Sfc(cr, n).None?)
  }

  function NodeStepsOf(from: string, cr: Onload): Node -> nat {
    n => NodeSteps(from, cr, n)
  }

  function Steps(from: string, cr: Onload, c: ClusterState): nat {
    Total(c.nodes, NodeStepsOf(from, cr)) + InfrastructureWork(cr, c)
  }

  /** When only node `i` changes, the count changes as that node's does. */
  lemma StepsFollowNode(from: string, cr: Onload, c: ClusterState, d: ClusterState, i: nat)
    requires i < |c.nodes| && |d.nodes| == |c.nodes|
    requires forall k | 0 <= k < |c.nodes| && k != i :: d.nodes[k] == c.nodes[k]
    requires d.modules == c.modules && d.daemonSets == c.daemonSets
    ensures Steps(from, cr, d) - Steps(from, cr, c) == NodeSteps(from, cr, d.nodes[i]) - NodeSteps(from, cr, c.nodes[i])
  {
    hide NodeSteps;
    TotalChange(c.nodes, d.nodes, i, NodeStepsOf(from, cr));
  }

  predicate OneStepFewer(from: string, cr: Onload, c: ClusterState, ws: seq<ClusterWrite>) {
    ws != [] && Steps(from, cr, ApplyAll(ws, c)) == Steps(from, cr, c) - 1
  }

  /** In an upgrade the only node in the middle is neither finished nor untouched. */
  lemma OthersAreComplete(from: string, cr: Onload, c: ClusterState, n: Node, m: Node)
    requires Upgrading(from, cr, c) && n in c.nodes && m in c.nodes && Selected(cr, n) && Selected(cr, m)
    requires !Finished(cr, n) && !Untouched(from, cr, n) && m != n
    ensures Finished(cr, m) || Untouched(from, cr, m)
  {
    BelowTotal(m.name, n.name);
    if m.name == n.name { SameName(c, n); }
  }

  lemma KmmTreatmentCounts(from: string, cr: Onload, c: ClusterState, n: Node)
    requires Upgrading(from, cr, c) && n in c.nodes && Selected(cr, n)
    requires AddKmmLabelsToNode(cr, c.pods, n).flow == Continue
    ensures var m := AddKmmLabelsToNode(cr, c.pods, n).node;
      if KmmComplete(cr, n) then m == n
      else !Finished(cr, n) && !Untouched(from, cr, n) && NodeSteps(from, cr, m) == NodeSteps(from, cr, n) - 1
  {
    hide Upgrading, Agrees;
    assert InPhase(from, cr, n) && from != cr.Version() by { UpgradingPhase(from, cr, c, n); }
    OwnKeysDiffer(cr.id);
  }

  lemma UpgradingPhase(from: string, cr: Onload, c: ClusterState, n: Node)
    requires Upgrading(from, cr, c) && n in c.nodes && Selected(cr, n)
    ensures InPhase(from, cr, n) && from != cr.Version() && SelectorIsForeign(cr)
  {
  }

  lemma PluginTreatmentCounts(from: string, cr: Onload, c: ClusterState, n: Node)
    requires Upgrading(from, cr, c) && n in c.nodes && Selected(cr, n) && KmmComplete(cr, n)
    ensures var m := WithPlugin(cr, n);
      if PluginComplete(cr, n) then m == n
      else !Finished(cr, n) && !Untouched(from, cr, n) && NodeSteps(from, cr, m) == NodeSteps(from, cr, n) - 1
  {
    OwnKeysDiffer(cr.id);
    assert InPhase(from, cr, n);
  }

  /** Treating a list in which one node alone needs treatment is one step. */
  lemma TreatmentIsOneStep(
    from: string, cr: Onload, c: ClusterState, d: ClusterState, items: seq<Node>, treat: Node -> Node, n: Node)
    requires DistinctNames(c.nodes) && Treated(c, d, items, treat) && n in items && n in c.nodes
    requires forall m | m in items && m in c.nodes && m != n :: treat(m) == m
    requires NodeSteps(from, cr, treat(n)) == NodeSteps(from, cr, n) - 1
    ensures Steps(from, cr, d) == Steps(from, cr, c) - 1
  {
    hide NodeSteps, Steps;
    var i :| 0 <= i < |c.nodes| && c.nodes[i] == n;
    forall k | 0 <= k < |c.nodes| && k != i ensures d.nodes[k] == c.nodes[k] {
      assert c.nodes[k].name != n.name;
    }
    StepsFollowNode(from, cr, c, d, i);
  }

  lemma OthersNeedNoKmmLabel(from: string, cr: Onload, c: ClusterState, n: Node, m: Node)
    requires Upgrading(from, cr, c) && n in c.nodes && m in c.nodes && Selected(cr, n) && Selected(cr, m) && m != n
    requires AddKmmLabelsToNode(cr, c.pods, n).flow == AddKmmLabelsToNode(cr, c.pods, m).flow == Continue
    requires !KmmComplete(cr, n)
    ensures AddKmmLabelsToNode(cr, c.pods, m).node == m
  {
    hide AddKmmLabelsToNode, KmmComplete, Finished, Untouched, Upgrading, NodeSteps;
    KmmTreatmentCounts(from, cr, c, n);
    OthersAreComplete(from, cr, c, n, m);
    KmmTreatmentCounts(from, cr, c, m);
  }

  lemma KmmLoopIsOneStep(from: string, cr: Onload, c: ClusterState, items: seq<Node>)
    requires Upgrading(from, cr, c) && Current(c, items) && forall n | n in items :: Selected(cr, n)
    requires AddKmmLabelsTo(cr, c.pods, items).flow == Continue && AddKmmLabelsTo(cr, c.pods, items).writes != []
    ensures OneStepFewer(from, cr, c, AddKmmLabelsTo(cr, c.pods, items).writes)
  {
    hide AddKmmLabelsTo, AddKmmLabelsToNode, KmmComplete, InPhase, NodeSteps, Steps, Treated,
      InNameOrder, InfrastructureFirst, NoStaleLabels, DaemonSetCurrent, Selects, Apply;
    KmmIdle(cr, c.pods, items);
    KmmLoopEffect(cr, c, items);
    KmmLoopContinues(cr, c.pods, items);
    var n :| n in items && !KmmComplete(cr, n);
    KmmTreatmentCounts(from, cr, c, n);
    var treat := KmmTreatment(cr, c.pods);
    forall m | m in items && m in c.nodes && m != n ensures treat(m) == m {
      OthersNeedNoKmmLabel(from, cr, c, n, m);
    }
    TreatmentIsOneStep(from, cr, c, ApplyAll(AddKmmLabelsTo(cr, c.pods, items).writes, c), items, treat, n);
  }

  lemma KmmPhaseIsOneStep(from: string, cr: Onload, c: ClusterState)
    requires Upgrading(from, cr, c) && AddMissingKmmLabels(cr, c).flow == AGAIN
    ensures OneStepFewer(from, cr, c, AddMissingKmmLabels(cr, c).writes)
  {
    hide AddKmmLabelsTo, OneStepFewer;
    ListIsCurrent(c, Includes(cr.spec.selector));
    KmmIdle(cr, c.pods, SelectNodes(c.nodes, Includes(cr.spec.selector)));
    KmmLoopIsOneStep(from, cr, c, SelectNodes(c.nodes, Includes(cr.spec.selector)));
  }

  lemma {:induction false} KmmLoopContinues(cr: Onload, pods: seq<Pod>, items: seq<Node>)
    requires AddKmmLabelsTo(cr, pods, items).flow == Continue
    ensures forall n | n in items :: AddKmmLabelsToNode(cr, pods, n).flow == Continue
  {
    if items != [] {
      KmmLoopContinues(cr, pods, items[1..]);
      assert forall n :: n in items <==> n == items[0] || n in items[1..];
    }
  }

  lemma OthersNeedNoOnloadLabel(from: string, cr: Onload, c: ClusterState, n: Node, m: Node)
    requires Upgrading(from, cr, c) && n in c.nodes && m in c.nodes && Selected(cr, n) && Selected(cr, m) && m != n
    requires KmmComplete(cr, n) && KmmComplete(cr, m) && !PluginComplete(cr, n)
    ensures WithPlugin(cr, m) == m
  {
    hide WithPlugin, KmmComplete, PluginComplete, Finished, Untouched, Upgrading, NodeSteps;
    PluginTreatmentCounts(from, cr, c, n);
    OthersAreComplete(from, cr, c, n, m);
    PluginTreatmentCounts(from, cr, c, m);
  }

  lemma PluginPhaseIsOneStep(from: string, cr: Onload, c: ClusterState)
    requires Upgrading(from, cr, c) && AddMissingOnloadLabels(cr, c).flow == AGAIN
    requires forall n | n in c.nodes && Selected(cr, n) :: KmmComplete(cr, n)
    ensures OneStepFewer(from, cr, c, AddMissingOnloadLabels(cr, c).writes)
  {
    hide WithPlugin, PluginComplete, KmmComplete, InPhase, NodeSteps, Steps, Treated,
      InNameOrder, InfrastructureFirst, NoStaleLabels, DaemonSetCurrent, OnloadAdditions;
    var items := SelectNodes(c.nodes, Includes(cr.spec.selector));
    ListIsCurrent(c, Includes(cr.spec.selector));
    KmmPresent(cr, c, items);
    OnloadIdle(cr, items);
    OnloadLoopEffect(cr, c, items);
    var n :| n in items && !PluginComplete(cr, n);
    PluginTreatmentCounts(from, cr, c, n);
    var treat := PluginTreatment(cr);
    forall m | m in items && m in c.nodes && m != n ensures treat(m) == m {
      OthersNeedNoOnloadLabel(from, cr, c, n, m);
    }
    TreatmentIsOneStep(from, cr, c, ApplyAll(OnloadAdditions(cr, items), c), items, treat, n);
  }

  lemma KmmPresent(cr: Onload, c: ClusterState, items: seq<Node>)
    requires forall n | n in c.nodes && Selected(cr, n) :: KmmComplete(cr, n)
    requires forall n | n in items :: n in c.nodes && Selected(cr, n)
    ensures forall n | n in items :: Kmm(cr, n).Some?
  {
  }

  /** A phase that makes one write to a Module or the DaemonSet. */
  lemma ObjectWriteIsOneStep(from: string, cr: Onload, c: ClusterState, ws: seq<ClusterWrite>, listed: bool)
    requires |ws| == 1 && GuardedRun(cr, c, ws, listed)
    requires !ws[0].SetLabel? && !ws[0].RemoveLabel? && !ws[0].EvictPod?
    ensures OneStepFewer(from, cr, c, ws)
  {
    InfrastructureWrite(cr, c, ws[0], listed);
    assert ApplyAll(ws, c) == Apply(ws[0], c);
  }

  lemma ModulePhasesAreOneStep(from: string, cr: Onload, c: ClusterState, kind: ModuleKind, listed: bool)
    ensures var p := CreateAndAddModuleIfUsed(cr, c, kind); p.flow == AGAIN ==> OneStepFewer(from, cr, c, p.writes)
    ensures var p := PatchOrDeleteModule(cr, c, kind); p.flow == AGAIN ==> OneStepFewer(from, cr, c, p.writes)
  {
    ModulePhasesGuarded(cr, c, kind, listed);
    var create, patch := CreateAndAddModuleIfUsed(cr, c, kind), PatchOrDeleteModule(cr, c, kind);
    if create.flow == AGAIN { ObjectWriteIsOneStep(from, cr, c, create.writes, listed); }
    if patch.flow == AGAIN { ObjectWriteIsOneStep(from, cr, c, patch.writes, listed); }
  }

  lemma DaemonSetPhasesAreOneStep(from: string, cr: Onload, image: string, c: ClusterState, listed: bool)
    ensures var p := CreateDevicePluginDaemonSet(cr, image, c);
      p.flow == AGAIN ==> OneStepFewer(from, cr, c, p.writes)
    ensures var p := HandleDevicePluginUpdate(cr, c); p.flow == AGAIN ==> OneStepFewer(from, cr, c, p.writes)
  {
    DaemonSetPhasesGuarded(cr, image, c, listed);
    var create, patch := CreateDevicePluginDaemonSet(cr, image, c), HandleDevicePluginUpdate(cr, c);
    if create.flow == AGAIN { ObjectWriteIsOneStep(from, cr, c, create.writes, listed); }
    if patch.flow == AGAIN { ObjectWriteIsOneStep(from, cr, c, patch.writes, listed); }
  }

  lemma WithdrawIsOneStep(from: string, cr: Onload, c: ClusterState, n: Node)
    requires Upgrading(from, cr, c) && n in c.nodes && Selected(cr, n) && Untouched(from, cr, n)
    ensures OneStepFewer(from, cr, c, [RemoveLabel(n.name, OnloadLabelName(cr.id))])
  {
    hide Steps;
    OwnKeysDiffer(cr.id);
    var i :| 0 <= i < |c.nodes| && c.nodes[i] == n;
    var ws: seq<ClusterWrite> := [RemoveLabel(n.name, OnloadLabelName(cr.id))];
    RemoveLabelAt(c, i, OnloadLabelName(cr.id));
    RemoveLabelEffect(cr, c, n.name, OnloadLabelName(cr.id));
    StepsFollowNode(from, cr, c, Apply(ws[0], c), i);
    assert ApplyAll(ws, c) == Apply(ws[0], c);
  }

  lemma UnloadIsOneStep(from: string, cr: Onload, c: ClusterState, n: Node)
    requires Upgrading(from, cr, c) && n in c.nodes && Selected(cr, n) && Withdrawn(from, cr, n)
    ensures OneStepFewer(from, cr, c,
      [RemoveLabel(n.name, KmmLabelName(cr.id, SfcKind)), RemoveLabel(n.name, KmmLabelName(cr.id, OnloadKind))])
  {
    hide Steps;
    OwnKeysDiffer(cr.id);
    var i :| 0 <= i < |c.nodes| && c.nodes[i] == n;
    var sfc: ClusterWrite := RemoveLabel(n.name, KmmLabelName(cr.id, SfcKind));
    var kmm: ClusterWrite := RemoveLabel(n.name, KmmLabelName(cr.id, OnloadKind));
    var d := Apply(sfc, c);
    RemoveLabelAt(c, i, sfc.key);
    RemoveLabelEffect(cr, c, n.name, sfc.key);
    RemoveLabelAt(d, i, kmm.key);
    RemoveLabelEffect(cr, d, n.name, kmm.key);
    TwoWrites(sfc, kmm, c);
    StepsFollowNode(from, cr, c, Apply(kmm, d), i);
  }

  lemma TwoWrites(v: ClusterWrite, w: ClusterWrite, c: ClusterState)
    ensures ApplyAll([v, w], c) == Apply(w, Apply(v, c))
  {
    assert [v, w][1..] == [w];
    assert ApplyAll([w], Apply(v, c)) == Apply(w, Apply(v, c));
  }

  lemma NodeUpdateIsOneStep(from: string, cr: Onload, c: ClusterState, n: Node, listed: bool)
    requires Upgrading(from, cr, c) && n in c.nodes && Selected(cr, n) && IsOutdated(cr, n)
    requires HandleNodeUpdate(cr, c, n, listed).flow == AGAIN
    ensures OneStepFewer(from, cr, c, HandleNodeUpdate(cr, c, n, listed).writes)
  {
    hide OneStepFewer;
    assert InPhase(from, cr, n);
    if Untouched(from, cr, n) {
      WithdrawIsOneStep(from, cr, c, n);
    } else {
      UnloadIsOneStep(from, cr, c, n);
    }
  }

  // ---- One Reconcile ----

  lemma UpgradePhaseIsOneStep(from: string, cr: Onload, c: ClusterState, listed: bool)
    requires Upgrading(from, cr, c) && ReadyToUpgrade(cr, c) && UpgradeNextNode(cr, c, listed).flow == AGAIN
    ensures OneStepFewer(from, cr, c, UpgradeNextNode(cr, c, listed).writes)
  {
    hide OneStepFewer;
    NextNodeIsFirstOutdated(cr, c);
    NodeUpdateIsOneStep(from, cr, c, First(NodesToUpgrade(cr, c)), listed);
  }

  lemma NothingStale(from: string, cr: Onload, c: ClusterState)
    requires Upgrading(from, cr, c)
    ensures RemoveStaleLabels(cr, c, KmmLabelName(cr.id, OnloadKind)).flow.Continue?
    ensures RemoveStaleLabels(cr, c, KmmLabelName(cr.id, SfcKind)).flow.Continue?
    ensures RemoveStaleLabels(cr, c, OnloadLabelName(cr.id)).flow.Continue?
  {
    StalePhaseIdle(cr, c, KmmLabelName(cr.id, OnloadKind));
    StalePhaseIdle(cr, c, KmmLabelName(cr.id, SfcKind));
    StalePhaseIdle(cr, c, OnloadLabelName(cr.id));
  }

  lemma LabelPhasesAreOneStep(from: string, cr: Onload, c: ClusterState)
    requires Upgrading(from, cr, c)
    ensures var p := AddKmmLabelsToNodes(cr, c); p.flow == AGAIN ==> OneStepFewer(from, cr, c, p.writes)
    ensures var p := AddOnloadLabelsToNodes(cr, c);
      AddKmmLabelsToNodes(cr, c).flow.Continue? && p.flow == AGAIN ==> OneStepFewer(from, cr, c, p.writes)
  {
    hide OneStepFewer;
    NothingStale(from, cr, c);
    KmmPhaseIdle(cr, c);
    if AddMissingKmmLabels(cr, c).flow == AGAIN {
      KmmPhaseIsOneStep(from, cr, c);
    } else if AddMissingKmmLabels(cr, c).flow.Continue? && AddMissingOnloadLabels(cr, c).flow == AGAIN {
      PluginPhaseIsOneStep(from, cr, c);
    }
  }

  lemma UpdatePhasesAreOneStep(from: string, cr: Onload, image: string, c: ClusterState, listed: bool)
    requires Upgrading(from, cr, c)
    requires AddKmmLabelsToNodes(cr, c).flow.Continue? && CreateAndAddModules(cr, c).flow.Continue?
    requires AddOnloadLabelsToNodes(cr, c).flow.Continue? && CreateDevicePluginDaemonSet(cr, image, c).flow.Continue?
    ensures var p := HandleUpdate(cr, c, listed); p.flow == AGAIN ==> OneStepFewer(from, cr, c, p.writes)
  {
    hide OneStepFewer;
    DaemonSetPhasesAreOneStep(from, cr, image, c, listed);
    ModulePhasesAreOneStep(from, cr, c, OnloadKind, listed);
    ModulePhasesAreOneStep(from, cr, c, SfcKind, listed);
    if HandleDevicePluginUpdate(cr, c).flow.Continue? && HandleModuleUpdate(cr, c).flow.Continue? {
      assert EarlyIdle(cr, image, c);
      EarlyIdleIsReady(cr, image, c);
      if UpgradeNextNode(cr, c, listed).flow == AGAIN {
        UpgradePhaseIsOneStep(from, cr, c, listed);
      }
    }
  }

  lemma RequeueIsOneStep(from: string, cr: Onload, image: string, c: ClusterState, listed: bool)
    requires Upgrading(from, cr, c) && Reconcile(cr, image, c, listed).flow == AGAIN
    ensures OneStepFewer(from, cr, c, Reconcile(cr, image, c, listed).writes)
  {
    hide OneStepFewer;
    LabelPhasesAreOneStep(from, cr, c);
    DaemonSetPhasesAreOneStep(from, cr, image, c, listed);
    ModulePhasesAreOneStep(from, cr, c, OnloadKind, listed);
    ModulePhasesAreOneStep(from, cr, c, SfcKind, listed);
    if AddKmmLabelsToNodes(cr, c).flow.Continue? && CreateAndAddModules(cr, c).flow.Continue?
      && AddOnloadLabelsToNodes(cr, c).flow.Continue? && CreateDevicePluginDaemonSet(cr, image, c).flow.Continue?
    {
      UpdatePhasesAreOneStep(from, cr, image, c, listed);
    }
  }

  /** No steps are left exactly when the upgrade has converged. */
  lemma NoStepsIffConverged(from: string, cr: Onload, c: ClusterState)
    requires Upgrading(from, cr, c)
    ensures Steps(from, cr, c) == 0 <==> Converged(cr, c)
  {
    TotalZero(c.nodes, NodeStepsOf(from, cr));
    forall n | n in c.nodes && Selected(cr, n)
      ensures NodeStepsOf(from, cr)(n) == 0 <==> Finished(cr, n)
    {
      assert InPhase(from, cr, n);
    }
    forall n | n in c.nodes && Selected(cr, n)
      ensures Finished(cr, n) <==>
        Kmm(cr, n) == Some(cr.Version()) && Plugin(cr, n).Some? && (UsesSFC(cr) ==> Sfc(cr, n).Some?)
    {
      assert InPhase(from, cr, n);
    }
  }

  /** In an upgrade each unblocked Reconcile takes exactly one step, or finds nothing to do. */
  lemma UnblockedStep(from: string, cr: Onload, image: string, c: ClusterState, listed: bool)
    requires Upgrading(from, cr, c) && Unblocked(cr, c) && !cr.deleting && NameFits(cr.id)
    ensures var p := Reconcile(cr, image, c, listed);
      if Steps(from, cr, c) == 0 then p == Plan([], Return(Done))
      else p.flow == AGAIN && OneStepFewer(from, cr, c, p.writes)
  {
    hide Steps, Work;
    NoStepsIffConverged(from, cr, c);
    NoWorkIffConverged(cr, c);
    UnblockedProgress(cr, image, c, listed);
    if Reconcile(cr, image, c, listed).flow == AGAIN {
      RequeueIsOneStep(from, cr, image, c, listed);
    }
  }

  // ---- A whole unblocked upgrade ----

  lemma {:induction false} UntouchedTotal(from: string, cr: Onload, nodes: seq<Node>)
    requires forall n | n in nodes && Selected(cr, n) :: Untouched(from, cr, n)
    ensures Total(nodes, NodeStepsOf(from, cr)) == 4 * |SelectNodes(nodes, Includes(cr.spec.selector))|
  {
    if nodes != [] {
      UntouchedTotal(from, cr, nodes[1..]);
      assert nodes[0] in nodes;
      assert NodeStepsOf(from, cr)(nodes[0]) == if Selected(cr, nodes[0]) then 4 else 0;
    }
  }

  /** Four steps a node, one for the DaemonSet, one for each Module used before or after. */
  function UpgradeLength(older: Onload, cr: Onload, c: ClusterState): nat {
    4 * |SelectNodes(c.nodes, Includes(cr.spec.selector))| + 2 + One(UsesSFC(older) || UsesSFC(cr))
  }

  lemma StartSteps(older: Onload, cr: Onload, c: ClusterState)
    requires UpgradeStart(older, cr, c)
    ensures Steps(older.Version(), cr, c) == UpgradeLength(older, cr, c)
  {
    StartIsUpgrading(older, cr, c);
    UntouchedTotal(older.Version(), cr, c.nodes);
    assert ModuleReady(older, c, OnloadKind) && ModuleReady(older, c, SfcKind);
    assert !ModuleReady(cr, c, OnloadKind) && DaemonSetWork(cr, c) == 1;
    assert ModuleReady(cr, c, SfcKind) <==> !UsesSFC(older) && !UsesSFC(cr);
  }

  lemma SameButPodsKeepsUpgrading(from: string, cr: Onload, c: ClusterState, d: ClusterState)
    requires Upgrading(from, cr, c) && SameButPods(c, d) && DistinctPods(d.pods)
    ensures Upgrading(from, cr, d) && Steps(from, cr, d) == Steps(from, cr, c)
  {
    assert InfrastructureReady(cr, d) == InfrastructureReady(cr, c);
  }

  lemma QuietStepIsOneStep(from: string, cr: Onload, image: string, c: ClusterState, d: ClusterState)
    requires Upgrading(from, cr, c) && QuietStep(cr, image, c, d) && !cr.deleting && NameFits(cr.id)
    ensures Upgrading(from, cr, d)
    ensures Steps(from, cr, d) == if Steps(from, cr, c) == 0 then 0 else Steps(from, cr, c) - 1
  {
    hide Phases, Steps, Upgrading;
    var listed :| SameButPods(ApplyAll(Reconcile(cr, image, c, listed).writes, c), d);
    var ws := Reconcile(cr, image, c, listed).writes;
    UnblockedStep(from, cr, image, c, listed);
    CompleteKeepsUpgrading(from, cr, image, c, listed);
    SameButPodsKeepsUpgrading(from, cr, ApplyAll(ws, c), d);
  }

  lemma CompleteKeepsUpgrading(from: string, cr: Onload, image: string, c: ClusterState, listed: bool)
    requires Upgrading(from, cr, c)
    ensures Upgrading(from, cr, ApplyAll(Reconcile(cr, image, c, listed).writes, c))
  {
    ReconcileIsGuarded(cr, image, c, listed);
    RunKeepsUpgrading(from, cr, c, Reconcile(cr, image, c, listed).writes, listed);
  }

  lemma {:induction false} StepsCountDown(
    older: Onload, cr: Onload, image: string, run: seq<ClusterState>, i: nat)
    requires QuietRun(cr, image, run) && UpgradeStart(older, cr, run[0]) && i < |run|
    requires !cr.deleting && NameFits(cr.id)
    ensures Upgrading(older.Version(), cr, run[i])
    ensures var total := UpgradeLength(older, cr, run[0]);
      Steps(older.Version(), cr, run[i]) == if i < total then total - i else 0
  {
    hide Reconcile, Steps;
    if i == 0 {
      StartIsUpgrading(older, cr, run[0]);
      StartSteps(older, cr, run[0]);
    } else {
      StepsCountDown(older, cr, image, run, i - 1);
      assert QuietStepAt(cr, image, run, i - 1);
      QuietStepIsOneStep(older.Version(), cr, image, run[i - 1], run[i]);
    }
  }

  /** With no blocking pods and no failures, the first 4N+2 Reconciles (one more with SFC) write, and then none does. */
  lemma ExactUpgradeLength(
    older: Onload, cr: Onload, image: string, run: seq<ClusterState>, i: nat, listed: bool)
    requires QuietRun(cr, image, run) && UpgradeStart(older, cr, run[0]) && i < |run|
    requires Unblocked(cr, run[i]) && !cr.deleting && NameFits(cr.id)
    ensures var p := Reconcile(cr, image, run[i], listed);
      if i < UpgradeLength(older, cr, run[0]) then p.writes != [] && p.flow == AGAIN
      else p == Plan([], Return(Done)) && Converged(cr, run[i])
  {
    hide Phases, Steps;
    StepsCountDown(older, cr, image, run, i);
    NoStepsIffConverged(older.Version(), cr, run[i]);
    UnblockedStep(older.Version(), cr, image, run[i], listed);
  }

  // ---- The same without any run: calling Reconcile again and again ----

  /** The cluster after `n` complete Reconciles with nothing else going on. */
  function Iterate(cr: Onload, image: string, c: ClusterState, n: nat): ClusterState
    decreases n
  {
    if n == 0 then c else Iterate(cr, image, ApplyAll(Reconcile(cr, image, c, true).writes, c), n - 1)
  }

  /** No pod on a selected node is a device plugin, loads a module or uses Onload. */
  predicate NothingInTheWay(cr: Onload, c: ClusterState) {
    forall n, p | n in c.nodes && p in c.pods && Selected(cr, n) && p.node == n.name :: Harmless(cr, p)
  }

  predicate Harmless(cr: Onload, p: Pod) {
    && !UsesOnload(p)
    && !Selects(Includes(DevicePluginPodLabels(cr.id)), p.labels)
    && !Selects(Includes(ModulePodLabels(cr.id, OnloadKind)), p.labels)
    && !Selects(Includes(ModulePodLabels(cr.id, SfcKind)), p.labels)
  }

  lemma HarmlessDoNotBlock(cr: Onload, c: ClusterState)
    requires NothingInTheWay(cr, c)
    ensures Unblocked(cr, c)
  {
    forall n, p | n in c.nodes && p in c.pods ensures !Blocks(cr, n, p) {
      if Selected(cr, n) && p.node == n.name { assert Harmless(cr, p); }
    }
  }

  lemma WriteKeepsWayClear(cr: Onload, c: ClusterState, w: ClusterWrite, listed: bool)
    requires Sane(cr, c) && Guarded(cr, c, w, listed) && NothingInTheWay(cr, c)
    ensures NothingInTheWay(cr, Apply(w, c))
  {
    hide NextInLine;
    var d := Apply(w, c);
    if w.SetLabel? {
      SetLabelEffect(cr, c, w.node, w.key, w.value);
    } else if w.RemoveLabel? {
      RemoveLabelEffect(cr, c, w.node, w.key);
    }
    forall n, p | n in d.nodes && p in d.pods && Selected(cr, n) && p.node == n.name ensures Harmless(cr, p) {
      var i :| 0 <= i < |d.nodes| && d.nodes[i] == n;
      var q := PodBefore(c, w, p);
      assert c.nodes[i] in c.nodes && Harmless(cr, q);
    }
  }

  lemma {:induction false} WritesKeepWayClear(cr: Onload, c: ClusterState, ws: seq<ClusterWrite>, listed: bool)
    requires Sane(cr, c) && GuardedRun(cr, c, ws, listed) && NothingInTheWay(cr, c)
    ensures NothingInTheWay(cr, ApplyAll(ws, c))
    decreases |ws|
  {
    hide NothingInTheWay, Guarded, Sane;
    if ws != [] {
      WriteKeepsSane(cr, c, ws[0], listed);
      WriteKeepsWayClear(cr, c, ws[0], listed);
      WritesKeepWayClear(cr, Apply(ws[0], c), ws[1..], listed);
    }
  }

  lemma {:induction false} IterationCountsDown(from: string, cr: Onload, image: string, c: ClusterState, n: nat)
    requires Upgrading(from, cr, c) && NothingInTheWay(cr, c) && !cr.deleting && NameFits(cr.id)
    ensures var d := Iterate(cr, image, c, n);
      && Upgrading(from, cr, d) && NothingInTheWay(cr, d)
      && Steps(from, cr, d) == if n < Steps(from, cr, c) then Steps(from, cr, c) - n else 0
    decreases n
  {
    hide Reconcile, Steps, NothingInTheWay, InPhase, InNameOrder, InfrastructureFirst, NoStaleLabels;
    if n > 0 {
      var ws := Reconcile(cr, image, c, true).writes;
      HarmlessDoNotBlock(cr, c);
      UnblockedStep(from, cr, image, c, true);
      CompleteKeepsUpgrading(from, cr, image, c, true);
      ReconcileIsGuarded(cr, image, c, true);
      WritesKeepWayClear(cr, c, ws, true);
      IterationCountsDown(from, cr, image, ApplyAll(ws, c), n - 1);
    }
  }

  /** With nothing in the way, calling Reconcile completes the upgrade after exactly that many calls and no sooner. */
  lemma UpgradeCompletes(older: Onload, cr: Onload, image: string, c: ClusterState, n: nat)
    requires UpgradeStart(older, cr, c) && NothingInTheWay(cr, c) && !cr.deleting && NameFits(cr.id)
    ensures Converged(cr, Iterate(cr, image, c, n)) <==> n >= UpgradeLength(older, cr, c)
  {
    hide Iterate, Steps, Upgrading, NothingInTheWay;
    StartIsUpgrading(older, cr, c);
    StartSteps(older, cr, c);
    IterationCountsDown(older.Version(), cr, image, c, n);
    NoStepsIffConverged(older.Version(), cr, Iterate(cr, image, c, n));
  }
}

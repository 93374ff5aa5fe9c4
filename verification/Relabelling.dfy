// A Reconcile never changes the value of a label in place, either only adds or
// only deletes node labels, and adds none to nodes outside the selector.

module Relabelling {
  import opened Kubernetes
  import opened OnloadTypes
  import opened Planning
  import opened Machine
  import opened Agreement
  import opened Convergence
  import opened Measure

  // ---- One kind of write per call ----

  predicate OnlyAdds(ws: seq<ClusterWrite>) { forall w | w in ws :: w.SetLabel? }

  predicate OnlyRemoves(ws: seq<ClusterWrite>) { forall w | w in ws :: w.RemoveLabel? }

  predicate OnlyEvicts(ws: seq<ClusterWrite>) { forall w | w in ws :: w.EvictPod? }

  predicate OneObject(ws: seq<ClusterWrite>) {
    |ws| == 1 && !ws[0].SetLabel? && !ws[0].RemoveLabel? && !ws[0].EvictPod?
  }

  predicate Uniform(ws: seq<ClusterWrite>) {
    OnlyAdds(ws) || OnlyRemoves(ws) || OnlyEvicts(ws) || OneObject(ws)
  }

  lemma {:induction false} EvictionsOnlyEvict(pods: seq<Pod>)
    ensures OnlyEvicts(Evictions(pods))
  {
    if pods != [] { EvictionsOnlyEvict(pods[1..]); }
  }

  lemma StalePhaseUniform(cr: Onload, c: ClusterState, key: string)
    ensures OnlyRemoves(RemoveStaleLabels(cr, c, key).writes)
  {
    forall w | w in RemoveStaleLabels(cr, c, key).writes ensures w.RemoveLabel? {
      StalePhaseExact(cr, c, key, w);
    }
  }

  lemma LabelPhasesUniform(cr: Onload, c: ClusterState)
    ensures Uniform(AddKmmLabelsToNodes(cr, c).writes)
    ensures Uniform(AddOnloadLabelsToNodes(cr, c).writes)
  {
    var items := SelectNodes(c.nodes, Includes(cr.spec.selector));
    KmmWritesAreAdditions(cr, c.pods, items);
    OnloadWritesAreAdditions(cr, items);
    assert OnlyAdds(AddMissingKmmLabels(cr, c).writes) && OnlyAdds(AddMissingOnloadLabels(cr, c).writes);
    StalePhaseUniform(cr, c, KmmLabelName(cr.id, OnloadKind));
    StalePhaseUniform(cr, c, KmmLabelName(cr.id, SfcKind));
    StalePhaseUniform(cr, c, OnloadLabelName(cr.id));
  }

  lemma NodeUpdateUniform(cr: Onload, c: ClusterState, n: Node, listed: bool)
    ensures Uniform(HandleNodeUpdate(cr, c, n, listed).writes)
  {
    EvictionsOnlyEvict(PodsUsingOnload(c, n.name, listed));
    var p := HandleNodeUpdate(cr, c, n, listed);
    assert p.flow == AGAIN ==> OnlyRemoves(p.writes);
    assert p.flow == WAIT ==> OnlyEvicts(p.writes);
  }

  lemma UpdatePhasesUniform(cr: Onload, c: ClusterState, listed: bool)
    ensures Uniform(HandleUpdate(cr, c, listed).writes)
  {
    hide HandleNodeUpdate, NodesToUpgrade, MapKernels;
    if NodesToUpgrade(cr, c) != [] {
      NodeUpdateUniform(cr, c, First(NodesToUpgrade(cr, c)), listed);
    }
    assert OnlyAdds([]);
    assert Uniform(UpgradeNextNode(cr, c, listed).writes);
    assert Uniform(HandleModuleUpdate(cr, c).writes) && Uniform(HandleDevicePluginUpdate(cr, c).writes);
  }

  /** Each call only adds labels, only deletes labels, only evicts pods, or writes one other object. */
  lemma OneKindOfWritePerCall(cr: Onload, image: string, c: ClusterState, listed: bool)
    ensures Uniform(Reconcile(cr, image, c, listed).writes)
  {
    hide Uniform;
    LabelPhasesUniform(cr, c);
    UpdatePhasesUniform(cr, c, listed);
    ObjectPhasesUniform(cr, image, c);
  }

  lemma ObjectPhasesUniform(cr: Onload, image: string, c: ClusterState)
    ensures Uniform([])
    ensures Uniform(CreateAndAddModules(cr, c).writes)
    ensures Uniform(CreateDevicePluginDaemonSet(cr, image, c).writes)
  {
    assert OnlyAdds([]);
  }

  // ---- Label values ----

  /** Every label of `n` is also on `m`, with the same value. */
  predicate Within(n: Node, m: Node) {
    forall k | k in n.labels :: k in m.labels && m.labels[k] == n.labels[k]
  }

  predicate LabelsGrow(c: ClusterState, d: ClusterState) {
    |d.nodes| == |c.nodes| && forall i | 0 <= i < |c.nodes| :: Within(c.nodes[i], d.nodes[i])
  }

  predicate LabelsShrink(c: ClusterState, d: ClusterState) {
    |d.nodes| == |c.nodes| && forall i | 0 <= i < |c.nodes| :: Within(d.nodes[i], c.nodes[i])
  }

  lemma WithinTransitive(a: Node, b: Node, c: Node)
    requires Within(a, b) && Within(b, c)
    ensures Within(a, c)
  {
  }

  lemma {:induction false} AddsOnlyGrow(cr: Onload, c: ClusterState, ws: seq<ClusterWrite>, listed: bool)
    requires Sane(cr, c) && GuardedRun(cr, c, ws, listed) && OnlyAdds(ws)
    ensures LabelsGrow(c, ApplyAll(ws, c))
    decreases |ws|
  {
    if ws != [] {
      var w, d := ws[0], Apply(ws[0], c);
      assert w in ws;
      WriteKeepsSane(cr, c, w, listed);
      AddsOnlyGrow(cr, d, ws[1..], listed);
      var e := ApplyAll(ws, c);
      forall i | 0 <= i < |c.nodes| ensures Within(c.nodes[i], e.nodes[i]) {
        assert c.nodes[i] in c.nodes;
        assert Within(c.nodes[i], d.nodes[i]);
        WithinTransitive(c.nodes[i], d.nodes[i], e.nodes[i]);
      }
    }
  }

  lemma {:induction false} RemovesOnlyShrink(c: ClusterState, ws: seq<ClusterWrite>)
    requires OnlyRemoves(ws)
    ensures LabelsShrink(c, ApplyAll(ws, c))
    decreases |ws|
  {
    if ws != [] {
      var d := Apply(ws[0], c);
      assert ws[0] in ws;
      RemovesOnlyShrink(d, ws[1..]);
      var e := ApplyAll(ws, c);
      forall i | 0 <= i < |c.nodes| ensures Within(e.nodes[i], c.nodes[i]) {
        assert Within(d.nodes[i], c.nodes[i]);
        WithinTransitive(e.nodes[i], d.nodes[i], c.nodes[i]);
      }
    }
  }

  lemma {:induction false} OtherWritesKeepNodes(c: ClusterState, ws: seq<ClusterWrite>)
    requires forall w | w in ws :: !w.SetLabel? && !w.RemoveLabel?
    ensures ApplyAll(ws, c).nodes == c.nodes
    decreases |ws|
  {
    if ws != [] {
      assert ws[0] in ws;
      OtherWritesKeepNodes(Apply(ws[0], c), ws[1..]);
    }
  }

  lemma UniformPrefix(ws: seq<ClusterWrite>, k: nat)
    requires Uniform(ws) && k <= |ws|
    ensures Uniform(ws[..k])
  {
    if OneObject(ws) && k == 0 {
      assert OnlyAdds(ws[..k]);
    } else if OneObject(ws) {
      assert ws[..k] == ws;
    } else {
      assert OnlyAdds(ws) ==> OnlyAdds(ws[..k]);
      assert OnlyRemoves(ws) ==> OnlyRemoves(ws[..k]);
      assert OnlyEvicts(ws) ==> OnlyEvicts(ws[..k]);
    }
  }

  lemma UniformLabels(cr: Onload, c: ClusterState, ws: seq<ClusterWrite>, listed: bool)
    requires Sane(cr, c) && GuardedRun(cr, c, ws, listed) && Uniform(ws)
    ensures LabelsGrow(c, ApplyAll(ws, c)) || LabelsShrink(c, ApplyAll(ws, c))
  {
    if OnlyAdds(ws) {
      AddsOnlyGrow(cr, c, ws, listed);
    } else if OnlyRemoves(ws) {
      RemovesOnlyShrink(c, ws);
    } else {
      OtherWritesKeepNodes(c, ws);
    }
  }

  /** Across any Reconcile, cut short or not, labels only come or only go, and a label kept keeps its value. */
  lemma NoInPlaceRelabel(
    cr: Onload, image: string, c: ClusterState, d: ClusterState, listed: bool, k: nat)
    requires Sane(cr, c) && ReconciledTo(cr, image, c, d, listed, k)
    ensures LabelsGrow(c, d) || LabelsShrink(c, d)
    ensures forall i, key | 0 <= i < |c.nodes| && key in c.nodes[i].labels && key in d.nodes[i].labels ::
      d.nodes[i].labels[key] == c.nodes[i].labels[key]
  {
    hide Phases;
    OneKindOfWritePerCall(cr, image, c, listed);
    UniformPrefix(Reconcile(cr, image, c, listed).writes, k);
    TruncatedIsGuarded(cr, image, c, listed, k);
    UniformLabels(cr, c, Reconcile(cr, image, c, listed).writes[..k], listed);
    forall i, key | 0 <= i < |c.nodes| && key in c.nodes[i].labels && key in d.nodes[i].labels
      ensures d.nodes[i].labels[key] == c.nodes[i].labels[key]
    {
      assert Within(c.nodes[i], d.nodes[i]) || Within(d.nodes[i], c.nodes[i]);
    }
  }

  // ---- Nodes outside the selector ----

  /** What may happen to one node: its own keys only, and nothing new outside the selector. */
  predicate Bounded(cr: Onload, n: Node, m: Node) {
    && m.name == n.name && Selected(cr, m) == Selected(cr, n)
    && (!Selected(cr, n) ==> Within(m, n))
    && ForeignLabelsKept(cr.id, n, m)
  }

  predicate ForeignLabelsKept(id: ObjectKey, n: Node, m: Node) {
    && (forall k | k in n.labels && !OwnKey(id, k) :: k in m.labels && m.labels[k] == n.labels[k])
    && (forall k | k in m.labels && !OwnKey(id, k) :: k in n.labels)
  }

  predicate NodesBounded(cr: Onload, c: ClusterState, d: ClusterState) {
    |d.nodes| == |c.nodes| && forall i | 0 <= i < |c.nodes| :: Bounded(cr, c.nodes[i], d.nodes[i])
  }

  lemma WriteIsBounded(cr: Onload, c: ClusterState, w: ClusterWrite, listed: bool)
    requires Sane(cr, c) && Guarded(cr, c, w, listed)
    ensures NodesBounded(cr, c, Apply(w, c))
  {
    if w.SetLabel? {
      SetLabelEffect(cr, c, w.node, w.key, w.value);
    } else if w.RemoveLabel? {
      RemoveLabelEffect(cr, c, w.node, w.key);
    }
    forall i | 0 <= i < |c.nodes| ensures Bounded(cr, c.nodes[i], Apply(w, c).nodes[i]) {
      assert c.nodes[i] in c.nodes;
    }
  }

  lemma {:induction false} WritesAreBounded(cr: Onload, c: ClusterState, ws: seq<ClusterWrite>, listed: bool)
    requires Sane(cr, c) && GuardedRun(cr, c, ws, listed)
    ensures NodesBounded(cr, c, ApplyAll(ws, c))
    decreases |ws|
  {
    if ws != [] {
      var d, e := Apply(ws[0], c), ApplyAll(ws, c);
      WriteKeepsSane(cr, c, ws[0], listed);
      WriteIsBounded(cr, c, ws[0], listed);
      WritesAreBounded(cr, d, ws[1..], listed);
      forall i | 0 <= i < |c.nodes| ensures Bounded(cr, c.nodes[i], e.nodes[i]) {
        assert Bounded(cr, c.nodes[i], d.nodes[i]) && Bounded(cr, d.nodes[i], e.nodes[i]);
      }
    }
  }

  /** A node outside the selector gains no label, and no node's foreign labels change. */
  lemma UnselectedNeverGain(cr: Onload, image: string, c: ClusterState, d: ClusterState, listed: bool, k: nat)
    requires Sane(cr, c) && ReconciledTo(cr, image, c, d, listed, k)
    ensures |d.nodes| == |c.nodes|
    ensures forall i | 0 <= i < |c.nodes| ::
      && ForeignLabelsKept(cr.id, c.nodes[i], d.nodes[i])
      && (!Selected(cr, c.nodes[i]) ==> Within(d.nodes[i], c.nodes[i]))
  {
    TruncatedIsGuarded(cr, image, c, listed, k);
    WritesAreBounded(cr, c, Reconcile(cr, image, c, listed).writes[..k], listed);
    forall i | 0 <= i < |c.nodes|
      ensures ForeignLabelsKept(cr.id, c.nodes[i], d.nodes[i])
      ensures !Selected(cr, c.nodes[i]) ==> Within(d.nodes[i], c.nodes[i])
    {
      assert Bounded(cr, c.nodes[i], d.nodes[i]);
    }
  }
}

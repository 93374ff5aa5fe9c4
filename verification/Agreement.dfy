// Label agreement: on a selected node the onload label and the SFC label never
// disagree with the KMM-onload label, whatever fails and however the resource is
// edited, exactly as long as no node joins the selector with a half-cleaned set of labels.

module Agreement {
  import opened Kubernetes
  import opened OnloadTypes
  import opened Outcomes
  import opened Planning
  import opened Machine
  import opened Refinement

  predicate Agrees(cr: Onload, n: Node) {
    && (Plugin(cr, n).Some? ==> Kmm(cr, n) == Plugin(cr, n))
    && (Sfc(cr, n).Some? ==> Kmm(cr, n) == Sfc(cr, n))
  }

  predicate LabelsAgree(cr: Onload, c: ClusterState) {
    forall n | n in c.nodes && Selected(cr, n) :: Agrees(cr, n)
  }

  lemma WriteKeepsSane(cr: Onload, c: ClusterState, w: ClusterWrite, listed: bool)
    requires Sane(cr, c) && Guarded(cr, c, w, listed)
    ensures Sane(cr, Apply(w, c))
  {
    match w
    case SetLabel(name, key, value) => SetLabelEffect(cr, c, name, key, value);
    case RemoveLabel(name, key) => RemoveLabelEffect(cr, c, name, key);
    case _ =>
  }

  lemma WriteKeepsAgreement(cr: Onload, c: ClusterState, w: ClusterWrite, listed: bool)
    requires Sane(cr, c) && Guarded(cr, c, w, listed) && LabelsAgree(cr, c)
    ensures LabelsAgree(cr, Apply(w, c))
  {
    OwnKeysDiffer(cr.id);
    var d := Apply(w, c);
    if w.SetLabel? || w.RemoveLabel? {
      if w.SetLabel? {
        SetLabelEffect(cr, c, w.node, w.key, w.value);
      } else {
        RemoveLabelEffect(cr, c, w.node, w.key);
      }
      forall n | n in d.nodes && Selected(cr, n) ensures Agrees(cr, n) {
        var i :| 0 <= i < |d.nodes| && d.nodes[i] == n;
        assert Agrees(cr, c.nodes[i]);
        assert c.nodes[i] in c.nodes;
      }
    }
  }

  lemma {:induction false} RunKeepsAgreement(cr: Onload, c: ClusterState, ws: seq<ClusterWrite>, listed: bool)
    requires Sane(cr, c) && GuardedRun(cr, c, ws, listed) && LabelsAgree(cr, c)
    ensures Sane(cr, ApplyAll(ws, c)) && LabelsAgree(cr, ApplyAll(ws, c))
    decreases |ws|
  {
    if ws != [] {
      WriteKeepsSane(cr, c, ws[0], listed);
      WriteKeepsAgreement(cr, c, ws[0], listed);
      RunKeepsAgreement(cr, Apply(ws[0], c), ws[1..], listed);
    }
  }

  /** `d` is the state after a Reconcile whose first `k` writes reached the API server. */
  predicate ReconciledTo(cr: Onload, image: string, c: ClusterState, d: ClusterState, listed: bool, k: nat) {
    var ws := Reconcile(cr, image, c, listed).writes;
    k <= |ws| && d == ApplyAll(ws[..k], c)
  }

  lemma TruncatedIsGuarded(cr: Onload, image: string, c: ClusterState, listed: bool, k: nat)
    requires Sane(cr, c) && k <= |Reconcile(cr, image, c, listed).writes|
    ensures GuardedRun(cr, c, Reconcile(cr, image, c, listed).writes[..k], listed)
  {
    hide Reconcile, Sane, GuardedRun;
    var ws := Reconcile(cr, image, c, listed).writes;
    ReconcileIsGuarded(cr, image, c, listed);
    assert ws == ws[..k] + ws[k..];
    GuardedConcat(cr, c, ws[..k], ws[k..], listed);
  }

  /** A Reconcile, cut short anywhere, keeps the labels of every node in agreement. */
  lemma ReconcileKeepsAgreement(
    cr: Onload, image: string, c: ClusterState, d: ClusterState, listed: bool, k: nat)
    requires Sane(cr, c) && LabelsAgree(cr, c) && ReconciledTo(cr, image, c, d, listed, k)
    ensures Sane(cr, d) && LabelsAgree(cr, d)
  {
    TruncatedIsGuarded(cr, image, c, listed, k);
    RunKeepsAgreement(cr, c, Reconcile(cr, image, c, listed).writes[..k], listed);
  }

  // ---- Nodes outside the selector ----

  /** A KMM label that is present agrees with the other two. */
  predicate Coherent(cr: Onload, n: Node) {
    Kmm(cr, n).Some? ==>
      && (Plugin(cr, n).Some? ==> Plugin(cr, n) == Kmm(cr, n))
      && (Sfc(cr, n).Some? ==> Sfc(cr, n) == Kmm(cr, n))
  }

  /** Unlike agreement this is asked of every node, selected or not. */
  predicate AllCoherent(cr: Onload, c: ClusterState) {
    forall n | n in c.nodes :: Coherent(cr, n)
  }

  lemma WriteKeepsCoherence(cr: Onload, c: ClusterState, w: ClusterWrite, listed: bool)
    requires Sane(cr, c) && Guarded(cr, c, w, listed) && LabelsAgree(cr, c) && AllCoherent(cr, c)
    ensures AllCoherent(cr, Apply(w, c))
  {
    hide NextInLine, Drained, NoModulePods, Selects, KmmLabelName, OnloadLabelName, UsesSFC;
    OwnKeysDiffer(cr.id);
    var d := Apply(w, c);
    if w.SetLabel? || w.RemoveLabel? {
      if w.SetLabel? {
        SetLabelEffect(cr, c, w.node, w.key, w.value);
      } else {
        RemoveLabelEffect(cr, c, w.node, w.key);
      }
      forall n | n in d.nodes ensures Coherent(cr, n) {
        var i :| 0 <= i < |d.nodes| && d.nodes[i] == n;
        assert c.nodes[i] in c.nodes && Coherent(cr, c.nodes[i]);
        assert Selected(cr, c.nodes[i]) ==> Agrees(cr, c.nodes[i]);
      }
    }
  }

  lemma {:induction false} RunKeepsCoherence(cr: Onload, c: ClusterState, ws: seq<ClusterWrite>, listed: bool)
    requires Sane(cr, c) && GuardedRun(cr, c, ws, listed) && LabelsAgree(cr, c) && AllCoherent(cr, c)
    ensures AllCoherent(cr, ApplyAll(ws, c))
    decreases |ws|
  {
    hide LabelsAgree, AllCoherent, Sane, Guarded;
    if ws != [] {
      WriteKeepsSane(cr, c, ws[0], listed);
      WriteKeepsAgreement(cr, c, ws[0], listed);
      WriteKeepsCoherence(cr, c, ws[0], listed);
      RunKeepsCoherence(cr, Apply(ws[0], c), ws[1..], listed);
    }
  }

  /** Likewise every node stays coherent. */
  lemma ReconcileKeepsCoherence(
    cr: Onload, image: string, c: ClusterState, d: ClusterState, listed: bool, k: nat)
    requires Sane(cr, c) && LabelsAgree(cr, c) && AllCoherent(cr, c) && ReconciledTo(cr, image, c, d, listed, k)
    ensures AllCoherent(cr, d)
  {
    TruncatedIsGuarded(cr, image, c, listed, k);
    RunKeepsCoherence(cr, c, Reconcile(cr, image, c, listed).writes[..k], listed);
  }

  // ---- Runs with arbitrary edits of the resource and arbitrary movement of nodes ----

  datatype State = State(cr: Onload, cluster: ClusterState)

  predicate OperatorLabelsKept(cr: Onload, n: Node, m: Node) {
    Kmm(cr, m) == Kmm(cr, n) && Sfc(cr, m) == Sfc(cr, n) && Plugin(cr, m) == Plugin(cr, n)
  }

  predicate NoOperatorLabels(cr: Onload, n: Node) {
    Kmm(cr, n).None? && Sfc(cr, n).None? && Plugin(cr, n).None?
  }

  /** The node has its operator labels from the node of that name before, or none. */
  predicate LabelsCarried(s: State, t: State, m: Node) {
    || NoOperatorLabels(t.cr, m)
    || exists n :: n in s.cluster.nodes && n.name == m.name && OperatorLabelsKept(t.cr, n, m)
  }

  /**
   * Anything that others may do: edit the resource, its version and selector included; add, remove and
   * relabel nodes, so that they leave and join the selector; change pods and objects.
   */
  predicate FreeMove(s: State, t: State) {
    && t.cr.id == s.cr.id && Sane(t.cr, t.cluster)
    && forall m | m in t.cluster.nodes :: LabelsCarried(s, t, m)
  }

  /** The node is selected now, and was absent or unselected before. */
  predicate Joins(s: State, t: State, m: Node) {
    && m in t.cluster.nodes && Selected(t.cr, m)
    && !exists n :: n in s.cluster.nodes && n.name == m.name && Selected(s.cr, n)
  }

  /** What has to be looked at before a node is made to join: it has the KMM label, or none of the three. */
  predicate MayJoin(cr: Onload, m: Node) {
    Kmm(cr, m).Some? || NoOperatorLabels(cr, m)
  }

  predicate CleanJoins(s: State, t: State) {
    forall m | m in t.cluster.nodes && Joins(s, t, m) :: MayJoin(t.cr, m)
  }

  lemma AgreesIffMayJoin(cr: Onload, n: Node)
    requires Coherent(cr, n)
    ensures Agrees(cr, n) <==> MayJoin(cr, n)
  {
  }

  lemma CarriedIsCoherent(s: State, t: State, m: Node)
    requires AllCoherent(s.cr, s.cluster) && t.cr.id == s.cr.id && LabelsCarried(s, t, m)
    ensures Coherent(t.cr, m)
  {
    if !NoOperatorLabels(t.cr, m) {
      var n :| n in s.cluster.nodes && n.name == m.name && OperatorLabelsKept(t.cr, n, m);
      assert Coherent(s.cr, n);
    }
  }

  lemma StayerMayStay(s: State, t: State, m: Node)
    requires Sane(s.cr, s.cluster) && LabelsAgree(s.cr, s.cluster) && FreeMove(s, t)
    requires m in t.cluster.nodes && Selected(t.cr, m) && !Joins(s, t, m)
    ensures MayJoin(t.cr, m)
  {
    assert LabelsCarried(s, t, m);
    if !NoOperatorLabels(t.cr, m) {
      var n :| n in s.cluster.nodes && n.name == m.name && OperatorLabelsKept(t.cr, n, m);
      SameName(s.cluster, n);
      assert Agrees(s.cr, n);
    }
  }

  /** A free move keeps agreement exactly when every node that joins has the KMM label or none of the three. */
  lemma FreeMoveAgreesIff(s: State, t: State)
    requires Sane(s.cr, s.cluster) && LabelsAgree(s.cr, s.cluster) && AllCoherent(s.cr, s.cluster)
    requires FreeMove(s, t)
    ensures AllCoherent(t.cr, t.cluster)
    ensures LabelsAgree(t.cr, t.cluster) <==> CleanJoins(s, t)
  {
    forall m | m in t.cluster.nodes
      ensures Coherent(t.cr, m) && (Agrees(t.cr, m) <==> MayJoin(t.cr, m))
      ensures Selected(t.cr, m) && !Joins(s, t, m) ==> MayJoin(t.cr, m)
    {
      CarriedIsCoherent(s, t, m);
      AgreesIffMayJoin(t.cr, m);
      if Selected(t.cr, m) && !Joins(s, t, m) { StayerMayStay(s, t, m); }
    }
  }

  ghost predicate Step(image: string, s: State, t: State) {
    || FreeMove(s, t)
    || (t.cr == s.cr && exists listed, k :: ReconciledTo(s.cr, image, s.cluster, t.cluster, listed, k))
  }

  ghost predicate FreeStepAt(image: string, run: seq<State>, i: nat)
    requires i + 1 < |run|
  {
    Step(image, run[i], run[i + 1])
  }

  ghost predicate Run(image: string, run: seq<State>) {
    && |run| > 0
    && Sane(run[0].cr, run[0].cluster) && LabelsAgree(run[0].cr, run[0].cluster)
    && AllCoherent(run[0].cr, run[0].cluster)
    && forall i: nat | i + 1 < |run| :: FreeStepAt(image, run, i)
  }

  predicate AgreesAt(run: seq<State>, i: nat)
    requires i < |run|
  {
    LabelsAgree(run[i].cr, run[i].cluster)
  }

  /** No node joins half-cleaned in step `i`. */
  predicate JoinsCleanAt(run: seq<State>, i: nat)
    requires i + 1 < |run|
  {
    FreeMove(run[i], run[i + 1]) ==> CleanJoins(run[i], run[i + 1])
  }

  lemma StepAgreesIff(image: string, s: State, t: State)
    requires Sane(s.cr, s.cluster) && LabelsAgree(s.cr, s.cluster) && AllCoherent(s.cr, s.cluster)
    requires Step(image, s, t)
    ensures Sane(t.cr, t.cluster) && AllCoherent(t.cr, t.cluster)
    ensures LabelsAgree(t.cr, t.cluster) <==> (FreeMove(s, t) ==> CleanJoins(s, t))
  {
    hide ReconciledTo, LabelsAgree, AllCoherent, CleanJoins;
    if FreeMove(s, t) {
      FreeMoveAgreesIff(s, t);
    } else {
      var listed, k: nat :| ReconciledTo(s.cr, image, s.cluster, t.cluster, listed, k);
      ReconcileKeepsAgreement(s.cr, image, s.cluster, t.cluster, listed, k);
      ReconcileKeepsCoherence(s.cr, image, s.cluster, t.cluster, listed, k);
    }
  }

  /** As long as labels have agreed, nodes are coherent, and the next step decides what follows. */
  lemma {:induction false} CoherentSoFar(image: string, run: seq<State>, k: nat)
    requires Run(image, run) && k < |run| && forall i: nat | i < k :: AgreesAt(run, i)
    ensures Sane(run[k].cr, run[k].cluster) && AllCoherent(run[k].cr, run[k].cluster)
    ensures k > 0 ==> (AgreesAt(run, k) <==> JoinsCleanAt(run, k - 1))
    ensures k == 0 ==> AgreesAt(run, k)
  {
    hide Sane, LabelsAgree, AllCoherent, CleanJoins, FreeMove, Step;
    if k > 0 {
      CoherentSoFar(image, run, k - 1);
      assert FreeStepAt(image, run, k - 1) && AgreesAt(run, k - 1);
      StepAgreesIff(image, run[k - 1], run[k]);
    }
  }

  /**
   * Labels agree in every state of a run, up to any point, exactly when up to that point no node joined
   * the selector with an onload or SFC label but no KMM label.
   */
  lemma {:induction false} AgreementIffCleanJoins(image: string, run: seq<State>, k: nat)
    requires Run(image, run) && k < |run|
    ensures (forall i: nat | i <= k :: AgreesAt(run, i)) <==> (forall i: nat | i < k :: JoinsCleanAt(run, i))
  {
    hide Run, AgreesAt, JoinsCleanAt;
    if k == 0 {
      CoherentSoFar(image, run, 0);
    } else {
      AgreementIffCleanJoins(image, run, k - 1);
      if forall i: nat | i <= k - 1 :: AgreesAt(run, i) {
        CoherentSoFar(image, run, k);
      }
    }
  }

  /** So labels agree in every reachable state if nodes join only with the KMM label or none of the three. */
  lemma AgreementAlways(image: string, run: seq<State>, k: nat)
    requires Run(image, run) && k < |run| && forall i: nat | i < k :: JoinsCleanAt(run, i)
    ensures AgreesAt(run, k)
  {
    hide Run, AgreesAt, JoinsCleanAt;
    AgreementIffCleanJoins(image, run, k);
  }

  // ---- Why a node may not rejoin early ----

  /** A node that has just left the selector, with nothing else in the cluster. */
  function Leaver(cr: Onload, name: string): Node {
    Node(name, map[KmmLabelName(cr.id, OnloadKind) := cr.Version(), OnloadLabelName(cr.id) := cr.Version()])
  }

  /** The node once its KMM label is gone. */
  function HalfCleaned(cr: Onload, n: Node): Node {
    n.(labels := n.labels - {KmmLabelName(cr.id, OnloadKind)})
  }

  /** The same node, back in the selector. */
  function Rejoined(cr: Onload, n: Node): Node {
    n.(labels := n.labels + cr.spec.selector)
  }

  function Only(n: Node): ClusterState {
    Cluster([n], map[], map[], [])
  }

  lemma LeaverIsSane(cr: Onload, name: string)
    requires SelectorIsForeign(cr) && cr.spec.selector != map[]
    ensures var n := Leaver(cr, name);
      && Sane(cr, Only(n)) && LabelsAgree(cr, Only(n)) && AllCoherent(cr, Only(n)) && !Selected(cr, n)
      && !Selected(cr, HalfCleaned(cr, n))
  {
    var n := Leaver(cr, name);
    var k :| k in cr.spec.selector;
    assert k !in n.labels && k !in HalfCleaned(cr, n).labels;
    assert forall m | m in [n] :: m == n;
  }

  /** Clean-up of an unselected node with a KMM label takes that label, and returns. */
  lemma CleanupOfOne(cr: Onload, image: string, n: Node, listed: bool)
    requires !cr.deleting && NameFits(cr.id) && !Selected(cr, n) && Kmm(cr, n).Some?
    ensures Reconcile(cr, image, Only(n), listed)
      == Plan([RemoveLabel(n.name, KmmLabelName(cr.id, OnloadKind))], Return(Requeue))
  {
    hide HandleUpdate, CreateAndAddModules, AddOnloadLabelsToNodes, CreateDevicePluginDaemonSet, AddKmmLabelsToNode;
    var kmm := KmmLabelName(cr.id, OnloadKind);
    var selected := SelectNodes([n], Includes(cr.spec.selector));
    assert selected == SelectNodes([n][1..], Includes(cr.spec.selector));
    assert AddKmmLabelsTo(cr, [], []) == Plan([], Continue);
    assert SelectNodes([n], Exists(kmm)) == [n] + SelectNodes([n][1..], Exists(kmm)) == [n];
    assert StaleRemovals(cr, [n], kmm) == [RemoveLabel(n.name, kmm)] + StaleRemovals(cr, [n][1..], kmm);
    assert StaleRemovals(cr, [], kmm) == [];
  }

  lemma CleanupOfOneEffect(cr: Onload, n: Node)
    ensures ApplyAll([RemoveLabel(n.name, KmmLabelName(cr.id, OnloadKind))], Only(n)) == Only(HalfCleaned(cr, n))
  {
    var w: ClusterWrite := RemoveLabel(n.name, KmmLabelName(cr.id, OnloadKind));
    assert [w][1..] == [];
    assert ApplyAll([w], Only(n)) == Apply(w, Only(n));
  }

  /**
   * Stale clean-up takes the KMM label in one call and the onload label only in a later one.
   * A node that rejoins in between may not join, and breaks the agreement.
   */
  lemma EarlyRejoinDisagrees(cr: Onload, image: string, name: string, listed: bool)
    requires SelectorIsForeign(cr) && cr.spec.selector != map[] && !cr.deleting && NameFits(cr.id)
    ensures var n := Leaver(cr, name);
      var m := HalfCleaned(cr, n);
      && Sane(cr, Only(n)) && LabelsAgree(cr, Only(n)) && AllCoherent(cr, Only(n))
      && ReconciledTo(cr, image, Only(n), Only(m), listed, 1)
      && FreeMove(State(cr, Only(m)), State(cr, Only(Rejoined(cr, m))))
      && Joins(State(cr, Only(m)), State(cr, Only(Rejoined(cr, m))), Rejoined(cr, m))
      && !MayJoin(cr, Rejoined(cr, m)) && !LabelsAgree(cr, Only(Rejoined(cr, m)))
  {
    hide Reconcile, Apply, ApplyAll;
    OwnKeysDiffer(cr.id);
    var n := Leaver(cr, name);
    var m := Rejoined(cr, HalfCleaned(cr, n));
    LeaverIsSane(cr, name);
    CleanupOfOne(cr, image, n, listed);
    CleanupOfOneEffect(cr, n);
    var ws := Reconcile(cr, image, Only(n), listed).writes;
    assert ws[..1] == ws;
    assert Plugin(cr, m).Some? && Kmm(cr, m).None?;
    assert m in Only(m).nodes && !Agrees(cr, m);
  }
}

// A natural-number measure of the work left, for an arbitrary state: every
// Reconcile that requeues strictly lowers it, no write ever raises it, and hence
// unblocked Reconciles converge from any starting point.

module Measure {
  import opened Wrappers
  import opened Kubernetes
  import opened OnloadTypes
  import opened Outcomes
  import opened Planning
  import opened Machine
  import opened Refinement
  import opened Agreement
  import opened Upgrade
  import opened UpgradeRuns
  import opened Convergence

  function One(b: bool): nat { if b then 1 else 0 }

  /** Work left on one node. */
  function NodeWork(cr: Onload, n: Node): nat {
    if !Selected(cr, n) then One(Kmm(cr, n).Some?) + One(Sfc(cr, n).Some?) + One(Plugin(cr, n).Some?)
    else if IsOutdated(cr, n) then 4 + One(Plugin(cr, n).Some? && Plugin(cr, n) != Some(cr.Version()))
    else One(Kmm(cr, n).None?) + One(Plugin(cr, n).None?) + One(UsesSFC(cr) && Sfc(cr, n).None?)
  }

  function Total(nodes: seq<Node>, work: Node -> nat): nat {
    if nodes == [] then 0 else work(nodes[0]) + Total(nodes[1..], work)
  }

  function NodeWorkOf(cr: Onload): Node -> nat {
    n => NodeWork(cr, n)
  }

  function DaemonSetWork(cr: Onload, c: ClusterState): nat {
    var key := DevicePluginKey(cr.id);
    One(key !in c.daemonSets || Read(c.daemonSets[key].labels, ONLOAD_VERSION_LABEL) != cr.Version())
  }

  /** Work left on the DaemonSet and the two Modules. */
  function InfrastructureWork(cr: Onload, c: ClusterState): nat {
    One(!ModuleReady(cr, c, OnloadKind)) + One(!ModuleReady(cr, c, SfcKind)) + DaemonSetWork(cr, c)
  }

  function Work(cr: Onload, c: ClusterState): nat {
    Total(c.nodes, NodeWorkOf(cr)) + InfrastructureWork(cr, c)
  }

  /** Changing one node changes the sum by the change of that node. */
  lemma {:induction false} TotalChange(a: seq<Node>, b: seq<Node>, i: nat, work: Node -> nat)
    requires |a| == |b| && i < |a| && forall k | 0 <= k < |a| && k != i :: b[k] == a[k]
    ensures Total(b, work) - Total(a, work) == work(b[i]) - work(a[i])
  {
    if i == 0 {
      assert a[1..] == b[1..];
    } else {
      TotalChange(a[1..], b[1..], i - 1, work);
    }
  }

  lemma {:induction false} TotalZero(nodes: seq<Node>, work: Node -> nat)
    ensures Total(nodes, work) == 0 <==> forall n | n in nodes :: work(n) == 0
  {
    if nodes != [] {
      TotalZero(nodes[1..], work);
      assert forall n :: n in nodes <==> n == nodes[0] || n in nodes[1..];
    }
  }

  /** The measure is exact at the bottom: no work is left exactly when the cluster is converged. */
  lemma NoWorkIffConverged(cr: Onload, c: ClusterState)
    ensures Work(cr, c) == 0 <==> Converged(cr, c)
  {
    TotalZero(c.nodes, NodeWorkOf(cr));
    assert forall n :: NodeWorkOf(cr)(n) == NodeWork(cr, n);
  }

  // ---- One write ----

  /** The write is sure to take work away. */
  predicate Shrinks(cr: Onload, c: ClusterState, w: ClusterWrite) {
    match w
    case EvictPod(_) => false
    case RemoveLabel(name, key) =>
      key == KmmLabelName(cr.id, SfcKind) ==> forall n | n in c.nodes && n.name == name :: !Selected(cr, n)
    case _ => true
  }

  lemma AddLowersNode(cr: Onload, c: ClusterState, n: Node, key: string)
    requires MayAdd(cr, c, n, key) && OwnKey(cr.id, key)
    ensures var m := n.(labels := n.labels[key := cr.Version()]);
      Selected(cr, m) ==> NodeWork(cr, m) < NodeWork(cr, n)
  {
    OwnKeysDiffer(cr.id);
  }

  lemma RemoveLowersNode(cr: Onload, c: ClusterState, n: Node, key: string, listed: bool)
    requires OwnKey(cr.id, key)
    requires MayRemoveStale(cr, n, key) || MayRemoveForUpgrade(cr, c, n, key, listed)
    ensures var m := n.(labels := n.labels - {key});
      Selected(cr, m) == Selected(cr, n) ==>
        && NodeWork(cr, m) <= NodeWork(cr, n)
        && (key != KmmLabelName(cr.id, SfcKind) || !Selected(cr, n) ==> NodeWork(cr, m) < NodeWork(cr, n))
  {
    OwnKeysDiffer(cr.id);
  }

  /** When only node `i` changes, the measure changes as that node's work does. */
  lemma WorkFollowsNode(cr: Onload, c: ClusterState, d: ClusterState, i: nat)
    requires |c.nodes| == |d.nodes| && i < |c.nodes|
    requires forall k | 0 <= k < |c.nodes| && k != i :: d.nodes[k] == c.nodes[k]
    requires d.modules == c.modules && d.daemonSets == c.daemonSets
    ensures Work(cr, d) - Work(cr, c) == NodeWork(cr, d.nodes[i]) - NodeWork(cr, c.nodes[i])
  {
    hide NodeWork;
    TotalChange(c.nodes, d.nodes, i, NodeWorkOf(cr));
  }

  lemma LabelWriteLowersWork(cr: Onload, c: ClusterState, w: ClusterWrite, listed: bool)
    requires Sane(cr, c) && Guarded(cr, c, w, listed) && (w.SetLabel? || w.RemoveLabel?)
    ensures Work(cr, Apply(w, c)) <= Work(cr, c)
    ensures Shrinks(cr, c, w) ==> Work(cr, Apply(w, c)) < Work(cr, c)
  {
    hide Work, NodeWork, MayRemoveForUpgrade;
    var d := Apply(w, c);
    var i :| 0 <= i < |c.nodes| && c.nodes[i].name == w.node;
    var n := c.nodes[i];
    assert n in c.nodes;
    if w.SetLabel? {
      SetLabelEffect(cr, c, w.node, w.key, w.value);
      assert d.nodes[i] == n.(labels := n.labels[w.key := cr.Version()]);
      AddLowersNode(cr, c, n, w.key);
    } else {
      RemoveLabelEffect(cr, c, w.node, w.key);
      assert d.nodes[i] == n.(labels := n.labels - {w.key});
      RemoveLowersNode(cr, c, n, w.key, listed);
    }
    WorkFollowsNode(cr, c, d, i);
  }

  /** Every write to a Module or the DaemonSet takes exactly one piece of work away. */
  lemma InfrastructureWrite(cr: Onload, c: ClusterState, w: ClusterWrite, listed: bool)
    requires Guarded(cr, c, w, listed) && !w.SetLabel? && !w.RemoveLabel?
    ensures Apply(w, c).nodes == c.nodes
    ensures InfrastructureWork(cr, Apply(w, c)) == InfrastructureWork(cr, c) - One(!w.EvictPod?)
  {
    hide ModuleKey, ModuleName, DevicePluginKey, MapKernels, UsesSFC;
    ModuleKeysDiffer(cr.id);
    var d := Apply(w, c);
    if w.CreateModule? || w.PatchModule? || w.DeleteModule? {
      var kind := if w.target == ModuleKey(cr.id, OnloadKind) then OnloadKind else SfcKind;
      var other := if kind == OnloadKind then SfcKind else OnloadKind;
      assert w.target == ModuleKey(cr.id, kind) && d.daemonSets == c.daemonSets;
      assert ModuleReady(cr, d, other) == ModuleReady(cr, c, other);
      assert !ModuleReady(cr, c, kind) && ModuleReady(cr, d, kind);
    }
  }

  lemma WriteLowersWork(cr: Onload, c: ClusterState, w: ClusterWrite, listed: bool)
    requires Sane(cr, c) && Guarded(cr, c, w, listed)
    ensures Work(cr, Apply(w, c)) <= Work(cr, c)
    ensures Shrinks(cr, c, w) ==> Work(cr, Apply(w, c)) < Work(cr, c)
  {
    if w.SetLabel? || w.RemoveLabel? {
      LabelWriteLowersWork(cr, c, w, listed);
    } else {
      InfrastructureWrite(cr, c, w, listed);
    }
  }

  // ---- Runs of writes ----

  lemma ShrinksLater(cr: Onload, c: ClusterState, w: ClusterWrite, v: ClusterWrite, listed: bool)
    requires Sane(cr, c) && Guarded(cr, c, w, listed) && Shrinks(cr, c, v)
    ensures Shrinks(cr, Apply(w, c), v)
  {
    var d := Apply(w, c);
    if w.SetLabel? {
      SetLabelEffect(cr, c, w.node, w.key, w.value);
    } else if w.RemoveLabel? {
      RemoveLabelEffect(cr, c, w.node, w.key);
    }
    if v.RemoveLabel? && v.key == KmmLabelName(cr.id, SfcKind) {
      forall n | n in d.nodes && n.name == v.node ensures !Selected(cr, n) {
        var i :| 0 <= i < |d.nodes| && d.nodes[i] == n;
        assert c.nodes[i] in c.nodes;
      }
    }
  }

  lemma {:induction false} WritesLowerWork(cr: Onload, c: ClusterState, ws: seq<ClusterWrite>, listed: bool)
    requires Sane(cr, c) && GuardedRun(cr, c, ws, listed)
    ensures Sane(cr, ApplyAll(ws, c))
    ensures Work(cr, ApplyAll(ws, c)) <= Work(cr, c)
    ensures (exists w :: w in ws && Shrinks(cr, c, w)) ==> Work(cr, ApplyAll(ws, c)) < Work(cr, c)
    decreases |ws|
  {
    if ws != [] {
      var d := Apply(ws[0], c);
      WriteKeepsSane(cr, c, ws[0], listed);
      WriteLowersWork(cr, c, ws[0], listed);
      WritesLowerWork(cr, d, ws[1..], listed);
      if w :| w in ws && Shrinks(cr, c, w) {
        if w != ws[0] {
          assert w in ws[1..];
          ShrinksLater(cr, c, ws[0], w, listed);
        }
      }
    }
  }

  /** A Reconcile, cut short anywhere, never adds work. */
  lemma TruncatedNeverAddsWork(
    cr: Onload, image: string, c: ClusterState, d: ClusterState, listed: bool, k: nat)
    requires Sane(cr, c) && ReconciledTo(cr, image, c, d, listed, k)
    ensures Sane(cr, d) && Work(cr, d) <= Work(cr, c)
  {
    TruncatedIsGuarded(cr, image, c, listed, k);
    WritesLowerWork(cr, c, Reconcile(cr, image, c, listed).writes[..k], listed);
  }

  // ---- A requeue has made progress ----

  predicate SomeShrinks(cr: Onload, c: ClusterState, ws: seq<ClusterWrite>) {
    exists w :: w in ws && Shrinks(cr, c, w)
  }

  lemma FirstShrinks(cr: Onload, c: ClusterState, ws: seq<ClusterWrite>)
    requires ws != [] && Shrinks(cr, c, ws[0])
    ensures SomeShrinks(cr, c, ws)
  {
    assert ws[0] in ws;
  }

  lemma {:induction false} KmmWritesAreAdditions(cr: Onload, pods: seq<Pod>, items: seq<Node>)
    ensures forall w | w in AddKmmLabelsTo(cr, pods, items).writes :: w.SetLabel?
  {
    if items != [] {
      KmmWritesAreAdditions(cr, pods, items[1..]);
    }
  }

  lemma {:induction false} OnloadWritesAreAdditions(cr: Onload, items: seq<Node>)
    ensures forall w | w in OnloadAdditions(cr, items) :: w.SetLabel?
  {
    if items != [] {
      OnloadWritesAreAdditions(cr, items[1..]);
    }
  }

  /** The clean-up takes the key from exactly the listed nodes outside the selector. */
  lemma {:induction false} StaleRemovalsExact(cr: Onload, items: seq<Node>, key: string, w: ClusterWrite)
    ensures w in StaleRemovals(cr, items, key) <==>
      exists n :: n in items && !Selected(cr, n) && w == RemoveLabel(n.name, key)
  {
    if items != [] {
      StaleRemovalsExact(cr, items[1..], key, w);
      assert forall n :: n in items <==> n == items[0] || n in items[1..];
    }
  }

  /** One stale-label phase takes the key off exactly the nodes outside the selector that carry it. */
  lemma StalePhaseExact(cr: Onload, c: ClusterState, key: string, w: ClusterWrite)
    ensures w in RemoveStaleLabels(cr, c, key).writes <==>
      exists n :: n in c.nodes && key in n.labels && !Selected(cr, n) && w == RemoveLabel(n.name, key)
  {
    StaleRemovalsExact(cr, SelectNodes(c.nodes, Exists(key)), key, w);
  }

  lemma StalePhaseShrinks(cr: Onload, c: ClusterState, key: string)
    requires Sane(cr, c) && RemoveStaleLabels(cr, c, key).flow == AGAIN
    ensures SomeShrinks(cr, c, RemoveStaleLabels(cr, c, key).writes)
  {
    var ws := RemoveStaleLabels(cr, c, key).writes;
    assert ws[0] in ws;
    StalePhaseExact(cr, c, key, ws[0]);
    var n :| n in c.nodes && key in n.labels && !Selected(cr, n) && ws[0] == RemoveLabel(n.name, key);
    SameName(c, n);
    FirstShrinks(cr, c, ws);
  }

  lemma LabelPhasesShrink(cr: Onload, c: ClusterState)
    requires Sane(cr, c)
    ensures AddKmmLabelsToNodes(cr, c).flow == AGAIN ==> SomeShrinks(cr, c, AddKmmLabelsToNodes(cr, c).writes)
    ensures AddOnloadLabelsToNodes(cr, c).flow == AGAIN ==> SomeShrinks(cr, c, AddOnloadLabelsToNodes(cr, c).writes)
  {
    var items := SelectNodes(c.nodes, Includes(cr.spec.selector));
    KmmIdle(cr, c.pods, items);
    KmmWritesAreAdditions(cr, c.pods, items);
    OnloadWritesAreAdditions(cr, items);
    var kmm, onload := AddMissingKmmLabels(cr, c), AddMissingOnloadLabels(cr, c);
    if kmm.flow == AGAIN { FirstShrinks(cr, c, kmm.writes); }
    if onload.flow == AGAIN { FirstShrinks(cr, c, onload.writes); }
    forall key | RemoveStaleLabels(cr, c, key).flow == AGAIN
      ensures SomeShrinks(cr, c, RemoveStaleLabels(cr, c, key).writes)
    {
      StalePhaseShrinks(cr, c, key);
    }
  }

  lemma ObjectPhasesShrink(cr: Onload, image: string, c: ClusterState)
    ensures CreateAndAddModules(cr, c).flow == AGAIN ==> SomeShrinks(cr, c, CreateAndAddModules(cr, c).writes)
    ensures CreateDevicePluginDaemonSet(cr, image, c).flow == AGAIN ==>
      SomeShrinks(cr, c, CreateDevicePluginDaemonSet(cr, image, c).writes)
    ensures HandleDevicePluginUpdate(cr, c).flow == AGAIN ==>
      SomeShrinks(cr, c, HandleDevicePluginUpdate(cr, c).writes)
    ensures HandleModuleUpdate(cr, c).flow == AGAIN ==> SomeShrinks(cr, c, HandleModuleUpdate(cr, c).writes)
  {
    if CreateAndAddModules(cr, c).flow == AGAIN { FirstShrinks(cr, c, CreateAndAddModules(cr, c).writes); }
    if CreateDevicePluginDaemonSet(cr, image, c).flow == AGAIN {
      FirstShrinks(cr, c, CreateDevicePluginDaemonSet(cr, image, c).writes);
    }
    if HandleDevicePluginUpdate(cr, c).flow == AGAIN { FirstShrinks(cr, c, HandleDevicePluginUpdate(cr, c).writes); }
    if HandleModuleUpdate(cr, c).flow == AGAIN { FirstShrinks(cr, c, HandleModuleUpdate(cr, c).writes); }
  }

  lemma NodeUpdateShrinks(cr: Onload, c: ClusterState, n: Node, listed: bool)
    requires HandleNodeUpdate(cr, c, n, listed).flow == AGAIN
    ensures SomeShrinks(cr, c, HandleNodeUpdate(cr, c, n, listed).writes)
  {
    OwnKeysDiffer(cr.id);
    var ws := HandleNodeUpdate(cr, c, n, listed).writes;
    var last := ws[|ws| - 1];
    assert last in ws && Shrinks(cr, c, last);
  }

  lemma UpdatePhasesShrink(cr: Onload, image: string, c: ClusterState, listed: bool)
    ensures HandleUpdate(cr, c, listed).flow == AGAIN ==> SomeShrinks(cr, c, HandleUpdate(cr, c, listed).writes)
  {
    ObjectPhasesShrink(cr, image, c);
    if NodesToUpgrade(cr, c) != [] && UpgradeNextNode(cr, c, listed).flow == AGAIN {
      NodeUpdateShrinks(cr, c, First(NodesToUpgrade(cr, c)), listed);
    }
  }

  /** Every Reconcile that asks to be requeued has strictly lowered the measure. */
  lemma RequeueMakesProgress(cr: Onload, image: string, c: ClusterState, listed: bool)
    requires Sane(cr, c) && Reconcile(cr, image, c, listed).flow == AGAIN
    ensures Work(cr, ApplyAll(Reconcile(cr, image, c, listed).writes, c)) < Work(cr, c)
  {
    LabelPhasesShrink(cr, c);
    ObjectPhasesShrink(cr, image, c);
    UpdatePhasesShrink(cr, image, c, listed);
    ReconcileIsGuarded(cr, image, c, listed);
    var ws := Reconcile(cr, image, c, listed).writes;
    assert SomeShrinks(cr, c, ws);
    WritesLowerWork(cr, c, ws, listed);
  }

  // ---- Convergence from anywhere ----

  /** A complete Reconcile with no pod in the way; afterwards pods change at will. */
  ghost predicate QuietStep(cr: Onload, image: string, c: ClusterState, d: ClusterState) {
    && Unblocked(cr, c) && DistinctPods(d.pods)
    && exists listed :: SameButPods(ApplyAll(Reconcile(cr, image, c, listed).writes, c), d)
  }

  predicate SameButPods(c: ClusterState, d: ClusterState) {
    d.nodes == c.nodes && d.modules == c.modules && d.daemonSets == c.daemonSets
  }

  ghost predicate QuietStepAt(cr: Onload, image: string, run: seq<ClusterState>, i: nat)
    requires i + 1 < |run|
  {
    QuietStep(cr, image, run[i], run[i + 1])
  }

  ghost predicate QuietRun(cr: Onload, image: string, run: seq<ClusterState>) {
    |run| > 0 && Sane(cr, run[0]) && forall i: nat | i + 1 < |run| :: QuietStepAt(cr, image, run, i)
  }

  /** An unblocked Reconcile either lowers the measure or finds the cluster converged. */
  lemma UnblockedProgress(cr: Onload, image: string, c: ClusterState, listed: bool)
    requires Sane(cr, c) && Unblocked(cr, c) && !cr.deleting && NameFits(cr.id)
    ensures var p := Reconcile(cr, image, c, listed);
      if Work(cr, c) == 0 then p == Plan([], Return(Done))
      else p.flow == AGAIN && Work(cr, ApplyAll(p.writes, c)) < Work(cr, c)
  {
    NoWorkIffConverged(cr, c);
    QuiescentIffConverged(cr, image, c, listed);
    DoneIffIdle(cr, image, c, listed);
    if Phases(cr, image, c, listed).flow == WAIT {
      WaitingShowsBlockingPod(cr, image, c, listed);
      assert false;
    } else if Phases(cr, image, c, listed).flow == AGAIN {
      RequeueMakesProgress(cr, image, c, listed);
    }
  }

  lemma QuietStepLowersWork(cr: Onload, image: string, c: ClusterState, d: ClusterState)
    requires Sane(cr, c) && QuietStep(cr, image, c, d) && !cr.deleting && NameFits(cr.id)
    ensures Sane(cr, d)
    ensures if Work(cr, c) == 0 then Work(cr, d) == 0 else Work(cr, d) < Work(cr, c)
  {
    hide Phases;
    var listed :| SameButPods(ApplyAll(Reconcile(cr, image, c, listed).writes, c), d);
    UnblockedProgress(cr, image, c, listed);
    ReconcileIsGuarded(cr, image, c, listed);
    WritesLowerWork(cr, c, Reconcile(cr, image, c, listed).writes, listed);
  }

  lemma {:induction false} WorkRunsOut(cr: Onload, image: string, run: seq<ClusterState>, i: nat)
    requires QuietRun(cr, image, run) && i < |run| && !cr.deleting && NameFits(cr.id)
    ensures Sane(cr, run[i])
    ensures Work(cr, run[i]) == 0 || Work(cr, run[i]) + i <= Work(cr, run[0])
  {
    hide Reconcile;
    if i > 0 {
      WorkRunsOut(cr, image, run, i - 1);
      assert QuietStepAt(cr, image, run, i - 1);
      QuietStepLowersWork(cr, image, run[i - 1], run[i]);
    }
  }

  /** From any state whatsoever, as many unblocked Reconciles as the measure says reach convergence, for good. */
  lemma ConvergesFromAnywhere(cr: Onload, image: string, run: seq<ClusterState>, i: nat)
    requires QuietRun(cr, image, run) && !cr.deleting && NameFits(cr.id)
    requires Work(cr, run[0]) <= i < |run|
    ensures Converged(cr, run[i])
  {
    WorkRunsOut(cr, image, run, i);
    NoWorkIffConverged(cr, run[i]);
  }

  // ---- Requeues are bounded, whatever else happens ----

  /** One event while spec and nodes stand still: pods change, or a Reconcile makes its first `writes` writes. */
  datatype Event = PodsChange | Attempt(listed: bool, writes: nat)

  predicate Productive(cr: Onload, image: string, c: ClusterState, e: Event) {
    && e.Attempt?
    && e.writes == |Reconcile(cr, image, c, e.listed).writes| && Reconcile(cr, image, c, e.listed).flow == AGAIN
  }

  predicate EventAt(cr: Onload, image: string, events: seq<Event>, run: seq<ClusterState>, i: nat)
    requires i < |events| && |run| == |events| + 1
  {
    if events[i].PodsChange? then SameButPods(run[i], run[i + 1]) && DistinctPods(run[i + 1].pods)
    else ReconciledTo(cr, image, run[i], run[i + 1], events[i].listed, events[i].writes)
  }

  predicate EventRun(cr: Onload, image: string, events: seq<Event>, run: seq<ClusterState>) {
    && |run| == |events| + 1 && Sane(cr, run[0])
    && forall i: nat | i < |events| :: EventAt(cr, image, events, run, i)
  }

  /** How many of the first `i` events were Reconciles that completed and asked to be requeued. */
  function Requeues(cr: Onload, image: string, events: seq<Event>, run: seq<ClusterState>, i: nat): nat
    requires i <= |events| && |run| == |events| + 1
  {
    if i == 0 then 0
    else Requeues(cr, image, events, run, i - 1) + One(Productive(cr, image, run[i - 1], events[i - 1]))
  }

  lemma EventLowersWork(cr: Onload, image: string, c: ClusterState, d: ClusterState, listed: bool, k: nat)
    requires Sane(cr, c) && ReconciledTo(cr, image, c, d, listed, k)
    ensures Sane(cr, d) && Work(cr, d) + One(Productive(cr, image, c, Attempt(listed, k))) <= Work(cr, c)
  {
    hide Phases, Work;
    TruncatedNeverAddsWork(cr, image, c, d, listed, k);
    if Productive(cr, image, c, Attempt(listed, k)) {
      var ws := Reconcile(cr, image, c, listed).writes;
      assert ws[..k] == ws;
      RequeueMakesProgress(cr, image, c, listed);
    }
  }

  /** However Reconciles are cut short or blocked and pods come and go, the measure bounds the number of requeues. */
  lemma {:induction false} RequeuesAreBounded(
    cr: Onload, image: string, events: seq<Event>, run: seq<ClusterState>, i: nat)
    requires EventRun(cr, image, events, run) && i <= |events|
    ensures Sane(cr, run[i])
    ensures Requeues(cr, image, events, run, i) + Work(cr, run[i]) <= Work(cr, run[0])
  {
    hide Reconcile, Work, Productive;
    if i > 0 {
      RequeuesAreBounded(cr, image, events, run, i - 1);
      assert EventAt(cr, image, events, run, i - 1);
      var e := events[i - 1];
      if e.PodsChange? {
        PodsDoNotCount(cr, image, run[i - 1], run[i]);
      } else {
        EventLowersWork(cr, image, run[i - 1], run[i], e.listed, e.writes);
      }
    }
  }

  lemma PodsDoNotCount(cr: Onload, image: string, c: ClusterState, d: ClusterState)
    requires SameButPods(c, d)
    ensures Work(cr, d) == Work(cr, c) && !Productive(cr, image, c, PodsChange)
  {
  }
}

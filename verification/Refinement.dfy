// A Reconcile against a snapshot is a run of guarded writes, it writes from one
// phase only, and it reaches node upgrades only when everything else is done.

module Refinement {
  import opened Wrappers
  import opened Ordering
  import opened Kubernetes
  import opened OnloadTypes
  import opened Outcomes
  import opened Planning
  import opened Machine

  // ---- The loops ----

  /** Listed items that are still as they were listed. */
  predicate Current(c: ClusterState, items: seq<Node>) {
    DistinctNames(items) && forall n | n in items :: n in c.nodes
  }

  /** `d` differs from `c` at most on the node called `name`. */
  predicate SameElsewhere(c: ClusterState, d: ClusterState, name: string) {
    && |d.nodes| == |c.nodes|
    && forall i | 0 <= i < |c.nodes| && c.nodes[i].name != name :: d.nodes[i] == c.nodes[i]
  }

  lemma CurrentTail(c: ClusterState, d: ClusterState, items: seq<Node>)
    requires items != [] && Current(c, items) && SameElsewhere(c, d, items[0].name)
    ensures Current(d, items[1..])
  {
    forall n | n in items[1..] ensures n in d.nodes {
      assert n in items && n in c.nodes;
      var i :| 0 <= i < |c.nodes| && c.nodes[i] == n;
      assert d.nodes[i] == n;
    }
  }

  lemma ListIsCurrent(c: ClusterState, s: LabelSelector)
    requires DistinctNames(c.nodes)
    ensures Current(c, SelectNodes(c.nodes, s))
  {
    SelectKeepsDistinct(c.nodes, s);
  }

  lemma NoPodsListed(cr: Onload, c: ClusterState, want: Labels, node: string)
    requires PodsOn(c.pods, want, node) == []
    ensures forall p | p in c.pods && p.node == node :: !Selects(Includes(want), p.labels)
  {
    forall p | p in c.pods && p.node == node ensures !Selects(Includes(want), p.labels) {
      assert p !in PodsOn(c.pods, want, node);
    }
  }

  lemma OneKmmLabel(cr: Onload, c: ClusterState, n: Node, kind: ModuleKind, listed: bool)
    requires Sane(cr, c) && n in c.nodes && Selected(cr, n) && ModuleUsed(cr, kind)
    requires kind == SfcKind ==> Kmm(cr, n).Some?
    ensures var s := AddKmmLabelToNode(cr, c.pods, n, kind);
      && GuardedRun(cr, c, s.writes, listed)
      && var d := ApplyAll(s.writes, c);
      && Sane(cr, d) && d.pods == c.pods && SameElsewhere(c, d, n.name)
      && s.node in d.nodes && Selected(cr, s.node) && s.node.name == n.name
      && (kind == OnloadKind && s.flow == Continue ==> Kmm(cr, s.node).Some?)
  {
    OwnKeysDiffer(cr.id);
    var s := AddKmmLabelToNode(cr, c.pods, n, kind);
    var key := KmmLabelName(cr.id, kind);
    if s.writes != [] {
      SetLabelEffect(cr, c, n.name, key, cr.Version());
      var i :| 0 <= i < |c.nodes| && c.nodes[i] == n;
      var w, d := s.writes[0], Apply(s.writes[0], c);
      assert d.nodes[i] == s.node;
      NoPodsListed(cr, c, ModulePodLabels(cr.id, kind), n.name);
      assert MayAdd(cr, c, n, key);
      SameName(c, n);
      OneWrite(cr, c, w, listed);
    }
  }

  lemma BothKmmLabels(cr: Onload, c: ClusterState, n: Node, listed: bool)
    requires Sane(cr, c) && n in c.nodes && Selected(cr, n)
    ensures var s := AddKmmLabelsToNode(cr, c.pods, n);
      && GuardedRun(cr, c, s.writes, listed)
      && var d := ApplyAll(s.writes, c);
      && Sane(cr, d) && d.pods == c.pods && SameElsewhere(c, d, n.name)
  {
    OneKmmLabel(cr, c, n, OnloadKind, listed);
    var first := AddKmmLabelToNode(cr, c.pods, n, OnloadKind);
    if first.flow == Continue && UsesSFC(cr) {
      var d := ApplyAll(first.writes, c);
      OneKmmLabel(cr, d, first.node, SfcKind, listed);
      var second := AddKmmLabelToNode(cr, d.pods, first.node, SfcKind);
      GuardedConcat(cr, c, first.writes, second.writes, listed);
      ApplyAllConcat(first.writes, second.writes, c);
    }
  }

  lemma {:induction false} KmmLabelsGuarded(cr: Onload, c: ClusterState, items: seq<Node>, listed: bool)
    requires Sane(cr, c) && Current(c, items) && forall n | n in items :: Selected(cr, n)
    ensures GuardedRun(cr, c, AddKmmLabelsTo(cr, c.pods, items).writes, listed)
    decreases |items|
  {
    if items != [] {
      var step := AddKmmLabelsToNode(cr, c.pods, items[0]);
      BothKmmLabels(cr, c, items[0], listed);
      if step.flow == Continue {
        var d := ApplyAll(step.writes, c);
        CurrentTail(c, d, items);
        KmmLabelsGuarded(cr, d, items[1..], listed);
        GuardedConcat(cr, c, step.writes, AddKmmLabelsTo(cr, c.pods, items[1..]).writes, listed);
      }
    }
  }

  lemma {:induction false} StaleGuarded(
    cr: Onload, c: ClusterState, items: seq<Node>, key: string, listed: bool)
    requires Sane(cr, c) && OwnKey(cr.id, key)
    requires Current(c, items) && forall n | n in items :: key in n.labels
    ensures GuardedRun(cr, c, StaleRemovals(cr, items, key), listed)
    decreases |items|
  {
    if items != [] {
      if Selected(cr, items[0]) {
        CurrentTail(c, c, items);
        StaleGuarded(cr, c, items[1..], key, listed);
        assert StaleRemovals(cr, items, key) == StaleRemovals(cr, items[1..], key);
      } else {
        var w := RemoveLabel(items[0].name, key);
        var d := Apply(w, c);
        RemoveLabelEffect(cr, c, items[0].name, key);
        CurrentTail(c, d, items);
        StaleGuarded(cr, d, items[1..], key, listed);
        SameName(c, items[0]);
        assert MayRemoveStale(cr, items[0], key);
        OneWrite(cr, c, w, listed);
        GuardedConcat(cr, c, [w], StaleRemovals(cr, items[1..], key), listed);
      }
    }
  }

  lemma {:induction false} OnloadLabelsGuarded(cr: Onload, c: ClusterState, items: seq<Node>, listed: bool)
    requires Sane(cr, c) && Current(c, items)
    requires forall n | n in items :: Selected(cr, n) && Kmm(cr, n).Some?
    ensures GuardedRun(cr, c, OnloadAdditions(cr, items), listed)
    decreases |items|
  {
    if items != [] {
      var n := items[0];
      if Read(n.labels, KmmLabelName(cr.id, OnloadKind)) == cr.Version() && OnloadLabelName(cr.id) !in n.labels {
        var w := SetLabel(n.name, OnloadLabelName(cr.id), cr.Version());
        var d := Apply(w, c);
        SetLabelEffect(cr, c, n.name, OnloadLabelName(cr.id), cr.Version());
        CurrentTail(c, d, items);
        OnloadLabelsGuarded(cr, d, items[1..], listed);
        SameName(c, n);
        OwnKeysDiffer(cr.id);
        assert MayAdd(cr, c, n, OnloadLabelName(cr.id));
        OneWrite(cr, c, w, listed);
        GuardedConcat(cr, c, [w], OnloadAdditions(cr, items[1..]), listed);
      } else {
        CurrentTail(c, c, items);
        OnloadLabelsGuarded(cr, c, items[1..], listed);
        assert OnloadAdditions(cr, items) == OnloadAdditions(cr, items[1..]);
      }
    }
  }

  /** An eviction changes nothing that decides which node is next and whether its plugin is gone. */
  lemma EvictionKeepsNext(cr: Onload, c: ClusterState, uid: nat, n: Node)
    requires NextInLine(cr, c, n) && PluginGone(cr, c, n)
    ensures var d := Apply(EvictPod(uid), c); NextInLine(cr, d, n) && PluginGone(cr, d, n)
  {
    hide InfrastructureReady, Selects, DevicePluginPodLabels;
    var d := Apply(EvictPod(uid), c);
    SameInfrastructure(cr, c, d);
    forall p | p in d.pods && p.node == n.name ensures !Selects(Includes(DevicePluginPodLabels(cr.id)), p.labels) {
      var k :| 0 <= k < |d.pods| && d.pods[k] == p;
      assert c.pods[k] in c.pods && c.pods[k].labels == p.labels;
    }
  }

  lemma {:induction false} EvictionsGuarded(cr: Onload, c: ClusterState, n: Node, pods: seq<Pod>, listed: bool)
    requires n in c.nodes && NextInLine(cr, c, n) && PluginGone(cr, c, n)
    requires forall i | 0 <= i < |pods| && !pods[i].terminating :: StillRunning(c, n.name, pods[i].uid)
    requires forall i, j | 0 <= i < j < |pods| :: pods[i].uid != pods[j].uid
    ensures GuardedRun(cr, c, Evictions(pods), listed)
    decreases |pods|
  {
    hide NextInLine, PluginGone, UsesOnload;
    if pods != [] {
      if pods[0].terminating {
        EvictionsGuarded(cr, c, n, pods[1..], listed);
        assert Evictions(pods) == Evictions(pods[1..]);
      } else {
        var w: ClusterWrite := EvictPod(pods[0].uid);
        var d := Apply(w, c);
        forall i | 0 <= i < |pods[1..]| && !pods[1..][i].terminating
          ensures StillRunning(d, n.name, pods[1..][i].uid)
        {
          assert pods[1..][i] == pods[i + 1];
          OthersStillRun(c, pods[0].uid, n.name, pods[i + 1].uid);
        }
        EvictionKeepsNext(cr, c, pods[0].uid, n);
        EvictionsGuarded(cr, d, n, pods[1..], listed);
        RunningMayBeEvicted(cr, c, n, pods[0].uid, listed);
        OneWrite(cr, c, w, listed);
        GuardedConcat(cr, c, [w], Evictions(pods[1..]), listed);
      }
    }
  }

  predicate StillRunning(c: ClusterState, node: string, uid: nat) {
    exists k | 0 <= k < |c.pods| ::
      c.pods[k].uid == uid && c.pods[k].node == node && UsesOnload(c.pods[k]) && !c.pods[k].terminating
  }

  lemma OthersStillRun(c: ClusterState, evicted: nat, node: string, uid: nat)
    requires StillRunning(c, node, uid) && uid != evicted
    ensures StillRunning(Apply(EvictPod(evicted), c), node, uid)
  {
    var k :| 0 <= k < |c.pods| && c.pods[k].uid == uid && c.pods[k].node == node
             && UsesOnload(c.pods[k]) && !c.pods[k].terminating;
    assert Apply(EvictPod(evicted), c).pods[k] == c.pods[k];
  }

  lemma RunningMayBeEvicted(cr: Onload, c: ClusterState, n: Node, uid: nat, listed: bool)
    requires n in c.nodes && NextInLine(cr, c, n) && PluginGone(cr, c, n) && StillRunning(c, n.name, uid)
    ensures Guarded(cr, c, EvictPod(uid), listed)
  {
    hide NextInLine, PluginGone, UsesOnload;
    var k :| 0 <= k < |c.pods| && c.pods[k].uid == uid && c.pods[k].node == n.name
             && UsesOnload(c.pods[k]) && !c.pods[k].terminating;
    assert c.pods[k] in c.pods && MayEvict(cr, c, c.pods[k]);
  }

  // ---- When a phase has nothing to do ----

  predicate KmmComplete(cr: Onload, n: Node) {
    && Kmm(cr, n).Some?
    && (UsesSFC(cr) && Kmm(cr, n) == Some(cr.Version()) ==> Sfc(cr, n).Some?)
  }

  lemma KmmIdleNode(cr: Onload, pods: seq<Pod>, n: Node)
    ensures var s := AddKmmLabelsToNode(cr, pods, n);
      && (s.writes == [] && s.flow == Continue <==> KmmComplete(cr, n))
      && s.flow in {Continue, Return(RequeueAfter(DEFAULT_REQUEUE_TIME))}
  {
    OwnKeysDiffer(cr.id);
  }

  lemma {:induction false} KmmIdle(cr: Onload, pods: seq<Pod>, items: seq<Node>)
    ensures AddKmmLabelsTo(cr, pods, items) == Plan([], Continue) <==> forall n | n in items :: KmmComplete(cr, n)
    ensures AddKmmLabelsTo(cr, pods, items).flow in {Continue, Return(RequeueAfter(DEFAULT_REQUEUE_TIME))}
  {
    if items != [] {
      KmmIdleNode(cr, pods, items[0]);
      KmmIdle(cr, pods, items[1..]);
      assert forall n :: n in items <==> n == items[0] || n in items[1..];
    }
  }

  lemma {:induction false} StaleIdle(cr: Onload, items: seq<Node>, key: string)
    ensures StaleRemovals(cr, items, key) == [] <==> forall n | n in items :: Selected(cr, n)
  {
    if items != [] {
      StaleIdle(cr, items[1..], key);
      assert forall n :: n in items <==> n == items[0] || n in items[1..];
    }
  }

  predicate PluginComplete(cr: Onload, n: Node) {
    Kmm(cr, n) == Some(cr.Version()) ==> Plugin(cr, n).Some?
  }

  lemma {:induction false} OnloadIdle(cr: Onload, items: seq<Node>)
    requires forall n | n in items :: Kmm(cr, n).Some?
    ensures OnloadAdditions(cr, items) == [] <==> forall n | n in items :: PluginComplete(cr, n)
  {
    if items != [] {
      OnloadIdle(cr, items[1..]);
      assert forall n :: n in items <==> n == items[0] || n in items[1..];
      var n := items[0];
      var key := OnloadLabelName(cr.id);
      var head: seq<ClusterWrite> :=
        if Read(n.labels, KmmLabelName(cr.id, OnloadKind)) == cr.Version() && key !in n.labels
        then [SetLabel(n.name, key, cr.Version())] else [];
      assert OnloadAdditions(cr, items) == head + OnloadAdditions(cr, items[1..]);
      assert Kmm(cr, n) == Some(Read(n.labels, KmmLabelName(cr.id, OnloadKind)));
      assert head == [] <==> PluginComplete(cr, n);
    }
  }

  // ---- The phases in order ----

  function PhaseList(cr: Onload, image: string, c: ClusterState, listed: bool): seq<Phase> {
    [ AddMissingKmmLabels(cr, c),
      RemoveStaleLabels(cr, c, KmmLabelName(cr.id, OnloadKind)),
      RemoveStaleLabels(cr, c, KmmLabelName(cr.id, SfcKind)),
      CreateAndAddModuleIfUsed(cr, c, OnloadKind),
      CreateAndAddModuleIfUsed(cr, c, SfcKind),
      AddMissingOnloadLabels(cr, c),
      RemoveStaleLabels(cr, c, OnloadLabelName(cr.id)),
      CreateDevicePluginDaemonSet(cr, image, c),
      HandleDevicePluginUpdate(cr, c),
      PatchOrDeleteModule(cr, c, OnloadKind),
      PatchOrDeleteModule(cr, c, SfcKind),
      UpgradeNextNode(cr, c, listed) ]
  }

  /** Run the phases from number `k` on until one does not fall through. */
  function RunFrom(ps: seq<Phase>, k: nat): Phase
    requires k <= |ps|
    decreases |ps| - k
  {
    if k == |ps| then Plan([], Return(Done)) else OrElse(ps[k], RunFrom(ps, k + 1))
  }

  /** Index of the first phase from number `k` on that does not fall through. */
  function FirstBusy(ps: seq<Phase>, k: nat): (i: nat)
    requires k <= |ps|
    ensures k <= i <= |ps|
    ensures forall j | k <= j < i :: ps[j].flow.Continue?
    ensures i < |ps| ==> !ps[i].flow.Continue?
    ensures RunFrom(ps, k) == if i < |ps| then ps[i] else Plan([], Return(Done))
    decreases |ps| - k
  {
    if k == |ps| || !ps[k].flow.Continue? then k else FirstBusy(ps, k + 1)
  }

  lemma OrElseAssociates(a: Phase, b: Phase, c: Phase)
    ensures OrElse(OrElse(a, b), c) == OrElse(a, OrElse(b, c))
  {
  }

  lemma PhasesInOrder(cr: Onload, image: string, c: ClusterState, listed: bool)
    ensures Phases(cr, image, c, listed) == RunFrom(PhaseList(cr, image, c, listed), 0)
  {
    var ps := PhaseList(cr, image, c, listed);
    var end: Phase := Plan([], Return(Done));
    var r11 := OrElse(ps[11], end);
    var r9 := OrElse(ps[9], OrElse(ps[10], r11));
    var r8 := OrElse(HandleUpdate(cr, c, listed), end);
    var r5 := OrElse(ps[5], OrElse(ps[6], OrElse(ps[7], r8)));
    assert RunFrom(ps, 12) == end;
    assert RunFrom(ps, 11) == r11;
    assert RunFrom(ps, 10) == OrElse(ps[10], r11);
    assert RunFrom(ps, 9) == r9;
    assert RunFrom(ps, 8) == OrElse(ps[8], r9);
    OrElseAssociates(ps[8], OrElse(HandleModuleUpdate(cr, c), ps[11]), end);
    OrElseAssociates(HandleModuleUpdate(cr, c), ps[11], end);
    OrElseAssociates(ps[9], ps[10], r11);
    assert RunFrom(ps, 8) == r8;
    assert RunFrom(ps, 7) == OrElse(ps[7], r8);
    assert RunFrom(ps, 6) == OrElse(ps[6], OrElse(ps[7], r8));
    assert RunFrom(ps, 5) == r5;
    OrElseAssociates(ps[5], ps[6], OrElse(ps[7], r8));
    OrElseAssociates(ps[3], ps[4], r5);
    assert RunFrom(ps, 4) == OrElse(ps[4], r5);
    var r3 := OrElse(ps[3], OrElse(ps[4], r5));
    assert RunFrom(ps, 3) == r3;
    assert RunFrom(ps, 2) == OrElse(ps[2], r3);
    assert RunFrom(ps, 1) == OrElse(ps[1], OrElse(ps[2], r3));
    OrElseAssociates(ps[0], OrElse(ps[1], ps[2]), r3);
    OrElseAssociates(ps[1], ps[2], r3);
  }

  lemma UpgradeFallsThrough(cr: Onload, c: ClusterState, listed: bool)
    ensures UpgradeNextNode(cr, c, listed).flow.Continue? <==> NodesToUpgrade(cr, c) == []
    ensures !UpgradeNextNode(cr, c, listed).flow.Fail?
  {
  }

  /** One phase per call: a Reconcile is its first busy phase, and nothing else. */
  lemma OnePhasePerCall(cr: Onload, image: string, c: ClusterState, listed: bool)
    ensures var ps := PhaseList(cr, image, c, listed);
      var i := FirstBusy(ps, 0);
      && Phases(cr, image, c, listed) == (if i < |ps| then ps[i] else Plan([], Return(Done)))
      && (forall j | 0 <= j < i :: ps[j] == Plan([], Continue))
  {
    PhasesInOrder(cr, image, c, listed);
    var ps := PhaseList(cr, image, c, listed);
    forall j | 0 <= j < FirstBusy(ps, 0) ensures ps[j] == Plan([], Continue) {
      var q: Phase := ps[j];
    }
  }

  // ---- Which states leave only node upgrades to do ----

  lemma KmmPhaseIdle(cr: Onload, c: ClusterState)
    ensures AddMissingKmmLabels(cr, c).flow.Continue?
      <==> forall n | n in c.nodes && Selected(cr, n) :: KmmComplete(cr, n)
    ensures AddMissingKmmLabels(cr, c).flow
      in {Continue, Return(Requeue), Return(RequeueAfter(DEFAULT_REQUEUE_TIME))}
  {
    KmmIdle(cr, c.pods, SelectNodes(c.nodes, Includes(cr.spec.selector)));
  }

  lemma StalePhaseIdle(cr: Onload, c: ClusterState, key: string)
    ensures RemoveStaleLabels(cr, c, key).flow.Continue?
      <==> forall n | n in c.nodes && !Selected(cr, n) :: key !in n.labels
  {
    StaleIdle(cr, SelectNodes(c.nodes, Exists(key)), key);
  }

  lemma OnloadPhaseIdle(cr: Onload, c: ClusterState)
    requires forall n | n in c.nodes && Selected(cr, n) :: Kmm(cr, n).Some?
    ensures AddMissingOnloadLabels(cr, c).flow.Continue?
      <==> forall n | n in c.nodes && Selected(cr, n) :: PluginComplete(cr, n)
  {
    OnloadIdle(cr, SelectNodes(c.nodes, Includes(cr.spec.selector)));
  }

  lemma ModulePhasesIdle(cr: Onload, c: ClusterState, kind: ModuleKind)
    ensures CreateAndAddModuleIfUsed(cr, c, kind).flow.Continue? && PatchOrDeleteModule(cr, c, kind).flow.Continue?
      <==> ModuleReady(cr, c, kind)
    ensures CreateAndAddModuleIfUsed(cr, c, kind).flow.Continue? ==> !PatchOrDeleteModule(cr, c, kind).flow.Fail?
  {
  }

  /** Every phase before the node upgrades falls through. */
  predicate EarlyIdle(cr: Onload, image: string, c: ClusterState) {
    && AddMissingKmmLabels(cr, c).flow.Continue?
    && RemoveStaleLabels(cr, c, KmmLabelName(cr.id, OnloadKind)).flow.Continue?
    && RemoveStaleLabels(cr, c, KmmLabelName(cr.id, SfcKind)).flow.Continue?
    && CreateAndAddModuleIfUsed(cr, c, OnloadKind).flow.Continue?
    && CreateAndAddModuleIfUsed(cr, c, SfcKind).flow.Continue?
    && AddMissingOnloadLabels(cr, c).flow.Continue?
    && RemoveStaleLabels(cr, c, OnloadLabelName(cr.id)).flow.Continue?
    && CreateDevicePluginDaemonSet(cr, image, c).flow.Continue?
    && HandleDevicePluginUpdate(cr, c).flow.Continue?
    && PatchOrDeleteModule(cr, c, OnloadKind).flow.Continue?
    && PatchOrDeleteModule(cr, c, SfcKind).flow.Continue?
  }

  lemma EarlyIdleIsReady(cr: Onload, image: string, c: ClusterState)
    ensures EarlyIdle(cr, image, c) <==> ReadyToUpgrade(cr, c)
  {
    KmmPhaseIdle(cr, c);
    StalePhaseIdle(cr, c, KmmLabelName(cr.id, OnloadKind));
    StalePhaseIdle(cr, c, KmmLabelName(cr.id, SfcKind));
    StalePhaseIdle(cr, c, OnloadLabelName(cr.id));
    ModulePhasesIdle(cr, c, OnloadKind);
    ModulePhasesIdle(cr, c, SfcKind);
    if AddMissingKmmLabels(cr, c).flow.Continue? || ReadyToUpgrade(cr, c) {
      OnloadPhaseIdle(cr, c);
    }
  }

  lemma EarlyIdleIsLast(cr: Onload, image: string, c: ClusterState, listed: bool)
    ensures EarlyIdle(cr, image, c) <==> FirstBusy(PhaseList(cr, image, c, listed), 0) >= 11
  {
    hide AddMissingKmmLabels, RemoveStaleLabels, CreateAndAddModuleIfUsed, AddMissingOnloadLabels,
      CreateDevicePluginDaemonSet, HandleDevicePluginUpdate, PatchOrDeleteModule, UpgradeNextNode, RunFrom;
    var ps := PhaseList(cr, image, c, listed);
    var i := FirstBusy(ps, 0);
    if i >= 11 {
      assert ps[0].flow.Continue? && ps[1].flow.Continue? && ps[2].flow.Continue? && ps[3].flow.Continue?;
      assert ps[4].flow.Continue? && ps[5].flow.Continue? && ps[6].flow.Continue? && ps[7].flow.Continue?;
      assert ps[8].flow.Continue? && ps[9].flow.Continue? && ps[10].flow.Continue?;
    } else {
      assert !ps[i].flow.Continue?;
    }
  }

  /** Node upgrades are reached exactly when nothing else is left to do. */
  lemma UpgradeReachedIffReady(cr: Onload, image: string, c: ClusterState, listed: bool)
    ensures FirstBusy(PhaseList(cr, image, c, listed), 0) >= 11 <==> ReadyToUpgrade(cr, c)
  {
    EarlyIdleIsReady(cr, image, c);
    EarlyIdleIsLast(cr, image, c, listed);
  }

  // ---- A Reconcile is a guarded run ----

  lemma NextNodeIsFirstOutdated(cr: Onload, c: ClusterState)
    requires ReadyToUpgrade(cr, c) && NodesToUpgrade(cr, c) != []
    ensures First(NodesToUpgrade(cr, c)) in c.nodes && NextInLine(cr, c, First(NodesToUpgrade(cr, c)))
  {
    forall m | m in c.nodes && IsOutdated(cr, m) ensures m in NodesToUpgrade(cr, c) {
      assert m in SelectNodes(c.nodes, Exists(KmmLabelName(cr.id, OnloadKind)));
    }
  }

  lemma UniquePodsListed(pods: seq<Pod>, node: string)
    requires DistinctPods(pods)
    ensures DistinctPods(OnloadedAmong(PodsOn(pods, map[], node)))
  {
    PodsOnDistinct(pods, node);
    OnloadedDistinct(PodsOn(pods, map[], node));
  }

  lemma {:induction false} PodsOnDistinct(pods: seq<Pod>, node: string)
    requires DistinctPods(pods)
    ensures DistinctPods(PodsOn(pods, map[], node))
  {
    if pods != [] {
      PodsOnDistinct(pods[1..], node);
      forall p | p in PodsOn(pods[1..], map[], node) ensures p.uid != pods[0].uid {
        assert p in pods[1..];
      }
    }
  }

  lemma {:induction false} OnloadedDistinct(pods: seq<Pod>)
    requires DistinctPods(pods)
    ensures DistinctPods(OnloadedAmong(pods))
  {
    if pods != [] {
      OnloadedDistinct(pods[1..]);
      forall p | p in OnloadedAmong(pods[1..]) ensures p.uid != pods[0].uid {
        assert p in pods[1..];
      }
    }
  }

  lemma EvictGuarded(cr: Onload, c: ClusterState, n: Node, listed: bool)
    requires Sane(cr, c) && n in c.nodes && NextInLine(cr, c, n) && PluginGone(cr, c, n)
    ensures GuardedRun(cr, c, EvictOnloadedPods(c, n.name, listed).writes, listed)
    ensures EvictOnloadedPods(c, n.name, listed).flow.Continue? ==> Drained(cr, c, n, listed)
  {
    hide NextInLine, PluginGone, UsesOnload;
    var pods := PodsUsingOnload(c, n.name, listed);
    if listed {
      UniquePodsListed(c.pods, n.name);
      forall i | 0 <= i < |pods| && !pods[i].terminating ensures StillRunning(c, n.name, pods[i].uid) {
        assert pods[i] in pods && pods[i] in c.pods;
        var k :| 0 <= k < |c.pods| && c.pods[k] == pods[i];
        assert c.pods[k].uid == pods[i].uid;
      }
      EvictionsGuarded(cr, c, n, pods, listed);
      if pods == [] {
        forall p | p in c.pods && p.node == n.name ensures !UsesOnload(p) {
          assert p in PodsOn(c.pods, map[], n.name);
          assert p !in pods;
        }
      }
    }
  }

  lemma RemoveForUpgradeGuarded(cr: Onload, c: ClusterState, n: Node, key: string, listed: bool)
    requires Sane(cr, c) && n in c.nodes && OwnKey(cr.id, key)
    requires MayRemoveForUpgrade(cr, c, n, key, listed)
    ensures GuardedRun(cr, c, [RemoveLabel(n.name, key)], listed)
  {
    SameName(c, n);
    OneWrite(cr, c, RemoveLabel(n.name, key), listed);
  }

  lemma SameInfrastructure(cr: Onload, c: ClusterState, d: ClusterState)
    requires d.modules == c.modules && d.daemonSets == c.daemonSets
    ensures InfrastructureReady(cr, d) == InfrastructureReady(cr, c)
  {
  }

  /** Removing the SFC label keeps the state ready and the node next in line. */
  lemma SfcRemovalKeepsGuard(cr: Onload, c: ClusterState, n: Node, listed: bool)
    requires Sane(cr, c) && n in c.nodes
    requires MayRemoveForUpgrade(cr, c, n, KmmLabelName(cr.id, SfcKind), listed)
    ensures var d := Apply(RemoveLabel(n.name, KmmLabelName(cr.id, SfcKind)), c);
      var m := n.(labels := n.labels - {KmmLabelName(cr.id, SfcKind)});
      && Sane(cr, d) && m in d.nodes && m.name == n.name
      && MayRemoveForUpgrade(cr, d, m, KmmLabelName(cr.id, OnloadKind), listed)
  {
    hide Selected, UsesOnload, UsesSFC, Selects, DevicePluginPodLabels, InfrastructureReady;
    OwnKeysDiffer(cr.id);
    var key := KmmLabelName(cr.id, SfcKind);
    var d := Apply(RemoveLabel(n.name, key), c);
    var m := n.(labels := n.labels - {key});
    RemoveLabelEffect(cr, c, n.name, key);
    SameInfrastructure(cr, c, d);
    var i :| 0 <= i < |c.nodes| && c.nodes[i] == n;
    assert d.nodes[i] == m;
    forall x | x in d.nodes
      ensures !Selected(cr, x) ==> Kmm(cr, x).None? && Sfc(cr, x).None? && Plugin(cr, x).None?
      ensures Selected(cr, x) ==> Kmm(cr, x).Some?
      ensures Selected(cr, x) && Kmm(cr, x) == Some(cr.Version()) ==>
        Plugin(cr, x).Some? && (UsesSFC(cr) ==> Sfc(cr, x).Some?)
      ensures IsOutdated(cr, x) ==> !Below(x.name, n.name)
    {
      var k :| 0 <= k < |d.nodes| && d.nodes[k] == x;
      SameName(c, n);
      assert c.nodes[k] in c.nodes;
    }
  }

  lemma KmmRemovalsGuarded(cr: Onload, c: ClusterState, n: Node, listed: bool)
    requires Sane(cr, c) && n in c.nodes
    requires MayRemoveForUpgrade(cr, c, n, KmmLabelName(cr.id, SfcKind), listed)
    ensures GuardedRun(cr, c,
      [RemoveLabel(n.name, KmmLabelName(cr.id, SfcKind)), RemoveLabel(n.name, KmmLabelName(cr.id, OnloadKind))], listed)
  {
    var sfc, kmm := KmmLabelName(cr.id, SfcKind), KmmLabelName(cr.id, OnloadKind);
    RemoveForUpgradeGuarded(cr, c, n, sfc, listed);
    SfcRemovalKeepsGuard(cr, c, n, listed);
    var d := Apply(RemoveLabel(n.name, sfc), c);
    var m := n.(labels := n.labels - {sfc});
    RemoveForUpgradeGuarded(cr, d, m, kmm, listed);
    var first: seq<ClusterWrite> := [RemoveLabel(n.name, sfc)];
    var second: seq<ClusterWrite> := [RemoveLabel(n.name, kmm)];
    GuardedConcat(cr, c, first, second, listed);
    assert first + second == [RemoveLabel(n.name, sfc), RemoveLabel(n.name, kmm)];
    assert ApplyAll(first, c) == d;
  }

  lemma UpgradeGuarded(cr: Onload, c: ClusterState, listed: bool)
    requires Sane(cr, c) && ReadyToUpgrade(cr, c)
    ensures GuardedRun(cr, c, UpgradeNextNode(cr, c, listed).writes, listed)
  {
    if NodesToUpgrade(cr, c) != [] {
      NextNodeIsFirstOutdated(cr, c);
      OwnKeysDiffer(cr.id);
      var n := First(NodesToUpgrade(cr, c));
      if Plugin(cr, n).Some? && Plugin(cr, n) != Some(cr.Version()) {
        RemoveForUpgradeGuarded(cr, c, n, OnloadLabelName(cr.id), listed);
      } else if PodsOn(c.pods, DevicePluginPodLabels(cr.id), n.name) == [] {
        NoPodsListed(cr, c, DevicePluginPodLabels(cr.id), n.name);
        EvictGuarded(cr, c, n, listed);
        if EvictOnloadedPods(c, n.name, listed).flow.Continue? {
          KmmRemovalsGuarded(cr, c, n, listed);
        }
      }
    }
  }

  lemma StalePhaseGuarded(cr: Onload, c: ClusterState, key: string, listed: bool)
    requires Sane(cr, c) && OwnKey(cr.id, key)
    ensures GuardedRun(cr, c, RemoveStaleLabels(cr, c, key).writes, listed)
  {
    ListIsCurrent(c, Exists(key));
    StaleGuarded(cr, c, SelectNodes(c.nodes, Exists(key)), key, listed);
  }

  lemma ModulePhasesGuarded(cr: Onload, c: ClusterState, kind: ModuleKind, listed: bool)
    ensures GuardedRun(cr, c, CreateAndAddModuleIfUsed(cr, c, kind).writes, listed)
    ensures GuardedRun(cr, c, PatchOrDeleteModule(cr, c, kind).writes, listed)
  {
    var create, patch := CreateAndAddModuleIfUsed(cr, c, kind).writes, PatchOrDeleteModule(cr, c, kind).writes;
    if create != [] { OneWrite(cr, c, create[0], listed); }
    if patch != [] {
      assert Guarded(cr, c, patch[0], listed);
      OneWrite(cr, c, patch[0], listed);
    }
  }

  lemma DaemonSetPhasesGuarded(cr: Onload, image: string, c: ClusterState, listed: bool)
    ensures GuardedRun(cr, c, CreateDevicePluginDaemonSet(cr, image, c).writes, listed)
    ensures GuardedRun(cr, c, HandleDevicePluginUpdate(cr, c).writes, listed)
  {
    var create, patch := CreateDevicePluginDaemonSet(cr, image, c).writes, HandleDevicePluginUpdate(cr, c).writes;
    if create != [] { OneWrite(cr, c, create[0], listed); }
    if patch != [] { OneWrite(cr, c, patch[0], listed); }
  }

  lemma LabelPhasesGuarded(cr: Onload, c: ClusterState, listed: bool)
    requires Sane(cr, c)
    ensures GuardedRun(cr, c, AddMissingKmmLabels(cr, c).writes, listed)
    ensures AddMissingKmmLabels(cr, c).flow.Continue?
      ==> GuardedRun(cr, c, AddMissingOnloadLabels(cr, c).writes, listed)
  {
    var items := SelectNodes(c.nodes, Includes(cr.spec.selector));
    ListIsCurrent(c, Includes(cr.spec.selector));
    KmmLabelsGuarded(cr, c, items, listed);
    KmmPhaseIdle(cr, c);
    if AddMissingKmmLabels(cr, c).flow.Continue? {
      OnloadLabelsGuarded(cr, c, items, listed);
    }
  }

  lemma KmmPhasesGuarded(cr: Onload, c: ClusterState, listed: bool)
    requires Sane(cr, c)
    ensures GuardedRun(cr, c, AddKmmLabelsToNodes(cr, c).writes, listed)
  {
    LabelPhasesGuarded(cr, c, listed);
    StalePhaseGuarded(cr, c, KmmLabelName(cr.id, OnloadKind), listed);
    StalePhaseGuarded(cr, c, KmmLabelName(cr.id, SfcKind), listed);
  }

  lemma PluginPhasesGuarded(cr: Onload, c: ClusterState, listed: bool)
    requires Sane(cr, c) && AddKmmLabelsToNodes(cr, c).flow.Continue?
    ensures GuardedRun(cr, c, AddOnloadLabelsToNodes(cr, c).writes, listed)
  {
    LabelPhasesGuarded(cr, c, listed);
    StalePhaseGuarded(cr, c, OnloadLabelName(cr.id), listed);
  }

  lemma CreationPhasesGuarded(cr: Onload, c: ClusterState, listed: bool)
    ensures GuardedRun(cr, c, CreateAndAddModules(cr, c).writes, listed)
    ensures GuardedRun(cr, c, HandleModuleUpdate(cr, c).writes, listed)
  {
    ModulePhasesGuarded(cr, c, OnloadKind, listed);
    ModulePhasesGuarded(cr, c, SfcKind, listed);
  }

  lemma UpdatePhasesGuarded(cr: Onload, image: string, c: ClusterState, listed: bool)
    requires Sane(cr, c)
    requires AddKmmLabelsToNodes(cr, c).flow.Continue? && CreateAndAddModules(cr, c).flow.Continue?
    requires AddOnloadLabelsToNodes(cr, c).flow.Continue?
    requires CreateDevicePluginDaemonSet(cr, image, c).flow.Continue?
    ensures GuardedRun(cr, c, HandleUpdate(cr, c, listed).writes, listed)
  {
    DaemonSetPhasesGuarded(cr, image, c, listed);
    CreationPhasesGuarded(cr, c, listed);
    if HandleDevicePluginUpdate(cr, c).flow.Continue? && HandleModuleUpdate(cr, c).flow.Continue? {
      assert EarlyIdle(cr, image, c);
      EarlyIdleIsReady(cr, image, c);
      UpgradeGuarded(cr, c, listed);
    }
  }

  /** Every write of a Reconcile meets its guard in the state in which it is made. */
  lemma ReconcileIsGuarded(cr: Onload, image: string, c: ClusterState, listed: bool)
    requires Sane(cr, c)
    ensures GuardedRun(cr, c, Reconcile(cr, image, c, listed).writes, listed)
  {
    KmmPhasesGuarded(cr, c, listed);
    if AddKmmLabelsToNodes(cr, c).flow.Continue? {
      CreationPhasesGuarded(cr, c, listed);
      if CreateAndAddModules(cr, c).flow.Continue? {
        PluginPhasesGuarded(cr, c, listed);
        if AddOnloadLabelsToNodes(cr, c).flow.Continue? {
          DaemonSetPhasesGuarded(cr, image, c, listed);
          if CreateDevicePluginDaemonSet(cr, image, c).flow.Continue? {
            UpdatePhasesGuarded(cr, image, c, listed);
          }
        }
      }
    }
  }
}

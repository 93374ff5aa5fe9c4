// The rolling upgrade: what holds in every reachable state of a run that starts
// converged at version `from` and is driven by a resource of another version.

module Upgrade {
  import opened Wrappers
  import opened Ordering
  import opened Kubernetes
  import opened OnloadTypes
  import opened Machine
  import opened Agreement

  // ---- Phases of one node ----

  predicate Untouched(from: string, cr: Onload, n: Node) {
    Kmm(cr, n) == Some(from) && Plugin(cr, n) == Some(from)
  }

  predicate Withdrawn(from: string, cr: Onload, n: Node) {
    Kmm(cr, n) == Some(from) && Plugin(cr, n).None?
  }

  predicate Bare(cr: Onload, n: Node) {
    Kmm(cr, n).None? && Plugin(cr, n).None? && Sfc(cr, n).None?
  }

  predicate Reloaded(cr: Onload, n: Node) {
    Kmm(cr, n) == Some(cr.Version()) && Plugin(cr, n).None?
  }

  predicate Serving(cr: Onload, n: Node) {
    Kmm(cr, n) == Some(cr.Version()) && Plugin(cr, n) == Some(cr.Version())
  }

  predicate Finished(cr: Onload, n: Node) {
    Serving(cr, n) && (UsesSFC(cr) ==> Sfc(cr, n).Some?)
  }

  predicate InPhase(from: string, cr: Onload, n: Node) {
    && Agrees(cr, n)
    && (Untouched(from, cr, n) || Withdrawn(from, cr, n) || Bare(cr, n) || Reloaded(cr, n) || Serving(cr, n))
  }

  // ---- The invariant ----

  /** Of two selected nodes the lower one is finished or the higher one untouched. */
  predicate InNameOrder(from: string, cr: Onload, c: ClusterState) {
    forall m, n | m in c.nodes && n in c.nodes && Selected(cr, m) && Selected(cr, n) && Below(m.name, n.name) ::
      Finished(cr, m) || Untouched(from, cr, n)
  }

  /** No node is touched before DaemonSet and Modules carry the new version. */
  predicate InfrastructureFirst(from: string, cr: Onload, c: ClusterState) {
    (exists n :: n in c.nodes && Selected(cr, n) && !Untouched(from, cr, n)) ==> InfrastructureReady(cr, c)
  }

  predicate DaemonSetCurrent(cr: Onload, c: ClusterState) {
    var key := DevicePluginKey(cr.id);
    key in c.daemonSets &&
    (Read(c.daemonSets[key].labels, ONLOAD_VERSION_LABEL) == cr.Version() ==>
       c.daemonSets[key].initImage == cr.spec.onload.userImage)
  }

  predicate Upgrading(from: string, cr: Onload, c: ClusterState) {
    && from != cr.Version()
    && Sane(cr, c)
    && NoStaleLabels(cr, c)
    && (forall n | n in c.nodes && Selected(cr, n) :: InPhase(from, cr, n))
    && InNameOrder(from, cr, c)
    && InfrastructureFirst(from, cr, c)
    && DaemonSetCurrent(cr, c)
  }

  // ---- One write keeps it ----

  lemma InfrastructureWriteKeeps(from: string, cr: Onload, c: ClusterState, w: ClusterWrite, listed: bool)
    requires Upgrading(from, cr, c) && Guarded(cr, c, w, listed)
    requires !w.SetLabel? && !w.RemoveLabel?
    ensures Upgrading(from, cr, Apply(w, c))
  {
    WriteKeepsSane(cr, c, w, listed);
    assert Apply(w, c).nodes == c.nodes;
    assert ModuleKey(cr.id, OnloadKind) != ModuleKey(cr.id, SfcKind) by { ModuleKeysDiffer(cr.id); }
    assert InfrastructureReady(cr, c) ==> InfrastructureReady(cr, Apply(w, c));
  }

  lemma ModuleKeysDiffer(id: ObjectKey)
    ensures ModuleKey(id, OnloadKind) != ModuleKey(id, SfcKind)
  {
    var a, b := ModuleName(id, OnloadKind), ModuleName(id, SfcKind);
    assert a[|a| - 1] == 'e' && b[|b| - 1] == 'd';
  }

  /** What a write may do to the one node it names. */
  predicate Moves(from: string, cr: Onload, n: Node, m: Node) {
    || (Bare(cr, n) && Reloaded(cr, m))
    || (Reloaded(cr, n) && (Reloaded(cr, m) || Serving(cr, m)) && (Sfc(cr, n).Some? ==> Sfc(cr, m).Some?))
    || (Serving(cr, n) && Serving(cr, m) && (Sfc(cr, n).Some? ==> Sfc(cr, m).Some?))
    || (Untouched(from, cr, n) && Withdrawn(from, cr, m))
    || (Withdrawn(from, cr, n) && (Withdrawn(from, cr, m) || Bare(cr, m)))
  }

  lemma AddMoves(from: string, cr: Onload, c: ClusterState, n: Node, key: string)
    requires Upgrading(from, cr, c) && n in c.nodes && MayAdd(cr, c, n, key) && OwnKey(cr.id, key)
    ensures var m := n.(labels := n.labels[key := cr.Version()]);
      InPhase(from, cr, m) && Moves(from, cr, n, m) && !Untouched(from, cr, n)
  {
    OwnKeysDiffer(cr.id);
    assert InPhase(from, cr, n);
  }

  lemma RemoveMoves(from: string, cr: Onload, c: ClusterState, n: Node, key: string, listed: bool)
    requires Upgrading(from, cr, c) && n in c.nodes && OwnKey(cr.id, key)
    requires MayRemoveStale(cr, n, key) || MayRemoveForUpgrade(cr, c, n, key, listed)
    ensures var m := n.(labels := n.labels - {key});
      && MayRemoveForUpgrade(cr, c, n, key, listed)
      && InPhase(from, cr, m) && Moves(from, cr, n, m)
      && (Untouched(from, cr, n) || Withdrawn(from, cr, n))
  {
    OwnKeysDiffer(cr.id);
    assert Selected(cr, n) ==> InPhase(from, cr, n);
  }

  /** When a node is next in line, all nodes below it are finished. */
  lemma LowerNodesFinished(from: string, cr: Onload, c: ClusterState, n: Node, key: string, listed: bool)
    requires Upgrading(from, cr, c) && n in c.nodes && MayRemoveForUpgrade(cr, c, n, key, listed)
    ensures forall m | m in c.nodes && Selected(cr, m) && Below(m.name, n.name) :: Finished(cr, m)
  {
    forall m | m in c.nodes && Selected(cr, m) && Below(m.name, n.name) ensures Finished(cr, m) {
      assert InPhase(from, cr, m);
      assert !IsOutdated(cr, m);
    }
  }

  /** Replacing one node by a moved one keeps the invariant. */
  lemma MoveKeeps(from: string, cr: Onload, c: ClusterState, d: ClusterState, i: nat)
    requires Upgrading(from, cr, c) && Sane(cr, d)
    requires d.modules == c.modules && d.daemonSets == c.daemonSets
    requires |d.nodes| == |c.nodes| && i < |c.nodes|
    requires forall k | 0 <= k < |c.nodes| && k != i :: d.nodes[k] == c.nodes[k]
    requires d.nodes[i].name == c.nodes[i].name && Selected(cr, c.nodes[i]) && Selected(cr, d.nodes[i])
    requires InPhase(from, cr, d.nodes[i]) && Moves(from, cr, c.nodes[i], d.nodes[i])
    requires forall m | m in c.nodes && Selected(cr, m) && Below(m.name, c.nodes[i].name) ::
      Finished(cr, m) || Untouched(from, cr, d.nodes[i])
    requires InfrastructureReady(cr, c)
    ensures Upgrading(from, cr, d)
  {
    var n, moved := c.nodes[i], d.nodes[i];
    assert n in c.nodes && moved in d.nodes;
    assert forall x | x in d.nodes :: x == moved || x in c.nodes;
    assert Finished(cr, n) ==> Finished(cr, moved);
    forall a, b | a in d.nodes && b in d.nodes && Selected(cr, a) && Selected(cr, b) && Below(a.name, b.name)
      ensures Finished(cr, a) || Untouched(from, cr, b)
    {
      BelowIrreflexive(n.name);
      if a == moved {
        assert b in c.nodes;
        assert Finished(cr, n) || Untouched(from, cr, b);
      } else if b != moved {
        assert a in c.nodes && b in c.nodes;
      }
    }
  }

  lemma LabelWriteKeeps(from: string, cr: Onload, c: ClusterState, w: ClusterWrite, listed: bool)
    requires Upgrading(from, cr, c) && Guarded(cr, c, w, listed)
    requires w.SetLabel? || w.RemoveLabel?
    ensures Upgrading(from, cr, Apply(w, c))
  {
    hide InPhase, Untouched, Moves, NoStaleLabels, DaemonSetCurrent, MayRemoveStale, Selects, InfrastructureReady;
    var d := Apply(w, c);
    WriteKeepsSane(cr, c, w, listed);
    var i :| 0 <= i < |c.nodes| && c.nodes[i].name == w.node;
    var n := c.nodes[i];
    assert n in c.nodes;
    if w.SetLabel? {
      SetLabelEffect(cr, c, w.node, w.key, w.value);
      AddMoves(from, cr, c, n, w.key);
      assert d.nodes[i] == n.(labels := n.labels[w.key := cr.Version()]);
      forall m | m in c.nodes && Selected(cr, m) && Below(m.name, n.name) ensures Finished(cr, m) {
        assert Finished(cr, m) || Untouched(from, cr, n);
      }
    } else {
      RemoveLabelEffect(cr, c, w.node, w.key);
      RemoveMoves(from, cr, c, n, w.key, listed);
      assert d.nodes[i] == n.(labels := n.labels - {w.key});
      LowerNodesFinished(from, cr, c, n, w.key, listed);
    }
    MoveKeeps(from, cr, c, d, i);
  }

  lemma WriteKeepsUpgrading(from: string, cr: Onload, c: ClusterState, w: ClusterWrite, listed: bool)
    requires Upgrading(from, cr, c) && Guarded(cr, c, w, listed)
    ensures Upgrading(from, cr, Apply(w, c))
  {
    if w.SetLabel? || w.RemoveLabel? {
      LabelWriteKeeps(from, cr, c, w, listed);
    } else {
      InfrastructureWriteKeeps(from, cr, c, w, listed);
    }
  }

  lemma {:induction false} RunKeepsUpgrading(
    from: string, cr: Onload, c: ClusterState, ws: seq<ClusterWrite>, listed: bool)
    requires Upgrading(from, cr, c) && GuardedRun(cr, c, ws, listed)
    ensures Upgrading(from, cr, ApplyAll(ws, c))
    decreases |ws|
  {
    if ws != [] {
      WriteKeepsUpgrading(from, cr, c, ws[0], listed);
      RunKeepsUpgrading(from, cr, Apply(ws[0], c), ws[1..], listed);
    }
  }
}

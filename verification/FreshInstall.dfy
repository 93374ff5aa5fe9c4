// Over a whole upgrade run the Modules and the DaemonSet stay what creation from the old or
// from the new resource would have made them, so an upgrade ends in a fresh install.

module FreshInstall {
  import opened Kubernetes
  import opened OnloadTypes
  import opened Planning
  import opened Machine
  import opened Agreement
  import opened Upgrade
  import opened UpgradeRuns
  import opened Objects

  predicate ModuleMade(older: Onload, cr: Onload, c: ClusterState, kind: ModuleKind) {
    var key := ModuleKey(cr.id, kind);
    key in c.modules ==> c.modules[key] == NewModule(older, kind) || c.modules[key] == NewModule(cr, kind)
  }

  predicate DaemonSetMade(older: Onload, cr: Onload, image: string, c: ClusterState) {
    var key := DevicePluginKey(cr.id);
    && key in c.daemonSets
    && (c.daemonSets[key] == NewDaemonSet(older, image) || c.daemonSets[key] == NewDaemonSet(cr, image))
  }

  /** Every object of the resource is as one of the two versions of it would create it. */
  predicate ObjectsMade(older: Onload, cr: Onload, image: string, c: ClusterState) {
    && ModuleMade(older, cr, c, OnloadKind) && ModuleMade(older, cr, c, SfcKind)
    && DaemonSetMade(older, cr, image, c)
  }

  lemma PatchedModuleIsNew(older: Onload, cr: Onload, kind: ModuleKind)
    requires UpgradeEdit(older, cr)
    ensures NewModule(older, kind).(version := cr.Version(), kernelMappings := MapKernels(kind, cr.spec.onload.kernelMappings))
      == NewModule(cr, kind)
  {
  }

  lemma PatchedDaemonSetIsNew(older: Onload, cr: Onload, image: string)
    requires UpgradeEdit(older, cr)
    ensures var ds := NewDaemonSet(older, image);
      ds.(labels := ds.labels[ONLOAD_VERSION_LABEL := cr.Version()], initImage := cr.spec.onload.userImage)
      == NewDaemonSet(cr, image)
    ensures Read(NewDaemonSet(older, image).labels, ONLOAD_VERSION_LABEL) == older.Version()
  {
    var base := BaseLabels(cr.id, "device-plugin");
    assert base[ONLOAD_VERSION_LABEL := older.Version()][ONLOAD_VERSION_LABEL := cr.Version()]
      == base[ONLOAD_VERSION_LABEL := cr.Version()];
  }

  lemma ModuleWriteKeepsMade(older: Onload, cr: Onload, c: ClusterState, w: ClusterWrite, listed: bool, kind: ModuleKind)
    requires UpgradeEdit(older, cr) && Guarded(cr, c, w, listed) && ModuleMade(older, cr, c, kind)
    ensures ModuleMade(older, cr, Apply(w, c), kind)
  {
    hide NewModule, MapKernels, ModuleKey, DevicePluginKey, NewDaemonSet, UsesSFC, MayEvict, MayAdd, NextInLine;
    ModuleKeysDiffer(cr.id);
    PatchedModuleIsNew(older, cr, kind);
    assert NewModule(cr, kind).version == cr.Version() by { NewVersion(cr, kind); }
    if w.PatchModule? {
      var k :| w.target == ModuleKey(cr.id, k) && w.target in c.modules && ModuleUsed(cr, k)
        && c.modules[w.target].version != w.version && w.version == cr.Version()
        && w.kernelMappings == MapKernels(k, cr.spec.onload.kernelMappings);
      assert k != kind ==> w.target != ModuleKey(cr.id, kind);
    }
  }

  lemma NewVersion(cr: Onload, kind: ModuleKind)
    ensures NewModule(cr, kind).version == cr.Version()
  {
  }

  lemma DaemonSetWriteKeepsMade(
    older: Onload, cr: Onload, image: string, c: ClusterState, w: ClusterWrite, listed: bool)
    requires UpgradeEdit(older, cr) && Guarded(cr, c, w, listed) && DaemonSetMade(older, cr, image, c)
    ensures DaemonSetMade(older, cr, image, Apply(w, c))
  {
    hide NewModule, MapKernels, ModuleKey, UsesSFC, MayEvict, MayAdd, NextInLine, NewDaemonSet;
    PatchedDaemonSetIsNew(older, cr, image);
    assert UpgradeEdit(cr, cr);
    PatchedDaemonSetIsNew(cr, cr, image);
  }

  lemma {:induction false} WritesKeepMade(
    older: Onload, cr: Onload, image: string, c: ClusterState, ws: seq<ClusterWrite>, listed: bool)
    requires UpgradeEdit(older, cr) && GuardedRun(cr, c, ws, listed) && ObjectsMade(older, cr, image, c)
    ensures ObjectsMade(older, cr, image, ApplyAll(ws, c))
    decreases |ws|
  {
    hide UpgradeEdit, Guarded, ModuleMade, DaemonSetMade;
    if ws != [] {
      ModuleWriteKeepsMade(older, cr, c, ws[0], listed, OnloadKind);
      ModuleWriteKeepsMade(older, cr, c, ws[0], listed, SfcKind);
      DaemonSetWriteKeepsMade(older, cr, image, c, ws[0], listed);
      WritesKeepMade(older, cr, image, Apply(ws[0], c), ws[1..], listed);
    }
  }

  lemma ReconcileKeepsMade(
    older: Onload, cr: Onload, image: string, plugin: string, c: ClusterState, d: ClusterState, listed: bool, k: nat)
    requires UpgradeEdit(older, cr) && Sane(cr, c) && ObjectsMade(older, cr, plugin, c)
    requires ReconciledTo(cr, image, c, d, listed, k)
    ensures ObjectsMade(older, cr, plugin, d)
  {
    hide UpgradeEdit, ObjectsMade, Sane;
    TruncatedIsGuarded(cr, image, c, listed, k);
    WritesKeepMade(older, cr, plugin, c, Reconcile(cr, image, c, listed).writes[..k], listed);
  }

  lemma StepKeepsMade(older: Onload, cr: Onload, image: string, plugin: string, c: ClusterState, d: ClusterState)
    requires UpgradeEdit(older, cr) && Sane(cr, c) && ObjectsMade(older, cr, plugin, c) && UpgradeStep(cr, image, c, d)
    ensures ObjectsMade(older, cr, plugin, d)
  {
    hide UpgradeEdit, NewModule, NewDaemonSet, Sane, ReconciledTo, SelectedKept;
    if !Environment(cr, c, d) {
      var listed, k: nat :| ReconciledTo(cr, image, c, d, listed, k);
      ReconcileKeepsMade(older, cr, image, plugin, c, d, listed, k);
    }
  }

  /** No object is ever anything but what one of the two versions of the resource creates; `plugin` is the image it was created with. */
  lemma {:induction false} ObjectsMadeAlways(
    older: Onload, cr: Onload, image: string, plugin: string, run: seq<ClusterState>, i: nat)
    requires UpgradeRun(older, cr, image, run) && i < |run| && UpgradeEdit(older, cr)
    requires ObjectsMade(older, cr, plugin, run[0])
    ensures ObjectsMade(older, cr, plugin, run[i])
  {
    hide UpgradeEdit, ObjectsMade, UpgradeStep, UpgradeStart, NewUserland, InPhase, InNameOrder, InfrastructureFirst,
      NoStaleLabels;
    if i > 0 {
      ObjectsMadeAlways(older, cr, image, plugin, run, i - 1);
      UpgradingAlways(older, cr, image, run, i - 1);
      assert StepAt(cr, image, run, i - 1);
      StepKeepsMade(older, cr, image, plugin, run[i - 1], run[i]);
    }
  }

  /** In any reachable state an object at the new version is exactly the one that creation from the new resource makes. */
  lemma UpgradedIsFreshInstall(
    older: Onload, cr: Onload, image: string, plugin: string, run: seq<ClusterState>, i: nat, kind: ModuleKind)
    requires UpgradeRun(older, cr, image, run) && i < |run| && UpgradeEdit(older, cr)
    requires ObjectsMade(older, cr, plugin, run[0])
    ensures var key := ModuleKey(cr.id, kind);
      key in run[i].modules ==>
        (run[i].modules[key].version == cr.Version() <==> run[i].modules[key] == NewModule(cr, kind))
    ensures var key := DevicePluginKey(cr.id);
      && key in run[i].daemonSets
      && (Read(run[i].daemonSets[key].labels, ONLOAD_VERSION_LABEL) == cr.Version()
          <==> run[i].daemonSets[key] == NewDaemonSet(cr, plugin))
    ensures InfrastructureReady(cr, run[i]) ==>
      && run[i].daemonSets[DevicePluginKey(cr.id)] == NewDaemonSet(cr, plugin)
      && (ModuleKey(cr.id, kind) in run[i].modules <==> ModuleUsed(cr, kind))
      && (ModuleUsed(cr, kind) ==> run[i].modules[ModuleKey(cr.id, kind)] == NewModule(cr, kind))
  {
    hide StepAt, NewModule, NewDaemonSet, MapKernels, Converged, LabelsAgree, DevicePluginKey, ModuleKey;
    ObjectsMadeAlways(older, cr, image, plugin, run, i);
    NewVersion(older, kind);
    NewVersion(cr, kind);
    PatchedDaemonSetIsNew(older, cr, plugin);
    assert UpgradeEdit(cr, cr);
    PatchedDaemonSetIsNew(cr, cr, plugin);
  }
}

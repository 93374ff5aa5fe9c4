// The operator's names, fields and constants written out, and what a Reconcile does in
// terms of them: the entry conditions, quiet, waiting, and the objects it creates.

module Spelled {
  import opened Wrappers
  import opened Kubernetes
  import opened OnloadTypes
  import opened Outcomes
  import opened Planning
  import opened Machine
  import opened Refinement
  import opened UpgradeTheorems
  import opened Convergence
  import opened Measure
  import opened Objects

  // ---- Names ----

  lemma LabelKeysSpelled(id: ObjectKey)
    ensures KmmLabelName(id, OnloadKind) == "kmm.node.kubernetes.io/version-module." + id.namespace + "." + id.name + "-module"
    ensures KmmLabelName(id, SfcKind) == "kmm.node.kubernetes.io/version-module." + id.namespace + "." + id.name + "-sfcmod"
    ensures OnloadLabelName(id) == "onload.amd.com/" + id.namespace + "." + id.name
    ensures ONLOAD_VERSION_LABEL == "onload.amd.com/version" && ONLOAD_NAME_LABEL == "onload.amd.com/name"
  {
    assert KMM_MODULE_LABEL_PREFIX + "." == "kmm.node.kubernetes.io/version-module.";
  }

  lemma ObjectNamesSpelled(id: ObjectKey)
    ensures ModuleKey(id, OnloadKind) == ObjectKey(id.namespace, id.name + "-module")
    ensures ModuleKey(id, SfcKind) == ObjectKey(id.namespace, id.name + "-sfcmod")
    ensures DevicePluginKey(id) == ObjectKey(id.namespace, id.name + "-onload-device-plugin-ds")
  {
  }

  lemma PodLookupsSpelled(id: ObjectKey, labels: Labels)
    ensures Selects(Includes(DevicePluginPodLabels(id)), labels) <==>
      "onload.amd.com/name" in labels && labels["onload.amd.com/name"] == id.name + "-onload-device-plugin-ds"
    ensures Selects(Includes(ModulePodLabels(id, OnloadKind)), labels) <==>
      && "kmm.node.kubernetes.io/module.name" in labels
      && labels["kmm.node.kubernetes.io/module.name"] == id.name + "-module"
    ensures Selects(Includes(ModulePodLabels(id, SfcKind)), labels) <==>
      && "kmm.node.kubernetes.io/module.name" in labels
      && labels["kmm.node.kubernetes.io/module.name"] == id.name + "-sfcmod"
  {
    hide DevicePluginName, ModuleName;
    assert ONLOAD_NAME_LABEL in DevicePluginPodLabels(id);
    assert forall kind :: KMM_MODULE_NAME_LABEL in ModulePodLabels(id, kind);
    LabelKeysSpelled(id);
    PodNamesSpelled(id);
  }

  lemma PodNamesSpelled(id: ObjectKey)
    ensures DevicePluginName(id) == id.name + "-onload-device-plugin-ds"
    ensures ModuleName(id, OnloadKind) == id.name + "-module" && ModuleName(id, SfcKind) == id.name + "-sfcmod"
  {
  }

  lemma BaseLabelsSpelled(id: ObjectKey, component: string)
    ensures BaseLabels(id, component) == map[
      "app.kubernetes.io/managed-by" := "onload-operator",
      "app.kubernetes.io/part-of" := "onload",
      "app.kubernetes.io/instance" := "onload-" + id.namespace + "-" + id.name,
      "app.kubernetes.io/component" := component]
  {
  }

  // ---- Entry conditions ----

  /** A resource that is being deleted is left alone. */
  lemma DeletingDoesNothing(cr: Onload, image: string, c: ClusterState, listed: bool)
    ensures cr.deleting ==> Reconcile(cr, image, c, listed) == Plan([], Return(Done))
  {
    hide Phases;
  }

  /** A live resource is refused, with nothing written, if and only if its two names have more than 32 characters. */
  lemma RefusedIffTooLong(cr: Onload, image: string, c: ClusterState, listed: bool)
    ensures Reconcile(cr, image, c, listed).flow.Fail? <==> !cr.deleting && |cr.id.namespace| + |cr.id.name| > 32
    ensures Reconcile(cr, image, c, listed).flow.Fail? ==>
      Reconcile(cr, image, c, listed) == Plan([], Fail(NameTooLong))
  {
    hide Phases;
    DefensiveErrorsUnreachable(cr, image, c, listed);
  }

  /** A call ends quiet, asks again at once, waits five seconds, or refuses the name; there is no other ending. */
  lemma EndingsSpelled(cr: Onload, image: string, c: ClusterState, listed: bool)
    ensures Reconcile(cr, image, c, listed).flow
      in {Return(Done), Return(Requeue), Return(RequeueAfter(5)), Fail(NameTooLong)}
  {
    hide Phases;
    DoneIffIdle(cr, image, c, listed);
  }

  // ---- Quiet, written out ----

  /** The node's labels include the selector. */
  predicate Matches(selector: Labels, n: Node) {
    forall k | k in selector :: k in n.labels && n.labels[k] == selector[k]
  }

  predicate Carries(n: Node, key: string, value: string) {
    key in n.labels && n.labels[key] == value
  }

  predicate SomeSfc(cr: Onload) {
    exists i | 0 <= i < |cr.spec.onload.kernelMappings| :: cr.spec.onload.kernelMappings[i].sfc.Some?
  }

  /** A selected node is fully labelled; any other node has none of the labels. */
  predicate NodeInPlace(cr: Onload, n: Node) {
    var stem := cr.id.namespace + "." + cr.id.name;
    var kmm, onload := "kmm.node.kubernetes.io/version-module." + stem, "onload.amd.com/" + stem;
    if Matches(cr.spec.selector, n) then
      && Carries(n, kmm + "-module", cr.spec.onload.version) && onload in n.labels
      && (SomeSfc(cr) ==> kmm + "-sfcmod" in n.labels)
    else
      kmm + "-module" !in n.labels && kmm + "-sfcmod" !in n.labels && onload !in n.labels
  }

  /** A DaemonSet without version label counts as one of the empty version. */
  function VersionOf(ds: DaemonSet<Template>): string {
    if "onload.amd.com/version" in ds.labels then ds.labels["onload.amd.com/version"] else ""
  }

  predicate ObjectsInPlace(cr: Onload, c: ClusterState) {
    var onload := ObjectKey(cr.id.namespace, cr.id.name + "-module");
    var sfc := ObjectKey(cr.id.namespace, cr.id.name + "-sfcmod");
    var plugin := ObjectKey(cr.id.namespace, cr.id.name + "-onload-device-plugin-ds");
    && onload in c.modules && c.modules[onload].version == cr.spec.onload.version
    && (SomeSfc(cr) <==> sfc in c.modules)
    && (SomeSfc(cr) ==> c.modules[sfc].version == cr.spec.onload.version)
    && plugin in c.daemonSets
    && VersionOf(c.daemonSets[plugin]) == cr.spec.onload.version
  }

  lemma SelectedMatches(cr: Onload, n: Node)
    ensures Selected(cr, n) <==> Matches(cr.spec.selector, n)
  {
  }

  lemma NodeInPlaceMeans(cr: Onload, n: Node)
    ensures NodeInPlace(cr, n) <==>
      if Selected(cr, n) then
        Kmm(cr, n) == Some(cr.Version()) && Plugin(cr, n).Some? && (UsesSFC(cr) ==> Sfc(cr, n).Some?)
      else Kmm(cr, n).None? && Sfc(cr, n).None? && Plugin(cr, n).None?
  {
    hide KmmLabelName, OnloadLabelName, Matches, Selects;
    var id := cr.id;
    SelectedMatches(cr, n);
    LabelKeysSpelled(id);
    var stem := id.namespace + "." + id.name;
    var p := "kmm.node.kubernetes.io/version-module.";
    assert (p + stem) + "-module" == p + id.namespace + "." + id.name + "-module";
    assert (p + stem) + "-sfcmod" == p + id.namespace + "." + id.name + "-sfcmod";
    assert "onload.amd.com/" + stem == "onload.amd.com/" + id.namespace + "." + id.name;
  }

  lemma ObjectsInPlaceMeans(cr: Onload, c: ClusterState)
    ensures ObjectsInPlace(cr, c) <==> InfrastructureReady(cr, c)
  {
    hide ModuleKey, DevicePluginKey;
    ObjectNamesSpelled(cr.id);
    LabelKeysSpelled(cr.id);
  }

  /** A call is quiet, with nothing written, if and only if every node and every object is in place. */
  lemma QuietIffInPlace(cr: Onload, image: string, c: ClusterState, listed: bool)
    requires !cr.deleting && |cr.id.namespace| + |cr.id.name| <= 32
    ensures Reconcile(cr, image, c, listed) == Plan([], Return(Done)) <==>
      (forall n | n in c.nodes :: NodeInPlace(cr, n)) && ObjectsInPlace(cr, c)
  {
    hide Reconcile, NodeInPlace, ObjectsInPlace, InfrastructureReady;
    QuiescentIffConverged(cr, image, c, listed);
    ObjectsInPlaceMeans(cr, c);
    forall n | n in c.nodes
      ensures NodeInPlace(cr, n) <==>
        if Selected(cr, n) then
          Kmm(cr, n) == Some(cr.Version()) && Plugin(cr, n).Some? && (UsesSFC(cr) ==> Sfc(cr, n).Some?)
        else Kmm(cr, n).None? && Sfc(cr, n).None? && Plugin(cr, n).None?
    {
      NodeInPlaceMeans(cr, n);
    }
  }

  // ---- What is created ----

  predicate Creates(w: ClusterWrite) {
    w.CreateModule? || w.CreateDaemonSet?
  }

  lemma LabelPhasesCreateNothing(cr: Onload, c: ClusterState, w: ClusterWrite)
    requires Creates(w)
    ensures w !in AddMissingKmmLabels(cr, c).writes && w !in AddMissingOnloadLabels(cr, c).writes
    ensures forall key :: w !in RemoveStaleLabels(cr, c, key).writes
  {
    KmmWritesAreAdditions(cr, c.pods, SelectedNodes(cr, c));
    OnloadWritesAreAdditions(cr, SelectedNodes(cr, c));
    forall key ensures w !in RemoveStaleLabels(cr, c, key).writes {
      StalePhaseExact(cr, c, key, w);
    }
  }

  lemma {:induction false} EvictionsCreateNothing(pods: seq<Pod>, w: ClusterWrite)
    requires Creates(w)
    ensures w !in Evictions(pods)
  {
    if pods != [] { EvictionsCreateNothing(pods[1..], w); }
  }

  lemma UpdatesCreateNothing(cr: Onload, c: ClusterState, listed: bool, w: ClusterWrite)
    requires Creates(w)
    ensures w !in HandleDevicePluginUpdate(cr, c).writes && w !in UpgradeNextNode(cr, c, listed).writes
    ensures forall kind :: w !in PatchOrDeleteModule(cr, c, kind).writes
  {
    hide MapKernels, PodsOn;
    if NodesToUpgrade(cr, c) != [] {
      EvictionsCreateNothing(PodsUsingOnload(c, First(NodesToUpgrade(cr, c)).name, listed), w);
    }
  }

  /** Only the creation phases create. */
  lemma CreatedInItsPhase(cr: Onload, image: string, c: ClusterState, listed: bool, w: ClusterWrite)
    requires Creates(w) && w in Reconcile(cr, image, c, listed).writes
    ensures || w in CreateAndAddModuleIfUsed(cr, c, OnloadKind).writes
            || w in CreateAndAddModuleIfUsed(cr, c, SfcKind).writes
            || w in CreateDevicePluginDaemonSet(cr, image, c).writes
  {
    hide Phases, RunFrom, Creates, RemoveStaleLabels, AddMissingKmmLabels, CreateAndAddModuleIfUsed,
      AddMissingOnloadLabels, CreateDevicePluginDaemonSet, HandleDevicePluginUpdate, PatchOrDeleteModule, UpgradeNextNode;
    var ps := PhaseList(cr, image, c, listed);
    OnePhasePerCall(cr, image, c, listed);
    LabelPhasesCreateNothing(cr, c, w);
    UpdatesCreateNothing(cr, c, listed, w);
    var i := FirstBusy(ps, 0);
    assert w in ps[i].writes;
  }

  /** The fields of a Module that do not depend on its kind. */
  predicate CommonFields(cr: Onload, m: Module) {
    && m.labels == map[
         "app.kubernetes.io/managed-by" := "onload-operator",
         "app.kubernetes.io/part-of" := "onload",
         "app.kubernetes.io/instance" := "onload-" + cr.id.namespace + "-" + cr.id.name,
         "app.kubernetes.io/component" := "module"]
    && m.modprobeParameters == ["--first-time"]
    && m.serviceAccountName == cr.spec.serviceAccountName
    && m.imagePullPolicy == cr.spec.onload.imagePullPolicy
    && m.version == cr.spec.onload.version
    && m.selector == cr.spec.selector
  }

  lemma NewModuleFields(cr: Onload, kind: ModuleKind)
    ensures var m := NewModule(cr, kind);
      && CommonFields(cr, m)
      && m.kernelMappings == MapKernels(kind, cr.spec.onload.kernelMappings)
      && m.modprobe == (match kind case OnloadKind => "onload" case SfcKind => "sfc")
      && m.inTreeModuleToRemove == (match kind case OnloadKind => "" case SfcKind => "sfc")
  {
    hide MapKernels;
    BaseLabelsSpelled(cr.id, "module");
  }

  /** A Module that a Reconcile creates, field by field. */
  lemma CreatedModuleFields(cr: Onload, image: string, c: ClusterState, listed: bool, key: ObjectKey, m: Module)
    requires CreateModule(key, m) in Reconcile(cr, image, c, listed).writes
    ensures key !in c.modules && key.namespace == cr.id.namespace && CommonFields(cr, m)
    ensures || (key.name == cr.id.name + "-module" && m.modprobe == "onload" && m.inTreeModuleToRemove == ""
                && |m.kernelMappings| == |cr.spec.onload.kernelMappings|
                && forall i | 0 <= i < |m.kernelMappings| :: Mirrors(m.kernelMappings[i], cr.spec.onload.kernelMappings[i]))
            || (key.name == cr.id.name + "-sfcmod" && m.modprobe == "sfc" && m.inTreeModuleToRemove == "sfc"
                && SomeSfc(cr) && m.kernelMappings == MapKernels(SfcKind, cr.spec.onload.kernelMappings))
  {
    hide Reconcile, CommonFields, NewModule, Mirrors, MapKernels, ModuleKey;
    CreatedInItsPhase(cr, image, c, listed, CreateModule(key, m));
    ObjectNamesSpelled(cr.id);
    NewModuleFields(cr, OnloadKind);
    NewModuleFields(cr, SfcKind);
    OnloadMappingsMirrorSpec(cr.spec.onload.kernelMappings);
  }

  /** The DaemonSet that a Reconcile creates, field by field, and that its pods are those the operator looks for. */
  lemma CreatedDaemonSetFields(
    cr: Onload, image: string, c: ClusterState, listed: bool, key: ObjectKey, ds: DaemonSet<Template>)
    requires CreateDaemonSet(key, ds) in Reconcile(cr, image, c, listed).writes
    ensures key !in c.daemonSets && key == ObjectKey(cr.id.namespace, cr.id.name + "-onload-device-plugin-ds")
    ensures ds.initImage == cr.spec.onload.userImage
    ensures ds.labels == map[
      "app.kubernetes.io/managed-by" := "onload-operator",
      "app.kubernetes.io/part-of" := "onload",
      "app.kubernetes.io/instance" := "onload-" + cr.id.namespace + "-" + cr.id.name,
      "app.kubernetes.io/component" := "device-plugin",
      "onload.amd.com/version" := cr.spec.onload.version]
    ensures Selects(Includes(DevicePluginPodLabels(cr.id)), ds.template.podLabels)
    ensures ds.template.podLabels == map[
      "app.kubernetes.io/managed-by" := "onload-operator",
      "app.kubernetes.io/part-of" := "onload",
      "app.kubernetes.io/instance" := "onload-" + cr.id.namespace + "-" + cr.id.name,
      "app.kubernetes.io/component" := "device-plugin",
      "onload.amd.com/name" := cr.id.name + "-onload-device-plugin-ds"]
    ensures ds.template.requiredLabel == "onload.amd.com/" + cr.id.namespace + "." + cr.id.name
    ensures ds.template.nodeSelector == cr.spec.selector && ds.template.devicePluginImage == image
    ensures ds.template.serviceAccountName == cr.spec.serviceAccountName
    ensures ds.template.initPullPolicy == cr.spec.onload.imagePullPolicy
    ensures ds.template.devicePlugin == cr.spec.devicePlugin && ds.template.controlPlane == cr.spec.onload.controlPlane
  {
    hide Reconcile, BaseLabels, DevicePluginKey, DevicePluginName, OnloadLabelName, Selects;
    CreatedInItsPhase(cr, image, c, listed, CreateDaemonSet(key, ds));
    ObjectNamesSpelled(cr.id);
    PodNamesSpelled(cr.id);
    LabelKeysSpelled(cr.id);
    BaseLabelsSpelled(cr.id, "device-plugin");
    PodLookupsSpelled(cr.id, ds.template.podLabels);
  }

  // ---- What is changed ----

  predicate OperatorKey(id: ObjectKey, key: string) {
    || key == "kmm.node.kubernetes.io/version-module." + id.namespace + "." + id.name + "-module"
    || key == "kmm.node.kubernetes.io/version-module." + id.namespace + "." + id.name + "-sfcmod"
    || key == "onload.amd.com/" + id.namespace + "." + id.name
  }

  /** The write in the words of the cluster; evictions and creations are spelled out above. */
  predicate WriteSpelled(cr: Onload, w: ClusterWrite) {
    match w
    case SetLabel(_, key, value) => OperatorKey(cr.id, key) && value == cr.spec.onload.version
    case RemoveLabel(_, key) => OperatorKey(cr.id, key)
    case PatchModule(key, version, mappings) =>
      && version == cr.spec.onload.version
      && ((key == ObjectKey(cr.id.namespace, cr.id.name + "-module")
           && |mappings| == |cr.spec.onload.kernelMappings|
           && forall i | 0 <= i < |mappings| :: Mirrors(mappings[i], cr.spec.onload.kernelMappings[i]))
          || (key == ObjectKey(cr.id.namespace, cr.id.name + "-sfcmod") && SomeSfc(cr)
              && mappings == MapKernels(SfcKind, cr.spec.onload.kernelMappings)))
    case DeleteModule(key) => key == ObjectKey(cr.id.namespace, cr.id.name + "-sfcmod") && !SomeSfc(cr)
    case PatchDaemonSet(key, labelKey, version, image) =>
      && key == ObjectKey(cr.id.namespace, cr.id.name + "-onload-device-plugin-ds")
      && labelKey == "onload.amd.com/version" && version == cr.spec.onload.version
      && image == cr.spec.onload.userImage
    case _ => true
  }

  lemma GuardSpelled(cr: Onload, c: ClusterState, w: ClusterWrite, listed: bool)
    requires Guarded(cr, c, w, listed)
    ensures WriteSpelled(cr, w)
  {
    hide MayAdd, MayRemoveForUpgrade, MayRemoveStale, MayEvict, KmmLabelName, OnloadLabelName, ModuleKey, DevicePluginKey,
      MapKernels, Mirrors, NewModule, NewDaemonSet;
    LabelKeysSpelled(cr.id);
    ObjectNamesSpelled(cr.id);
    OnloadMappingsMirrorSpec(cr.spec.onload.kernelMappings);
  }

  /** Every label and object that a Reconcile changes, and to what. */
  lemma EveryWriteSpelled(cr: Onload, image: string, c: ClusterState, listed: bool, w: ClusterWrite)
    requires Sane(cr, c) && w in Reconcile(cr, image, c, listed).writes
    ensures WriteSpelled(cr, w)
  {
    hide Reconcile, Guarded, WriteSpelled;
    var ws := Reconcile(cr, image, c, listed).writes;
    var k :| 0 <= k < |ws| && ws[k] == w;
    ReconcileIsGuarded(cr, image, c, listed);
    GuardedAt(cr, c, ws, listed, k);
    GuardSpelled(cr, ApplyAll(ws[..k], c), w, listed);
  }
}

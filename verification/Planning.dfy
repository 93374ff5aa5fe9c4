// What one Reconcile does against a snapshot of the cluster when no API call
// fails: the writes it makes, in order, and how it returns.

module Planning {
  import opened Kubernetes
  import opened OnloadTypes
  import opened Outcomes

  // ---- addKmmLabelsToNodes ----

  /** Outcome of labelling one node: the node's local copy, the writes, the flow. */
  datatype NodeStep = NodeStep(node: Node, writes: seq<ClusterWrite>, flow: Flow)

  function AddKmmLabelToNode(cr: Onload, pods: seq<Pod>, node: Node, kind: ModuleKind): NodeStep {
    var key := KmmLabelName(cr.id, kind);
    if key in node.labels then
      NodeStep(node, [], Continue)
    else if key != KmmLabelName(cr.id, OnloadKind)
      && Read(node.labels, KmmLabelName(cr.id, OnloadKind)) != cr.Version() then
      NodeStep(node, [], Continue)
    else if PodsOn(pods, ModulePodLabels(cr.id, kind), node.name) != [] then
      NodeStep(node, [], Return(RequeueAfter(DEFAULT_REQUEUE_TIME)))
    else
      NodeStep(node.(labels := node.labels[key := cr.Version()]),
        [SetLabel(node.name, key, cr.Version())], Continue)
  }

  function AddKmmLabelsToNode(cr: Onload, pods: seq<Pod>, node: Node): NodeStep {
    var first := AddKmmLabelToNode(cr, pods, node, OnloadKind);
    if first.flow != Continue || !UsesSFC(cr) then first
    else
      var second := AddKmmLabelToNode(cr, pods, first.node, SfcKind);
      NodeStep(second.node, first.writes + second.writes, second.flow)
  }

  function AddKmmLabelsTo(cr: Onload, pods: seq<Pod>, items: seq<Node>): Plan {
    if items == [] then Plan([], Continue)
    else
      var step := AddKmmLabelsToNode(cr, pods, items[0]);
      if step.flow != Continue then Plan(step.writes, step.flow)
      else
        var rest := AddKmmLabelsTo(cr, pods, items[1..]);
        Plan(step.writes + rest.writes, rest.flow)
  }

  function AddMissingKmmLabels(cr: Onload, c: ClusterState): Phase {
    var p := AddKmmLabelsTo(cr, c.pods, SelectNodes(c.nodes, Includes(cr.spec.selector)));
    if p.flow != Continue then p else RequeueIfChanged(p.writes)
  }

  function StaleRemovals(cr: Onload, items: seq<Node>, key: string): seq<ClusterWrite> {
    if items == [] then []
    else
      (if Selected(cr, items[0]) then [] else [RemoveLabel(items[0].name, key)])
      + StaleRemovals(cr, items[1..], key)
  }

  function RemoveStaleLabels(cr: Onload, c: ClusterState, key: string): Phase {
    RequeueIfChanged(StaleRemovals(cr, SelectNodes(c.nodes, Exists(key)), key))
  }

  function AddKmmLabelsToNodes(cr: Onload, c: ClusterState): Phase {
    OrElse(AddMissingKmmLabels(cr, c),
      OrElse(RemoveStaleLabels(cr, c, KmmLabelName(cr.id, OnloadKind)),
        RemoveStaleLabels(cr, c, KmmLabelName(cr.id, SfcKind))))
  }

  // ---- createAndAddModules ----

  function CreateAndAddModule(cr: Onload, c: ClusterState, kind: ModuleKind): Phase {
    var key := ModuleKey(cr.id, kind);
    if key in c.modules then Plan([], Continue)
    else Plan([CreateModule(key, NewModule(cr, kind))], Return(Requeue))
  }

  function CreateAndAddModuleIfUsed(cr: Onload, c: ClusterState, kind: ModuleKind): Phase {
    if ModuleUsed(cr, kind) then CreateAndAddModule(cr, c, kind) else Plan([], Continue)
  }

  function CreateAndAddModules(cr: Onload, c: ClusterState): Phase {
    OrElse(CreateAndAddModuleIfUsed(cr, c, OnloadKind), CreateAndAddModuleIfUsed(cr, c, SfcKind))
  }

  // ---- addOnloadLabelsToNodes ----

  function OnloadAdditions(cr: Onload, items: seq<Node>): seq<ClusterWrite> {
    if items == [] then []
    else
      (if Read(items[0].labels, KmmLabelName(cr.id, OnloadKind)) == cr.Version()
          && OnloadLabelName(cr.id) !in items[0].labels
        then [SetLabel(items[0].name, OnloadLabelName(cr.id), cr.Version())] else [])
      + OnloadAdditions(cr, items[1..])
  }

  function AddMissingOnloadLabels(cr: Onload, c: ClusterState): Phase {
    RequeueIfChanged(OnloadAdditions(cr, SelectNodes(c.nodes, Includes(cr.spec.selector))))
  }

  function AddOnloadLabelsToNodes(cr: Onload, c: ClusterState): Phase {
    OrElse(AddMissingOnloadLabels(cr, c), RemoveStaleLabels(cr, c, OnloadLabelName(cr.id)))
  }

  // ---- createDevicePluginDaemonSet ----

  function CreateDevicePluginDaemonSet(cr: Onload, image: string, c: ClusterState): Phase {
    var key := DevicePluginKey(cr.id);
    if key in c.daemonSets then Plan([], Continue)
    else Plan([CreateDaemonSet(key, NewDaemonSet(cr, image))], Return(Requeue))
  }

  // ---- handleUpdate ----

  function HandleDevicePluginUpdate(cr: Onload, c: ClusterState): Phase {
    var key := DevicePluginKey(cr.id);
    if key !in c.daemonSets then Plan([], Fail(DaemonSetNotFound))
    else if Read(c.daemonSets[key].labels, ONLOAD_VERSION_LABEL) == cr.Version() then Plan([], Continue)
    else
      Plan([PatchDaemonSet(key, ONLOAD_VERSION_LABEL, cr.Version(), cr.spec.onload.userImage)],
        Return(Requeue))
  }

  function PatchOrDeleteModule(cr: Onload, c: ClusterState, kind: ModuleKind): Phase {
    var key := ModuleKey(cr.id, kind);
    if key in c.modules then
      if !ModuleUsed(cr, kind) then Plan([DeleteModule(key)], Return(Requeue))
      else if c.modules[key].version == cr.Version() then Plan([], Continue)
      else
        Plan([PatchModule(key, cr.Version(), MapKernels(kind, cr.spec.onload.kernelMappings))],
          Return(Requeue))
    else if ModuleUsed(cr, kind) then Plan([], Fail(ModuleShouldExist(key.name)))
    else Plan([], Continue)
  }

  function HandleModuleUpdate(cr: Onload, c: ClusterState): Phase {
    OrElse(PatchOrDeleteModule(cr, c, OnloadKind), PatchOrDeleteModule(cr, c, SfcKind))
  }

  /** The listed nodes whose KMM label is not at the version of the resource. */
  function Outdated(cr: Onload, items: seq<Node>): (r: seq<Node>)
    ensures forall n {:trigger n in r} :: n in r <==>
      n in items && Read(n.labels, KmmLabelName(cr.id, OnloadKind)) != cr.Version()
  {
    if items == [] then []
    else
      (if Read(items[0].labels, KmmLabelName(cr.id, OnloadKind)) != cr.Version() then [items[0]] else [])
      + Outdated(cr, items[1..])
  }

  function NodesToUpgrade(cr: Onload, c: ClusterState): seq<Node> {
    Outdated(cr, SelectNodes(c.nodes, Exists(KmmLabelName(cr.id, OnloadKind))))
  }

  function OnloadedAmong(pods: seq<Pod>): (r: seq<Pod>)
    ensures forall p {:trigger p in r} :: p in r <==> p in pods && UsesOnload(p)
  {
    if pods == [] then []
    else (if UsesOnload(pods[0]) then [pods[0]] else []) + OnloadedAmong(pods[1..])
  }

  /** When the List fails the operator carries on with no pods. */
  function PodsUsingOnload(c: ClusterState, node: string, listed: bool): seq<Pod> {
    if listed then OnloadedAmong(PodsOn(c.pods, map[], node)) else []
  }

  function Evictions(pods: seq<Pod>): seq<ClusterWrite> {
    if pods == [] then []
    else (if pods[0].terminating then [] else [EvictPod(pods[0].uid)]) + Evictions(pods[1..])
  }

  function EvictOnloadedPods(c: ClusterState, node: string, listed: bool): Phase {
    var pods := PodsUsingOnload(c, node, listed);
    if pods == [] then Plan([], Continue)
    else Plan(Evictions(pods), Return(RequeueAfter(DEFAULT_REQUEUE_TIME)))
  }

  function HandleNodeUpdate(cr: Onload, c: ClusterState, node: Node, listed: bool): Phase {
    var key := OnloadLabelName(cr.id);
    if key in node.labels && node.labels[key] != cr.Version() then
      Plan([RemoveLabel(node.name, key)], Return(Requeue))
    else if PodsOn(c.pods, DevicePluginPodLabels(cr.id), node.name) != [] then
      Plan([], Return(RequeueAfter(DEFAULT_REQUEUE_TIME)))
    else
      OrElse(EvictOnloadedPods(c, node.name, listed),
        Plan([RemoveLabel(node.name, KmmLabelName(cr.id, SfcKind)),
              RemoveLabel(node.name, KmmLabelName(cr.id, OnloadKind))], Return(Requeue)))
  }

  function UpgradeNextNode(cr: Onload, c: ClusterState, listed: bool): Phase {
    var nodes := NodesToUpgrade(cr, c);
    if nodes == [] then Plan([], Continue) else HandleNodeUpdate(cr, c, First(nodes), listed)
  }

  function HandleUpdate(cr: Onload, c: ClusterState, listed: bool): Phase {
    OrElse(HandleDevicePluginUpdate(cr, c),
      OrElse(HandleModuleUpdate(cr, c), UpgradeNextNode(cr, c, listed)))
  }

  // ---- Reconcile ----

  predicate NameFits(id: ObjectKey) {
    |id.name| + |id.namespace| + |ONLOAD_MODULE_NAME_SUFFIX| <= NAME_LIMIT
  }

  /** All the phases of a live resource with an acceptable name. */
  function Phases(cr: Onload, image: string, c: ClusterState, listed: bool): Phase {
    OrElse(AddKmmLabelsToNodes(cr, c),
      OrElse(CreateAndAddModules(cr, c),
        OrElse(AddOnloadLabelsToNodes(cr, c),
          OrElse(CreateDevicePluginDaemonSet(cr, image, c),
            OrElse(HandleUpdate(cr, c, listed), Plan([], Return(Done)))))))
  }

  /** Reconcile of a resource that exists. */
  function Reconcile(cr: Onload, image: string, c: ClusterState, listed: bool): Plan {
    if cr.deleting then Plan([], Return(Done))
    else if !NameFits(cr.id) then Plan([], Fail(NameTooLong))
    else Phases(cr, image, c, listed)
  }

  // ---- deleteLabels ----

  function LabelRemovals(nodes: seq<Node>, key: string): seq<ClusterWrite> {
    if nodes == [] then []
    else
      (if key in nodes[0].labels then [RemoveLabel(nodes[0].name, key)] else [])
      + LabelRemovals(nodes[1..], key)
  }

  /** The clean-up writes once the resource is gone. */
  function DeleteLabels(id: ObjectKey, c: ClusterState): seq<ClusterWrite> {
    LabelRemovals(c.nodes, KmmLabelName(id, OnloadKind))
    + LabelRemovals(c.nodes, KmmLabelName(id, SfcKind))
    + LabelRemovals(c.nodes, OnloadLabelName(id))
  }
}

// The Onload custom resource, the names the operator derives from it and the
// objects it builds from it.

module OnloadTypes {
  import opened Wrappers
  import opened Kubernetes

  /** Presence of the (empty) SFC section of a kernel mapping. */
  datatype SFCSpec = SFCSpec

  datatype OnloadBuildArg = OnloadBuildArg(name: string, value: string)

  datatype OnloadKernelBuild = OnloadKernelBuild(
    buildArgs: seq<OnloadBuildArg>, dockerfileConfigMap: Option<string>)

  datatype OnloadKernelMapping = OnloadKernelMapping(
    regexp: string, kernelModuleImage: string, sfc: Option<SFCSpec>, build: Option<OnloadKernelBuild>)

  datatype OnloadSpec = OnloadSpec(
    kernelMappings: seq<OnloadKernelMapping>,
    userImage: string,
    version: string,
    imagePullPolicy: string,
    controlPlane: Option<seq<string>>)

  datatype DevicePluginSpec = DevicePluginSpec(
    imagePullPolicy: string,
    maxPodsPerNode: Option<int>,
    setPreload: Option<bool>,
    mountOnload: Option<bool>,
    hostOnloadPath: Option<string>,
    baseMountPath: Option<string>,
    binMountPath: Option<string>,
    libMountPath: Option<string>)

  datatype Spec = Spec(
    onload: OnloadSpec, devicePlugin: DevicePluginSpec, selector: Labels, serviceAccountName: string)

  /** The custom resource; `deleting` is the presence of a deletion timestamp. */
  datatype Onload = Onload(id: ObjectKey, deleting: bool, spec: Spec) {
    function Version(): string { spec.onload.version }
  }

  const KMM_MODULE_LABEL_PREFIX := "kmm.node.kubernetes.io/version-module"
  const KMM_MODULE_NAME_LABEL := "kmm.node.kubernetes.io/module.name"
  const ONLOAD_MODULE_NAME_SUFFIX := "-module"
  const SFC_MODULE_NAME_SUFFIX := "-sfcmod"
  const ONLOAD_LABEL_PREFIX := "onload.amd.com/"
  const DEVICE_PLUGIN_NAME_SUFFIX := "-onload-device-plugin-ds"
  const ONLOAD_VERSION_LABEL := ONLOAD_LABEL_PREFIX + "version"
  const ONLOAD_NAME_LABEL := ONLOAD_LABEL_PREFIX + "name"
  const ONLOAD_RESOURCE := "amd.com/onload"
  const NAME_LIMIT: nat := 39

  /** The two kernel modules the operator can manage. */
  datatype ModuleKind = OnloadKind | SfcKind

  function ModuleSuffix(kind: ModuleKind): string {
    match kind
    case OnloadKind => ONLOAD_MODULE_NAME_SUFFIX
    case SfcKind => SFC_MODULE_NAME_SUFFIX
  }

  function KmmLabelName(id: ObjectKey, kind: ModuleKind): string {
    KMM_MODULE_LABEL_PREFIX + "." + id.namespace + "." + id.name + ModuleSuffix(kind)
  }

  function OnloadLabelName(id: ObjectKey): string {
    ONLOAD_LABEL_PREFIX + id.namespace + "." + id.name
  }

  function ModuleName(id: ObjectKey, kind: ModuleKind): string {
    id.name + ModuleSuffix(kind)
  }

  function ModuleKey(id: ObjectKey, kind: ModuleKind): ObjectKey {
    ObjectKey(id.namespace, ModuleName(id, kind))
  }

  function DevicePluginName(id: ObjectKey): string {
    id.name + DEVICE_PLUGIN_NAME_SUFFIX
  }

  function DevicePluginKey(id: ObjectKey): ObjectKey {
    ObjectKey(id.namespace, DevicePluginName(id))
  }

  function InstanceLabel(id: ObjectKey): string {
    "onload-" + id.namespace + "-" + id.name
  }

  function BaseLabels(id: ObjectKey, component: string): Labels {
    map["app.kubernetes.io/managed-by" := "onload-operator",
        "app.kubernetes.io/part-of" := "onload",
        "app.kubernetes.io/instance" := InstanceLabel(id),
        "app.kubernetes.io/component" := component]
  }

  /** Labels selecting the pods that load one of the two kernel modules. */
  function ModulePodLabels(id: ObjectKey, kind: ModuleKind): Labels {
    map[KMM_MODULE_NAME_LABEL := ModuleName(id, kind)]
  }

  /** Labels by which the operator looks for device-plugin pods. */
  function DevicePluginPodLabels(id: ObjectKey): Labels {
    map[ONLOAD_NAME_LABEL := DevicePluginName(id)]
  }

  predicate UsesSFC(cr: Onload) {
    exists i | 0 <= i < |cr.spec.onload.kernelMappings| :: cr.spec.onload.kernelMappings[i].sfc.Some?
  }

  predicate ModuleUsed(cr: Onload, kind: ModuleKind) {
    kind == OnloadKind || UsesSFC(cr)
  }

  function CopyBuildArgs(args: seq<OnloadBuildArg>): seq<BuildArg> {
    if args == [] then []
    else [BuildArg(args[0].name, args[0].value)] + CopyBuildArgs(args[1..])
  }

  function OnloadMapping(spec: OnloadKernelMapping): KernelMapping {
    KernelMapping(spec.regexp, spec.kernelModuleImage,
      match spec.build
      case None => None
      case Some(b) => Some(Build(CopyBuildArgs(b.buildArgs), b.dockerfileConfigMap)))
  }

  /** The mapping of one module kind, or None when the kind skips this entry. */
  function MapKernel(kind: ModuleKind, spec: OnloadKernelMapping): Option<KernelMapping> {
    match kind
    case OnloadKind => Some(OnloadMapping(spec))
    case SfcKind => if spec.sfc.None? then None else Some(OnloadMapping(spec).(build := None))
  }

  function MapKernels(kind: ModuleKind, specs: seq<OnloadKernelMapping>): seq<KernelMapping> {
    if specs == [] then []
    else
      var rest := MapKernels(kind, specs[1..]);
      match MapKernel(kind, specs[0])
      case None => rest
      case Some(m) => [m] + rest
  }

  function NewModule(cr: Onload, kind: ModuleKind): Module {
    Module(
      BaseLabels(cr.id, "module"),
      cr.spec.serviceAccountName,
      match kind case OnloadKind => "onload" case SfcKind => "sfc",
      ["--first-time"],
      match kind case OnloadKind => "" case SfcKind => "sfc",
      MapKernels(kind, cr.spec.onload.kernelMappings),
      cr.spec.onload.imagePullPolicy,
      cr.Version(),
      cr.spec.selector)
  }

  /** The DaemonSet fields that are fixed when it is created. */
  datatype Template = Template(
    podLabels: Labels,
    serviceAccountName: string,
    nodeSelector: Labels,
    requiredLabel: string,
    initPullPolicy: string,
    devicePluginImage: string,
    devicePlugin: DevicePluginSpec,
    controlPlane: Option<seq<string>>)

  type ClusterState = Cluster<Template>
  type ClusterWrite = Write<Template>

  function NewDaemonSet(cr: Onload, devicePluginImage: string): DaemonSet<Template> {
    DaemonSet(
      BaseLabels(cr.id, "device-plugin")[ONLOAD_VERSION_LABEL := cr.Version()],
      cr.spec.onload.userImage,
      Template(
        BaseLabels(cr.id, "device-plugin")[ONLOAD_NAME_LABEL := DevicePluginName(cr.id)],
        cr.spec.serviceAccountName,
        cr.spec.selector,
        OnloadLabelName(cr.id),
        cr.spec.onload.imagePullPolicy,
        devicePluginImage,
        cr.spec.devicePlugin,
        cr.spec.onload.controlPlane))
  }

  /** The container requests a positive number of Onload devices. */
  predicate RequestsOnload(container: Container) {
    ONLOAD_RESOURCE in container.requests && container.requests[ONLOAD_RESOURCE] > 0
  }

  predicate UsesOnload(pod: Pod) {
    exists i | 0 <= i < |pod.containers| :: RequestsOnload(pod.containers[i])
  }

  /** The node matches the selector of the custom resource. */
  predicate Selected(cr: Onload, node: Node) {
    Selects(Includes(cr.spec.selector), node.labels)
  }

  function LabelOf(node: Node, key: string): Option<string> {
    if key in node.labels then Some(node.labels[key]) else None
  }

  function Kmm(cr: Onload, node: Node): Option<string> {
    LabelOf(node, KmmLabelName(cr.id, OnloadKind))
  }

  function Sfc(cr: Onload, node: Node): Option<string> {
    LabelOf(node, KmmLabelName(cr.id, SfcKind))
  }

  function Plugin(cr: Onload, node: Node): Option<string> {
    LabelOf(node, OnloadLabelName(cr.id))
  }

  /** The operator's own label keys. */
  predicate OwnKey(id: ObjectKey, key: string) {
    key == KmmLabelName(id, OnloadKind) || key == KmmLabelName(id, SfcKind) || key == OnloadLabelName(id)
  }

  /** The selector does not mention a label the operator itself writes. */
  predicate SelectorIsForeign(cr: Onload) {
    forall k | k in cr.spec.selector :: !OwnKey(cr.id, k)
  }

  lemma OwnKeysDiffer(id: ObjectKey)
    ensures KmmLabelName(id, OnloadKind) != KmmLabelName(id, SfcKind)
    ensures KmmLabelName(id, OnloadKind) != OnloadLabelName(id)
    ensures KmmLabelName(id, SfcKind) != OnloadLabelName(id)
  {
    var a, b := KmmLabelName(id, OnloadKind), KmmLabelName(id, SfcKind);
    assert |a| == |b|;
    assert a[|a| - 1] == 'e' && b[|b| - 1] == 'd';
    assert a[0] == 'k' && b[0] == 'k' && OnloadLabelName(id)[0] == 'o';
  }
}

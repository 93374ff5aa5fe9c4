// The reconcile loop as a state machine over single writes.  Every write a
// Reconcile makes, whether or not a later API call fails, meets its guard in the
// state in which it is made.

module Machine {
  import opened Wrappers
  import opened Ordering
  import opened Kubernetes
  import opened OnloadTypes

  predicate DistinctPods(pods: seq<Pod>) {
    forall i, j | 0 <= i < j < |pods| :: pods[i].uid != pods[j].uid
  }

  /** What the operator relies on: unique names, unique pods, a foreign selector. */
  predicate Sane(cr: Onload, c: ClusterState) {
    DistinctNames(c.nodes) && DistinctPods(c.pods) && SelectorIsForeign(cr)
  }

  /** The maps agree at one key. */
  predicate SameObject<K, V(==)>(m: map<K, V>, n: map<K, V>, k: K) {
    (k in m <==> k in n) && (k in m ==> m[k] == n[k])
  }

  /** The nodes that match the selector, in list order. */
  function SelectedNodes(cr: Onload, c: ClusterState): seq<Node> {
    SelectNodes(c.nodes, Includes(cr.spec.selector))
  }

  predicate Present(c: ClusterState, name: string) {
    exists i | 0 <= i < |c.nodes| :: c.nodes[i].name == name
  }

  // ---- Guards ----

  predicate NoStaleLabels(cr: Onload, c: ClusterState) {
    forall n | n in c.nodes && !Selected(cr, n) ::
      Kmm(cr, n).None? && Sfc(cr, n).None? && Plugin(cr, n).None?
  }

  /** DaemonSet and Modules are those of the version of the resource. */
  predicate InfrastructureReady(cr: Onload, c: ClusterState) {
    && DevicePluginKey(cr.id) in c.daemonSets
    && Read(c.daemonSets[DevicePluginKey(cr.id)].labels, ONLOAD_VERSION_LABEL) == cr.Version()
    && ModuleReady(cr, c, OnloadKind)
    && ModuleReady(cr, c, SfcKind)
  }

  predicate ModuleReady(cr: Onload, c: ClusterState, kind: ModuleKind) {
    var key := ModuleKey(cr.id, kind);
    if ModuleUsed(cr, kind) then key in c.modules && c.modules[key].version == cr.Version()
    else key !in c.modules
  }

  /** Every selected node has a KMM label, and the rest of its labels if that label is current. */
  predicate Labelled(cr: Onload, c: ClusterState) {
    forall n | n in c.nodes && Selected(cr, n) ::
      && Kmm(cr, n).Some?
      && (Kmm(cr, n) == Some(cr.Version()) ==>
          Plugin(cr, n).Some? && (UsesSFC(cr) ==> Sfc(cr, n).Some?))
  }

  /** Nothing is left to do but upgrading nodes. */
  predicate ReadyToUpgrade(cr: Onload, c: ClusterState) {
    NoStaleLabels(cr, c) && Labelled(cr, c) && InfrastructureReady(cr, c)
  }

  /** The node carries a KMM label of another version. */
  predicate IsOutdated(cr: Onload, n: Node) {
    Kmm(cr, n).Some? && Kmm(cr, n) != Some(cr.Version())
  }

  /** Nothing else is left to do, and no outdated node sorts before this one. */
  predicate NextInLine(cr: Onload, c: ClusterState, n: Node) {
    && ReadyToUpgrade(cr, c) && Selected(cr, n) && IsOutdated(cr, n)
    && (forall m | m in c.nodes && IsOutdated(cr, m) :: !Below(m.name, n.name))
  }

  /** No onload label of another version, and no device-plugin pod. */
  predicate PluginGone(cr: Onload, c: ClusterState, n: Node) {
    && (Plugin(cr, n).None? || Plugin(cr, n) == Some(cr.Version()))
    && (forall p | p in c.pods && p.node == n.name ::
          !Selects(Includes(DevicePluginPodLabels(cr.id)), p.labels))
  }

  /** The node has been drained as far as the operator can see. */
  predicate Drained(cr: Onload, c: ClusterState, n: Node, listed: bool) {
    && PluginGone(cr, c, n)
    && (listed ==> forall p | p in c.pods && p.node == n.name :: !UsesOnload(p))
  }

  predicate NoModulePods(cr: Onload, c: ClusterState, kind: ModuleKind, node: string) {
    forall p | p in c.pods && p.node == node :: !Selects(Includes(ModulePodLabels(cr.id, kind)), p.labels)
  }

  predicate MayAdd(cr: Onload, c: ClusterState, n: Node, key: string) {
    && Selected(cr, n)
    && key !in n.labels
    && (key == KmmLabelName(cr.id, OnloadKind) ==> NoModulePods(cr, c, OnloadKind, n.name))
    && (key == KmmLabelName(cr.id, SfcKind) ==>
        UsesSFC(cr) && Kmm(cr, n) == Some(cr.Version()) && NoModulePods(cr, c, SfcKind, n.name))
    && (key == OnloadLabelName(cr.id) ==> Kmm(cr, n) == Some(cr.Version()))
  }

  predicate MayRemoveStale(cr: Onload, n: Node, key: string) {
    !Selected(cr, n) && key in n.labels
  }

  predicate MayRemoveForUpgrade(cr: Onload, c: ClusterState, n: Node, key: string, listed: bool) {
    && NextInLine(cr, c, n)
    && (key == OnloadLabelName(cr.id) ==> Plugin(cr, n).Some? && Plugin(cr, n) != Some(cr.Version()))
    && (key != OnloadLabelName(cr.id) ==> Drained(cr, c, n, listed))
    && (key == KmmLabelName(cr.id, OnloadKind) ==> Sfc(cr, n).None?)
  }

  /** A running user of Onload on the next node in line, once the device plugin has left that node. */
  predicate MayEvict(cr: Onload, c: ClusterState, p: Pod) {
    && UsesOnload(p) && !p.terminating
    && exists n :: n in c.nodes && n.name == p.node && NextInLine(cr, c, n) && PluginGone(cr, c, n)
  }

  /** The guard of a write in the state in which it is made. */
  predicate Guarded(cr: Onload, c: ClusterState, w: ClusterWrite, listed: bool) {
    match w
    case SetLabel(name, key, value) =>
      && Present(c, name) && OwnKey(cr.id, key) && value == cr.Version()
      && forall n | n in c.nodes && n.name == name :: MayAdd(cr, c, n, key)
    case RemoveLabel(name, key) =>
      && Present(c, name) && OwnKey(cr.id, key)
      && forall n | n in c.nodes && n.name == name ::
           MayRemoveStale(cr, n, key) || MayRemoveForUpgrade(cr, c, n, key, listed)
    case CreateModule(key, m) =>
      exists kind ::
        && key == ModuleKey(cr.id, kind) && key !in c.modules
        && ModuleUsed(cr, kind) && m == NewModule(cr, kind)
    case PatchModule(key, version, mappings) =>
      exists kind ::
        && key == ModuleKey(cr.id, kind) && key in c.modules && ModuleUsed(cr, kind)
        && c.modules[key].version != version && version == cr.Version()
        && mappings == MapKernels(kind, cr.spec.onload.kernelMappings)
    case DeleteModule(key) =>
      key == ModuleKey(cr.id, SfcKind) && key in c.modules && !UsesSFC(cr)
    case CreateDaemonSet(key, ds) =>
      && key == DevicePluginKey(cr.id) && key !in c.daemonSets
      && ds == NewDaemonSet(cr, ds.template.devicePluginImage)
    case PatchDaemonSet(key, labelKey, version, image) =>
      && key == DevicePluginKey(cr.id) && key in c.daemonSets
      && Read(c.daemonSets[key].labels, ONLOAD_VERSION_LABEL) != version
      && labelKey == ONLOAD_VERSION_LABEL && version == cr.Version()
      && image == cr.spec.onload.userImage
    case EvictPod(uid) =>
      exists p | p in c.pods :: p.uid == uid && MayEvict(cr, c, p)
  }

  predicate GuardedRun(cr: Onload, c: ClusterState, ws: seq<ClusterWrite>, listed: bool)
    decreases |ws|
  {
    ws == [] || (Guarded(cr, c, ws[0], listed) && GuardedRun(cr, Apply(ws[0], c), ws[1..], listed))
  }

  lemma {:induction false} GuardedConcat(
    cr: Onload, c: ClusterState, a: seq<ClusterWrite>, b: seq<ClusterWrite>, listed: bool)
    ensures GuardedRun(cr, c, a + b, listed)
      <==> GuardedRun(cr, c, a, listed) && GuardedRun(cr, ApplyAll(a, c), b, listed)
    decreases |a|
  {
    if a == [] {
      assert a + b == b;
    } else {
      assert (a + b)[1..] == a[1..] + b;
      GuardedConcat(cr, Apply(a[0], c), a[1..], b, listed);
    }
  }

  // ---- Effects of label writes ----

  lemma SetLabelEffect(cr: Onload, c: ClusterState, name: string, key: string, value: string)
    requires Sane(cr, c) && OwnKey(cr.id, key)
    ensures var d := Apply(SetLabel(name, key, value), c);
      && Sane(cr, d) && |d.nodes| == |c.nodes|
      && (forall i | 0 <= i < |c.nodes| ::
           && d.nodes[i].name == c.nodes[i].name
           && Selected(cr, d.nodes[i]) == Selected(cr, c.nodes[i])
           && (c.nodes[i].name != name ==> d.nodes[i] == c.nodes[i])
           && (c.nodes[i].name == name ==>
                && d.nodes[i].labels == c.nodes[i].labels[key := value]
                && Kmm(cr, d.nodes[i]) == (if key == KmmLabelName(cr.id, OnloadKind) then Some(value) else Kmm(cr, c.nodes[i]))
                && Sfc(cr, d.nodes[i]) == (if key == KmmLabelName(cr.id, SfcKind) then Some(value) else Sfc(cr, c.nodes[i]))
                && Plugin(cr, d.nodes[i]) == (if key == OnloadLabelName(cr.id) then Some(value) else Plugin(cr, c.nodes[i]))))
  {
  }

  lemma RemoveLabelEffect(cr: Onload, c: ClusterState, name: string, key: string)
    requires Sane(cr, c) && OwnKey(cr.id, key)
    ensures var d := Apply(RemoveLabel(name, key), c);
      && Sane(cr, d) && |d.nodes| == |c.nodes|
      && (forall i | 0 <= i < |c.nodes| ::
           && d.nodes[i].name == c.nodes[i].name
           && Selected(cr, d.nodes[i]) == Selected(cr, c.nodes[i])
           && (c.nodes[i].name != name ==> d.nodes[i] == c.nodes[i])
           && (c.nodes[i].name == name ==>
                && d.nodes[i].labels == c.nodes[i].labels - {key}
                && Kmm(cr, d.nodes[i]) == (if key == KmmLabelName(cr.id, OnloadKind) then None else Kmm(cr, c.nodes[i]))
                && Sfc(cr, d.nodes[i]) == (if key == KmmLabelName(cr.id, SfcKind) then None else Sfc(cr, c.nodes[i]))
                && Plugin(cr, d.nodes[i]) == (if key == OnloadLabelName(cr.id) then None else Plugin(cr, c.nodes[i]))))
  {
  }

  lemma SameName(c: ClusterState, n: Node)
    requires DistinctNames(c.nodes) && n in c.nodes
    ensures Present(c, n.name)
    ensures forall m | m in c.nodes && m.name == n.name :: m == n
  {
    var i :| 0 <= i < |c.nodes| && c.nodes[i] == n;
    assert c.nodes[i].name == n.name;
  }

  lemma OneWrite(cr: Onload, c: ClusterState, w: ClusterWrite, listed: bool)
    requires Guarded(cr, c, w, listed)
    ensures GuardedRun(cr, c, [w], listed)
    ensures ApplyAll([w], c) == Apply(w, c)
  {
    assert [w][1..] == [];
    assert GuardedRun(cr, Apply(w, c), [], listed);
  }
}

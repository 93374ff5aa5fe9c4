// The part of the cluster state the operator reads and writes, and the effect
// of each single write on it.

module Kubernetes {
  import opened Wrappers
  import opened Ordering

  type Labels = map<string, string>

  /** A namespaced object name. */
  datatype ObjectKey = ObjectKey(namespace: string, name: string)

  datatype Node = Node(name: string, labels: Labels)

  /** Resource requests of one container. */
  datatype Container = Container(requests: map<string, int>)

  datatype Pod = Pod(
    uid: nat,
    namespace: string,
    node: string,
    labels: Labels,
    containers: seq<Container>,
    terminating: bool,
    initImage: string)

  datatype BuildArg = BuildArg(name: string, value: string)

  datatype Build = Build(buildArgs: seq<BuildArg>, dockerfileConfigMap: Option<string>)

  datatype KernelMapping = KernelMapping(
    regexp: string, containerImage: string, build: Option<Build>)

  /** The Module kind of the Kernel Module Management operator. */
  datatype Module = Module(
    labels: Labels,
    serviceAccountName: string,
    modprobe: string,
    modprobeParameters: seq<string>,
    inTreeModuleToRemove: string,
    kernelMappings: seq<KernelMapping>,
    imagePullPolicy: string,
    version: string,
    selector: Labels)

  /** `template` stands for every field the operator never updates. */
  datatype DaemonSet<T> = DaemonSet(labels: Labels, initImage: string, template: T)

  /** Equality-based selection, or selection by the existence of a key. */
  datatype LabelSelector = Includes(labels: Labels) | Exists(key: string)

  predicate Selects(s: LabelSelector, labels: Labels) {
    match s
    case Includes(want) => forall k | k in want :: k in labels && labels[k] == want[k]
    case Exists(key) => key in labels
  }

  /** A missing label reads as the empty string. */
  function Read(labels: Labels, key: string): string {
    if key in labels then labels[key] else ""
  }

  /** What a List of nodes returns. */
  function SelectNodes(nodes: seq<Node>, s: LabelSelector): (items: seq<Node>)
    ensures forall n {:trigger n in items} :: n in items <==> n in nodes && Selects(s, n.labels)
  {
    if nodes == [] then []
    else if Selects(s, nodes[0].labels) then [nodes[0]] + SelectNodes(nodes[1..], s)
    else SelectNodes(nodes[1..], s)
  }

  /** Lists of nodes that differ node by node give lists of selected nodes that differ likewise. */
  lemma {:induction false} SelectPairs(a: seq<Node>, b: seq<Node>, s: LabelSelector, related: (Node, Node) -> bool)
    requires |a| == |b|
    requires forall i | 0 <= i < |a| :: Selects(s, a[i].labels) == Selects(s, b[i].labels)
    requires forall i | 0 <= i < |a| :: Selects(s, a[i].labels) ==> related(a[i], b[i])
    ensures var c, d := SelectNodes(a, s), SelectNodes(b, s);
      |c| == |d| && forall i | 0 <= i < |c| :: related(c[i], d[i])
  {
    hide Selects;
    if a != [] {
      SelectPairs(a[1..], b[1..], s, related);
    }
  }

  /** What a List of the pods on one node returns. */
  function PodsOn(pods: seq<Pod>, want: Labels, node: string): (items: seq<Pod>)
    ensures forall p {:trigger p in items} :: p in items <==> p in pods && p.node == node && Selects(Includes(want), p.labels)
  {
    if pods == [] then []
    else if pods[0].node == node && Selects(Includes(want), pods[0].labels)
    then [pods[0]] + PodsOn(pods[1..], want, node)
    else PodsOn(pods[1..], want, node)
  }

  predicate DistinctNames(nodes: seq<Node>) {
    forall i, j | 0 <= i < j < |nodes| :: nodes[i].name != nodes[j].name
  }

  lemma {:induction false} SelectKeepsDistinct(nodes: seq<Node>, s: LabelSelector)
    requires DistinctNames(nodes)
    ensures DistinctNames(SelectNodes(nodes, s))
  {
    if nodes != [] {
      SelectKeepsDistinct(nodes[1..], s);
      var rest := SelectNodes(nodes[1..], s);
      forall n | n in rest ensures n.name != nodes[0].name {
        assert n in nodes[1..];
      }
    }
  }

  /** The alphabetically first node of a non-empty list. */
  function First(nodes: seq<Node>): (first: Node)
    requires nodes != []
    ensures first in nodes
    ensures forall n | n in nodes :: !Below(n.name, first.name)
  {
    var last := nodes[|nodes| - 1];
    if |nodes| == 1 then
      BelowIrreflexive(last.name); last
    else
      var best := First(nodes[..|nodes| - 1]);
      assert nodes == nodes[..|nodes| - 1] + [last];
      BelowIrreflexive(last.name);
      if Below(last.name, best.name) then
        assert forall n | n in nodes[..|nodes| - 1] :: !Below(n.name, last.name) by {
          forall n | n in nodes[..|nodes| - 1] ensures !Below(n.name, last.name) {
            if Below(n.name, last.name) { BelowTransitive(n.name, last.name, best.name); }
          }
        }
        last
      else best
  }

  /** Cluster state; `nodes` is in the order in which a List returns them. */
  datatype Cluster<T> = Cluster(
    nodes: seq<Node>,
    modules: map<ObjectKey, Module>,
    daemonSets: map<ObjectKey, DaemonSet<T>>,
    pods: seq<Pod>)

  /** One write accepted by the API server. */
  datatype Write<T> =
    | SetLabel(node: string, key: string, value: string)
    | RemoveLabel(node: string, key: string)
    | CreateModule(target: ObjectKey, definition: Module)
    | PatchModule(target: ObjectKey, version: string, kernelMappings: seq<KernelMapping>)
    | DeleteModule(target: ObjectKey)
    | CreateDaemonSet(target: ObjectKey, daemonSet: DaemonSet<T>)
    | PatchDaemonSet(target: ObjectKey, labelKey: string, version: string, initImage: string)
    | EvictPod(uid: nat)

  function WithLabel(nodes: seq<Node>, name: string, key: string, value: string): seq<Node> {
    seq(|nodes|, i requires 0 <= i < |nodes| =>
      if nodes[i].name == name then nodes[i].(labels := nodes[i].labels[key := value]) else nodes[i])
  }

  function WithoutLabel(nodes: seq<Node>, name: string, key: string): seq<Node> {
    seq(|nodes|, i requires 0 <= i < |nodes| =>
      if nodes[i].name == name then nodes[i].(labels := nodes[i].labels - {key}) else nodes[i])
  }

  function Terminate(pods: seq<Pod>, uid: nat): seq<Pod> {
    seq(|pods|, i requires 0 <= i < |pods| =>
      if pods[i].uid == uid then pods[i].(terminating := true) else pods[i])
  }

  /** The effect of one write. */
  function Apply<T>(w: Write<T>, c: Cluster<T>): Cluster<T> {
    match w
    case SetLabel(node, key, value) => c.(nodes := WithLabel(c.nodes, node, key, value))
    case RemoveLabel(node, key) => c.(nodes := WithoutLabel(c.nodes, node, key))
    case CreateModule(target, m) => c.(modules := c.modules[target := m])
    case PatchModule(target, version, mappings) =>
      if target in c.modules then
        c.(modules := c.modules[target :=
          c.modules[target].(version := version, kernelMappings := mappings)])
      else c
    case DeleteModule(target) => c.(modules := c.modules - {target})
    case CreateDaemonSet(target, ds) => c.(daemonSets := c.daemonSets[target := ds])
    case PatchDaemonSet(target, labelKey, version, image) =>
      if target in c.daemonSets then
        c.(daemonSets := c.daemonSets[target := c.daemonSets[target].(
          labels := c.daemonSets[target].labels[labelKey := version], initImage := image)])
      else c
    case EvictPod(uid) => c.(pods := Terminate(c.pods, uid))
  }

  function ApplyAll<T>(ws: seq<Write<T>>, c: Cluster<T>): Cluster<T> {
    if ws == [] then c else ApplyAll(ws[1..], Apply(ws[0], c))
  }

  lemma {:induction false} ApplyAllConcat<T>(a: seq<Write<T>>, b: seq<Write<T>>, c: Cluster<T>)
    ensures ApplyAll(a + b, c) == ApplyAll(b, ApplyAll(a, c))
  {
    if a == [] {
      assert a + b == b;
    } else {
      ApplyAllConcat(a[1..], b, Apply(a[0], c));
      assert (a + b)[1..] == a[1..] + b;
    }
  }
}

// The reconciler as it runs: it reads and patches the API server, any call to
// which may fail, and a failing write may or may not have taken effect.

module Controller {
  import opened Wrappers
  import opened Kubernetes
  import opened OnloadTypes
  import opened Outcomes
  import Intended = Planning
  import opened Deletion
  import opened Agreement

  /** A call that the API server did not answer with success. */
  datatype Failure =
    | GetFailed(target: ObjectKey)
    | NodeListFailed(selector: LabelSelector)
    | PodListFailed(want: Labels, node: string)
    | Refused(write: ClusterWrite)

  class ApiServer {
    /** Every failed call, in order: each method adds one exactly when it fails. */
    ghost var failures: seq<Failure>
    /** No call fails. */
    const healthy: bool
    var onloads: map<ObjectKey, Onload>
    var nodes: seq<Node>
    var modules: map<ObjectKey, Module>
    var daemonSets: map<ObjectKey, DaemonSet<Template>>
    var pods: seq<Pod>

    /** Every resource is stored under its own name. */
    predicate Valid()
      reads this
    {
      forall id | id in onloads :: onloads[id].id == id
    }

    constructor (healthy: bool, onloads: map<ObjectKey, Onload>, c: ClusterState)
      requires forall id | id in onloads :: onloads[id].id == id
      ensures Valid() && View() == c && this.onloads == onloads && failures == [] && this.healthy == healthy
    {
      this.healthy := healthy;
      failures := [];
      this.onloads := onloads;
      nodes, modules, daemonSets, pods := c.nodes, c.modules, c.daemonSets, c.pods;
    }

    function View(): ClusterState
      reads this
    {
      Cluster(nodes, modules, daemonSets, pods)
    }

    method GetOnload(id: ObjectKey) returns (ok: bool, found: Option<Onload>)
      modifies this`failures
      ensures healthy ==> ok
      ensures failures == if ok then old(failures) else old(failures) + [GetFailed(id)]
      ensures ok ==> found == if id in onloads then Some(onloads[id]) else None
    {
      ok := *;
      ok := ok || healthy;
      if !ok { failures := failures + [GetFailed(id)]; }
      found := if id in onloads then Some(onloads[id]) else None;
    }

    method GetModule(key: ObjectKey) returns (ok: bool, found: Option<Module>)
      modifies this`failures
      ensures healthy ==> ok
      ensures failures == if ok then old(failures) else old(failures) + [GetFailed(key)]
      ensures ok ==> found == if key in modules then Some(modules[key]) else None
    {
      ok := *;
      ok := ok || healthy;
      if !ok { failures := failures + [GetFailed(key)]; }
      found := if key in modules then Some(modules[key]) else None;
    }

    method GetDaemonSet(key: ObjectKey) returns (ok: bool, found: Option<DaemonSet<Template>>)
      modifies this`failures
      ensures healthy ==> ok
      ensures failures == if ok then old(failures) else old(failures) + [GetFailed(key)]
      ensures ok ==> found == if key in daemonSets then Some(daemonSets[key]) else None
    {
      ok := *;
      ok := ok || healthy;
      if !ok { failures := failures + [GetFailed(key)]; }
      found := if key in daemonSets then Some(daemonSets[key]) else None;
    }

    method ListNodes(s: LabelSelector) returns (ok: bool, items: seq<Node>)
      modifies this`failures
      ensures healthy ==> ok
      ensures failures == if ok then old(failures) else old(failures) + [NodeListFailed(s)]
      ensures ok ==> items == SelectNodes(nodes, s)
    {
      ok := *;
      ok := ok || healthy;
      if !ok { failures := failures + [NodeListFailed(s)]; }
      items := SelectNodes(nodes, s);
    }

    method ListPods(want: Labels, node: string) returns (ok: bool, items: seq<Pod>)
      modifies this`failures
      ensures healthy ==> ok
      ensures failures == if ok then old(failures) else old(failures) + [PodListFailed(want, node)]
      ensures ok ==> items == PodsOn(pods, want, node)
    {
      ok := *;
      ok := ok || healthy;
      if !ok { failures := failures + [PodListFailed(want, node)]; }
      items := PodsOn(pods, want, node);
    }

    /** Create, Patch, Delete or evict; `done` is what took effect. */
    method Submit(w: ClusterWrite) returns (ok: bool, ghost done: seq<ClusterWrite>)
      modifies this
      ensures onloads == old(onloads)
      ensures done == [] || done == [w]
      ensures View() == if done == [] then old(View()) else Apply(w, old(View()))
      ensures ok ==> done == [w]
      ensures healthy ==> ok
      ensures failures == if ok then old(failures) else old(failures) + [Refused(w)]
    {
      var lost: bool := *;
      ok := *;
      ok, lost := healthy || (ok && !lost), !healthy && lost;
      if !ok { failures := failures + [Refused(w)]; }
      if lost {
        done := [];
        return;
      }
      done := [w];
      match w
      case SetLabel(node, key, value) => nodes := WithLabel(nodes, node, key, value);
      case RemoveLabel(node, key) => nodes := WithoutLabel(nodes, node, key);
      case CreateModule(key, m) => modules := modules[key := m];
      case PatchModule(key, version, mappings) =>
        if key in modules {
          modules := modules[key := modules[key].(version := version, kernelMappings := mappings)];
        }
      case DeleteModule(key) => modules := modules - {key};
      case CreateDaemonSet(key, ds) => daemonSets := daemonSets[key := ds];
      case PatchDaemonSet(key, labelKey, version, image) =>
        if key in daemonSets {
          daemonSets := daemonSets[key := daemonSets[key].(
            labels := daemonSets[key].labels[labelKey := version], initImage := image)];
        }
      case EvictPod(uid) => pods := Terminate(pods, uid);
    }
  }

  /** What was done follows the plan: all of it, or a prefix when a call failed. */
  predicate Follows(p: Plan, done: seq<ClusterWrite>, flow: Flow) {
    if flow == Fail(ApiFailure) then done <= p.writes else done == p.writes && flow == p.flow
  }

  /**
   * One new failure if the phase says that a call failed, one if the List of the pods to evict
   * failed, and none otherwise.
   */
  predicate Reported(flow: Flow, listed: bool, before: seq<Failure>, after: seq<Failure>) {
    if flow != Fail(ApiFailure) && listed then after == before
    else
      && before <= after
      && |after| - |before| == (if flow == Fail(ApiFailure) then 1 else 0) + (if listed then 0 else 1)
  }

  /** The failures of label patches that were logged and skipped. */
  function Refusals(ws: seq<ClusterWrite>): (r: seq<Failure>)
    ensures |r| == |ws| && forall i | 0 <= i < |ws| :: r[i] == Refused(ws[i])
  {
    if ws == [] then [] else Refusals(ws[..|ws| - 1]) + [Refused(ws[|ws| - 1])]
  }

  lemma NoRefusals()
    ensures Refusals([]) == []
  {
  }

  lemma OneRefusal(ws: seq<ClusterWrite>, w: ClusterWrite)
    ensures Refusals(ws + [w]) == Refusals(ws) + [Refused(w)]
  {
  }

  lemma RefusalsConcat(a: seq<ClusterWrite>, b: seq<ClusterWrite>)
    ensures Refusals(a + b) == Refusals(a) + Refusals(b)
  {
  }

  /** Clean-up ends well after the refusals it skipped, or fails with the one List or Get that failed after them. */
  predicate CleanupReported(flow: Flow, rejected: seq<ClusterWrite>, before: seq<Failure>, after: seq<Failure>) {
    || (flow == Return(Done) && after == before + Refusals(rejected))
    || (flow == Fail(ApiFailure) && |after| == |before| + |rejected| + 1
        && after[..|after| - 1] == before + Refusals(rejected) && !after[|after| - 1].Refused?)
  }

  /** Following the plan of a Reconcile is being cut short after `done`. */
  lemma FollowsIsReconciled(
    cr: Onload, image: string, c: ClusterState, listed: bool, done: seq<ClusterWrite>, flow: Flow)
    requires Follows(Intended.Reconcile(cr, image, c, listed), done, flow)
    ensures ReconciledTo(cr, image, c, ApplyAll(done, c), listed, |done|)
  {
    hide Intended.Reconcile, ApplyAll;
    assert Intended.Reconcile(cr, image, c, listed).writes[..|done|] == done;
  }

  /** A loop that has done `done` and still has `rest` to do. */
  function After(done: seq<ClusterWrite>, rest: Plan): Plan {
    Plan(done + rest.writes, rest.flow)
  }

  lemma AfterAssociates(done: seq<ClusterWrite>, more: seq<ClusterWrite>, rest: Plan)
    ensures After(done, After(more, rest)) == After(done + more, rest)
  {
  }

  lemma PrefixAfter(done: seq<ClusterWrite>, more: seq<ClusterWrite>, a: seq<ClusterWrite>, b: seq<ClusterWrite>)
    requires more <= a
    ensures done + more <= done + (a + b) && done + more <= done + a
  {
    assert a == more + a[|more|..];
  }

  lemma NothingDone(view: ClusterState)
    ensures ApplyAll([], view) == view
  {
  }

  /** One more write of a loop, whether or not it took effect. */
  lemma OneMore(
    done: seq<ClusterWrite>, more: seq<ClusterWrite>, view: ClusterState, w: ClusterWrite, rest: seq<ClusterWrite>)
    requires more == [] || more == [w]
    ensures ApplyAll(done + more, view)
      == if more == [] then ApplyAll(done, view) else Apply(w, ApplyAll(done, view))
    ensures done + more <= done + ([w] + rest)
    ensures more == [w] ==> done + more + rest == done + ([w] + rest)
  {
    ApplyAllConcat(done, more, view);
    assert [w] + rest == [w] + rest;
    assert done + ([w] + rest) == done + [w] + rest;
  }

  lemma OnloadAdditionsStep(cr: Onload, items: seq<Node>, i: nat)
    requires i < |items|
    ensures var n, key := items[i], OnloadLabelName(cr.id);
      var more: seq<ClusterWrite> :=
        if Read(n.labels, KmmLabelName(cr.id, OnloadKind)) == cr.Version() && key !in n.labels
        then [SetLabel(n.name, key, cr.Version())] else [];
      Intended.OnloadAdditions(cr, items[i..]) == more + Intended.OnloadAdditions(cr, items[i + 1..])
  {
    hide OnloadLabelName, KmmLabelName;
    assert items[i..][0] == items[i] && items[i..][1..] == items[i + 1..];
  }

  lemma OnloadAdditionsEnd(cr: Onload, items: seq<Node>)
    ensures Intended.OnloadAdditions(cr, items[|items|..]) == []
  {
  }

  lemma StaleStep(cr: Onload, items: seq<Node>, key: string, i: nat)
    requires i < |items|
    ensures var more: seq<ClusterWrite> := if Selected(cr, items[i]) then [] else [RemoveLabel(items[i].name, key)];
      Intended.StaleRemovals(cr, items[i..], key) == more + Intended.StaleRemovals(cr, items[i + 1..], key)
  {
    assert items[i..][0] == items[i] && items[i..][1..] == items[i + 1..];
  }

  lemma StaleEnd(cr: Onload, items: seq<Node>, key: string)
    ensures Intended.StaleRemovals(cr, items[|items|..], key) == []
  {
  }

  lemma EvictionsStep(pods: seq<Pod>, i: nat)
    requires i < |pods|
    ensures var more: seq<ClusterWrite> := if pods[i].terminating then [] else [EvictPod(pods[i].uid)];
      Intended.Evictions(pods[i..]) == more + Intended.Evictions(pods[i + 1..])
  {
    assert pods[i..][0] == pods[i] && pods[i..][1..] == pods[i + 1..];
  }

  lemma EvictionsEnd(pods: seq<Pod>)
    ensures Intended.Evictions(pods[|pods|..]) == []
  {
  }

  lemma OutdatedStep(cr: Onload, items: seq<Node>, i: nat, kept: seq<Node>)
    requires i < |items|
    ensures var next :=
        if Read(items[i].labels, KmmLabelName(cr.id, OnloadKind)) != cr.Version() then kept + [items[i]] else kept;
      kept + Intended.Outdated(cr, items[i..]) == next + Intended.Outdated(cr, items[i + 1..])
  {
    hide KmmLabelName, Read;
    assert items[i..][0] == items[i] && items[i..][1..] == items[i + 1..];
  }

  lemma OnloadedStep(pods: seq<Pod>, i: nat, kept: seq<Pod>)
    requires i < |pods|
    ensures var next := if UsesOnload(pods[i]) then kept + [pods[i]] else kept;
      kept + Intended.OnloadedAmong(pods[i..]) == next + Intended.OnloadedAmong(pods[i + 1..])
  {
    assert pods[i..][0] == pods[i] && pods[i..][1..] == pods[i + 1..];
  }

  lemma KmmLoopStep(cr: Onload, pods: seq<Pod>, items: seq<Node>, i: nat)
    requires i < |items|
    ensures var step := Intended.AddKmmLabelsToNode(cr, pods, items[i]);
      Intended.AddKmmLabelsTo(cr, pods, items[i..])
      == if step.flow != Continue then Plan(step.writes, step.flow)
         else After(step.writes, Intended.AddKmmLabelsTo(cr, pods, items[i + 1..]))
  {
    assert items[i..][0] == items[i] && items[i..][1..] == items[i + 1..];
  }

  lemma KmmLoopEnd(cr: Onload, pods: seq<Pod>, items: seq<Node>)
    ensures Intended.AddKmmLabelsTo(cr, pods, items[|items|..]) == Plan([], Continue)
  {
  }

  // ---- Clean-up ----

  /** The write removes a label that is present. */
  predicate RemovesPresent(c: ClusterState, key: string, w: ClusterWrite) {
    exists n :: n in c.nodes && key in n.labels && w == RemoveLabel(n.name, key)
  }

  predicate AllPresent(c: ClusterState, key: string, ws: seq<ClusterWrite>) {
    forall w | w in ws :: RemovesPresent(c, key, w)
  }

  /** Every removal of the key that is due has been tried. */
  ghost predicate Covers(c: ClusterState, key: string, tried: seq<ClusterWrite>) {
    forall w | RemovesPresent(c, key, w) :: w in tried
  }

  lemma ListedPresent(c: ClusterState, key: string, n: Node)
    requires n in SelectNodes(c.nodes, Exists(key))
    ensures RemovesPresent(c, key, RemoveLabel(n.name, key))
  {
  }

  predicate TriedUpTo(items: seq<Node>, key: string, i: nat, tried: seq<ClusterWrite>)
    requires i <= |items|
  {
    forall j | 0 <= j < i :: RemoveLabel(items[j].name, key) in tried
  }

  lemma ListedCover(c: ClusterState, key: string, items: seq<Node>, tried: seq<ClusterWrite>)
    requires items == SelectNodes(c.nodes, Exists(key)) && TriedUpTo(items, key, |items|, tried)
    ensures Covers(c, key, tried)
  {
    forall w | RemovesPresent(c, key, w) ensures w in tried {
      var n :| n in c.nodes && key in n.labels && w == RemoveLabel(n.name, key);
      assert n in items;
    }
  }

  /** What the loop over the listed nodes has done so far. */
  ghost predicate LoopState(
    c: ClusterState, key: string, items: seq<Node>, i: nat, before: seq<Failure>,
    done: seq<ClusterWrite>, rejected: seq<ClusterWrite>, now: ClusterState, after: seq<Failure>)
  {
    && i <= |items| && now == ApplyAll(done, c) && after == before + Refusals(rejected)
    && AllPresent(c, key, done) && AllPresent(c, key, rejected)
    && TriedUpTo(items, key, i, done + rejected)
  }

  lemma LoopStarts(c: ClusterState, key: string, items: seq<Node>, before: seq<Failure>)
    ensures LoopState(c, key, items, 0, before, [], [], c, before)
  {
    NoRefusals();
  }

  /** One more removal has been tried, with or without effect, accepted or refused. */
  lemma TriedOneMore(
    c: ClusterState, key: string, items: seq<Node>, i: nat, before: seq<Failure>,
    done: seq<ClusterWrite>, rejected: seq<ClusterWrite>, now: ClusterState, after: seq<Failure>)
    requires items == SelectNodes(c.nodes, Exists(key)) && i < |items|
    requires LoopState(c, key, items, i, before, done, rejected, now, after)
    ensures var w := RemoveLabel(items[i].name, key);
      && LoopState(c, key, items, i + 1, before, done + [w], rejected, Apply(w, now), after)
      && LoopState(c, key, items, i + 1, before, done, rejected + [w], now, after + [Refused(w)])
      && LoopState(c, key, items, i + 1, before, done + [w], rejected + [w], Apply(w, now), after + [Refused(w)])
  {
    hide RemovesPresent, Refusals, Apply, Selects, ApplyAll, SelectNodes;
    var w: ClusterWrite := RemoveLabel(items[i].name, key);
    assert items[i] in items;
    ListedPresent(c, key, items[i]);
    OneRefusal(rejected, w);
    OneMore(done, [w], c, w, []);
    forall j | 0 <= j < i + 1
      ensures RemoveLabel(items[j].name, key) in done + [w] + rejected
      ensures RemoveLabel(items[j].name, key) in done + (rejected + [w])
    {
      if j < i { assert RemoveLabel(items[j].name, key) in done + rejected; }
    }
  }

  lemma LoopMeans(
    c: ClusterState, key: string, items: seq<Node>, i: nat, before: seq<Failure>,
    done: seq<ClusterWrite>, rejected: seq<ClusterWrite>, now: ClusterState, after: seq<Failure>)
    requires items == SelectNodes(c.nodes, Exists(key))
    requires LoopState(c, key, items, i, before, done, rejected, now, after)
    ensures now == ApplyAll(done, c) && after == before + Refusals(rejected)
    ensures AllPresent(c, key, done) && AllPresent(c, key, rejected)
    ensures i == |items| ==> Covers(c, key, done + rejected)
  {
    hide ApplyAll, Refusals, AllPresent;
    if i == |items| { ListedCover(c, key, items, done + rejected); }
  }

  /** Removals of other keys leave the removals due for this key unchanged. */
  lemma PresentLater(c: ClusterState, done: seq<ClusterWrite>, key: string)
    requires forall w | w in done :: w.RemoveLabel? && w.key != key
    ensures forall w :: RemovesPresent(ApplyAll(done, c), key, w) <==> RemovesPresent(c, key, w)
  {
    RemovalEffect(c, done);
    var d := ApplyAll(done, c);
    forall i | 0 <= i < |c.nodes|
      ensures d.nodes[i].name == c.nodes[i].name && LabelOf(d.nodes[i], key) == LabelOf(c.nodes[i], key)
    {
      assert LostAt(c, d, done, i) && RemoveLabel(c.nodes[i].name, key) !in done;
    }
    forall w | RemovesPresent(c, key, w) ensures RemovesPresent(d, key, w) {
      var n :| n in c.nodes && key in n.labels && w == RemoveLabel(n.name, key);
      var i :| 0 <= i < |c.nodes| && c.nodes[i] == n;
      assert d.nodes[i] in d.nodes && LabelOf(d.nodes[i], key) == LabelOf(n, key);
    }
    forall w | RemovesPresent(d, key, w) ensures RemovesPresent(c, key, w) {
      var n :| n in d.nodes && key in n.labels && w == RemoveLabel(n.name, key);
      var i :| 0 <= i < |d.nodes| && d.nodes[i] == n;
      assert c.nodes[i] in c.nodes && LabelOf(d.nodes[i], key) == LabelOf(c.nodes[i], key);
    }
  }

  lemma PresentIsCleanup(id: ObjectKey, c: ClusterState, key: string, ws: seq<ClusterWrite>)
    requires OwnKey(id, key) && AllPresent(c, key, ws)
    ensures PartOfCleanup(id, c, ws)
  {
    forall w | w in ws ensures w in Intended.DeleteLabels(id, c) {
      assert RemovesPresent(c, key, w);
      CleanupRemovesOwnLabels(id, c, w);
    }
  }

  /** The keys in the order in which they are cleaned up. */
  function CleanupKey(id: ObjectKey, i: nat): string {
    if i == 0 then KmmLabelName(id, OnloadKind) else if i == 1 then KmmLabelName(id, SfcKind) else OnloadLabelName(id)
  }

  /** How far the clean-up has got: the first `i` keys have been tried on every node that had them. */
  ghost predicate Tried(
    id: ObjectKey, c: ClusterState, i: nat, before: seq<Failure>,
    done: seq<ClusterWrite>, rejected: seq<ClusterWrite>, now: ClusterState, after: seq<Failure>)
  {
    && i <= 3 && now == ApplyAll(done, c) && after == before + Refusals(rejected)
    && PartOfCleanup(id, c, done) && PartOfCleanup(id, c, rejected)
    && (forall w | w in done :: w.RemoveLabel? && exists j: nat | j < i :: w.key == CleanupKey(id, j))
    && (forall j: nat | j < i :: Covers(c, CleanupKey(id, j), done + rejected))
  }

  lemma NoKeyTried(id: ObjectKey, c: ClusterState, before: seq<Failure>)
    ensures Tried(id, c, 0, before, [], [], c, before)
  {
    NoRefusals();
  }

  lemma CleanupKeysDiffer(id: ObjectKey, i: nat)
    requires i < 3
    ensures OwnKey(id, CleanupKey(id, i))
    ensures forall j: nat | j < i :: CleanupKey(id, j) != CleanupKey(id, i)
  {
    hide KmmLabelName, OnloadLabelName;
    OwnKeysDiffer(id);
  }

  lemma PartsOfCleanup(id: ObjectKey, c: ClusterState, a: seq<ClusterWrite>, b: seq<ClusterWrite>)
    requires PartOfCleanup(id, c, a) && PartOfCleanup(id, c, b)
    ensures PartOfCleanup(id, c, a + b)
  {
  }

  /** What is present, and covered, after removals of other keys was so before them. */
  lemma PresentBefore(
    c: ClusterState, done: seq<ClusterWrite>, key: string, more: seq<ClusterWrite>, refused: seq<ClusterWrite>)
    requires forall w | w in done :: w.RemoveLabel? && w.key != key
    requires var d := ApplyAll(done, c);
      AllPresent(d, key, more) && AllPresent(d, key, refused) && Covers(d, key, more + refused)
    ensures AllPresent(c, key, more) && AllPresent(c, key, refused) && Covers(c, key, more + refused)
    ensures forall w | w in more :: w.RemoveLabel? && w.key == key
  {
    hide ApplyAll;
    PresentLater(c, done, key);
    assert forall w | w in more :: RemovesPresent(c, key, w);
  }

  lemma StillCovers(
    c: ClusterState, key: string, done: seq<ClusterWrite>, more: seq<ClusterWrite>,
    rejected: seq<ClusterWrite>, refused: seq<ClusterWrite>)
    requires Covers(c, key, done + rejected) || Covers(c, key, more + refused)
    ensures Covers(c, key, (done + more) + (rejected + refused))
  {
    hide RemovesPresent;
    forall w | RemovesPresent(c, key, w) ensures w in (done + more) + (rejected + refused) {
      assert w in done + rejected || w in more + refused;
    }
  }

  lemma TriedNextKey(
    id: ObjectKey, c: ClusterState, i: nat, before: seq<Failure>,
    done: seq<ClusterWrite>, rejected: seq<ClusterWrite>, now: ClusterState, after: seq<Failure>,
    more: seq<ClusterWrite>, refused: seq<ClusterWrite>)
    requires i < 3 && Tried(id, c, i, before, done, rejected, now, after)
    requires AllPresent(now, CleanupKey(id, i), more) && AllPresent(now, CleanupKey(id, i), refused)
    requires Covers(now, CleanupKey(id, i), more + refused)
    ensures Tried(id, c, i + 1, before, done + more, rejected + refused, ApplyAll(more, now), after + Refusals(refused))
  {
    hide ApplyAll, Refusals, PartOfCleanup, Covers, AllPresent, CleanupKey;
    var key := CleanupKey(id, i);
    CleanupKeysDiffer(id, i);
    PresentBefore(c, done, key, more, refused);
    PresentIsCleanup(id, c, key, more);
    PresentIsCleanup(id, c, key, refused);
    PartsOfCleanup(id, c, done, more);
    PartsOfCleanup(id, c, rejected, refused);
    ApplyAllConcat(done, more, c);
    RefusalsConcat(rejected, refused);
    forall j: nat | j < i + 1 ensures Covers(c, CleanupKey(id, j), (done + more) + (rejected + refused)) {
      StillCovers(c, CleanupKey(id, j), done, more, rejected, refused);
    }
  }

  lemma TriedIsPart(
    id: ObjectKey, c: ClusterState, i: nat, before: seq<Failure>,
    done: seq<ClusterWrite>, rejected: seq<ClusterWrite>, now: ClusterState, after: seq<Failure>)
    requires Tried(id, c, i, before, done, rejected, now, after)
    ensures now == ApplyAll(done, c) && after == before + Refusals(rejected)
    ensures PartOfCleanup(id, c, done) && PartOfCleanup(id, c, rejected)
    ensures i == 3 ==> forall w | w in Intended.DeleteLabels(id, c) :: w in done || w in rejected
  {
    hide Intended.DeleteLabels, KmmLabelName, OnloadLabelName, ApplyAll, Refusals;
    if i == 3 {
      assert Covers(c, CleanupKey(id, 0), done + rejected) && Covers(c, CleanupKey(id, 1), done + rejected);
      assert Covers(c, CleanupKey(id, 2), done + rejected);
      forall w | w in Intended.DeleteLabels(id, c) ensures w in done || w in rejected {
        CleanupRemovesOwnLabels(id, c, w);
        var n, key :| n in c.nodes && OwnKey(id, key) && key in n.labels && w == RemoveLabel(n.name, key);
        assert RemovesPresent(c, key, w);
        assert w in done + rejected;
      }
    }
  }

  // ---- Building objects ----

  method OnloadKernelMapper(spec: OnloadKernelMapping) returns (m: KernelMapping)
    ensures m == OnloadMapping(spec)
  {
    var build: Option<Build> := None;
    if spec.build.Some? {
      var args := spec.build.value.buildArgs;
      var copied: seq<BuildArg> := [];
      for i := 0 to |args|
        invariant copied + CopyBuildArgs(args[i..]) == CopyBuildArgs(args)
      {
        assert args[i..][0] == args[i] && args[i..][1..] == args[i + 1..];
        copied := copied + [BuildArg(args[i].name, args[i].value)];
      }
      assert args[|args|..] == [] && copied + [] == copied;
      build := Some(Build(copied, spec.build.value.dockerfileConfigMap));
    }
    m := KernelMapping(spec.regexp, spec.kernelModuleImage, build);
  }

  method KernelMapper(kind: ModuleKind, spec: OnloadKernelMapping) returns (m: Option<KernelMapping>)
    ensures m == MapKernel(kind, spec)
  {
    if kind == SfcKind && spec.sfc.None? {
      return None;
    }
    var mapping := OnloadKernelMapper(spec);
    if kind == SfcKind {
      mapping := mapping.(build := None);
    }
    m := Some(mapping);
  }

  method BuildKernelMappings(kind: ModuleKind, specs: seq<OnloadKernelMapping>) returns (ms: seq<KernelMapping>)
    ensures ms == MapKernels(kind, specs)
  {
    ms := [];
    for i := 0 to |specs|
      invariant ms + MapKernels(kind, specs[i..]) == MapKernels(kind, specs)
    {
      assert specs[i..][0] == specs[i] && specs[i..][1..] == specs[i + 1..];
      var m := KernelMapper(kind, specs[i]);
      if m.Some? {
        ms := ms + [m.value];
      }
    }
  }

  method BuildModule(cr: Onload, kind: ModuleKind) returns (m: Module)
    ensures m == NewModule(cr, kind)
  {
    var mappings := BuildKernelMappings(kind, cr.spec.onload.kernelMappings);
    var modprobe := if kind == OnloadKind then "onload" else "sfc";
    var inTreeModuleToRemove := if kind == OnloadKind then "" else "sfc";
    m := Module(
      BaseLabels(cr.id, "module"),
      cr.spec.serviceAccountName,
      modprobe,
      ["--first-time"],
      inTreeModuleToRemove,
      mappings,
      cr.spec.onload.imagePullPolicy,
      cr.Version(),
      cr.spec.selector);
  }

  class OnloadReconciler {
    const api: ApiServer
    const devicePluginImage: string

    constructor (api: ApiServer, devicePluginImage: string)
      ensures this.api == api && this.devicePluginImage == devicePluginImage
    {
      this.api := api;
      this.devicePluginImage := devicePluginImage;
    }

    // ---- addKmmLabelsToNodes ----

    method AddKmmLabelToNode(cr: Onload, node: Node, kind: ModuleKind)
      returns (flow: Flow, labelled: Node, changed: bool, ghost done: seq<ClusterWrite>)
      modifies api
      ensures api.View() == ApplyAll(done, old(api.View()))
      ensures api.onloads == old(api.onloads) && api.pods == old(api.pods)
      ensures var step := Intended.AddKmmLabelToNode(cr, old(api.pods), node, kind);
        if flow == Fail(ApiFailure) then done <= step.writes
        else done == step.writes && flow == step.flow && labelled == step.node && changed == (done != [])
      ensures Reported(flow, true, old(api.failures), api.failures)
      ensures api.healthy ==> api.failures == old(api.failures)
    {
      flow, labelled, changed, done := Continue, node, false, [];
      var key := KmmLabelName(cr.id, kind);
      if key in node.labels {
        return;
      }
      if key != KmmLabelName(cr.id, OnloadKind)
        && Read(node.labels, KmmLabelName(cr.id, OnloadKind)) != cr.Version()
      {
        return;
      }
      var ok, lingering := api.ListPods(ModulePodLabels(cr.id, kind), node.name);
      if !ok {
        flow := Fail(ApiFailure);
        return;
      }
      if |lingering| > 0 {
        flow := Return(RequeueAfter(DEFAULT_REQUEUE_TIME));
        return;
      }
      labelled := node.(labels := node.labels[key := cr.Version()]);
      ok, done := api.Submit(SetLabel(node.name, key, cr.Version()));
      if !ok {
        flow := Fail(ApiFailure);
        return;
      }
      changed := true;
    }

    /** The body of the labelling loop: the Onload label, then the SFC label if it is used. */
    method AddKmmLabelsToNode(cr: Onload, node: Node)
      returns (flow: Flow, changed: bool, ghost done: seq<ClusterWrite>)
      modifies api
      ensures api.View() == ApplyAll(done, old(api.View()))
      ensures api.onloads == old(api.onloads) && api.pods == old(api.pods)
      ensures var step := Intended.AddKmmLabelsToNode(cr, old(api.pods), node);
        if flow == Fail(ApiFailure) then done <= step.writes
        else done == step.writes && flow == step.flow && (flow == Continue ==> changed == (done != []))
      ensures Reported(flow, true, old(api.failures), api.failures)
      ensures api.healthy ==> api.failures == old(api.failures)
    {
      hide Intended.AddKmmLabelToNode;
      var labelled;
      flow, labelled, changed, done := AddKmmLabelToNode(cr, node, OnloadKind);
      if flow != Continue || !UsesSFC(cr) {
        return;
      }
      var again;
      ghost var first := done;
      ghost var more;
      flow, labelled, again, more := AddKmmLabelToNode(cr, labelled, SfcKind);
      ApplyAllConcat(first, more, old(api.View()));
      done := first + more;
      changed := changed || again;
    }

    method AddMissingKmmLabels(cr: Onload) returns (flow: Flow, ghost done: seq<ClusterWrite>)
      modifies api
      ensures api.View() == ApplyAll(done, old(api.View())) && api.onloads == old(api.onloads)
      ensures Follows(Intended.AddMissingKmmLabels(cr, old(api.View())), done, flow)
      ensures Reported(flow, true, old(api.failures), api.failures)
      ensures api.healthy ==> api.failures == old(api.failures)
    {
      hide Intended.AddKmmLabelsTo, Intended.AddKmmLabelsToNode, Apply, SelectNodes, Selects;
      done := [];
      var ok, items := api.ListNodes(Includes(cr.spec.selector));
      if !ok {
        return Fail(ApiFailure), done;
      }
      ghost var view := api.View();
      ghost var plan := Intended.AddKmmLabelsTo(cr, view.pods, items);
      var changesMade := false;
      assert items[0..] == items;
      for i := 0 to |items|
        invariant api.View() == ApplyAll(done, view) && api.onloads == old(api.onloads)
        invariant api.failures == old(api.failures)
        invariant api.pods == view.pods
        invariant changesMade <==> done != []
        invariant plan == After(done, Intended.AddKmmLabelsTo(cr, view.pods, items[i..]))
      {
        KmmLoopStep(cr, view.pods, items, i);
        ghost var step := Intended.AddKmmLabelsToNode(cr, view.pods, items[i]);
        ghost var rest := Intended.AddKmmLabelsTo(cr, view.pods, items[i + 1..]);
        var changed;
        ghost var more;
        flow, changed, more := AddKmmLabelsToNode(cr, items[i]);
        ApplyAllConcat(done, more, view);
        PrefixAfter(done, more, step.writes, rest.writes);
        AfterAssociates(done, more, rest);
        done := done + more;
        if flow != Continue {
          return;
        }
        changesMade := changesMade || changed;
      }
      KmmLoopEnd(cr, view.pods, items);
      flow := if changesMade then Return(Requeue) else Continue;
    }

    method RemoveStaleLabels(cr: Onload, key: string) returns (flow: Flow, ghost done: seq<ClusterWrite>)
      modifies api
      ensures api.View() == ApplyAll(done, old(api.View())) && api.onloads == old(api.onloads)
      ensures Follows(Intended.RemoveStaleLabels(cr, old(api.View()), key), done, flow)
      ensures Reported(flow, true, old(api.failures), api.failures)
      ensures api.healthy ==> api.failures == old(api.failures)
    {
      hide Apply, SelectNodes, Selects, Selected, Intended.StaleRemovals;
      done := [];
      var ok, items := api.ListNodes(Exists(key));
      if !ok {
        return Fail(ApiFailure), done;
      }
      ghost var view := api.View();
      var changesMade := false;
      assert items[0..] == items;
      for i := 0 to |items|
        invariant api.View() == ApplyAll(done, view) && api.onloads == old(api.onloads)
        invariant api.failures == old(api.failures)
        invariant changesMade <==> done != []
        invariant Intended.StaleRemovals(cr, items, key) == done + Intended.StaleRemovals(cr, items[i..], key)
      {
        StaleStep(cr, items, key, i);
        if !Selected(cr, items[i]) {
          ghost var more;
          ok, more := api.Submit(RemoveLabel(items[i].name, key));
          OneMore(done, more, view, RemoveLabel(items[i].name, key), Intended.StaleRemovals(cr, items[i + 1..], key));
          done := done + more;
          if !ok {
            flow := Fail(ApiFailure);
            return;
          }
          changesMade := true;
        }
      }
      StaleEnd(cr, items, key);
      flow := if changesMade then Return(Requeue) else Continue;
    }

    method AddKmmLabelsToNodes(cr: Onload) returns (flow: Flow, ghost done: seq<ClusterWrite>)
      modifies api
      ensures api.View() == ApplyAll(done, old(api.View())) && api.onloads == old(api.onloads)
      ensures Follows(Intended.AddKmmLabelsToNodes(cr, old(api.View())), done, flow)
      ensures Reported(flow, true, old(api.failures), api.failures)
      ensures api.healthy ==> api.failures == old(api.failures)
    {
      hide Intended.AddMissingKmmLabels, Intended.RemoveStaleLabels;
      flow, done := AddMissingKmmLabels(cr);
      if flow != Continue {
        return;
      }
      flow, done := RemoveStaleLabels(cr, KmmLabelName(cr.id, OnloadKind));
      if flow != Continue {
        return;
      }
      flow, done := RemoveStaleLabels(cr, KmmLabelName(cr.id, SfcKind));
    }

    // ---- createAndAddModules ----

    method CreateAndAddModule(cr: Onload, kind: ModuleKind) returns (flow: Flow, ghost done: seq<ClusterWrite>)
      modifies api
      ensures api.View() == ApplyAll(done, old(api.View())) && api.onloads == old(api.onloads)
      ensures Follows(Intended.CreateAndAddModule(cr, old(api.View()), kind), done, flow)
      ensures Reported(flow, true, old(api.failures), api.failures)
      ensures api.healthy ==> api.failures == old(api.failures)
    {
      done := [];
      var key := ModuleKey(cr.id, kind);
      var ok, found := api.GetModule(key);
      if !ok {
        return Fail(ApiFailure), done;
      }
      if found.Some? {
        return Continue, done;
      }
      var m := BuildModule(cr, kind);
      flow, done := SubmitAndRequeue(CreateModule(key, m));
    }

    /** One write, then a requeue. */
    method SubmitAndRequeue(w: ClusterWrite) returns (flow: Flow, ghost done: seq<ClusterWrite>)
      modifies api
      ensures api.View() == ApplyAll(done, old(api.View())) && api.onloads == old(api.onloads)
      ensures Follows(Plan([w], Return(Requeue)), done, flow)
      ensures Reported(flow, true, old(api.failures), api.failures)
      ensures api.healthy ==> api.failures == old(api.failures)
    {
      var ok;
      ok, done := api.Submit(w);
      OneMore([], done, old(api.View()), w, []);
      flow := if ok then Return(Requeue) else Fail(ApiFailure);
    }

    method CreateAndAddModules(cr: Onload) returns (flow: Flow, ghost done: seq<ClusterWrite>)
      modifies api
      ensures api.View() == ApplyAll(done, old(api.View())) && api.onloads == old(api.onloads)
      ensures Follows(Intended.CreateAndAddModules(cr, old(api.View())), done, flow)
      ensures Reported(flow, true, old(api.failures), api.failures)
      ensures api.healthy ==> api.failures == old(api.failures)
    {
      hide Intended.CreateAndAddModule;
      flow, done := CreateAndAddModule(cr, OnloadKind);
      if flow != Continue {
        return;
      }
      if UsesSFC(cr) {
        flow, done := CreateAndAddModule(cr, SfcKind);
      }
    }

    // ---- addOnloadLabelsToNodes ----

    method AddMissingOnloadLabels(cr: Onload) returns (flow: Flow, ghost done: seq<ClusterWrite>)
      modifies api
      ensures api.View() == ApplyAll(done, old(api.View())) && api.onloads == old(api.onloads)
      ensures Follows(Intended.AddMissingOnloadLabels(cr, old(api.View())), done, flow)
      ensures Reported(flow, true, old(api.failures), api.failures)
      ensures api.healthy ==> api.failures == old(api.failures)
    {
      hide Apply, SelectNodes, Selects, Intended.OnloadAdditions, OnloadLabelName, KmmLabelName;
      done := [];
      var key := OnloadLabelName(cr.id);
      var ok, items := api.ListNodes(Includes(cr.spec.selector));
      if !ok {
        return Fail(ApiFailure), done;
      }
      ghost var view := api.View();
      var changesMade := false;
      assert items[0..] == items;
      for i := 0 to |items|
        invariant api.View() == ApplyAll(done, view) && api.onloads == old(api.onloads)
        invariant api.failures == old(api.failures)
        invariant changesMade <==> done != []
        invariant Intended.OnloadAdditions(cr, items) == done + Intended.OnloadAdditions(cr, items[i..])
      {
        OnloadAdditionsStep(cr, items, i);
        if Read(items[i].labels, KmmLabelName(cr.id, OnloadKind)) != cr.Version() {
          continue;
        }
        if key !in items[i].labels {
          ghost var more;
          ok, more := api.Submit(SetLabel(items[i].name, key, cr.Version()));
          OneMore(done, more, view, SetLabel(items[i].name, key, cr.Version()), Intended.OnloadAdditions(cr, items[i + 1..]));
          done := done + more;
          if !ok {
            flow := Fail(ApiFailure);
            return;
          }
          changesMade := true;
        }
      }
      OnloadAdditionsEnd(cr, items);
      flow := if changesMade then Return(Requeue) else Continue;
    }

    method AddOnloadLabelsToNodes(cr: Onload) returns (flow: Flow, ghost done: seq<ClusterWrite>)
      modifies api
      ensures api.View() == ApplyAll(done, old(api.View())) && api.onloads == old(api.onloads)
      ensures Follows(Intended.AddOnloadLabelsToNodes(cr, old(api.View())), done, flow)
      ensures Reported(flow, true, old(api.failures), api.failures)
      ensures api.healthy ==> api.failures == old(api.failures)
    {
      hide Intended.AddMissingOnloadLabels, Intended.RemoveStaleLabels;
      flow, done := AddMissingOnloadLabels(cr);
      if flow != Continue {
        return;
      }
      flow, done := RemoveStaleLabels(cr, OnloadLabelName(cr.id));
    }

    // ---- createDevicePluginDaemonSet ----

    method CreateDevicePluginDaemonSet(cr: Onload) returns (flow: Flow, ghost done: seq<ClusterWrite>)
      modifies api
      ensures api.View() == ApplyAll(done, old(api.View())) && api.onloads == old(api.onloads)
      ensures Follows(Intended.CreateDevicePluginDaemonSet(cr, devicePluginImage, old(api.View())), done, flow)
      ensures Reported(flow, true, old(api.failures), api.failures)
      ensures api.healthy ==> api.failures == old(api.failures)
    {
      done := [];
      var key := DevicePluginKey(cr.id);
      var ok, found := api.GetDaemonSet(key);
      if !ok {
        return Fail(ApiFailure), done;
      }
      if found.Some? {
        return Continue, done;
      }
      var labels := BaseLabels(cr.id, "device-plugin")[ONLOAD_VERSION_LABEL := cr.Version()];
      var podLabels := BaseLabels(cr.id, "device-plugin")[ONLOAD_NAME_LABEL := key.name];
      var template := Template(podLabels, cr.spec.serviceAccountName, cr.spec.selector, OnloadLabelName(cr.id),
        cr.spec.onload.imagePullPolicy, devicePluginImage, cr.spec.devicePlugin, cr.spec.onload.controlPlane);
      flow, done := SubmitAndRequeue(CreateDaemonSet(key, DaemonSet(labels, cr.spec.onload.userImage, template)));
    }

    // ---- handleUpdate ----

    method HandleDevicePluginUpdate(cr: Onload) returns (flow: Flow, ghost done: seq<ClusterWrite>)
      modifies api
      ensures api.View() == ApplyAll(done, old(api.View())) && api.onloads == old(api.onloads)
      ensures Follows(Intended.HandleDevicePluginUpdate(cr, old(api.View())), done, flow)
      ensures Reported(flow, true, old(api.failures), api.failures)
      ensures api.healthy ==> api.failures == old(api.failures)
    {
      done := [];
      var key := DevicePluginKey(cr.id);
      var ok, found := api.GetDaemonSet(key);
      if !ok {
        return Fail(ApiFailure), done;
      }
      if found.None? {
        return Fail(DaemonSetNotFound), done;
      }
      if Read(found.value.labels, ONLOAD_VERSION_LABEL) == cr.Version() {
        return Continue, done;
      }
      flow, done := SubmitAndRequeue(
        PatchDaemonSet(key, ONLOAD_VERSION_LABEL, cr.Version(), cr.spec.onload.userImage));
    }

    method PatchOrDeleteModule(cr: Onload, kind: ModuleKind) returns (flow: Flow, ghost done: seq<ClusterWrite>)
      modifies api
      ensures api.View() == ApplyAll(done, old(api.View())) && api.onloads == old(api.onloads)
      ensures Follows(Intended.PatchOrDeleteModule(cr, old(api.View()), kind), done, flow)
      ensures Reported(flow, true, old(api.failures), api.failures)
      ensures api.healthy ==> api.failures == old(api.failures)
    {
      done := [];
      var key := ModuleKey(cr.id, kind);
      var ok, found := api.GetModule(key);
      if !ok {
        return Fail(ApiFailure), done;
      }
      if found.None? {
        return if ModuleUsed(cr, kind) then Fail(ModuleShouldExist(key.name)) else Continue, done;
      }
      if !ModuleUsed(cr, kind) {
        flow, done := SubmitAndRequeue(DeleteModule(key));
        return;
      }
      if found.value.version == cr.Version() {
        return Continue, done;
      }
      var mappings := BuildKernelMappings(kind, cr.spec.onload.kernelMappings);
      flow, done := SubmitAndRequeue(PatchModule(key, cr.Version(), mappings));
    }

    method HandleModuleUpdate(cr: Onload) returns (flow: Flow, ghost done: seq<ClusterWrite>)
      modifies api
      ensures api.View() == ApplyAll(done, old(api.View())) && api.onloads == old(api.onloads)
      ensures Follows(Intended.HandleModuleUpdate(cr, old(api.View())), done, flow)
      ensures Reported(flow, true, old(api.failures), api.failures)
      ensures api.healthy ==> api.failures == old(api.failures)
    {
      hide Intended.PatchOrDeleteModule;
      flow, done := PatchOrDeleteModule(cr, OnloadKind);
      if flow != Continue {
        return;
      }
      flow, done := PatchOrDeleteModule(cr, SfcKind);
    }

    method GetNodesToUpgrade(cr: Onload) returns (ok: bool, nodes: seq<Node>)
      modifies api`failures
      ensures api.failures == if ok then old(api.failures)
        else old(api.failures) + [NodeListFailed(Exists(KmmLabelName(cr.id, OnloadKind)))]
      ensures ok ==> nodes == Intended.NodesToUpgrade(cr, api.View())
      ensures api.healthy ==> api.failures == old(api.failures)
    {
      hide SelectNodes, Selects;
      nodes := [];
      var items;
      ok, items := api.ListNodes(Exists(KmmLabelName(cr.id, OnloadKind)));
      if !ok {
        return;
      }
      for i := 0 to |items|
        invariant api.failures == old(api.failures)
        invariant nodes + Intended.Outdated(cr, items[i..]) == Intended.Outdated(cr, items)
      {
        OutdatedStep(cr, items, i, nodes);
        if Read(items[i].labels, KmmLabelName(cr.id, OnloadKind)) != cr.Version() {
          nodes := nodes + [items[i]];
        }
      }
      assert items[|items|..] == [] && nodes + [] == nodes;
    }

    /** The inner loop over the containers of a pod, left at the first request found. */
    method HasOnloadRequest(pod: Pod) returns (uses: bool)
      ensures uses <==> exists k ::
        (&& 0 <= k < |pod.containers| && "amd.com/onload" in pod.containers[k].requests
         && pod.containers[k].requests["amd.com/onload"] > 0)
      ensures uses == UsesOnload(pod)
    {
      uses := false;
      for j := 0 to |pod.containers|
        invariant !uses
        invariant forall k | 0 <= k < j :: !RequestsOnload(pod.containers[k])
      {
        if RequestsOnload(pod.containers[j]) {
          uses := true;
          break;
        }
      }
    }

    /** A failed List is logged and read as no pods. */
    method GetPodsUsingOnload(node: Node) returns (users: seq<Pod>, ghost listed: bool)
      modifies api`failures
      ensures api.failures == if listed then old(api.failures)
        else old(api.failures) + [PodListFailed(map[], node.name)]
      ensures users == Intended.PodsUsingOnload(api.View(), node.name, listed)
      ensures forall p | p in users :: p in api.pods && p.node == node.name && UsesOnload(p)
      ensures api.healthy ==> api.failures == old(api.failures)
    {
      hide PodsOn, Selects, UsesOnload;
      users := [];
      var ok, all := api.ListPods(map[], node.name);
      listed := ok;
      if !ok {
        return;
      }
      for i := 0 to |all|
        invariant api.failures == old(api.failures)
        invariant users + Intended.OnloadedAmong(all[i..]) == Intended.OnloadedAmong(all)
      {
        OnloadedStep(all, i, users);
        var uses := HasOnloadRequest(all[i]);
        if uses {
          users := users + [all[i]];
        }
      }
      assert all[|all|..] == [] && users + [] == users;
    }

    method EvictOnloadedPods(node: Node)
      returns (flow: Flow, ghost done: seq<ClusterWrite>, ghost listed: bool)
      modifies api
      ensures api.View() == ApplyAll(done, old(api.View())) && api.onloads == old(api.onloads)
      ensures Follows(Intended.EvictOnloadedPods(old(api.View()), node.name, listed), done, flow)
      ensures Reported(flow, listed, old(api.failures), api.failures)
      ensures api.healthy ==> api.failures == old(api.failures)
    {
      hide Apply, ApplyAll, Intended.PodsUsingOnload, Intended.Evictions, UsesOnload, Selects;
      NothingDone(api.View());
      done := [];
      var users;
      users, listed := GetPodsUsingOnload(node);
      ghost var listing := api.failures;
      if |users| == 0 {
        return Continue, done, listed;
      }
      ghost var view := api.View();
      assert users[0..] == users;
      for i := 0 to |users|
        invariant api.View() == ApplyAll(done, view) && api.onloads == old(api.onloads)
        invariant api.failures == listing
        invariant Intended.Evictions(users) == done + Intended.Evictions(users[i..])
      {
        EvictionsStep(users, i);
        if users[i].terminating {
          continue;
        }
        var ok;
        ghost var more;
        ok, more := api.Submit(EvictPod(users[i].uid));
        OneMore(done, more, view, EvictPod(users[i].uid), Intended.Evictions(users[i + 1..]));
        done := done + more;
        if !ok {
          flow := Fail(ApiFailure);
          return;
        }
      }
      EvictionsEnd(users);
      flow := Return(RequeueAfter(DEFAULT_REQUEUE_TIME));
    }

    method HandleNodeUpdate(cr: Onload, node: Node)
      returns (flow: Flow, ghost done: seq<ClusterWrite>, ghost listed: bool)
      modifies api
      ensures api.View() == ApplyAll(done, old(api.View())) && api.onloads == old(api.onloads)
      ensures Follows(Intended.HandleNodeUpdate(cr, old(api.View()), node, listed), done, flow)
      ensures Reported(flow, listed, old(api.failures), api.failures)
      ensures api.healthy ==> api.failures == old(api.failures)
    {
      hide Intended.EvictOnloadedPods;
      done, listed := [], true;
      var key := OnloadLabelName(cr.id);
      if key in node.labels && node.labels[key] != cr.Version() {
        flow, done := SubmitAndRequeue(RemoveLabel(node.name, key));
        return;
      }
      var ok, plugins := api.ListPods(DevicePluginPodLabels(cr.id), node.name);
      if !ok {
        flow := Fail(ApiFailure);
        return;
      }
      if |plugins| > 0 {
        flow := Return(RequeueAfter(DEFAULT_REQUEUE_TIME));
        return;
      }
      flow, done, listed := EvictOnloadedPods(node);
      if flow != Continue {
        return;
      }
      flow, done := RemoveKmmLabels(cr, node);
    }

    /** The SFC label goes first; the Onload label is the last to be removed. */
    method RemoveKmmLabels(cr: Onload, node: Node) returns (flow: Flow, ghost done: seq<ClusterWrite>)
      modifies api
      ensures api.View() == ApplyAll(done, old(api.View())) && api.onloads == old(api.onloads)
      ensures Follows(
        Plan([RemoveLabel(node.name, KmmLabelName(cr.id, SfcKind)),
              RemoveLabel(node.name, KmmLabelName(cr.id, OnloadKind))], Return(Requeue)), done, flow)
      ensures Reported(flow, true, old(api.failures), api.failures)
      ensures api.healthy ==> api.failures == old(api.failures)
    {
      hide Apply;
      ghost var view := api.View();
      var ok;
      var sfc: ClusterWrite := RemoveLabel(node.name, KmmLabelName(cr.id, SfcKind));
      var kmm: ClusterWrite := RemoveLabel(node.name, KmmLabelName(cr.id, OnloadKind));
      ok, done := api.Submit(sfc);
      OneMore([], done, view, sfc, [kmm]);
      if !ok {
        return Fail(ApiFailure), done;
      }
      ghost var more;
      ok, more := api.Submit(kmm);
      OneMore(done, more, view, kmm, []);
      done := done + more;
      flow := if ok then Return(Requeue) else Fail(ApiFailure);
    }

    method HandleUpdate(cr: Onload)
      returns (flow: Flow, ghost done: seq<ClusterWrite>, ghost listed: bool)
      modifies api
      ensures api.View() == ApplyAll(done, old(api.View())) && api.onloads == old(api.onloads)
      ensures Follows(Intended.HandleUpdate(cr, old(api.View()), listed), done, flow)
      ensures Reported(flow, listed, old(api.failures), api.failures)
      ensures api.healthy ==> api.failures == old(api.failures)
    {
      hide Intended.HandleDevicePluginUpdate, Intended.HandleModuleUpdate, Intended.HandleNodeUpdate, Intended.NodesToUpgrade;
      listed := true;
      flow, done := HandleDevicePluginUpdate(cr);
      if flow != Continue {
        return;
      }
      flow, done := HandleModuleUpdate(cr);
      if flow != Continue {
        return;
      }
      var ok, nodes := GetNodesToUpgrade(cr);
      if !ok {
        flow := Fail(ApiFailure);
        return;
      }
      if |nodes| == 0 {
        return;
      }
      flow, done, listed := HandleNodeUpdate(cr, First(nodes));
    }

    // ---- deleteLabels ----

    /** Failed patches are logged and skipped; `rejected` collects them. */
    method DeleteLabel(key: string)
      returns (ok: bool, ghost done: seq<ClusterWrite>, ghost rejected: seq<ClusterWrite>)
      modifies api
      ensures api.View() == ApplyAll(done, old(api.View())) && api.onloads == old(api.onloads)
      ensures api.failures == if ok then old(api.failures) + Refusals(rejected)
        else old(api.failures) + [NodeListFailed(Exists(key))]
      ensures !ok ==> done == [] && rejected == [] && api.View() == old(api.View())
      ensures AllPresent(old(api.View()), key, done) && AllPresent(old(api.View()), key, rejected)
      ensures ok ==> Covers(old(api.View()), key, done + rejected)
      ensures api.healthy ==> api.failures == old(api.failures)
    {
      hide Apply, ApplyAll, Selects, SelectNodes, AllPresent, Covers, LoopState, Refusals;
      done, rejected := [], [];
      ghost var view, before := api.View(), api.failures;
      LoopStarts(view, key, SelectNodes(view.nodes, Exists(key)), before);
      LoopMeans(view, key, SelectNodes(view.nodes, Exists(key)), 0, before, [], [], view, before);
      var items;
      ok, items := api.ListNodes(Exists(key));
      if !ok {
        return;
      }
      done, rejected := RemoveFromEach(key, items);
      LoopMeans(view, key, items, |items|, before, done, rejected, api.View(), api.failures);
    }

    /** The loop of DeleteLabel. */
    method RemoveFromEach(key: string, items: seq<Node>)
      returns (ghost done: seq<ClusterWrite>, ghost rejected: seq<ClusterWrite>)
      requires items == SelectNodes(api.nodes, Exists(key))
      modifies api
      ensures api.onloads == old(api.onloads)
      ensures LoopState(old(api.View()), key, items, |items|, old(api.failures), done, rejected,
        api.View(), api.failures)
      ensures api.healthy ==> api.failures == old(api.failures)
    {
      hide Apply, SelectNodes, LoopState;
      done, rejected := [], [];
      ghost var view, before := api.View(), api.failures;
      LoopStarts(view, key, items, before);
      for i := 0 to |items|
        invariant api.onloads == old(api.onloads)
        invariant LoopState(view, key, items, i, before, done, rejected, api.View(), api.failures)
        invariant api.healthy ==> api.failures == before
      {
        ghost var now, after := api.View(), api.failures;
        TriedOneMore(view, key, items, i, before, done, rejected, now, after);
        var patched;
        ghost var more;
        patched, more := api.Submit(RemoveLabel(items[i].name, key));
        if more != [] {
          done := done + [RemoveLabel(items[i].name, key)];
        }
        if !patched {
          rejected := rejected + [RemoveLabel(items[i].name, key)];
        }
      }
    }

    method DeleteLabels(id: ObjectKey)
      returns (flow: Flow, ghost done: seq<ClusterWrite>, ghost rejected: seq<ClusterWrite>)
      modifies api
      ensures api.View() == ApplyAll(done, old(api.View())) && api.onloads == old(api.onloads)
      ensures CleanupReported(flow, rejected, old(api.failures), api.failures)
      ensures PartOfCleanup(id, old(api.View()), done) && PartOfCleanup(id, old(api.View()), rejected)
      ensures flow == Return(Done) ==>
        forall w | w in Intended.DeleteLabels(id, old(api.View())) :: w in done || w in rejected
      ensures api.healthy ==> api.failures == old(api.failures)
    {
      hide Intended.DeleteLabels, Apply, ApplyAll, Refusals, AllPresent, Covers, Tried, PartOfCleanup,
        KmmLabelName, OnloadLabelName;
      ghost var view, before := api.View(), api.failures;
      ghost var more, refused;
      ghost var now, after := view, before;
      done, rejected := [], [];
      NoKeyTried(id, view, before);
      var ok;
      ok, more, refused := DeleteLabel(KmmLabelName(id, OnloadKind));
      if !ok {
        TriedIsPart(id, view, 0, before, done, rejected, now, after);
        return Fail(ApiFailure), done, rejected;
      }
      TriedNextKey(id, view, 0, before, done, rejected, now, after, more, refused);
      done, rejected, now, after := done + more, rejected + refused, api.View(), api.failures;
      ok, more, refused := DeleteLabel(KmmLabelName(id, SfcKind));
      if !ok {
        TriedIsPart(id, view, 1, before, done, rejected, now, after);
        return Fail(ApiFailure), done, rejected;
      }
      TriedNextKey(id, view, 1, before, done, rejected, now, after, more, refused);
      done, rejected, now, after := done + more, rejected + refused, api.View(), api.failures;
      ok, more, refused := DeleteLabel(OnloadLabelName(id));
      if !ok {
        TriedIsPart(id, view, 2, before, done, rejected, now, after);
        return Fail(ApiFailure), done, rejected;
      }
      TriedNextKey(id, view, 2, before, done, rejected, now, after, more, refused);
      done, rejected, now, after := done + more, rejected + refused, api.View(), api.failures;
      TriedIsPart(id, view, 3, before, done, rejected, now, after);
      flow := Return(Done);
    }

    // ---- Reconcile ----

    /** One call for the resource called `id`. */
    method Reconcile(id: ObjectKey)
      returns (flow: Flow, ghost done: seq<ClusterWrite>, ghost listed: bool, ghost rejected: seq<ClusterWrite>)
      requires api.Valid()
      modifies api
      ensures api.Valid()
      ensures api.View() == ApplyAll(done, old(api.View())) && api.onloads == old(api.onloads)
      ensures id in old(api.onloads) ==>
        var cr := old(api.onloads)[id];
        && cr.id == id
        && Follows(Intended.Reconcile(cr, devicePluginImage, old(api.View()), listed), done, flow)
        && ReconciledTo(cr, devicePluginImage, old(api.View()), api.View(), listed, |done|)
      ensures id in old(api.onloads) ==> rejected == [] && Reported(flow, listed, old(api.failures), api.failures)
      ensures id in old(api.onloads) && api.failures == old(api.failures) ==>
        listed && Plan(done, flow)
          == Intended.Reconcile(old(api.onloads)[id], devicePluginImage, old(api.View()), true)
      ensures id !in old(api.onloads) ==>
        && CleanupReported(flow, rejected, old(api.failures), api.failures)
        && PartOfCleanup(id, old(api.View()), done) && PartOfCleanup(id, old(api.View()), rejected)
        && (flow == Return(Done) ==>
            forall w | w in Intended.DeleteLabels(id, old(api.View())) :: w in done || w in rejected)
      ensures id !in old(api.onloads) && api.failures == old(api.failures) ==>
        flow == Return(Done) && rejected == [] && CleanedUp(id, old(api.View()), api.View())
      ensures api.healthy ==> api.failures == old(api.failures)
    {
      hide Intended.Phases, Intended.DeleteLabels, ReconciledTo, CleanedUp;
      ghost var view := api.View();
      done, listed, rejected := [], true, [];
      var ok, found := api.GetOnload(id);
      if !ok {
        flow := Fail(ApiFailure);
        if id in api.onloads { FollowsIsReconciled(api.onloads[id], devicePluginImage, view, listed, done, flow); }
        return;
      }
      if found.None? {
        flow, done, rejected := DeleteLabels(id);
        if flow == Return(Done) && rejected == [] { AllRemovedIsCleanedUp(id, view, done); }
        return;
      }
      var cr := found.value;
      if cr.deleting {
        flow := Return(Done);
        FollowsIsReconciled(cr, devicePluginImage, view, listed, done, flow);
        return;
      }
      if |cr.id.name| + |cr.id.namespace| + |ONLOAD_MODULE_NAME_SUFFIX| > NAME_LIMIT {
        flow := Fail(NameTooLong);
        FollowsIsReconciled(cr, devicePluginImage, view, listed, done, flow);
        return;
      }
      flow, done, listed := RunPhases(cr);
      FollowsIsReconciled(cr, devicePluginImage, view, listed, done, flow);
    }

    /** The phases of a live resource, in order, up to the first that does not fall through. */
    method RunPhases(cr: Onload) returns (flow: Flow, ghost done: seq<ClusterWrite>, ghost listed: bool)
      modifies api
      ensures api.View() == ApplyAll(done, old(api.View())) && api.onloads == old(api.onloads)
      ensures Follows(Intended.Phases(cr, devicePluginImage, old(api.View()), listed), done, flow)
      ensures Reported(flow, listed, old(api.failures), api.failures)
      ensures api.healthy ==> api.failures == old(api.failures)
    {
      hide Intended.AddKmmLabelsToNodes, Intended.CreateAndAddModules, Intended.AddOnloadLabelsToNodes,
        Intended.CreateDevicePluginDaemonSet, Intended.HandleUpdate;
      listed := true;
      flow, done := AddKmmLabelsToNodes(cr);
      if flow != Continue {
        return;
      }
      flow, done := CreateAndAddModules(cr);
      if flow != Continue {
        return;
      }
      flow, done := AddOnloadLabelsToNodes(cr);
      if flow != Continue {
        return;
      }
      flow, done := CreateDevicePluginDaemonSet(cr);
      if flow != Continue {
        return;
      }
      flow, done, listed := HandleUpdate(cr);
      if flow != Continue {
        return;
      }
      flow := Return(Done);
    }
  }
}

// Two custom resources do not interfere: their label keys, Modules and DaemonSets
// are disjoint, so no interleaving of their Reconciles lets one disturb the other.

module Isolation {
  import opened Kubernetes
  import opened OnloadTypes
  import opened Planning
  import opened Machine
  import opened Agreement
  import opened Deletion

  // ---- Names ----

  function Qualified(id: ObjectKey): string {
    id.namespace + "." + id.name
  }

  ghost predicate ShareKey(a: ObjectKey, b: ObjectKey) {
    exists key :: key in OwnKeys(a) && key in OwnKeys(b)
  }

  function OwnKeys(id: ObjectKey): set<string> {
    {KmmLabelName(id, OnloadKind), KmmLabelName(id, SfcKind), OnloadLabelName(id)}
  }

  lemma KmmLabelShape(id: ObjectKey, kind: ModuleKind)
    ensures var p := KMM_MODULE_LABEL_PREFIX + ".";
      var key := KmmLabelName(id, kind);
      key == p + Qualified(id) + ModuleSuffix(kind) && |key| == |p| + |Qualified(id)| + 7
      && key[|p|..|key| - 7] == Qualified(id) && key[|key| - 7..] == ModuleSuffix(kind)
  {
  }

  lemma OnloadLabelShape(id: ObjectKey)
    ensures OnloadLabelName(id) == ONLOAD_LABEL_PREFIX + Qualified(id)
    ensures OnloadLabelName(id)[|ONLOAD_LABEL_PREFIX|..] == Qualified(id)
  {
  }

  /** Two resources share a label key exactly when their dotted names coincide. */
  lemma ShareKeyIffSameQualified(a: ObjectKey, b: ObjectKey)
    ensures ShareKey(a, b) <==> Qualified(a) == Qualified(b)
  {
    KmmLabelShape(a, OnloadKind);
    KmmLabelShape(a, SfcKind);
    KmmLabelShape(b, OnloadKind);
    KmmLabelShape(b, SfcKind);
    OnloadLabelShape(a);
    OnloadLabelShape(b);
    if Qualified(a) == Qualified(b) {
      assert OnloadLabelName(a) in OwnKeys(a) && OnloadLabelName(a) in OwnKeys(b);
    }
    if ShareKey(a, b) {
      var key :| key in OwnKeys(a) && key in OwnKeys(b);
      assert forall id :: OnloadLabelName(id)[0] == 'o';
      assert forall id, kind :: KmmLabelName(id, kind)[0] == 'k';
      if key[0] == 'o' {
        assert key == OnloadLabelName(a) == OnloadLabelName(b);
      } else {
        var p := KMM_MODULE_LABEL_PREFIX + ".";
        assert Qualified(a) == key[|p|..|key| - 7] == Qualified(b);
      }
    }
  }

  /** A first component without a dot can be read back from a dotted pair. */
  lemma DottedPairInjective(n: string, r: string, m: string, s: string)
    requires '.' !in n && '.' !in m && n + "." + r == m + "." + s
    ensures n == m && r == s
  {
    var t := n + "." + r;
    assert t == m + "." + s;
    assert t[|n|] == '.' && t[|m|] == '.';
    assert forall k | 0 <= k < |n| :: t[k] == n[k] && n[k] in n;
    assert forall k | 0 <= k < |m| :: t[k] == m[k] && m[k] in m;
    assert n == t[..|n|] && m == t[..|m|];
    assert r == t[|n| + 1..] && s == t[|m| + 1..];
  }

  /** Distinct resources in namespaces without dots have disjoint label keys. */
  lemma LabelKeysDisjoint(a: ObjectKey, b: ObjectKey)
    requires a != b && '.' !in a.namespace && '.' !in b.namespace
    ensures !ShareKey(a, b)
    ensures OwnKeys(a) !! OwnKeys(b)
  {
    ShareKeyIffSameQualified(a, b);
    if Qualified(a) == Qualified(b) {
      DottedPairInjective(a.namespace, a.name, b.namespace, b.name);
    }
    forall key | key in OwnKeys(a) ensures key !in OwnKeys(b) {
      assert key in OwnKeys(b) ==> ShareKey(a, b);
    }
  }

  /** Dots in namespaces would make two resources fight over the same labels. */
  lemma DottedNamespacesClash()
    ensures ShareKey(ObjectKey("a.b", "c"), ObjectKey("a", "b.c"))
  {
    var a, b := ObjectKey("a.b", "c"), ObjectKey("a", "b.c");
    assert Qualified(a) == "a.b.c" == Qualified(b);
    ShareKeyIffSameQualified(a, b);
  }

  lemma SuffixInjective(n: string, s: string, m: string, t: string)
    requires |s| == |t| && n + s == m + t
    ensures n == m && s == t
  {
    assert |n| == |m|;
    assert n == (n + s)[..|n|] && m == (m + t)[..|m|];
    assert s == (n + s)[|n|..] && t == (m + t)[|m|..];
  }

  /** Module and DaemonSet names identify the resource and the module kind. */
  lemma ObjectKeysDisjoint(a: ObjectKey, b: ObjectKey, kind: ModuleKind, other: ModuleKind)
    ensures ModuleKey(a, kind) == ModuleKey(b, other) <==> a == b && kind == other
    ensures DevicePluginKey(a) == DevicePluginKey(b) <==> a == b
  {
    if ModuleKey(a, kind) == ModuleKey(b, other) {
      SuffixInjective(a.name, ModuleSuffix(kind), b.name, ModuleSuffix(other));
      assert ModuleSuffix(OnloadKind)[6] == 'e' && ModuleSuffix(SfcKind)[6] == 'd';
    }
    if DevicePluginKey(a) == DevicePluginKey(b) {
      SuffixInjective(a.name, DEVICE_PLUGIN_NAME_SUFFIX, b.name, DEVICE_PLUGIN_NAME_SUFFIX);
    }
  }

  // ---- Writes ----

  predicate SameLabel(n: Node, m: Node, key: string) {
    LabelOf(n, key) == LabelOf(m, key)
  }

  /** Everything that belongs to the resource is the same in both states. */
  predicate OwnStateKept(id: ObjectKey, c: ClusterState, d: ClusterState) {
    && |d.nodes| == |c.nodes|
    && (forall i, key | 0 <= i < |c.nodes| && key in OwnKeys(id) :: SameLabel(c.nodes[i], d.nodes[i], key))
    && SameObject(c.modules, d.modules, ModuleKey(id, OnloadKind))
    && SameObject(c.modules, d.modules, ModuleKey(id, SfcKind))
    && SameObject(c.daemonSets, d.daemonSets, DevicePluginKey(id))
  }

  lemma OwnStateKeptReflexive(id: ObjectKey, c: ClusterState)
    ensures OwnStateKept(id, c, c)
  {
  }

  lemma OwnStateKeptTransitive(id: ObjectKey, c: ClusterState, d: ClusterState, e: ClusterState)
    requires OwnStateKept(id, c, d) && OwnStateKept(id, d, e)
    ensures OwnStateKept(id, c, e)
  {
    forall i, key | 0 <= i < |c.nodes| && key in OwnKeys(id) ensures SameLabel(c.nodes[i], e.nodes[i], key) {
      assert SameLabel(c.nodes[i], d.nodes[i], key) && SameLabel(d.nodes[i], e.nodes[i], key);
    }
  }

  lemma WriteKeepsOtherState(a: ObjectKey, b: Onload, c: ClusterState, w: ClusterWrite, listed: bool)
    requires Guarded(b, c, w, listed) && a != b.id && !ShareKey(a, b.id)
    ensures OwnStateKept(a, c, Apply(w, c))
  {
    var d := Apply(w, c);
    if w.SetLabel? || w.RemoveLabel? {
      assert w.key in OwnKeys(b.id);
      forall i, key | 0 <= i < |c.nodes| && key in OwnKeys(a) ensures SameLabel(c.nodes[i], d.nodes[i], key) {
        assert key != w.key;
      }
    } else {
      assert d.nodes == c.nodes;
      forall kind, other ensures ModuleKey(a, kind) != ModuleKey(b.id, other) {
        ObjectKeysDisjoint(a, b.id, kind, other);
      }
      ObjectKeysDisjoint(a, b.id, OnloadKind, OnloadKind);
    }
  }

  lemma {:induction false} WritesKeepOtherState(
    a: ObjectKey, b: Onload, c: ClusterState, ws: seq<ClusterWrite>, listed: bool)
    requires GuardedRun(b, c, ws, listed) && a != b.id && !ShareKey(a, b.id)
    ensures OwnStateKept(a, c, ApplyAll(ws, c))
    decreases |ws|
  {
    if ws != [] {
      var d := Apply(ws[0], c);
      WriteKeepsOtherState(a, b, c, ws[0], listed);
      WritesKeepOtherState(a, b, d, ws[1..], listed);
      OwnStateKeptTransitive(a, c, d, ApplyAll(ws, c));
    }
  }

  // ---- Interleaved Reconciles of many resources ----

  /**
   * One Reconcile in an interleaving: of a resource that exists, with whether its pod List
   * succeeded and how far it got, or of one that is gone, with the removals that went through.
   */
  datatype Turn =
    | Live(cr: Onload, listed: bool, writes: nat)
    | Gone(id: ObjectKey, done: seq<ClusterWrite>)
  {
    function Id(): ObjectKey { if Live? then cr.id else id }
  }

  predicate TurnAt(image: string, turns: seq<Turn>, run: seq<ClusterState>, i: nat)
    requires i < |turns| && |run| == |turns| + 1
  {
    && '.' !in turns[i].Id().namespace
    && match turns[i]
       case Live(cr, listed, writes) => Sane(cr, run[i]) && ReconciledTo(cr, image, run[i], run[i + 1], listed, writes)
       case Gone(id, done) => PartOfCleanup(id, run[i], done) && run[i + 1] == ApplyAll(done, run[i])
  }

  predicate Interleaving(image: string, turns: seq<Turn>, run: seq<ClusterState>) {
    |run| == |turns| + 1 && forall i: nat | i < |turns| :: TurnAt(image, turns, run, i)
  }

  lemma ReconcileKeepsOtherState(
    a: ObjectKey, b: Onload, image: string, c: ClusterState, d: ClusterState, listed: bool, k: nat)
    requires Sane(b, c) && a != b.id && '.' !in a.namespace && '.' !in b.id.namespace
    requires ReconciledTo(b, image, c, d, listed, k)
    ensures OwnStateKept(a, c, d)
  {
    LabelKeysDisjoint(a, b.id);
    TruncatedIsGuarded(b, image, c, listed, k);
    WritesKeepOtherState(a, b, c, Reconcile(b, image, c, listed).writes[..k], listed);
  }

  lemma CleanupKeepsOtherState(a: ObjectKey, b: ObjectKey, c: ClusterState, done: seq<ClusterWrite>)
    requires a != b && '.' !in a.namespace && '.' !in b.namespace && PartOfCleanup(b, c, done)
    ensures OwnStateKept(a, c, ApplyAll(done, c))
  {
    LabelKeysDisjoint(a, b);
    PartOnlyRemoves(b, c, done);
    RemovalEffect(c, done);
    var d := ApplyAll(done, c);
    forall i, key | 0 <= i < |c.nodes| && key in OwnKeys(a) ensures SameLabel(c.nodes[i], d.nodes[i], key) {
      assert forall w | w in done :: w.RemoveLabel? && w.key in OwnKeys(b);
      assert LostAt(c, d, done, i) && RemoveLabel(c.nodes[i].name, key) !in done;
    }
  }

  lemma TurnKeepsOtherState(a: ObjectKey, image: string, turns: seq<Turn>, run: seq<ClusterState>, i: nat)
    requires i < |turns| && |run| == |turns| + 1 && TurnAt(image, turns, run, i)
    requires '.' !in a.namespace && turns[i].Id() != a
    ensures OwnStateKept(a, run[i], run[i + 1])
  {
    hide ReconciledTo, OwnStateKept, PartOfCleanup;
    match turns[i]
    case Live(cr, listed, writes) => ReconcileKeepsOtherState(a, cr, image, run[i], run[i + 1], listed, writes);
    case Gone(id, done) => CleanupKeepsOtherState(a, id, run[i], done);
  }

  /** While other resources take turns, everything that belongs to a resource stays as it is. */
  lemma {:induction false} ResourcesDoNotInterfere(
    a: ObjectKey, image: string, turns: seq<Turn>, run: seq<ClusterState>, i: nat, j: nat)
    requires Interleaving(image, turns, run) && i <= j <= |turns| && '.' !in a.namespace
    requires forall t: nat | i <= t < j :: turns[t].Id() != a
    ensures OwnStateKept(a, run[i], run[j])
    decreases j - i
  {
    hide TurnAt, OwnStateKept;
    if i == j {
      OwnStateKeptReflexive(a, run[i]);
    } else {
      ResourcesDoNotInterfere(a, image, turns, run, i, j - 1);
      assert TurnAt(image, turns, run, j - 1);
      TurnKeepsOtherState(a, image, turns, run, j - 1);
      OwnStateKeptTransitive(a, run[i], run[j - 1], run[j]);
    }
  }

  // ---- What belongs to nobody in the interleaving ----

  predicate LabelKept(c: ClusterState, d: ClusterState, key: string) {
    |d.nodes| == |c.nodes| && forall i | 0 <= i < |c.nodes| :: SameLabel(c.nodes[i], d.nodes[i], key)
  }

  /** The same pods; at most the termination of a user of Onload has begun. */
  predicate PodsKept(c: ClusterState, d: ClusterState) {
    && |d.pods| == |c.pods|
    && forall i | 0 <= i < |c.pods| :: PodKept(c.pods[i], d.pods[i])
  }

  predicate PodKept(p: Pod, q: Pod) {
    q == p || (UsesOnload(p) && q == p.(terminating := true))
  }

  lemma LabelKeptTransitive(c: ClusterState, d: ClusterState, e: ClusterState, key: string)
    requires LabelKept(c, d, key) && LabelKept(d, e, key)
    ensures LabelKept(c, e, key)
  {
    forall i | 0 <= i < |c.nodes| ensures SameLabel(c.nodes[i], e.nodes[i], key) {
      assert SameLabel(c.nodes[i], d.nodes[i], key) && SameLabel(d.nodes[i], e.nodes[i], key);
    }
  }

  lemma PodsKeptTransitive(c: ClusterState, d: ClusterState, e: ClusterState)
    requires PodsKept(c, d) && PodsKept(d, e)
    ensures PodsKept(c, e)
  {
    forall i | 0 <= i < |c.pods| ensures PodKept(c.pods[i], e.pods[i]) {
      assert PodKept(c.pods[i], d.pods[i]) && PodKept(d.pods[i], e.pods[i]);
    }
  }

  lemma WriteKeepsForeign(b: Onload, c: ClusterState, w: ClusterWrite, listed: bool, key: string)
    requires Sane(b, c) && Guarded(b, c, w, listed) && key !in OwnKeys(b.id)
    ensures LabelKept(c, Apply(w, c), key) && PodsKept(c, Apply(w, c))
  {
    hide NextInLine, PluginGone, UsesOnload, MayAdd, Selects, KmmLabelName, OnloadLabelName;
    if w.EvictPod? {
      var p :| p in c.pods && p.uid == w.uid && MayEvict(b, c, p);
      var k :| 0 <= k < |c.pods| && c.pods[k] == p;
      forall i | 0 <= i < |c.pods| ensures PodKept(c.pods[i], Apply(w, c).pods[i]) {
        assert c.pods[i].uid == w.uid ==> i == k;
      }
    }
  }

  lemma {:induction false} WritesKeepForeign(
    b: Onload, c: ClusterState, ws: seq<ClusterWrite>, listed: bool, key: string)
    requires Sane(b, c) && GuardedRun(b, c, ws, listed) && key !in OwnKeys(b.id)
    ensures LabelKept(c, ApplyAll(ws, c), key) && PodsKept(c, ApplyAll(ws, c))
    decreases |ws|
  {
    hide LabelKept, PodsKept, Guarded, Sane, OwnKeys;
    if ws == [] {
      NothingChanges(c, key);
    } else {
      var d := Apply(ws[0], c);
      WriteKeepsSane(b, c, ws[0], listed);
      WriteKeepsForeign(b, c, ws[0], listed, key);
      WritesKeepForeign(b, d, ws[1..], listed, key);
      LabelKeptTransitive(c, d, ApplyAll(ws, c), key);
      PodsKeptTransitive(c, d, ApplyAll(ws, c));
    }
  }

  lemma NothingChanges(c: ClusterState, key: string)
    ensures LabelKept(c, c, key) && PodsKept(c, c)
  {
  }

  lemma CleanupKeepsForeign(b: ObjectKey, c: ClusterState, done: seq<ClusterWrite>, key: string)
    requires PartOfCleanup(b, c, done) && key !in OwnKeys(b)
    ensures LabelKept(c, ApplyAll(done, c), key) && PodsKept(c, ApplyAll(done, c))
  {
    PartOnlyRemoves(b, c, done);
    RemovalEffect(c, done);
    var d := ApplyAll(done, c);
    forall i | 0 <= i < |c.nodes| ensures SameLabel(c.nodes[i], d.nodes[i], key) {
      assert forall w | w in done :: w.RemoveLabel? && w.key in OwnKeys(b);
      assert LostAt(c, d, done, i) && RemoveLabel(c.nodes[i].name, key) !in done;
    }
  }

  lemma TurnKeepsForeign(image: string, turns: seq<Turn>, run: seq<ClusterState>, i: nat, key: string)
    requires i < |turns| && |run| == |turns| + 1 && TurnAt(image, turns, run, i)
    requires key !in OwnKeys(turns[i].Id())
    ensures LabelKept(run[i], run[i + 1], key) && PodsKept(run[i], run[i + 1])
  {
    hide LabelKept, PodsKept, Sane, OwnKeys, PartOfCleanup;
    match turns[i]
    case Live(cr, listed, writes) =>
      TruncatedIsGuarded(cr, image, run[i], listed, writes);
      WritesKeepForeign(cr, run[i], Reconcile(cr, image, run[i], listed).writes[..writes], listed, key);
    case Gone(id, done) => CleanupKeepsForeign(id, run[i], done, key);
  }

  /**
   * Whoever takes turns, a label none of them owns stays as it is on every node, and a pod that does
   * not use Onload, a device plugin for instance, stays as it is; of the others some are told to terminate.
   */
  lemma {:induction false} ForeignStateSurvives(
    image: string, turns: seq<Turn>, run: seq<ClusterState>, i: nat, j: nat, key: string)
    requires Interleaving(image, turns, run) && i <= j <= |turns|
    requires forall t: nat | i <= t < j :: key !in OwnKeys(turns[t].Id())
    ensures LabelKept(run[i], run[j], key) && PodsKept(run[i], run[j])
    decreases j - i
  {
    hide TurnAt, LabelKept, PodsKept, OwnKeys;
    if i == j {
      NothingChanges(run[i], key);
    } else {
      ForeignStateSurvives(image, turns, run, i, j - 1, key);
      assert TurnAt(image, turns, run, j - 1);
      TurnKeepsForeign(image, turns, run, j - 1, key);
      LabelKeptTransitive(run[i], run[j - 1], run[j], key);
      PodsKeptTransitive(run[i], run[j - 1], run[j]);
    }
  }
}

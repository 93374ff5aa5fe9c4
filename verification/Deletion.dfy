// Clean-up after the resource is gone.  Failed patches are logged and skipped, so
// what is left behind is exactly what failed.

module Deletion {
  import opened Wrappers
  import opened Kubernetes
  import opened OnloadTypes
  import opened Planning

  lemma {:induction false} RemovalsOf(nodes: seq<Node>, key: string, w: ClusterWrite)
    ensures w in LabelRemovals(nodes, key) <==>
      exists n :: n in nodes && key in n.labels && w == RemoveLabel(n.name, key)
  {
    if nodes != [] {
      RemovalsOf(nodes[1..], key, w);
      assert forall n :: n in nodes <==> n == nodes[0] || n in nodes[1..];
    }
  }

  /** The clean-up asks for exactly the removals of own labels that are present. */
  lemma CleanupRemovesOwnLabels(id: ObjectKey, c: ClusterState, w: ClusterWrite)
    ensures w in DeleteLabels(id, c) <==>
      exists n, key :: n in c.nodes && OwnKey(id, key) && key in n.labels && w == RemoveLabel(n.name, key)
  {
    forall key | OwnKey(id, key) && w in LabelRemovals(c.nodes, key)
      ensures exists n :: n in c.nodes && key in n.labels && w == RemoveLabel(n.name, key)
    {
      RemovalsOf(c.nodes, key, w);
    }
    forall n, key | n in c.nodes && OwnKey(id, key) && key in n.labels && w == RemoveLabel(n.name, key)
      ensures w in LabelRemovals(c.nodes, key)
    {
      RemovalsOf(c.nodes, key, w);
    }
    assert w in DeleteLabels(id, c) <==> exists key :: OwnKey(id, key) && w in LabelRemovals(c.nodes, key) by {
      assert OwnKey(id, KmmLabelName(id, OnloadKind)) && OwnKey(id, KmmLabelName(id, SfcKind));
      assert OwnKey(id, OnloadLabelName(id));
    }
  }

  /** Node number `i` of `d` has lost exactly the labels whose removal is in `done`. */
  ghost predicate LostAt(c: ClusterState, d: ClusterState, done: seq<ClusterWrite>, i: nat)
    requires i < |c.nodes| && i < |d.nodes|
  {
    && d.nodes[i].name == c.nodes[i].name
    && forall key :: LabelOf(d.nodes[i], key)
         == if RemoveLabel(c.nodes[i].name, key) in done then None else LabelOf(c.nodes[i], key)
  }

  ghost predicate Lost(c: ClusterState, d: ClusterState, done: seq<ClusterWrite>) {
    && d.modules == c.modules && d.daemonSets == c.daemonSets && d.pods == c.pods
    && |d.nodes| == |c.nodes| && forall i | 0 <= i < |c.nodes| :: LostAt(c, d, done, i)
  }

  lemma OneRemoval(c: ClusterState, w: ClusterWrite)
    requires w.RemoveLabel?
    ensures Lost(c, Apply(w, c), [w])
  {
  }

  lemma LostConcat(
    c: ClusterState, d: ClusterState, e: ClusterState, first: seq<ClusterWrite>, rest: seq<ClusterWrite>)
    requires Lost(c, d, first) && Lost(d, e, rest)
    ensures Lost(c, e, first + rest)
  {
    forall i | 0 <= i < |c.nodes| ensures LostAt(c, e, first + rest, i) {
      assert LostAt(c, d, first, i) && LostAt(d, e, rest, i);
    }
  }

  /** The removals that went through decide label by label what is left. */
  lemma {:induction false} RemovalEffect(c: ClusterState, done: seq<ClusterWrite>)
    requires forall w | w in done :: w.RemoveLabel?
    ensures Lost(c, ApplyAll(done, c), done)
    decreases |done|
  {
    hide Lost, Apply;
    if done == [] {
      NothingLost(c);
    } else {
      var d := Apply(done[0], c);
      OneRemoval(c, done[0]);
      RemovalEffect(d, done[1..]);
      LostConcat(c, d, ApplyAll(done, c), [done[0]], done[1..]);
      assert done == [done[0]] + done[1..];
    }
  }

  lemma NothingLost(c: ClusterState)
    ensures Lost(c, c, [])
  {
  }

  ghost predicate Clean(id: ObjectKey, c: ClusterState) {
    forall n, key | n in c.nodes && OwnKey(id, key) :: key !in n.labels
  }

  /** The node has lost every own label and no other. */
  ghost predicate Cleaned(id: ObjectKey, n: Node, m: Node) {
    m.name == n.name && forall key :: LabelOf(m, key) == if OwnKey(id, key) then None else LabelOf(n, key)
  }

  /** Every own label is gone, and nothing else has changed. */
  ghost predicate CleanedUp(id: ObjectKey, c: ClusterState, d: ClusterState) {
    && d.modules == c.modules && d.daemonSets == c.daemonSets && d.pods == c.pods && |d.nodes| == |c.nodes|
    && forall i | 0 <= i < |c.nodes| :: Cleaned(id, c.nodes[i], d.nodes[i])
  }

  /** The part of the clean-up that went through, when some patches failed. */
  predicate PartOfCleanup(id: ObjectKey, c: ClusterState, done: seq<ClusterWrite>) {
    forall w | w in done :: w in DeleteLabels(id, c)
  }

  lemma PartOnlyRemoves(id: ObjectKey, c: ClusterState, done: seq<ClusterWrite>)
    requires PartOfCleanup(id, c, done)
    ensures forall w | w in done :: w.RemoveLabel? && OwnKey(id, w.key)
  {
    forall w | w in done ensures w.RemoveLabel? && OwnKey(id, w.key) {
      CleanupRemovesOwnLabels(id, c, w);
    }
  }

  /** No label is left behind exactly when every removal went through. */
  lemma CleanIffAllRemoved(id: ObjectKey, c: ClusterState, done: seq<ClusterWrite>)
    requires PartOfCleanup(id, c, done)
    ensures Clean(id, ApplyAll(done, c)) <==> forall w | w in DeleteLabels(id, c) :: w in done
  {
    var d := ApplyAll(done, c);
    PartOnlyRemoves(id, c, done);
    RemovalEffect(c, done);
    if forall w | w in DeleteLabels(id, c) :: w in done {
      forall n, key | n in d.nodes && OwnKey(id, key) ensures key !in n.labels {
        var i :| 0 <= i < |d.nodes| && d.nodes[i] == n;
        assert LostAt(c, d, done, i);
        assert LabelOf(n, key) == if RemoveLabel(c.nodes[i].name, key) in done then None else LabelOf(c.nodes[i], key);
        if key in c.nodes[i].labels {
          assert c.nodes[i] in c.nodes;
          CleanupRemovesOwnLabels(id, c, RemoveLabel(c.nodes[i].name, key));
        }
      }
    } else {
      var w :| w in DeleteLabels(id, c) && w !in done;
      CleanupRemovesOwnLabels(id, c, w);
      var n, key :| n in c.nodes && OwnKey(id, key) && key in n.labels && w == RemoveLabel(n.name, key);
      var i :| 0 <= i < |c.nodes| && c.nodes[i] == n;
      assert LostAt(c, d, done, i);
      assert LabelOf(d.nodes[i], key) == LabelOf(n, key);
      assert d.nodes[i] in d.nodes && key in d.nodes[i].labels;
    }
  }

  /** Once every removal has gone through, all own labels are gone and nothing else has changed. */
  lemma AllRemovedIsCleanedUp(id: ObjectKey, c: ClusterState, done: seq<ClusterWrite>)
    requires PartOfCleanup(id, c, done) && forall w | w in DeleteLabels(id, c) :: w in done
    ensures CleanedUp(id, c, ApplyAll(done, c))
  {
    var d := ApplyAll(done, c);
    PartOnlyRemoves(id, c, done);
    RemovalEffect(c, done);
    CleanIffAllRemoved(id, c, done);
    forall i | 0 <= i < |c.nodes| ensures Cleaned(id, c.nodes[i], d.nodes[i]) {
      assert LostAt(c, d, done, i);
      assert d.nodes[i] in d.nodes && c.nodes[i] in c.nodes;
    }
  }

  /** When all patches succeed the clean-up is complete, touches nothing else, and has nothing left to do. */
  lemma DeletionCleansUp(id: ObjectKey, c: ClusterState)
    ensures var d := ApplyAll(DeleteLabels(id, c), c);
      CleanedUp(id, c, d) && Clean(id, d) && DeleteLabels(id, d) == []
  {
    var done := DeleteLabels(id, c);
    var d := ApplyAll(done, c);
    AllRemovedIsCleanedUp(id, c, done);
    CleanIffAllRemoved(id, c, done);
    if DeleteLabels(id, d) != [] {
      var w := DeleteLabels(id, d)[0];
      assert w in DeleteLabels(id, d);
      CleanupRemovesOwnLabels(id, d, w);
      assert false;
    }
  }
}

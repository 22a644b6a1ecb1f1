// What convergence says of node pools, and what it does not: the goal is about the cluster alone, and the pools of a
// converged cluster are all there exactly if the Create that made it requested them all.
module PoolConvergence {
  import opened Registry
  import opened World
  import opened ClusterSpec
  import opened CreateProperties
  import opened ClusterRuns
  import opened PoolRuns
  import opened Calm
  import opened Convergence

  // The i-th reconcile of a resource that is kept made the cluster of this id.
  predicate MadeAt(me: Self, s: State, i: nat, id: Id) {
    Accepted(me, After(me, s, i)) && CreatedId(me, After(me, s, i)) == id
  }

  // A cluster of the name that was not there at first was made by some reconcile.
  lemma {:induction false} WasMade(me: Self, s: State, k: nat, id: Id)
    requires Sound(s.w) && !ListedAs(s.w.clusters.entries, me.name, id)
    requires ListedAs(After(me, s, k).w.clusters.entries, me.name, id)
    ensures exists i: nat :: i < k && MadeAt(me, s, i, id)
    decreases k
  {
    hide Accepted, CreatedId, Reconcile;
    if k > 0 {
      AfterOneMore(me, s, k - 1);
      var u := After(me, s, k - 1);
      RunRefines(me, s, Keeping(k - 1));
      NewEntry(me, u, id);
      if ListedAs(u.w.clusters.entries, me.name, id) {
        WasMade(me, s, k - 1, id);
      } else {
        assert MadeAt(me, s, k - 1, id);
      }
    }
  }

  // All of the written pools have been requested for the cluster.
  predicate HasPools(me: Self, written: seq<NodePool>, s: State, id: Id) { AllWritten(PoolsOf(s.w.log, id)) == written }

  lemma PoolsAfter(me: Self, s: State, i: nat, k: nat)
    requires Sound(s.w) && PoolsOnce(AllWritten(s.pools), s) && i < k && Accepted(me, After(me, s, i))
    ensures HasPools(me, AllWritten(s.pools), After(me, s, k), CreatedId(me, After(me, s, i)))
            <==> s.pools == [] || Complete(me, After(me, s, i))
  {
    hide Accepted, CreatedId, Complete;
    var after := Keeping(k - 1 - i);
    assert Keeping(i) + [false] + after == Keeping(k);
    RunPoolsExactly(me, AllWritten(s.pools), s, Keeping(i), after);
    assert AllWritten(s.pools) == [] <==> s.pools == [];
  }

  // When the converged cluster has all its pools: exactly if in the reconcile that made it every reference was found,
  // the creation was answered, and so was every post of a pool but the last.
  lemma GoalPoolsExactly(me: Self, s: State, k: nat)
    requires Sound(s.w) && PoolsOnce(AllWritten(s.pools), s) && !Listed(s.w.clusters.entries, me.name)
    requires Goal(me, After(me, s, k))
    ensures var t := After(me, s, k);
      exists i: nat :: i < k && MadeAt(me, s, i, t.st.id) &&
        (HasPools(me, AllWritten(s.pools), t, t.st.id) <==> s.pools == [] || Complete(me, After(me, s, i)))
  {
    hide Accepted, CreatedId, Complete, HasPools, PoolsOnce;
    var t := After(me, s, k);
    WasMade(me, s, k, t.st.id);
    var i: nat :| i < k && MadeAt(me, s, i, t.st.id);
    PoolsAfter(me, s, i, k);
  }

  // Without a fault to come, it has.
  lemma FaultlessHasPools(me: Self, s: State, k: nat)
    requires Ready(me, s.pools, s) && PoolsOnce(AllWritten(s.pools), s) && !Listed(s.w.clusters.entries, me.name)
    requires Goal(me, After(me, s, k)) && Faults(s.w, s.pools) == 0
    ensures HasPools(me, AllWritten(s.pools), After(me, s, k), After(me, s, k).st.id)
  {
    hide Accepted, CreatedId, Complete, HasPools, PoolsOnce;
    GoalPoolsExactly(me, s, k);
    var t := After(me, s, k);
    var i: nat :| i < k && MadeAt(me, s, i, t.st.id) &&
      (HasPools(me, AllWritten(s.pools), t, t.st.id) <==> s.pools == [] || Complete(me, After(me, s, i)));
    StaysReady(me, s.pools, s, i);
    FaultlessComplete(me, s.pools, After(me, s, i));
  }

  lemma FaultlessComplete(me: Self, spec: seq<NodePool>, s: State)
    requires Ready(me, spec, s) && Faults(s.w, spec) == 0
    ensures Complete(me, s)
  {
    var v := Observe(me, s.w, s.st).0;
    ObserveSpends(me, s.w, s.st, spec);
    CreateSpends(me, v, s.pools, spec);
    SuccessPostsAll(me, v, s.pools);
  }

  lemma SuccessPostsAll(me: Self, w: World, ps: seq<NodePool>)
    requires Create(me, w, ps).2.Ok?
    ensures PostsAll(me, w, ps)
  {
    var (v, qs, e) := Resolve(me, w, ps, 0);
    var (u, c) := NewCluster(me, v);
    ResolvesExactly(me, w, ps);
    ResolveOutcome(me, w, ps, 0);
    if qs != [] {
      PostedExactly(me, u, c.value, qs, |qs| - 1);
    }
  }

  // A cluster without its pools

  // Nothing is there yet; the listing is answered, and the creation is accepted but its answer is lost.
  function LostAnswer(pool: NodePool): State {
    var r := Registry([], map[], NO_ID + 1);
    var script := [Beat(r, [], map[], false, Fine), Beat(r, [], map[], false, Lost)];
    State(World(r, [], map[], 0, [], script), Status(NO_ID, Unset), [pool])
  }

  lemma FirstReconcile(me: Self, pool: NodePool)
    requires me.rkeName == me.name && pool.templateRef == ""
    ensures var s, t := LostAnswer(pool), Reconcile(me, LostAnswer(pool), false);
      && t.w.clusters == Posted(s.w.clusters, me.name) && t.w.script == [] && t.w.log == [PostCluster(me.name)]
      && t.w.secrets == map[] && t.w.templates == [] && t.pools == s.pools
  {
    var s := LostAnswer(pool);
    var (v, st, found) := Observe(me, s.w, s.st);
    RelySame(me.name, s.w.clusters);
    assert Turn(me, s.w).script == s.w.script[1..] == [s.w.script[1]];
    assert found == Ok(false) && v.script == [s.w.script[1]];
    assert v.clusters == s.w.clusters && v.secrets == map[];
    var (u, qs, e) := Resolve(me, v, s.pools, 0);
    assert Resolve(me, v, s.pools, 1) == (v, s.pools, Ok(()));
    assert (u, qs, e) == (v, s.pools, Ok(()));
    assert Turn(me, u).script == [];
  }

  // In the calm a cluster that is listed gets there, without a post.
  lemma CalmArrives(me: Self, u: State)
    requires Sound(u.w) && u.w.script == [] && me.namespace != "" && Listed(u.w.clusters.entries, me.name)
    ensures var t := Reconcile(me, u, false);
      && Goal(me, t) && t.w.script == [] && u.w.log <= t.w.log
      && forall i :: |u.w.log| <= i < |t.w.log| ==> !t.w.log[i].PostPool?
  {
    hide Rely, Consistent;
    CalmObserveListed(me, u.w, u.st);
    ObserveDrifts(me, u.w, u.st);
    DriftTrans(me, u.w, Turn(me, u.w), Observe(me, u.w, u.st).0);
    var t, es := Reconcile(me, u, false), u.w.clusters.entries;
    var i :| 0 <= i < |es| && es[i].name == me.name && es[i].id == t.st.id;
    assert t.w.clusters.entries[i].name == me.name && t.w.clusters.entries[i].id == t.st.id;
  }

  lemma SecondReconcile(me: Self, pool: NodePool)
    requires me.rkeName == me.name && me.namespace != "" && pool.templateRef == ""
    ensures var s, t := LostAnswer(pool), After(me, LostAnswer(pool), 2);
      && Ready(me, s.pools, t) && Goal(me, t) && t.w.script == []
      && forall i :: 0 <= i < |t.w.log| ==> !t.w.log[i].PostPool?
  {
    hide Goal, Reconcile;
    var s := LostAnswer(pool);
    var u := Reconcile(me, s, false);
    FirstReconcile(me, pool);
    assert After(me, s, 0) == s;
    AfterOneMore(me, s, 0);
    AfterOneMore(me, s, 1);
    StaysReady(me, s.pools, s, 1);
    ReadyStays(me, s.pools, u);
    assert u.w.clusters.entries[0].name == me.name;
    CalmArrives(me, u);
  }

  // In the calm the goal is final.
  lemma {:induction false} GoalIsFinal(me: Self, spec: seq<NodePool>, s: State, n: nat)
    requires Ready(me, spec, s) && Goal(me, s) && s.w.script == []
    ensures var t := After(me, s, n); Ready(me, spec, t) && Goal(me, t) && t.w.script == [] && t.w.log == s.w.log
  {
    hide Ready, Goal, Reconcile, Vanishes, Delayed;
    if n > 0 {
      GoalIsFinal(me, spec, s, n - 1);
      AfterOneMore(me, s, n - 1);
      var u := After(me, s, n - 1);
      CalmGoesWell(me, spec, u);
      ReadyStays(me, spec, u);
      GoalStays(me, spec, u);
    }
  }

  // The goal is reached, and no node pool is ever requested: the cluster stays without any although one is written.
  lemma Stranded(me: Self, pool: NodePool, n: nat)
    requires me.rkeName == me.name && me.namespace != "" && pool.templateRef == ""
    ensures var s := LostAnswer(pool);
      && Ready(me, s.pools, s) && s.w.log == [] && Goal(me, After(me, s, 2))
      && var t := After(me, s, 2 + n);
         Goal(me, t) && forall i :: 0 <= i < |t.w.log| ==> !t.w.log[i].PostPool?
  {
    var s := LostAnswer(pool);
    SecondReconcile(me, pool);
    GoalIsFinal(me, s.pools, After(me, s, 2), n);
    assert Keeping(2 + n) == Keeping(2) + Keeping(n);
    RunSplit(me, s, Keeping(2), Keeping(n));
  }
}

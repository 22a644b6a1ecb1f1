// Node pools over whole runs: whatever is posted under a cluster id was posted by the one Create that obtained the
// id, so it is a prefix of the resource's list and never doubled.
module PoolRuns {
  import opened Registry
  import opened World
  import opened ClusterSpec
  import opened CreateProperties
  import opened ClusterRuns

  // The pools posted under a cluster id, in order.
  function PoolsOf(log: seq<Request>, id: Id): seq<NodePool> {
    if log == [] then []
    else
      var r := log[|log| - 1];
      PoolsOf(log[..|log| - 1], id) + if r.PostPool? && r.pool.clusterId == id then [r.pool] else []
  }

  // A pool as the resource's author wrote it: the template id only where there is no reference to resolve.
  function Written(p: NodePool): NodePool {
    p.(clusterId := NO_ID, templateId := if p.templateRef == "" then p.templateId else NO_ID)
  }

  function AllWritten(ps: seq<NodePool>): seq<NodePool> {
    seq(|ps|, i requires 0 <= i < |ps| => Written(ps[i]))
  }

  lemma {:induction false} PoolsOfOthers(log: seq<Request>, more: seq<Request>, id: Id)
    requires forall i :: 0 <= i < |more| ==> !(more[i].PostPool? && more[i].pool.clusterId == id)
    ensures PoolsOf(log + more, id) == PoolsOf(log, id)
    decreases |more|
  {
    if more == [] {
      assert log + more == log;
    } else {
      var n := |more| - 1;
      assert (log + more)[..|log + more| - 1] == log + more[..n];
      PoolsOfOthers(log, more[..n], id);
    }
  }

  lemma {:induction false} PoolsOfPosts(log: seq<Request>, id: Id, ps: seq<NodePool>)
    ensures AllWritten(PoolsOf(log + Posts(id, ps), id)) == AllWritten(PoolsOf(log, id)) + AllWritten(ps)
    decreases |ps|
  {
    var all := log + Posts(id, ps);
    if ps == [] {
      assert all == log;
    } else {
      var n := |ps| - 1;
      assert all[..|all| - 1] == log + Posts(id, ps[..n]);
      assert all[|all| - 1] == PostPool(ps[n].(clusterId := id));
      PoolsOfPosts(log, id, ps[..n]);
      var before := PoolsOf(log + Posts(id, ps[..n]), id);
      assert PoolsOf(all, id) == before + [ps[n].(clusterId := id)];
      assert AllWritten(PoolsOf(all, id)) == AllWritten(before) + [Written(ps[n])];
      assert AllWritten(ps) == AllWritten(ps[..n]) + [Written(ps[n])];
    }
  }

  // Resolving references leaves the list as it was written.
  lemma ResolveWritten(me: Self, w: World, ps: seq<NodePool>)
    ensures AllWritten(Resolve(me, w, ps, 0).1) == AllWritten(ps)
  {
    ResolveOutcome(me, w, ps, 0);
    var k: nat :| ResolvesTo(me, w, ps, 0, k);
    var qs := Resolve(me, w, ps, 0).1;
    forall j | 0 <= j < |ps| ensures Written(qs[j]) == Written(ps[j]) {
      assert j < k ==> ResolvedAt(me, w, Refs(ps), 0, j, ps[j], qs[j]);
    }
  }

  ghost predicate Issued(log: seq<Request>, next: Id) {
    forall id: Id :: next <= id ==> PoolsOf(log, id) == []
  }

  // Under every id the pools posted are a prefix of the written list, and no pool has an id yet to be issued.
  ghost predicate PoolsOnce(written: seq<NodePool>, s: State) {
    && AllWritten(s.pools) == written
    && (forall id: Id :: AllWritten(PoolsOf(s.w.log, id)) <= written)
    && Issued(s.w.log, s.w.clusters.next)
  }

  // Nothing is posted any more under an id that has been issued.
  ghost predicate Closed(w: World, v: World) {
    && w.clusters.next <= v.clusters.next
    && (forall id: Id :: id < w.clusters.next ==> PoolsOf(v.log, id) == PoolsOf(w.log, id))
  }

  // The request log and the next id after a step that posts no pools.
  lemma NoPoolsPosted(written: seq<NodePool>, s: State, t: State, more: seq<Request>)
    requires PoolsOnce(written, s) && AllWritten(t.pools) == written
    requires t.w.log == s.w.log + more && s.w.clusters.next <= t.w.clusters.next
    requires forall i :: 0 <= i < |more| ==> !more[i].PostPool?
    ensures PoolsOnce(written, t) && Closed(s.w, t.w)
  {
    forall id: Id ensures PoolsOf(t.w.log, id) == PoolsOf(s.w.log, id) {
      PoolsOfOthers(s.w.log, more, id);
    }
  }

  lemma DriftPools(me: Self, written: seq<NodePool>, s: State, v: World, st: Status)
    requires PoolsOnce(written, s) && Drift(me, s.w, v)
    ensures PoolsOnce(written, State(v, st, s.pools)) && Closed(s.w, v)
  {
    var more := v.log[|s.w.log|..];
    assert forall i :: 0 <= i < |more| ==> more[i] == v.log[|s.w.log| + i];
    NoPoolsPosted(written, s, State(v, st, s.pools), more);
  }

  // The pools a Create posts are under an id that had none.
  lemma FreshPools(written: seq<NodePool>, s: State, t: State, name: string, id: Id, qs: seq<NodePool>)
    requires PoolsOnce(written, s) && AllWritten(t.pools) == written && AllWritten(qs) <= written
    requires t.w.log == s.w.log + [PostCluster(name)] + Posts(id, qs)
    requires s.w.clusters.next <= id < t.w.clusters.next
    ensures PoolsOnce(written, t) && Closed(s.w, t.w)
  {
    var log := s.w.log + [PostCluster(name)];
    forall other: Id ensures AllWritten(PoolsOf(t.w.log, other)) <= written
      ensures t.w.clusters.next <= other ==> PoolsOf(t.w.log, other) == []
      ensures other < s.w.clusters.next ==> PoolsOf(t.w.log, other) == PoolsOf(s.w.log, other)
    {
      PoolsOfOthers(s.w.log, [PostCluster(name)], other);
      if other == id {
        PoolsOfPosts(log, id, qs);
        assert AllWritten(PoolsOf(log, id)) + AllWritten(qs) == AllWritten(qs);
      } else {
        PoolsOfOthers(log, Posts(id, qs), other);
      }
    }
  }

  lemma CreatePools(me: Self, written: seq<NodePool>, s: State)
    requires Sound(s.w) && PoolsOnce(written, s)
    ensures var (u, ps, _) := Create(me, s.w, s.pools); PoolsOnce(written, State(u, s.st, ps)) && Closed(s.w, u)
  {
    hide Consistent;
    var (u, ps, _) := Create(me, s.w, s.pools);
    var t := State(u, s.st, ps);
    CreateOutcome(me, s.w, s.pools);
    var resolved: bool, id: Id, k: nat :| CreateComesTo(me, s.w, s.pools, resolved, id, k);
    var (v, qs, e) := Resolve(me, s.w, s.pools, 0);
    ResolveWritten(me, s.w, s.pools);
    ResolveDrifts(me, s.w, s.pools, 0);
    if resolved {
      var (x, c) := NewCluster(me, v);
      TurnDrifts(me, v);
      PostedConsistent(me.name, Turn(me, v).clusters, me.rkeName);
      if c.Ok? {
        PostPoolsRely(me, x, c.value, qs, 0);
        assert AllWritten(qs[..k]) == AllWritten(qs)[..k];
        FreshPools(written, s, t, me.rkeName, id, qs[..k]);
      } else {
        assert t.w.log == s.w.log + [PostCluster(me.rkeName)];
        NoPoolsPosted(written, s, t, [PostCluster(me.rkeName)]);
      }
    } else {
      NoPoolsPosted(written, s, t, []);
    }
  }

  lemma ReconcilePools(me: Self, written: seq<NodePool>, s: State, deleting: bool)
    requires Sound(s.w) && PoolsOnce(written, s)
    ensures PoolsOnce(written, Reconcile(me, s, deleting)) && Closed(s.w, Reconcile(me, s, deleting).w)
  {
    hide Consistent;
    var (v, st, found) := Observe(me, s.w, s.st);
    ObserveDrifts(me, s.w, s.st);
    DriftTrans(me, s.w, Turn(me, s.w), v);
    DriftPools(me, written, s, v, st);
    if found.Ok? && found.value != !deleting {
      if deleting {
        var u := DropCluster(me, v, st.id).0;
        TurnDrifts(me, v);
        DriftPools(me, written, State(v, st, s.pools), Turn(me, v), st);
        NoPoolsPosted(written, State(Turn(me, v), st, s.pools), State(u, st, s.pools), [DeleteCluster(st.id)]);
      } else {
        CreatePools(me, written, State(v, st, s.pools));
      }
    }
  }

  // Node pools are never doubled: over any run, with any faults, the pools posted under any cluster id are, in
  // order, the first so many of the list as written. Once the id is issued and its Create is over that is final:
  // pools that a failed Create left out are never posted.
  lemma {:induction false} RunPostsPoolsOnce(me: Self, written: seq<NodePool>, s: State, deleting: seq<bool>)
    requires Sound(s.w) && PoolsOnce(written, s)
    ensures PoolsOnce(written, Run(me, s, deleting)) && Closed(s.w, Run(me, s, deleting).w)
    decreases |deleting|
  {
    if deleting != [] {
      var n := |deleting| - 1;
      RunPostsPoolsOnce(me, written, s, deleting[..n]);
      RunRefines(me, s, deleting[..n]);
      ReconcilePools(me, written, Run(me, s, deleting[..n]), deleting[n]);
    }
  }

  // The claim as it stands for a resource whose run starts with nothing requested yet.
  lemma PoolsFromTheStart(me: Self, s: State, deleting: seq<bool>, id: Id)
    requires Sound(s.w) && s.w.log == []
    ensures AllWritten(PoolsOf(Run(me, s, deleting).w.log, id)) <= AllWritten(s.pools)
  {
    RunPostsPoolsOnce(me, AllWritten(s.pools), s, deleting);
  }

  // When pools are left out

  // The reconcile that makes a cluster posts all its pools under exactly this condition.
  predicate Complete(me: Self, s: State) { PostsAll(me, Observe(me, s.w, s.st).0, s.pools) }

  // Pools posted under an id that had none are the whole list exactly if they are as many.
  lemma AllPostsExactly(log: seq<Request>, id: Id, ps: seq<NodePool>, k: nat)
    requires PoolsOf(log, id) == [] && k <= |ps|
    ensures AllWritten(PoolsOf(log + Posts(id, ps[..k]), id)) == AllWritten(ps) <==> k == |ps|
  {
    PoolsOfPosts(log, id, ps[..k]);
    assert AllWritten(PoolsOf(log, id)) + AllWritten(ps[..k]) == AllWritten(ps[..k]);
    if k == |ps| {
      assert ps[..k] == ps;
    } else {
      assert |AllWritten(ps[..k])| == k;
    }
  }

  lemma CreateLog(me: Self, w: World, ps: seq<NodePool>, id: Id)
    requires Resolve(me, w, ps, 0).2.Ok? && id == Turn(me, Resolve(me, w, ps, 0).0).clusters.next
    ensures var qs := Resolve(me, w, ps, 0).1;
      exists k: nat :: k <= |qs| && Create(me, w, ps).0.log == w.log + [PostCluster(me.rkeName)] + Posts(id, qs[..k])
  {
    var (v, qs, e) := Resolve(me, w, ps, 0);
    var (u, c) := NewCluster(me, v);
    CreateOutcome(me, w, ps);
    var resolved: bool, other: Id, k: nat :| CreateComesTo(me, w, ps, resolved, other, k);
    if c.Err? {
      assert Posts(id, qs[..0]) == Posts(other, qs[..0]);
      assert Create(me, w, ps).0.log == w.log + [PostCluster(me.rkeName)] + Posts(id, qs[..0]);
    }
  }

  // The reconcile, once it had observed, requested the cluster and the first k pools.
  ghost predicate Requested(me: Self, s: State, k: nat) {
    var v := Observe(me, s.w, s.st).0;
    var qs := Resolve(me, v, s.pools, 0).1;
    k <= |qs| && Reconcile(me, s, false).w.log == v.log + [PostCluster(me.rkeName)] + Posts(CreatedId(me, s), qs[..k])
  }

  lemma CreationRequests(me: Self, s: State)
    requires Accepted(me, s)
    ensures exists k: nat :: Requested(me, s, k) && (k == |s.pools| <==> s.pools == [] || Complete(me, s))
  {
    hide PostsAll, Resolve, Observe;
    var v := Observe(me, s.w, s.st).0;
    CreateLog(me, v, s.pools, CreatedId(me, s));
    var qs := Resolve(me, v, s.pools, 0).1;
    var k: nat :| k <= |qs| && Create(me, v, s.pools).0.log ==
                               v.log + [PostCluster(me.rkeName)] + Posts(CreatedId(me, s), qs[..k]);
    assert Requested(me, s, k);
    if s.pools != [] {
      CreatePostsAllExactly(me, v, s.pools);
    }
  }

  lemma CreationPoolsExactly(me: Self, written: seq<NodePool>, s: State)
    requires Sound(s.w) && PoolsOnce(written, s) && Accepted(me, s)
    ensures var t, id := Reconcile(me, s, false), CreatedId(me, s);
      && s.w.clusters.next <= id < t.w.clusters.next
      && (AllWritten(PoolsOf(t.w.log, id)) == written <==> written == [] || Complete(me, s))
  {
    hide Reconcile, Accepted, Complete, Resolve, Observe;
    var v := Observe(me, s.w, s.st).0;
    var id := CreatedId(me, s);
    BeforePostDrifts(me, s);
    CreatesOne(me, s);
    ObserveDrifts(me, s.w, s.st);
    DriftTrans(me, s.w, Turn(me, s.w), v);
    DriftPools(me, written, s, v, s.st);
    CreationRequests(me, s);
    var k: nat :| Requested(me, s, k) && (k == |s.pools| <==> s.pools == [] || Complete(me, s));
    var qs := Resolve(me, v, s.pools, 0).1;
    PoolsOfOthers(v.log, [PostCluster(me.rkeName)], id);
    ResolveWritten(me, v, s.pools);
    AllPostsExactly(v.log + [PostCluster(me.rkeName)], id, qs, k);
    assert |AllWritten(qs)| == |qs| && |AllWritten(s.pools)| == |s.pools|;
  }

  lemma {:induction false} RunSplit(me: Self, s: State, before: seq<bool>, after: seq<bool>)
    ensures Run(me, s, before + after) == Run(me, Run(me, s, before), after)
    decreases |after|
  {
    if after == [] {
      assert before + after == before;
    } else {
      var n := |after| - 1;
      assert (before + after)[..|before + after| - 1] == before + after[..n];
      RunSplit(me, s, before, after[..n]);
    }
  }

  // Over every run: the pools under an id that a reconcile of it obtained are the whole written list if and only if
  // in that reconcile every reference was found, the creation was answered, and so was every post of a pool but the
  // last. Nothing later in the run adds to them.
  lemma RunPoolsExactly(me: Self, written: seq<NodePool>, s: State, before: seq<bool>, after: seq<bool>)
    requires Sound(s.w) && PoolsOnce(written, s) && Accepted(me, Run(me, s, before))
    ensures var b, t := Run(me, s, before), Run(me, s, before + [false] + after);
      AllWritten(PoolsOf(t.w.log, CreatedId(me, b))) == written <==> written == [] || Complete(me, b)
  {
    var b := Run(me, s, before);
    RunPostsPoolsOnce(me, written, s, before);
    RunRefines(me, s, before);
    CreationPoolsExactly(me, written, b);
    RunOneMore(me, s, before, false);
    RunSplit(me, s, before + [false], after);
    ReconcilePools(me, written, b, false);
    CreatesOne(me, b);
    RunPostsPoolsOnce(me, written, Reconcile(me, b, false), after);
  }
}

// Over whole runs: deletions stay in the resource's lane, and creations do if and only if the cluster is posted
// under the resource's own name.
module Lanes {
  import opened Registry
  import opened World
  import opened ClusterSpec
  import opened ObserveProperties
  import opened CreateProperties
  import opened ClusterRuns
  import opened Calm
  import opened Paths

  // What was deleted from w to v are ids that the server issued under the name.
  predicate InLane(me: Self, w: World, v: World) {
    && w.log <= v.log
    && (forall k :: k in w.clusters.names ==> k in v.clusters.names && v.clusters.names[k] == w.clusters.names[k])
    && (forall i :: |w.log| <= i < |v.log| && v.log[i].DeleteCluster? ==>
          v.log[i].id in v.clusters.names && v.clusters.names[v.log[i].id] == me.name)
  }

  lemma InLaneTrans(me: Self, w: World, v: World, u: World)
    requires InLane(me, w, v) && InLane(me, v, u)
    ensures InLane(me, w, u)
  {
  }

  lemma DriftInLane(me: Self, w: World, v: World)
    requires Drift(me, w, v)
    ensures InLane(me, w, v)
  {
  }

  lemma DropInLane(me: Self, w: World, id: Id)
    requires Sound(w) && id in w.clusters.names && w.clusters.names[id] == me.name
    ensures InLane(me, w, DropCluster(me, w, id).0)
  {
    TurnDrifts(me, w);
  }

  lemma PostInLane(me: Self, w: World)
    requires Sound(w)
    ensures InLane(me, w, NewCluster(me, w).0) && Sound(NewCluster(me, w).0)
  {
    TurnDrifts(me, w);
    PostedConsistent(me.name, Turn(me, w).clusters, me.rkeName);
  }

  lemma PoolsInLane(me: Self, w: World, id: Id, ps: seq<NodePool>)
    requires Sound(w)
    ensures InLane(me, w, PostPools(me, w, id, ps, 0).0)
  {
    PostPoolsRely(me, w, id, ps, 0);
    PostPoolsOutcome(me, w, id, ps, 0);
    var k: nat :| PostsTo(me, w, id, ps, 0, k);
  }

  lemma CreateInLane(me: Self, w: World, ps: seq<NodePool>)
    requires Sound(w)
    ensures InLane(me, w, Create(me, w, ps).0)
  {
    var (v, qs, e) := Resolve(me, w, ps, 0);
    ResolveDrifts(me, w, ps, 0);
    DriftInLane(me, w, v);
    if e.Ok? {
      var (u, c) := NewCluster(me, v);
      PostInLane(me, v);
      InLaneTrans(me, w, v, u);
      if c.Ok? {
        PoolsInLane(me, u, c.value, qs);
        InLaneTrans(me, w, u, PostPools(me, u, c.value, qs, 0).0);
      }
    }
  }

  lemma ReconcileInLane(me: Self, s: State, deleting: bool)
    requires Sound(s.w)
    ensures InLane(me, s.w, Reconcile(me, s, deleting).w)
  {
    var t := Reconcile(me, s, deleting);
    var r1 := Turn(me, s.w);
    var (v, st, found) := Observe(me, s.w, s.st);
    ObserveDrifts(me, s.w, s.st);
    DriftTrans(me, s.w, r1, v);
    DriftInLane(me, s.w, v);
    if found.Ok? && found.value != !deleting {
      if deleting {
        assert st.id in r1.clusters.names && r1.clusters.names[st.id] == me.name;
        DropInLane(me, v, st.id);
      } else {
        CreateInLane(me, v, s.pools);
      }
      InLaneTrans(me, s.w, v, t.w);
    }
  }

  // Every deletion of every run is of a cluster that the server listed under this resource's name.
  lemma {:induction false} RunInLane(me: Self, s: State, deleting: seq<bool>)
    requires Sound(s.w)
    ensures InLane(me, s.w, Run(me, s, deleting).w)
    decreases |deleting|
  {
    if deleting != [] {
      var n := |deleting| - 1;
      RunInLane(me, s, deleting[..n]);
      var t := Run(me, s, deleting[..n]);
      RunRefines(me, s, deleting[..n]);
      ReconcileInLane(me, t, deleting[n]);
      InLaneTrans(me, s.w, t.w, Run(me, s, deleting).w);
    }
  }

  // The entry is there, and nobody else would remove it.
  predicate Kept(name: string, id: Id, w: World) {
    && ListedAs(w.clusters.entries, name, id)
    && forall i :: 0 <= i < |w.script| ==> ListedAs(w.script[i].clusters.entries, name, id)
  }

  // From the first log to the second the deletion of the id is not requested.
  predicate NotDeleted(id: Id, before: seq<Request>, after: seq<Request>) {
    before <= after && forall i :: |before| <= i < |after| && after[i].DeleteCluster? ==> after[i].id != id
  }

  lemma RegistryKeeps(me: Self, r: Registry, name: string, id: Id, other: Id)
    requires ListedAs(r.entries, name, id)
    ensures ListedAs(Settled(r).entries, name, id) && ListedAs(Posted(r, me.rkeName).entries, name, id)
    ensures other != id ==> ListedAs(Removed(r, other).entries, name, id)
  {
    var i :| 0 <= i < |r.entries| && r.entries[i].name == name && r.entries[i].id == id;
    assert Settled(r).entries[i].name == name && Settled(r).entries[i].id == id;
    assert Posted(r, me.rkeName).entries[i] == r.entries[i];
    if other != id {
      assert r.entries[i] in Removed(r, other).entries;
    }
  }

  lemma TickKeeps(me: Self, name: string, id: Id, w: World, v: World)
    requires Kept(name, id, w) && Tick(me, w, v) && NotDeleted(id, w.log, v.log)
    ensures Kept(name, id, v)
  {
    hide Rely;
    var u := Turn(me, w);
    RegistryKeeps(me, w.clusters, name, id, NO_ID);
    assert ListedAs(u.clusters.entries, name, id);
    RegistryKeeps(me, u.clusters, name, id, NO_ID);
    if v.clusters != u.clusters && v.clusters != Posted(u.clusters, me.rkeName) {
      var i :| |u.log| <= i < |v.log| && v.log[i].DeleteCluster? && v.clusters == Removed(u.clusters, v.log[i].id);
      RegistryKeeps(me, u.clusters, name, id, v.log[i].id);
    }
  }

  lemma {:induction false} PathKeeps(me: Self, name: string, id: Id, ws: seq<World>, i: nat)
    requires Path(me, ws) && i < |ws| && Kept(name, id, ws[0]) && NotDeleted(id, ws[0].log, ws[i].log)
    requires forall j :: 0 <= j <= i ==> ws[0].log <= ws[j].log
    ensures Kept(name, id, ws[i])
    decreases i
  {
    hide Kept;
    if i > 0 {
      assert Tick(me, ws[i - 1], ws[i - 1 + 1]);
      assert NotDeleted(id, ws[0].log, ws[i - 1].log) && NotDeleted(id, ws[i - 1].log, ws[i].log);
      PathKeeps(me, name, id, ws, i - 1);
      TickKeeps(me, name, id, ws[i - 1], ws[i]);
    }
  }

  lemma {:induction false} PathLogs(me: Self, ws: seq<World>, i: nat)
    requires Path(me, ws) && i < |ws|
    ensures ws[0].log <= ws[i].log
    decreases i
  {
    if i > 0 {
      PathLogs(me, ws, i - 1);
      assert Tick(me, ws[i - 1], ws[i - 1 + 1]);
    }
  }

  // Over every run, with any faults, a cluster of another name that nobody else removes outlives it.
  lemma RunSpares(me: Self, s: State, deleting: seq<bool>, name: string, id: Id)
    requires Sound(s.w) && name != me.name && Kept(name, id, s.w)
    ensures ListedAs(Run(me, s, deleting).w.clusters.entries, name, id)
  {
    hide Run;
    var t := Run(me, s, deleting).w;
    RunInLane(me, s, deleting);
    assert s.w.clusters.names[id] == name;
    assert NotDeleted(id, s.w.log, t.log);
    RunTicks(me, s, deleting);
    var ws: seq<World> :| Along(me, s.w, t, ws);
    forall j | 0 <= j < |ws| ensures ws[0].log <= ws[j].log {
      PathLogs(me, ws, j);
    }
    PathKeeps(me, name, id, ws, |ws| - 1);
  }

  // A cluster posted under another name is never found, so in a calm world every reconcile posts one more.
  lemma PostsAnother(me: Self, s: State)
    requires Sound(s.w) && s.w.script == [] && me.rkeName != me.name
    requires !Listed(s.w.clusters.entries, me.name) && Resolvable(s.w.templates, s.pools)
    ensures var t := Reconcile(me, s, false);
      && Sound(t.w) && t.w.script == []
      && !Listed(t.w.clusters.entries, me.name) && Resolvable(t.w.templates, t.pools)
      && SameNames(Posted(s.w.clusters, me.rkeName).entries, t.w.clusters.entries)
  {
    hide Rely, Consistent;
    var t := Reconcile(me, s, false);
    CalmObserveAbsent(me, s.w, s.st);
    var v := Observe(me, s.w, s.st).0;
    CalmCreate(me, v, s.pools);
    var posted := Posted(Settled(v.clusters), me.rkeName);
    SettledTwice(s.w.clusters);
    SettledTwice(posted);
    SettledTwice(t.w.clusters);
    assert SameNames(Posted(s.w.clusters, me.rkeName).entries, t.w.clusters.entries) by {
      SettledTwice(v.clusters);
    }
    assert !Listed(t.w.clusters.entries, me.name);
  }

  // A server and a cluster of secrets with nothing in them.
  function Empty(): World { World(Registry([], map[], NO_ID + 1), [], map[], 0, [], []) }

  lemma TwoOfTheName(me: Self, st: Status)
    requires me.rkeName != me.name
    ensures !AtMostOne(Run(me, State(Empty(), st, []), [false, false]).w.clusters.entries, me.rkeName)
  {
    var s := State(Empty(), st, []);
    assert [false, false][..1] == [false] && [false][..0] == [];
    var t := Reconcile(me, s, false);
    assert t == Run(me, s, [false]);
    PostsAnother(me, s);
    PostsAnother(me, t);
    var u := Reconcile(me, t, false);
    assert u == Run(me, s, [false, false]);
    assert t.w.clusters.entries[0].name == me.rkeName;
    assert u.w.clusters.entries[0].name == me.rkeName && u.w.clusters.entries[1].name == me.rkeName;
  }

  // No run that starts with at most one cluster of the posted name, and that nobody interferes with, ends with two
  // of them.
  ghost predicate NeverTwo(me: Self) {
    forall s: State, deleting: seq<bool> ::
      Sound(s.w) && s.w.script == [] && AtMostOne(s.w.clusters.entries, me.rkeName) ==>
        AtMostOne(Run(me, s, deleting).w.clusters.entries, me.rkeName)
  }

  // Single creation holds exactly when the names are equal: then for every run, else not even for calm ones.
  lemma SingleCreationExactly(me: Self)
    ensures NeverTwo(me) <==> me.rkeName == me.name
  {
    if me.rkeName == me.name {
      forall s: State, deleting: seq<bool> | Sound(s.w) && AtMostOne(s.w.clusters.entries, me.rkeName)
        ensures AtMostOne(Run(me, s, deleting).w.clusters.entries, me.rkeName)
      {
        SingleCreation(me, s, deleting);
      }
    } else {
      TwoOfTheName(me, Status(NO_ID, Unset));
      assert Sound(Empty());
    }
  }
}

// Whatever the controller does, it does request by request: every operation takes the world along a path on which
// each step is one turn of the environment and one effect of the resource's own. What no such step breaks, no run does.
module Paths {
  import opened Registry
  import opened World
  import opened ClusterSpec

  // One request: after the environment's turn the resource's own secret may be written, a cluster posted under its
  // choice of name, or the cluster of an id removed whose deletion is requested.
  predicate Tick(me: Self, w: World, v: World) {
    var u := Turn(me, w);
    && v.script == u.script && v.templates == u.templates
    && (v.secrets == u.secrets ||
        (SecretKey(me) in v.secrets && v.secrets == u.secrets[SecretKey(me) := v.secrets[SecretKey(me)]]))
    && u.log <= v.log
    && (v.clusters == u.clusters || v.clusters == Posted(u.clusters, me.rkeName)
        || exists i :: |u.log| <= i < |v.log| && v.log[i].DeleteCluster? && v.clusters == Removed(u.clusters, v.log[i].id))
  }

  predicate Path(me: Self, ws: seq<World>) {
    ws != [] && forall i :: 0 <= i < |ws| - 1 ==> Tick(me, ws[i], ws[i + 1])
  }

  predicate Along(me: Self, w: World, v: World, ws: seq<World>) { Path(me, ws) && ws[0] == w && ws[|ws| - 1] == v }

  ghost predicate Ticks(me: Self, w: World, v: World) { exists ws :: Along(me, w, v, ws) }

  lemma TicksSame(me: Self, w: World)
    ensures Ticks(me, w, w)
  {
    assert Along(me, w, w, [w]);
  }

  lemma TickTicks(me: Self, w: World, v: World)
    requires Tick(me, w, v)
    ensures Ticks(me, w, v)
  {
    assert Along(me, w, v, [w, v]);
  }

  lemma TicksTrans(me: Self, w: World, v: World, u: World)
    requires Ticks(me, w, v) && Ticks(me, v, u)
    ensures Ticks(me, w, u)
  {
    var ws :| Along(me, w, v, ws);
    var vs :| Along(me, v, u, vs);
    var us := ws + vs[1..];
    forall i | 0 <= i < |us| - 1 ensures Tick(me, us[i], us[i + 1]) {
      if i < |ws| - 1 {
        assert us[i] == ws[i] && us[i + 1] == ws[i + 1];
      } else {
        assert us[i] == vs[i - (|ws| - 1)] && us[i + 1] == vs[i - (|ws| - 1) + 1];
      }
    }
    assert Along(me, w, u, us);
  }

  lemma TurnTicks(me: Self, w: World)
    ensures Ticks(me, w, Turn(me, w))
  {
    TickTicks(me, w, Turn(me, w));
  }

  lemma PutTicks(me: Self, w: World, c: Config, present: bool)
    ensures Ticks(me, w, PutSecret(me, w, SecretKey(me), c, present).0)
  {
    TickTicks(me, w, PutSecret(me, w, SecretKey(me), c, present).0);
  }

  lemma NewConfigTicks(me: Self, w: World, id: Id)
    ensures Ticks(me, w, NewConfig(me, w, id).0)
  {
    TickTicks(me, w, NewConfig(me, w, id).0);
  }

  lemma NewClusterTicks(me: Self, w: World)
    ensures Ticks(me, w, NewCluster(me, w).0)
  {
    TickTicks(me, w, NewCluster(me, w).0);
  }

  lemma NewNodePoolTicks(me: Self, w: World, id: Id, pool: NodePool)
    ensures Ticks(me, w, NewNodePool(me, w, id, pool).0)
  {
    TickTicks(me, w, NewNodePool(me, w, id, pool).0);
  }

  lemma DropTicks(me: Self, w: World, id: Id)
    ensures Ticks(me, w, DropCluster(me, w, id).0)
  {
    var v := DropCluster(me, w, id).0;
    assert v.log[|w.log|] == DeleteCluster(id);
    TickTicks(me, w, v);
  }

  lemma CreateSecretTicks(me: Self, w: World, c: Config)
    ensures Ticks(me, w, CreateSecret(me, w, c).0)
  {
    var (v, exist) := SecretExists(me, w);
    TurnTicks(me, w);
    PutTicks(me, v, c, exist);
    TicksTrans(me, w, v, CreateSecret(me, w, c).0);
  }

  lemma GenerateTicks(me: Self, w: World, id: Id)
    ensures Ticks(me, w, GenerateKubeconfig(me, w, id).0)
  {
    hide Ticks, CreateSecret;
    var (v, exist) := SecretExists(me, w);
    TurnTicks(me, w);
    if !exist {
      var (u, c) := NewConfig(me, v, id);
      NewConfigTicks(me, v, id);
      TicksTrans(me, w, v, u);
      if c.Ok? {
        CreateSecretTicks(me, u, c.value);
        TicksTrans(me, w, u, CreateSecret(me, u, c.value).0);
      }
    }
  }

  lemma {:induction false} LoopTicks(me: Self, w: World, st: Status, s: seq<Data>, i: nat, found: bool)
    requires i <= |s|
    ensures Ticks(me, w, ObserveFrom(me, w, st, s, i, found).0)
    decreases |s| - i
  {
    hide Ticks, GenerateKubeconfig;
    TicksSame(me, w);
    if i < |s| {
      if s[i].name != me.name {
        LoopTicks(me, w, st, s, i + 1, found);
      } else {
        var (v, t, r) := Seen(me, w, st, s[i]);
        GenerateTicks(me, w, s[i].id);
        if r.Ok? {
          LoopTicks(me, v, t, s, i + 1, true);
          TicksTrans(me, w, v, ObserveFrom(me, v, t, s, i + 1, true).0);
        }
      }
    }
  }

  lemma ObserveTicks(me: Self, w: World, st: Status)
    ensures Ticks(me, w, Observe(me, w, st).0)
  {
    hide Ticks, ObserveFrom;
    var (v, s) := ListClusters(me, w);
    TurnTicks(me, w);
    if s.Ok? {
      LoopTicks(me, v, st, s.value, 0, false);
      TicksTrans(me, w, v, Observe(me, w, st).0);
    }
  }

  lemma {:induction false} ResolveTicks(me: Self, w: World, ps: seq<NodePool>, i: nat)
    requires i <= |ps|
    ensures Ticks(me, w, Resolve(me, w, ps, i).0)
    decreases |ps| - i
  {
    hide Ticks;
    TicksSame(me, w);
    if i < |ps| {
      if ps[i].templateRef == "" {
        ResolveTicks(me, w, ps, i + 1);
      } else {
        var (v, id) := LookupTemplate(me, w, ps[i].templateRef);
        TurnTicks(me, w);
        if id.Ok? {
          var qs := ps[i := ps[i].(templateId := id.value)];
          ResolveTicks(me, v, qs, i + 1);
          TicksTrans(me, w, v, Resolve(me, v, qs, i + 1).0);
        }
      }
    }
  }

  lemma {:induction false} PostsTick(me: Self, w: World, id: Id, ps: seq<NodePool>, i: nat)
    requires i <= |ps|
    ensures Ticks(me, w, PostPools(me, w, id, ps, i).0)
    decreases |ps| - i
  {
    hide Ticks;
    TicksSame(me, w);
    if i < |ps| {
      var (v, r) := NewNodePool(me, w, id, ps[i]);
      NewNodePoolTicks(me, w, id, ps[i]);
      if r.Ok? {
        PostsTick(me, v, id, ps, i + 1);
        TicksTrans(me, w, v, PostPools(me, v, id, ps, i + 1).0);
      }
    }
  }

  lemma CreateTicks(me: Self, w: World, ps: seq<NodePool>)
    ensures Ticks(me, w, Create(me, w, ps).0)
  {
    hide Ticks, Resolve, NewCluster, PostPools;
    var (v, qs, e) := Resolve(me, w, ps, 0);
    ResolveTicks(me, w, ps, 0);
    if e.Ok? {
      var (u, c) := NewCluster(me, v);
      NewClusterTicks(me, v);
      TicksTrans(me, w, v, u);
      if c.Ok? {
        PostsTick(me, u, c.value, qs, 0);
        TicksTrans(me, w, u, PostPools(me, u, c.value, qs, 0).0);
      }
    }
  }

  lemma ReconcileTicks(me: Self, s: State, deleting: bool)
    ensures Ticks(me, s.w, Reconcile(me, s, deleting).w)
  {
    hide Ticks, Observe, Create, DropCluster;
    var (v, st, found) := Observe(me, s.w, s.st);
    ObserveTicks(me, s.w, s.st);
    DropTicks(me, v, st.id);
    CreateTicks(me, v, s.pools);
    if found.Ok? && found.value != !deleting {
      TicksTrans(me, s.w, v, Reconcile(me, s, deleting).w);
    }
  }

  // A run is a path.
  lemma {:induction false} RunTicks(me: Self, s: State, deleting: seq<bool>)
    ensures Ticks(me, s.w, Run(me, s, deleting).w)
    decreases |deleting|
  {
    hide Ticks, Reconcile;
    TicksSame(me, s.w);
    if deleting != [] {
      var n := |deleting| - 1;
      RunTicks(me, s, deleting[..n]);
      var t := Run(me, s, deleting[..n]);
      ReconcileTicks(me, t, deleting[n]);
      TicksTrans(me, s.w, t.w, Run(me, s, deleting).w);
    }
  }
}

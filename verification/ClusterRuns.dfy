// Whole runs of the cluster controller: it is the name-keyed machine, and what that means for clusters, node pools
// and deletions.
module ClusterRuns {
  import opened Registry
  import opened World
  import opened ClusterSpec
  import opened ObserveProperties
  import opened CreateProperties

  predicate Sound(w: World) { Consistent(w.clusters) && forall k :: k in w.secrets ==> k.namespace != "" }

  predicate Harmless(a: Request) { a.Generate? || a.WriteSecret? }

  // From w to v the clusters moved only as others move them, and the log gained nothing about clusters or pools.
  predicate Drift(me: Self, w: World, v: World) {
    && Rely(me.name, w.clusters, v.clusters) && Sound(v)
    && w.log <= v.log && (forall i :: |w.log| <= i < |v.log| ==> Harmless(v.log[i]))
  }

  lemma DriftTrans(me: Self, w: World, v: World, u: World)
    requires Drift(me, w, v) && Drift(me, v, u)
    ensures Drift(me, w, u)
  {
    RelyTrans(me.name, w.clusters, v.clusters, u.clusters);
  }

  lemma TurnDrifts(me: Self, w: World)
    requires Sound(w)
    ensures Drift(me, w, Turn(me, w))
  {
    RelySame(me.name, w.clusters);
    RelySettled(me.name, w.clusters);
  }

  lemma GenerateDrifts(me: Self, w: World, id: Id)
    requires Sound(w)
    ensures Drift(me, w, GenerateKubeconfig(me, w, id).0)
  {
    hide Rely, Consistent;
    var (v, exist) := SecretExists(me, w);
    TurnDrifts(me, w);
    if !exist {
      var (u, c) := NewConfig(me, v, id);
      TurnDrifts(me, v);
      RelySame(me.name, u.clusters);
      DriftTrans(me, w, v, u);
      if c.Ok? {
        SecretDrifts(me, u, c.value);
        DriftTrans(me, w, u, CreateSecret(me, u, c.value).0);
      }
    }
  }

  lemma SecretDrifts(me: Self, w: World, c: Config)
    requires Sound(w)
    ensures Drift(me, w, CreateSecret(me, w, c).0)
  {
    var (v, exist) := SecretExists(me, w);
    TurnDrifts(me, w);
    TurnDrifts(me, v);
    var u := CreateSecret(me, w, c).0;
    DriftTrans(me, w, v, Turn(me, v));
  }

  lemma {:induction false} LoopDrifts(me: Self, w: World, st: Status, s: seq<Data>, i: nat, found: bool)
    requires i <= |s| && Sound(w)
    ensures Drift(me, w, ObserveFrom(me, w, st, s, i, found).0)
    decreases |s| - i
  {
    RelySame(me.name, w.clusters);
    if i < |s| {
      if s[i].name != me.name {
        LoopDrifts(me, w, st, s, i + 1, found);
      } else {
        var (v, t, r) := Seen(me, w, st, s[i]);
        if s[i].state == "active" {
          GenerateDrifts(me, w, s[i].id);
        }
        if r.Ok? {
          LoopDrifts(me, v, t, s, i + 1, true);
          DriftTrans(me, w, v, ObserveFrom(me, v, t, s, i + 1, true).0);
        }
      }
    }
  }

  // What Observe reports was so when it listed the clusters.
  lemma ObserveDrifts(me: Self, w: World, st: Status)
    requires Sound(w)
    ensures var v := Turn(me, w);
      var (u, t, r) := Observe(me, w, st);
      && Drift(me, w, v) && Drift(me, v, u)
      && (r.Ok? ==> (r.value <==> Listed(v.clusters.entries, me.name)))
      && (r.Ok? && r.value ==> ListedAs(v.clusters.entries, me.name, t.id))
  {
    var (v, s) := ListClusters(me, w);
    TurnDrifts(me, w);
    RelySame(me.name, v.clusters);
    if s.Ok? {
      LoopDrifts(me, v, st, s.value, 0, false);
    }
    if Observe(me, w, st).2.Ok? {
      ObserveOk(me, w, st);
    }
  }

  lemma {:induction false} ResolveDrifts(me: Self, w: World, ps: seq<NodePool>, i: nat)
    requires i <= |ps| && Sound(w)
    ensures Drift(me, w, Resolve(me, w, ps, i).0)
    decreases |ps| - i
  {
    RelySame(me.name, w.clusters);
    if i < |ps| {
      if ps[i].templateRef == "" {
        ResolveDrifts(me, w, ps, i + 1);
      } else {
        var (v, id) := LookupTemplate(me, w, ps[i].templateRef);
        TurnDrifts(me, w);
        if id.Ok? {
          var qs := ps[i := ps[i].(templateId := id.value)];
          ResolveDrifts(me, v, qs, i + 1);
          DriftTrans(me, w, v, Resolve(me, v, qs, i + 1).0);
        }
      }
    }
  }

  lemma {:induction false} PostPoolsRely(me: Self, w: World, id: Id, ps: seq<NodePool>, i: nat)
    requires i <= |ps| && Sound(w)
    ensures var v := PostPools(me, w, id, ps, i).0; Rely(me.name, w.clusters, v.clusters) && Sound(v)
    decreases |ps| - i
  {
    RelySame(me.name, w.clusters);
    if i < |ps| {
      var (v, r) := NewNodePool(me, w, id, ps[i]);
      TurnDrifts(me, w);
      if r.Ok? {
        PostPoolsRely(me, v, id, ps, i + 1);
        RelyTrans(me.name, w.clusters, v.clusters, PostPools(me, v, id, ps, i + 1).0.clusters);
      }
    }
  }

  // The machine

  lemma CreateActs(me: Self, w: World, ps: seq<NodePool>, r1: Registry)
    requires Sound(w) && Rely(me.name, r1, w.clusters) && !Listed(r1.entries, me.name)
    ensures var u := Create(me, w, ps).0;
      && Sound(u)
      && exists r2, act :: Rely(me.name, r1, r2) && ActsFrom(me.name, me.rkeName, false, r1, r2, u.clusters, act)
  {
    hide Consistent;
    var u := Create(me, w, ps).0;
    var (v, qs, e) := Resolve(me, w, ps, 0);
    ResolveDrifts(me, w, ps, 0);
    RelyTrans(me.name, r1, w.clusters, v.clusters);
    RelySame(me.name, v.clusters);
    if e.Err? {
      assert ActsFrom(me.name, me.rkeName, false, r1, v.clusters, u.clusters, Idle);
    } else {
      var r2 := Turn(me, v).clusters;
      TurnDrifts(me, v);
      RelyTrans(me.name, r1, v.clusters, r2);
      RelySame(me.name, r2);
      var (x, c) := NewCluster(me, v);
      PostedConsistent(me.name, r2, me.rkeName);
      RelySame(me.name, Posted(r2, me.rkeName));
      if x.clusters == r2 {
        assert ActsFrom(me.name, me.rkeName, false, r1, r2, u.clusters, Idle);
      } else {
        if c.Ok? {
          PostPoolsRely(me, x, c.value, qs, 0);
        }
        assert ActsFrom(me.name, me.rkeName, false, r1, r2, u.clusters, Post);
      }
    }
  }

  lemma DropActs(me: Self, w: World, id: Id, r1: Registry)
    requires Sound(w) && Rely(me.name, r1, w.clusters) && ListedAs(r1.entries, me.name, id)
    ensures var u := DropCluster(me, w, id).0;
      && Sound(u)
      && exists r2, act :: Rely(me.name, r1, r2) && ActsFrom(me.name, me.rkeName, true, r1, r2, u.clusters, act)
  {
    hide Consistent;
    var u := DropCluster(me, w, id).0;
    var r2 := Turn(me, w).clusters;
    TurnDrifts(me, w);
    RelyTrans(me.name, r1, w.clusters, r2);
    RemovedConsistent(me.name, r2, id);
    RelySame(me.name, u.clusters);
    if u.clusters == r2 {
      assert ActsFrom(me.name, me.rkeName, true, r1, r2, u.clusters, Idle);
    } else {
      assert ActsFrom(me.name, me.rkeName, true, r1, r2, u.clusters, Delete(id));
    }
  }

  // One reconcile of the cluster controller is one reconcile of the machine.
  lemma ReconcileRefines(me: Self, s: State, deleting: bool)
    requires Sound(s.w)
    ensures var t := Reconcile(me, s, deleting);
      && Sound(t.w)
      && exists act :: Reconciles(me.name, me.rkeName, deleting, s.w.clusters, t.w.clusters, act)
  {
    var t := Reconcile(me, s, deleting);
    var r1 := Turn(me, s.w).clusters;
    var (v, st, found) := Observe(me, s.w, s.st);
    ObserveDrifts(me, s.w, s.st);
    RelySame(me.name, v.clusters);
    if found.Err? || found.value == !deleting {
      assert ActsFrom(me.name, me.rkeName, deleting, r1, v.clusters, t.w.clusters, Idle);
      assert Reconciles(me.name, me.rkeName, deleting, s.w.clusters, t.w.clusters, Idle);
    } else {
      if deleting {
        DropActs(me, v, st.id, r1);
      } else {
        CreateActs(me, v, s.pools, r1);
      }
      var r2, act :| Rely(me.name, r1, r2) && ActsFrom(me.name, me.rkeName, deleting, r1, r2, t.w.clusters, act);
      assert Reconciles(me.name, me.rkeName, deleting, s.w.clusters, t.w.clusters, act);
    }
  }

  // The registries a run goes through, before and after each reconcile.
  function Registries(me: Self, s: State, deleting: seq<bool>): (rs: seq<Registry>)
    ensures |rs| == |deleting| + 1 && rs[0] == s.w.clusters && rs[|deleting|] == Run(me, s, deleting).w.clusters
    decreases |deleting|
  {
    if deleting == [] then [s.w.clusters]
    else Registries(me, s, deleting[..|deleting| - 1]) + [Run(me, s, deleting).w.clusters]
  }

  lemma RunOneMore(me: Self, s: State, deleting: seq<bool>, d: bool)
    ensures Run(me, s, deleting + [d]) == Reconcile(me, Run(me, s, deleting), d)
  {
    assert (deleting + [d])[..|deleting|] == deleting;
  }

  lemma RegistriesExtend(me: Self, s: State, deleting: seq<bool>, d: bool)
    ensures Registries(me, s, deleting + [d]) == Registries(me, s, deleting) + [Run(me, s, deleting + [d]).w.clusters]
  {
    assert (deleting + [d])[..|deleting|] == deleting;
  }

  // A run of the cluster controller is a run of the machine.
  lemma {:induction false} RunRefines(me: Self, s: State, deleting: seq<bool>)
    requires Sound(s.w)
    ensures Sound(Run(me, s, deleting).w)
    ensures exists acts :: IsRun(me.name, me.rkeName, Registries(me, s, deleting), deleting, acts)
    decreases |deleting|
  {
    hide Reconciles;
    if deleting == [] {
      assert IsRun(me.name, me.rkeName, Registries(me, s, deleting), deleting, []);
    } else {
      var n := |deleting| - 1;
      var before, d := deleting[..n], deleting[n];
      assert deleting == before + [d];
      RunRefines(me, s, before);
      var acts :| IsRun(me.name, me.rkeName, Registries(me, s, before), before, acts);
      RegistriesExtend(me, s, before, d);
      RunOneMore(me, s, before, d);
      ReconcileRefines(me, Run(me, s, before), d);
      var q := Reconcile(me, Run(me, s, before), d).w.clusters;
      var act :| Reconciles(me.name, me.rkeName, d, Run(me, s, before).w.clusters, q, act);
      RunExtends(me.name, me.rkeName, Registries(me, s, before), before, acts, q, d, act);
    }
  }

  // Single creation: with the names equal, no run leaves two clusters of the name, whatever the faults.
  lemma SingleCreation(me: Self, s: State, deleting: seq<bool>)
    requires me.rkeName == me.name && Sound(s.w) && AtMostOne(s.w.clusters.entries, me.name)
    ensures AtMostOne(Run(me, s, deleting).w.clusters.entries, me.name)
  {
    var rs := Registries(me, s, deleting);
    RunRefines(me, s, deleting);
    var acts :| IsRun(me.name, me.rkeName, rs, deleting, acts);
    RunKeepsOne(me.name, rs, deleting, acts, |deleting|);
  }

  // Creations

  // The world in which a reconcile of a resource that is not there comes to its POST.
  function BeforePost(me: Self, s: State): World { Resolve(me, Observe(me, s.w, s.st).0, s.pools, 0).0 }

  // The reconcile posts a cluster and the server accepts it, under this id.

  predicate Accepted(me: Self, s: State) {
    var (v, st, found) := Observe(me, s.w, s.st);
    found == Ok(false) && Resolve(me, v, s.pools, 0).2.Ok? && Next(BeforePost(me, s)).outcome != Refused
  }

  function CreatedId(me: Self, s: State): Id { Turn(me, BeforePost(me, s)).clusters.next }

  lemma BeforePostDrifts(me: Self, s: State)
    requires Sound(s.w)
    ensures Drift(me, s.w, BeforePost(me, s)) && Drift(me, s.w, Turn(me, BeforePost(me, s)))
    ensures Observe(me, s.w, s.st).0.clusters.next <= CreatedId(me, s)
  {
    var v := Observe(me, s.w, s.st).0;
    ObserveDrifts(me, s.w, s.st);
    DriftTrans(me, s.w, Turn(me, s.w), v);
    ResolveDrifts(me, v, s.pools, 0);
    DriftTrans(me, s.w, v, BeforePost(me, s));
    TurnDrifts(me, BeforePost(me, s));
    DriftTrans(me, s.w, BeforePost(me, s), Turn(me, BeforePost(me, s)));
  }

  // What becomes of the registry in a reconcile that makes a cluster.
  lemma CreatesOne(me: Self, s: State)
    requires Sound(s.w) && Accepted(me, s)
    ensures var r2, t := Turn(me, BeforePost(me, s)).clusters, Reconcile(me, s, false).w;
      Rely(me.name, Posted(r2, me.rkeName), t.clusters) && Sound(t)
  {
    BeforePostDrifts(me, s);
    var v := BeforePost(me, s);
    var (u, c) := NewCluster(me, v);
    PostedConsistent(me.name, Turn(me, v).clusters, me.rkeName);
    RelySame(me.name, u.clusters);
    if c.Ok? {
      PostPoolsRely(me, u, c.value, Resolve(me, Observe(me, s.w, s.st).0, s.pools, 0).1, 0);
    }
  }

  // An entry of the name is one that was there, or the one that this reconcile made.
  lemma NewEntry(me: Self, s: State, id: Id)
    requires Sound(s.w) && ListedAs(Reconcile(me, s, false).w.clusters.entries, me.name, id)
    ensures ListedAs(s.w.clusters.entries, me.name, id) || (Accepted(me, s) && id == CreatedId(me, s))
  {
    if Accepted(me, s) {
      CreatesOne(me, s);
      BeforePostDrifts(me, s);
    } else {
      NothingCreated(me, s);
    }
  }

  lemma NothingCreated(me: Self, s: State)
    requires Sound(s.w) && !Accepted(me, s)
    ensures Rely(me.name, s.w.clusters, Reconcile(me, s, false).w.clusters)
  {
    ObserveDrifts(me, s.w, s.st);
    DriftTrans(me, s.w, Turn(me, s.w), Observe(me, s.w, s.st).0);
    BeforePostDrifts(me, s);
  }
}

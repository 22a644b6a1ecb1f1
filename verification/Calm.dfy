// The cluster controller once the script has run out: clusters become active, nothing else moves and every request
// succeeds.
module Calm {
  import opened Registry
  import opened World
  import opened ClusterSpec
  import opened ObserveProperties
  import opened CreateProperties
  import opened ClusterRuns

  predicate SameNames(s: seq<Data>, t: seq<Data>) {
    |s| == |t| && forall i :: 0 <= i < |s| ==> s[i].name == t[i].name && s[i].id == t[i].id
  }

  lemma SettledTwice(r: Registry)
    ensures Settled(Settled(r)) == Settled(r)
    ensures SameNames(r.entries, Settled(r).entries)
  {
    assert Settled(Settled(r)).entries == Settled(r).entries;
  }

  // From w to v nothing but states and the log changed.
  predicate CalmTo(w: World, v: World) {
    && Sound(v) && v.script == [] && v.templates == w.templates && v.secrets == w.secrets
    && v.generated == w.generated && Settled(v.clusters) == Settled(w.clusters)
  }

  lemma CalmTurn(me: Self, w: World)
    requires Sound(w) && w.script == []
    ensures Turn(me, w) == w.(clusters := Settled(w.clusters)) && CalmTo(w, Turn(me, w))
    ensures Next(w).outcome == Fine && !Next(w).getFails
  {
    RelySettled(me.name, w.clusters);
    SettledTwice(w.clusters);
  }

  // Create

  predicate SameRefs(ps: seq<NodePool>, qs: seq<NodePool>) {
    |ps| == |qs| && forall i :: 0 <= i < |ps| ==> ps[i].templateRef == qs[i].templateRef
  }

  lemma {:induction false} CalmResolve(me: Self, w: World, ps: seq<NodePool>, i: nat)
    requires Sound(w) && w.script == [] && Resolvable(w.templates, ps) && i <= |ps|
    ensures var (v, qs, r) := Resolve(me, w, ps, i); r.Ok? && CalmTo(w, v)
    decreases |ps| - i
  {
    if i < |ps| {
      if ps[i].templateRef == "" {
        CalmResolve(me, w, ps, i + 1);
      } else {
        CalmTurn(me, w);
        var (v, id) := LookupTemplate(me, w, ps[i].templateRef);
        CalmResolve(me, v, ps[i := ps[i].(templateId := id.value)], i + 1);
      }
    }
  }

  lemma ResolveSameRefs(me: Self, w: World, ps: seq<NodePool>)
    ensures SameRefs(ps, Resolve(me, w, ps, 0).1)
  {
    ResolveOutcome(me, w, ps, 0);
    var k: nat :| ResolvesTo(me, w, ps, 0, k);
    var qs := Resolve(me, w, ps, 0).1;
    forall i | 0 <= i < |ps| ensures ps[i].templateRef == qs[i].templateRef {
      assert i < k ==> ResolvedAt(me, w, Refs(ps), 0, i, ps[i], qs[i]);
    }
  }

  lemma {:induction false} CalmPosts(me: Self, w: World, id: Id, ps: seq<NodePool>, i: nat)
    requires Sound(w) && w.script == [] && i <= |ps|
    ensures var (v, r) := PostPools(me, w, id, ps, i); r.Ok? && CalmTo(w, v)
    decreases |ps| - i
  {
    if i < |ps| {
      CalmTurn(me, w);
      CalmPosts(me, NewNodePool(me, w, id, ps[i]).0, id, ps, i + 1);
    }
  }

  // When all references resolve, Create makes the cluster and posts its pools.
  lemma CalmCreate(me: Self, w: World, ps: seq<NodePool>)
    requires Sound(w) && w.script == [] && Resolvable(w.templates, ps)
    ensures var (u, qs, r) := Create(me, w, ps);
      r.Ok? && SameRefs(ps, qs) && CalmTo(w.(clusters := Posted(Settled(w.clusters), me.rkeName)), u)
  {
    var (v, qs, e) := Resolve(me, w, ps, 0);
    CalmResolve(me, w, ps, 0);
    ResolveSameRefs(me, w, ps);
    CalmTurn(me, v);
    var (x, c) := NewCluster(me, v);
    PostedConsistent(me.name, Settled(v.clusters), me.rkeName);
    CalmPosts(me, x, c.value, qs, 0);
  }

  // Observe

  lemma CalmObserveAbsent(me: Self, w: World, st: Status)
    requires Sound(w) && w.script == [] && !Listed(w.clusters.entries, me.name)
    ensures var (v, t, r) := Observe(me, w, st); r == Ok(false) && t == st && v == Turn(me, w) && CalmTo(w, v)
  {
    CalmTurn(me, w);
    var (v, s) := ListClusters(me, w);
    SettledTwice(w.clusters);
    LoopSkips(me, v, st, s.value, 0);
  }

  lemma {:induction false} LoopSkips(me: Self, w: World, st: Status, s: seq<Data>, i: nat)
    requires i <= |s| && forall j :: i <= j < |s| ==> s[j].name != me.name
    ensures ObserveFrom(me, w, st, s, i, false) == (w, st, Ok(false))
    decreases |s| - i
  {
    if i < |s| {
      LoopSkips(me, w, st, s, i + 1);
    }
  }

  // With its own secret where it looks for it, making the kubeconfig succeeds, and does nothing if it is there.
  lemma CalmGenerate(me: Self, w: World, id: Id)
    requires Sound(w) && w.script == [] && me.namespace != "" && Settled(w.clusters) == w.clusters
    ensures var (v, r) := GenerateKubeconfig(me, w, id);
      && r.Ok? && Sound(v) && v.script == [] && v.clusters == w.clusters && v.templates == w.templates
      && SecretKey(me) in v.secrets && (SecretKey(me) in w.secrets ==> v == w)
  {
    CalmTurn(me, w);
    var (v, exist) := SecretExists(me, w);
    if !exist {
      CalmTurn(me, v);
      var (u, c) := NewConfig(me, v, id);
      CalmTurn(me, u);
      CalmTurn(me, SecretExists(me, u).0);
    }
  }

  lemma {:induction false} CalmLoop(me: Self, w: World, st: Status, s: seq<Data>, i: nat, found: bool)
    requires Sound(w) && w.script == [] && me.namespace != "" && Settled(w.clusters) == w.clusters
    requires i <= |s| && (forall j :: 0 <= j < |s| ==> s[j].state == "active")
    ensures var (v, t, r) := ObserveFrom(me, w, st, s, i, found);
      && r.Ok? && Sound(v) && v.script == [] && v.clusters == w.clusters && v.templates == w.templates
      && ((exists j :: i <= j < |s| && s[j].name == me.name) ==> SecretKey(me) in v.secrets)
      && (SecretKey(me) in w.secrets ==> v == w)
    decreases |s| - i
  {
    if i < |s| {
      if s[i].name != me.name {
        CalmLoop(me, w, st, s, i + 1, found);
      } else {
        CalmGenerate(me, w, s[i].id);
        var (v, t, r) := Seen(me, w, st, s[i]);
        CalmLoop(me, v, t, s, i + 1, true);
      }
    }
  }

  // The listed resource is found active and its secret is there afterwards; a world that was so before is not touched.
  lemma CalmObserveListed(me: Self, w: World, st: Status)
    requires Sound(w) && w.script == [] && me.namespace != "" && Listed(w.clusters.entries, me.name)
    ensures var (v, t, r) := Observe(me, w, st);
      && r == Ok(true) && Sound(v) && v.script == [] && v.clusters == Settled(w.clusters) && v.templates == w.templates
      && SecretKey(me) in v.secrets
      && t.condition == Available && ListedAs(w.clusters.entries, me.name, t.id)
      && (SecretKey(me) in w.secrets ==> v == Turn(me, w))
  {
    hide Rely, Consistent;
    CalmTurn(me, w);
    SettledTwice(w.clusters);
    var (v, s) := ListClusters(me, w);
    var i :| 0 <= i < |w.clusters.entries| && w.clusters.entries[i].name == me.name;
    assert s.value[i].name == me.name;
    CalmLoop(me, v, st, s.value, 0, false);
    ObserveOk(me, w, st);
    var j: nat :| LastMatch(s.value, me.name, |s.value|, j);
    assert w.clusters.entries[j].id == s.value[j].id;
  }

  // Exists, Available, secret present, and nothing more is to come.
  predicate Converged(me: Self, s: State) {
    && s.w.script == [] && Settled(s.w.clusters) == s.w.clusters
    && ListedAs(s.w.clusters.entries, me.name, s.st.id) && s.st.condition == Available
    && SecretKey(me) in s.w.secrets
  }
}

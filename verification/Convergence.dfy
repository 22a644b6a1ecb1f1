// Repeated reconciles reach "exists, Available, secret present" within a bound in what goes wrong on the way: faulty
// requests, listings that show the cluster not yet active, and removals of the cluster by others. How long the script
// is, and what else happens, does not matter.
module Convergence {
  import opened Registry
  import opened World
  import opened ClusterSpec
  import opened ObserveProperties
  import opened CreateProperties
  import opened ClusterRuns
  import opened Calm
  import opened SecretRuns

  // Faults

  // The request does not simply succeed, a read of a secret fails, or some reference cannot be resolved.
  predicate Faulty(b: Beat, spec: seq<NodePool>) {
    b.outcome != Fine || b.getFails || !Resolvable(b.templates, spec)
  }

  // How many faults are still to come.
  function Faults(w: World, spec: seq<NodePool>): nat { FaultsIn(w.script, spec) }

  function FaultsIn(script: seq<Beat>, spec: seq<NodePool>): nat {
    if script == [] then 0 else (if Faulty(script[0], spec) then 1 else 0) + FaultsIn(script[1..], spec)
  }

  // The node templates once the script has run out.
  function FinalTemplates(w: World): seq<Data> {
    if w.script == [] then w.templates else w.script[|w.script| - 1].templates
  }

  // From w to v no fault came back, and one was spent if spent is true.
  predicate Spends(spec: seq<NodePool>, w: World, v: World, spent: bool) {
    && Resolvable(FinalTemplates(v), spec) && |v.script| <= |w.script|
    && Faults(v, spec) + (if spent then 1 else 0) <= Faults(w, spec)
  }

  lemma TurnSpends(me: Self, w: World, spec: seq<NodePool>)
    requires Resolvable(FinalTemplates(w), spec)
    ensures var v := Turn(me, w);
      && Spends(spec, w, v, false) && (w.script != [] ==> |v.script| < |w.script|)
      && (Next(w).outcome != Fine || Next(w).getFails || !Resolvable(v.templates, spec) ==> Spends(spec, w, v, true))
  {
    if w.script != [] {
      var v := Turn(me, w);
      assert v.script == w.script[1..];
      assert v.script != [] ==> v.script[|v.script| - 1] == w.script[|w.script| - 1];
    }
  }

  // Each operation fails only at the cost of a fault

  lemma CreateSecretSpends(me: Self, w: World, c: Config, spec: seq<NodePool>)
    requires Resolvable(FinalTemplates(w), spec) && me.namespace != ""
    ensures var (v, r) := CreateSecret(me, w, c);
      && Spends(spec, w, v, r.Err?)
      && (r.Ok? || SecretKey(me) in w.secrets ==> SecretKey(me) in v.secrets)
  {
    var (v, exist) := SecretExists(me, w);
    TurnSpends(me, w, spec);
    TurnSpends(me, v, spec);
  }

  lemma GenerateSpends(me: Self, w: World, id: Id, spec: seq<NodePool>)
    requires Resolvable(FinalTemplates(w), spec) && me.namespace != ""
    ensures var (v, r) := GenerateKubeconfig(me, w, id);
      && Spends(spec, w, v, r.Err?)
      && (r.Ok? || SecretKey(me) in w.secrets ==> SecretKey(me) in v.secrets)
  {
    hide FaultsIn, Resolvable;
    var (v, exist) := SecretExists(me, w);
    TurnSpends(me, w, spec);
    if !exist {
      var (u, c) := NewConfig(me, v, id);
      TurnSpends(me, v, spec);
      assert Spends(spec, v, u, c.Err?);
      if c.Ok? {
        CreateSecretSpends(me, u, c.value, spec);
      }
    }
  }

  lemma SeenSpends(me: Self, w: World, st: Status, x: Data, spec: seq<NodePool>)
    requires Resolvable(FinalTemplates(w), spec) && me.namespace != ""
    ensures var (v, t, r) := Seen(me, w, st, x);
      && Spends(spec, w, v, r.Err?)
      && ((r.Ok? && x.state == "active") || SecretKey(me) in w.secrets ==> SecretKey(me) in v.secrets)
  {
    if x.state == "active" {
      GenerateSpends(me, w, x.id, spec);
    }
  }

  // Some entry of the name from the i-th on is active.
  predicate ActiveFrom(s: seq<Data>, name: string, i: nat) {
    exists j :: i <= j < |s| && s[j].name == name && s[j].state == "active"
  }

  lemma {:induction false} LoopSpends(me: Self, w: World, st: Status, s: seq<Data>, i: nat, found: bool, spec: seq<NodePool>)
    requires i <= |s| && Resolvable(FinalTemplates(w), spec) && me.namespace != ""
    ensures var (v, t, r) := ObserveFrom(me, w, st, s, i, found);
      && Spends(spec, w, v, r.Err?)
      && ((r.Ok? && ActiveFrom(s, me.name, i)) || SecretKey(me) in w.secrets ==> SecretKey(me) in v.secrets)
    decreases |s| - i
  {
    if i < |s| {
      if s[i].name != me.name {
        LoopSpends(me, w, st, s, i + 1, found, spec);
      } else {
        var (v, t, r) := Seen(me, w, st, s[i]);
        SeenSpends(me, w, st, s[i], spec);
        if r.Ok? {
          LoopSpends(me, v, t, s, i + 1, true, spec);
        }
      }
    }
  }

  lemma ObserveSpends(me: Self, w: World, st: Status, spec: seq<NodePool>)
    requires Resolvable(FinalTemplates(w), spec) && me.namespace != ""
    ensures var v := Turn(me, w);
      var (u, t, r) := Observe(me, w, st);
      && Spends(spec, w, u, r.Err?) && (w.script != [] ==> |u.script| < |w.script|)
      && (r.Ok? && ActiveFrom(v.clusters.entries, me.name, 0) ==> SecretKey(me) in u.secrets)
  {
    var (v, s) := ListClusters(me, w);
    TurnSpends(me, w, spec);
    if s.Ok? {
      LoopSpends(me, v, st, s.value, 0, false, spec);
    }
  }

  lemma LookupSpends(me: Self, w: World, ps: seq<NodePool>, i: nat, spec: seq<NodePool>)
    requires i < |ps| && ps[i].templateRef != "" && SameRefs(spec, ps) && Resolvable(FinalTemplates(w), spec)
    ensures var (v, id) := LookupTemplate(me, w, ps[i].templateRef); Spends(spec, w, v, id.Err?)
  {
    TurnSpends(me, w, spec);
    assert spec[i].templateRef == ps[i].templateRef;
    assert Resolvable(Turn(me, w).templates, spec) ==> Listed(Turn(me, w).templates, ps[i].templateRef);
  }

  lemma {:induction false} ResolveSpends(me: Self, w: World, ps: seq<NodePool>, i: nat, spec: seq<NodePool>)
    requires i <= |ps| && SameRefs(spec, ps) && Resolvable(FinalTemplates(w), spec)
    ensures var (v, qs, r) := Resolve(me, w, ps, i); Spends(spec, w, v, r.Err?)
    decreases |ps| - i
  {
    hide FaultsIn, Resolvable;
    if i < |ps| {
      if ps[i].templateRef == "" {
        ResolveSpends(me, w, ps, i + 1, spec);
      } else {
        var (v, id) := LookupTemplate(me, w, ps[i].templateRef);
        LookupSpends(me, w, ps, i, spec);
        if id.Ok? {
          ResolveSpends(me, v, ps[i := ps[i].(templateId := id.value)], i + 1, spec);
        }
      }
    }
  }

  lemma {:induction false} PostsSpend(me: Self, w: World, id: Id, ps: seq<NodePool>, i: nat, spec: seq<NodePool>)
    requires i <= |ps| && Resolvable(FinalTemplates(w), spec)
    ensures var (v, r) := PostPools(me, w, id, ps, i); Spends(spec, w, v, r.Err?)
    decreases |ps| - i
  {
    if i < |ps| {
      var (v, r) := NewNodePool(me, w, id, ps[i]);
      TurnSpends(me, w, spec);
      if r.Ok? {
        PostsSpend(me, v, id, ps, i + 1, spec);
      }
    }
  }

  lemma NewClusterSpends(me: Self, w: World, spec: seq<NodePool>)
    requires Resolvable(FinalTemplates(w), spec)
    ensures var (v, r) := NewCluster(me, w); Spends(spec, w, v, r.Err?)
  {
    TurnSpends(me, w, spec);
  }

  lemma CreateSpends(me: Self, w: World, ps: seq<NodePool>, spec: seq<NodePool>)
    requires SameRefs(spec, ps) && Resolvable(FinalTemplates(w), spec)
    ensures var (v, qs, r) := Create(me, w, ps); Spends(spec, w, v, r.Err?) && SameRefs(spec, qs)
  {
    var (v, qs, e) := Resolve(me, w, ps, 0);
    ResolveSpends(me, w, ps, 0, spec);
    ResolveSameRefs(me, w, ps);
    if e.Ok? {
      var (u, c) := NewCluster(me, v);
      NewClusterSpends(me, v, spec);
      if c.Ok? {
        PostsSpend(me, u, c.value, qs, 0, spec);
      }
    }
  }

  // What else can go wrong in a reconcile

  // The listing shows a cluster of the name that is not active.
  predicate Delayed(me: Self, s: State) {
    var es := Turn(me, s.w).clusters.entries;
    Next(s.w).outcome == Fine && exists i :: 0 <= i < |es| && es[i].name == me.name && es[i].state != "active"
  }

  // The cluster was there, or was made, and others have removed it by the listing or by the end.
  predicate Vanishes(me: Self, s: State) {
    var listed := Turn(me, s.w).clusters.entries;
    var t := Reconcile(me, s, false);
    || (Listed(s.w.clusters.entries, me.name) && !Listed(listed, me.name))
    || ((Listed(listed, me.name) || Accepted(me, s)) && !Listed(t.w.clusters.entries, me.name))
  }

  // It is others who do that: a reconcile of a resource that is to be kept deletes nothing.
  lemma DeletesNothing(me: Self, s: State)
    requires Sound(s.w)
    ensures var t := Reconcile(me, s, false);
      s.w.log <= t.w.log && forall i :: |s.w.log| <= i < |t.w.log| ==> !t.w.log[i].DeleteCluster?
  {
    var (v, st, found) := Observe(me, s.w, s.st);
    ObserveDrifts(me, s.w, s.st);
    DriftTrans(me, s.w, Turn(me, s.w), v);
    if found == Ok(false) {
      CreateOutcome(me, v, s.pools);
      var resolved: bool, id: Id, k: nat :| CreateComesTo(me, v, s.pools, resolved, id, k);
    }
  }

  // Progress

  // A resource that can get there: its name is the cluster's, it names a namespace for its secret, at most one cluster
  // has its name, and its references resolve in the end.
  predicate Ready(me: Self, spec: seq<NodePool>, s: State) {
    && me.rkeName == me.name && me.namespace != ""
    && Sound(s.w) && AtMostOne(s.w.clusters.entries, me.name)
    && SameRefs(spec, s.pools) && Resolvable(FinalTemplates(s.w), spec)
  }

  // Exists, Available, secret present.
  predicate Goal(me: Self, s: State) {
    && ListedAs(s.w.clusters.entries, me.name, s.st.id) && s.st.condition == Available
    && SecretKey(me) in s.w.secrets
  }

  function Phase(me: Self, s: State): nat { if Listed(s.w.clusters.entries, me.name) then 1 else 2 }

  lemma ReadyStays(me: Self, spec: seq<NodePool>, s: State)
    requires Ready(me, spec, s)
    ensures var t := Reconcile(me, s, false);
      && Ready(me, spec, t) && Faults(t.w, spec) <= Faults(s.w, spec)
      && |t.w.script| <= |s.w.script| && (s.w.script != [] ==> |t.w.script| < |s.w.script|)
  {
    var t := Reconcile(me, s, false);
    ReconcileRefines(me, s, false);
    var act :| Reconciles(me.name, me.rkeName, false, s.w.clusters, t.w.clusters, act);
    ReconcileKeepsOne(me.name, false, s.w.clusters, t.w.clusters, act);
    var v := Observe(me, s.w, s.st).0;
    ObserveSpends(me, s.w, s.st, spec);
    CreateSpends(me, v, s.pools, spec);
  }

  // Observe finds the one cluster active, and others leave it alone.
  lemma ObserveArrives(me: Self, spec: seq<NodePool>, s: State)
    requires Ready(me, spec, s)
    requires Listed(Turn(me, s.w).clusters.entries, me.name) && !Delayed(me, s) && !Vanishes(me, s)
    ensures var t := Reconcile(me, s, false); Goal(me, t) || Faults(t.w, spec) < Faults(s.w, spec)
  {
    var r1 := Turn(me, s.w).clusters;
    var (v, st, found) := Observe(me, s.w, s.st);
    ObserveSpends(me, s.w, s.st, spec);
    ObserveDrifts(me, s.w, s.st);
    RelyKeeps(me.name, s.w.clusters, r1);
    if found.Ok? {
      ObserveOk(me, s.w, s.st);
      var j: nat :| LastMatch(r1.entries, me.name, |r1.entries|, j);
      assert r1.entries[j].state == "active";
      assert Reconcile(me, s, false) == State(v, st, s.pools);
      var i :| 0 <= i < |v.clusters.entries| && v.clusters.entries[i].name == me.name;
      assert ListedAs(r1.entries, me.name, v.clusters.entries[i].id);
      assert v.clusters.entries[i].id == st.id;
    }
  }

  // A cluster that is not there is made, and if others leave it alone it is there at the end.
  lemma CreateArrives(me: Self, spec: seq<NodePool>, s: State)
    requires Ready(me, spec, s)
    requires !Listed(Turn(me, s.w).clusters.entries, me.name) && !Vanishes(me, s)
    ensures var t := Reconcile(me, s, false);
      Listed(t.w.clusters.entries, me.name) || Faults(t.w, spec) < Faults(s.w, spec)
  {
    var (v, st, found) := Observe(me, s.w, s.st);
    ObserveSpends(me, s.w, s.st, spec);
    ObserveDrifts(me, s.w, s.st);
    if found.Ok? {
      CreateSpends(me, v, s.pools, spec);
      var (u, qs, e) := Resolve(me, v, s.pools, 0);
      ResolveSpends(me, v, s.pools, 0, spec);
      if e.Ok? && Next(u).outcome == Refused {
        NewClusterSpends(me, u, spec);
      }
    }
  }

  // Every reconcile that others leave alone gets there, or spends a fault or a delay, or makes the missing cluster.
  lemma ReconcileAdvances(me: Self, spec: seq<NodePool>, s: State)
    requires Ready(me, spec, s)
    ensures var t := Reconcile(me, s, false);
      && (Goal(me, t) || Faults(t.w, spec) < Faults(s.w, spec) || Delayed(me, s) || Vanishes(me, s)
          || Phase(me, t) < Phase(me, s))
      && (Phase(me, t) <= Phase(me, s) || Vanishes(me, s))
  {
    var r1 := Turn(me, s.w).clusters;
    ObserveDrifts(me, s.w, s.st);
    RelyKeeps(me.name, s.w.clusters, r1);
    if !Vanishes(me, s) {
      if Listed(r1.entries, me.name) {
        if !Delayed(me, s) {
          ObserveArrives(me, spec, s);
        }
      } else {
        CreateArrives(me, spec, s);
      }
    }
  }

  // Over whole runs

  function Keeping(n: nat): seq<bool> { seq(n, i => false) }

  function After(me: Self, s: State, n: nat): State { Run(me, s, Keeping(n)) }

  lemma AfterOneMore(me: Self, s: State, n: nat)
    ensures After(me, s, n + 1) == Reconcile(me, After(me, s, n), false)
  {
    assert Keeping(n + 1) == Keeping(n) + [false];
    RunOneMore(me, s, Keeping(n), false);
  }

  // How many of the first n reconciles list the cluster before it is active, and from how many it vanishes.

  function Delays(me: Self, s: State, n: nat): nat {
    if n == 0 then 0 else Delays(me, s, n - 1) + if Delayed(me, After(me, s, n - 1)) then 1 else 0
  }

  function Removals(me: Self, s: State, n: nat): nat {
    if n == 0 then 0 else Removals(me, s, n - 1) + if Vanishes(me, After(me, s, n - 1)) then 1 else 0
  }

  predicate Reached(me: Self, s: State, n: nat) { exists k :: 0 < k <= n && Goal(me, After(me, s, k)) }

  lemma {:induction false} StaysReady(me: Self, spec: seq<NodePool>, s: State, n: nat)
    requires Ready(me, spec, s)
    ensures Ready(me, spec, After(me, s, n)) && Faults(After(me, s, n).w, spec) <= Faults(s.w, spec)
  {
    if n > 0 {
      StaysReady(me, spec, s, n - 1);
      AfterOneMore(me, s, n - 1);
      ReadyStays(me, spec, After(me, s, n - 1));
    }
  }

  // Until the goal is reached, each reconcile is paid for by a fault, a delay, a removal (which may cost one more), or
  // the one step of making the cluster.
  lemma {:induction false} EachIsPaidFor(me: Self, spec: seq<NodePool>, s: State, n: nat)
    requires Ready(me, spec, s)
    ensures var t := After(me, s, n);
      Reached(me, s, n) ||
      n + Faults(t.w, spec) + Phase(me, t) <= Faults(s.w, spec) + Delays(me, s, n) + 2 * Removals(me, s, n) + Phase(me, s)
  {
    if n > 0 {
      EachIsPaidFor(me, spec, s, n - 1);
      StaysReady(me, spec, s, n - 1);
      AfterOneMore(me, s, n - 1);
      var u, t := After(me, s, n - 1), After(me, s, n);
      ReadyStays(me, spec, u);
      ReconcileAdvances(me, spec, u);
      if Reached(me, s, n - 1) {
        var k :| 0 < k <= n - 1 && Goal(me, After(me, s, k));
        assert Reached(me, s, n);
      } else if Goal(me, t) {
        assert Reached(me, s, n);
      }
    }
  }

  // Bounded convergence: one reconcile for each fault and for each delay, two for each removal, and two more.
  lemma Converges(me: Self, s: State, n: nat)
    requires Ready(me, s.pools, s)
    requires Faults(s.w, s.pools) + Delays(me, s, n) + 2 * Removals(me, s, n) + 2 <= n
    ensures Reached(me, s, n)
  {
    EachIsPaidFor(me, s.pools, s, n);
  }

  // Once there

  // While reads tell the truth and others leave the cluster alone, a reconcile of a resource that is there requests
  // and writes nothing, whatever else fails or moves; and if nothing fails and the cluster is listed active, the
  // resource is there still, with the same status.
  lemma GoalStays(me: Self, spec: seq<NodePool>, s: State)
    requires Ready(me, spec, s) && Goal(me, s) && Faithful(s.w) && !Vanishes(me, s)
    ensures var t := Reconcile(me, s, false);
      && t.w.log == s.w.log && t.pools == s.pools && SecretsSame(me, s.w, t.w)
      && (!Delayed(me, s) && Faults(t.w, spec) == Faults(s.w, spec) ==> Goal(me, t) && t.st == s.st)
  {
    var r1 := Turn(me, s.w).clusters;
    var (v, st, found) := Observe(me, s.w, s.st);
    ObserveDrifts(me, s.w, s.st);
    DriftTrans(me, s.w, Turn(me, s.w), v);
    ObserveOnce(me, s.w, s.st);
    assert found != Ok(false);
    assert |v.log| == |s.w.log|;
    var t := Reconcile(me, s, false);
    if !Delayed(me, s) && Faults(t.w, spec) == Faults(s.w, spec) {
      ObserveArrives(me, spec, s);
      SameEntry(me, s.w.clusters, t.w.clusters, s.st.id, t.st.id);
    }
  }

  lemma SameEntry(me: Self, r: Registry, q: Registry, a: Id, b: Id)
    requires Rely(me.name, r, q) && AtMostOne(r.entries, me.name)
    requires ListedAs(r.entries, me.name, a) && ListedAs(q.entries, me.name, b)
    ensures a == b
  {
    assert ListedAs(r.entries, me.name, b);
  }

  // In the calm

  // With the script run out there are no delays and no removals any more.
  lemma CalmGoesWell(me: Self, spec: seq<NodePool>, s: State)
    requires Ready(me, spec, s) && s.w.script == []
    ensures !Delayed(me, s) && !Vanishes(me, s)
  {
    CalmTurn(me, s.w);
    SettledTwice(s.w.clusters);
    if Listed(s.w.clusters.entries, me.name) {
      CalmObserveListed(me, s.w, s.st);
    } else {
      CalmObserveAbsent(me, s.w, s.st);
      var v := Observe(me, s.w, s.st).0;
      CalmCreate(me, v, s.pools);
      var posted := Posted(Settled(v.clusters), me.rkeName);
      var t := Reconcile(me, s, false);
      SettledTwice(posted);
      SettledTwice(t.w.clusters);
      var n := |posted.entries| - 1;
      assert posted.entries[n].name == me.name;
      assert Settled(posted).entries[n].name == me.name;
      assert t.w.clusters.entries[n].name == me.name;
    }
  }

  // Delays and removals are at most as many as the beats that have passed.
  lemma {:induction false} BudgetsEnd(me: Self, spec: seq<NodePool>, s: State, n: nat)
    requires Ready(me, spec, s)
    ensures var passed := |s.w.script| - |After(me, s, n).w.script|;
      Delays(me, s, n) <= passed && Removals(me, s, n) <= passed
  {
    if n > 0 {
      BudgetsEnd(me, spec, s, n - 1);
      StaysReady(me, spec, s, n - 1);
      AfterOneMore(me, s, n - 1);
      var u := After(me, s, n - 1);
      ReadyStays(me, spec, u);
      if u.w.script == [] {
        CalmGoesWell(me, spec, u);
      }
    }
  }

  // So the goal is always reached.
  lemma AlwaysConverges(me: Self, s: State)
    requires Ready(me, s.pools, s)
    ensures Reached(me, s, Faults(s.w, s.pools) + 3 * |s.w.script| + 2)
  {
    var n := Faults(s.w, s.pools) + 3 * |s.w.script| + 2;
    BudgetsEnd(me, s.pools, s, n);
    Converges(me, s, n);
  }

  // Deletion

  // A resource that can be deleted; its name and its cluster's need not be equal.
  predicate Removable(me: Self, s: State) {
    me.namespace != "" && Sound(s.w) && AtMostOne(s.w.clusters.entries, me.name)
  }

  lemma RemovableStays(me: Self, s: State)
    requires Removable(me, s)
    ensures Removable(me, Reconcile(me, s, true))
  {
    var t := Reconcile(me, s, true);
    ReconcileRefines(me, s, true);
    var act :| Reconciles(me.name, me.rkeName, true, s.w.clusters, t.w.clusters, act);
    var r1, r2 :| Rely(me.name, s.w.clusters, r1) && Rely(me.name, r1, r2)
                  && ActsFrom(me.name, me.rkeName, true, r1, r2, t.w.clusters, act);
    assert ActsFrom(me.name, me.name, true, r1, r2, t.w.clusters, act);
    ReconcileKeepsOne(me.name, true, s.w.clusters, t.w.clusters, act);
  }

  lemma DropSpends(me: Self, w: World, id: Id, r1: Registry)
    requires Sound(w) && Rely(me.name, r1, w.clusters) && AtMostOne(r1.entries, me.name) && ListedAs(r1.entries, me.name, id)
    ensures var v := DropCluster(me, w, id).0;
      && Faults(v, []) <= Faults(w, [])
      && (Listed(v.clusters.entries, me.name) ==> Faults(v, []) < Faults(w, []))
  {
    var v, r2 := DropCluster(me, w, id).0, Turn(me, w).clusters;
    TurnSpends(me, w, []);
    TurnDrifts(me, w);
    RelyTrans(me.name, r1, w.clusters, r2);
    RemovedGone(me.name, r1, r2, id);
    assert v.script == Turn(me, w).script;
    assert v.clusters == r2 || v.clusters == Removed(r2, id);
  }

  // One reconcile deletes the cluster or spends a fault; without a cluster it requests nothing, and none appears.
  lemma ReconcileRemoves(me: Self, s: State)
    requires Removable(me, s)
    ensures var t := Reconcile(me, s, true);
      && (Listed(t.w.clusters.entries, me.name) ==> Faults(t.w, []) < Faults(s.w, []))
      && (!Listed(s.w.clusters.entries, me.name) ==> !Listed(t.w.clusters.entries, me.name) && t.w.log == s.w.log)
  {
    var w1 := Turn(me, s.w);
    var (v, st, found) := Observe(me, s.w, s.st);
    ObserveSpends(me, s.w, s.st, []);
    ObserveDrifts(me, s.w, s.st);
    RelyKeeps(me.name, s.w.clusters, w1.clusters);
    RelyKeeps(me.name, w1.clusters, v.clusters);
    if found == Ok(true) {
      DropSpends(me, v, st.id, w1.clusters);
    }
    if !Listed(s.w.clusters.entries, me.name) {
      NothingListed(me, s.w, s.st);
    }
  }

  lemma NothingListed(me: Self, w: World, st: Status)
    requires !Listed(Turn(me, w).clusters.entries, me.name)
    ensures Observe(me, w, st).0.log == w.log && Observe(me, w, st).2 != Ok(true)
  {
    var (v, s) := ListClusters(me, w);
    if s.Ok? {
      LoopSkips(me, v, st, s.value, 0);
    }
  }

  function Removing(n: nat): seq<bool> { seq(n, i => true) }

  lemma {:induction false} RunRemoves(me: Self, s: State, n: nat)
    requires Removable(me, s)
    ensures var t := Run(me, s, Removing(n));
      Removable(me, t) && (Listed(t.w.clusters.entries, me.name) ==> n + Faults(t.w, []) <= Faults(s.w, []))
  {
    if n > 0 {
      assert Removing(n) == Removing(n - 1) + [true];
      RunOneMore(me, s, Removing(n - 1), true);
      RunRemoves(me, s, n - 1);
      var t := Run(me, s, Removing(n - 1));
      RemovableStays(me, t);
      ReconcileRemoves(me, t);
    }
  }

  // Bounded deletion: one reconcile more than there are faults to come, whatever the script's length and however slow
  // the cluster, and from then on it is gone.
  lemma Removes(me: Self, s: State, n: nat)
    requires Removable(me, s) && Faults(s.w, []) < n
    ensures !Listed(Run(me, s, Removing(n)).w.clusters.entries, me.name)
  {
    RunRemoves(me, s, n);
  }
}

// What becomes of a resource that names no namespace for its kubeconfig secret, which is then created in one place
// and looked for in another.
module NoNamespace {
  import opened Registry
  import opened World
  import opened ClusterSpec
  import opened ObserveProperties
  import opened ClusterRuns
  import opened Calm
  import opened Convergence
  import opened SecretRuns
  import opened Paths

  // The lookup never finds the secret, so a kubeconfig is asked for every time.
  lemma AsksAgain(me: Self, w: World, id: Id)
    requires Sound(w) && me.namespace == ""
    ensures |GenerateKubeconfig(me, w, id).0.log| > |w.log|
  {
    var (v, exist) := SecretExists(me, w);
    TurnDrifts(me, w);
    var (u, c) := NewConfig(me, v, id);
    TurnDrifts(me, v);
    if c.Ok? {
      SecretDrifts(me, u, c.value);
    }
  }

  lemma {:induction false} LoopAsksAgain(me: Self, w: World, st: Status, s: seq<Data>, i: nat, found: bool)
    requires i <= |s| && Sound(w) && me.namespace == ""
    requires exists j :: i <= j < |s| && s[j].name == me.name && s[j].state == "active"
    ensures |ObserveFrom(me, w, st, s, i, found).0.log| > |w.log|
    decreases |s| - i
  {
    if s[i].name != me.name {
      LoopAsksAgain(me, w, st, s, i + 1, found);
    } else {
      var (v, t, r) := Seen(me, w, st, s[i]);
      if s[i].state == "active" {
        AsksAgain(me, w, s[i].id);
        GenerateDrifts(me, w, s[i].id);
        if r.Ok? {
          LoopDrifts(me, v, t, s, i + 1, true);
        }
      } else {
        LoopAsksAgain(me, v, t, s, i + 1, true);
      }
    }
  }

  // Where the resource has all it wants in a calm world, a reconcile leaves everything alone if and only if the
  // namespace of the secret is named.
  lemma StaysExactly(me: Self, s: State)
    requires Sound(s.w) && Converged(me, s) && AtMostOne(s.w.clusters.entries, me.name)
    ensures Reconcile(me, s, false) == s <==> me.namespace != ""
  {
    if me.namespace != "" {
      CalmObserveListed(me, s.w, s.st);
      CalmTurn(me, s.w);
      var t := Observe(me, s.w, s.st).1;
      assert ListedAs(s.w.clusters.entries, me.name, t.id) && ListedAs(s.w.clusters.entries, me.name, s.st.id);
    } else {
      var (v, r) := ListClusters(me, s.w);
      CalmTurn(me, s.w);
      LoopAsksAgain(me, v, s.st, r.value, 0, false);
      ObserveFound(me, s);
    }
  }

  lemma ObserveFound(me: Self, s: State)
    requires Sound(s.w) && Converged(me, s)
    ensures Reconcile(me, s, false).w == Observe(me, s.w, s.st).0
  {
    CalmTurn(me, s.w);
    if Observe(me, s.w, s.st).2.Ok? {
      ObserveOk(me, s.w, s.st);
    }
  }

  // Nor can the secret be created once more: Observe fails at the first active entry, in any world.
  lemma {:induction false} LoopRefuses(me: Self, w: World, st: Status, s: seq<Data>, i: nat, found: bool)
    requires i <= |s| && Sound(w) && me.namespace == "" && SecretKey(me) in w.secrets
    requires exists j :: i <= j < |s| && s[j].name == me.name && s[j].state == "active"
    ensures ObserveFrom(me, w, st, s, i, found).2.Err?
    decreases |s| - i
  {
    if s[i].name == me.name && s[i].state == "active" {
      PresentSecret(me, w, s[i].id);
    } else if s[i].name == me.name {
      LoopRefuses(me, w, Seen(me, w, st, s[i]).1, s, i + 1, true);
    } else {
      LoopRefuses(me, w, st, s, i + 1, found);
    }
  }

  lemma {:induction false} PathKeepsSecret(me: Self, ws: seq<World>, i: nat)
    requires Path(me, ws) && i < |ws| && SecretKey(me) in ws[0].secrets
    ensures SecretKey(me) in ws[i].secrets
    decreases i
  {
    if i > 0 {
      PathKeepsSecret(me, ws, i - 1);
      assert Tick(me, ws[i - 1], ws[i - 1 + 1]);
    }
  }

  // If the listing is answered, it shows the cluster active.
  predicate ListedActive(me: Self, s: State) {
    Next(s.w).outcome == Fine ==> AnyActive(Turn(me, s.w).clusters.entries, me.name)
  }

  // From w to v the resource requested neither a cluster nor a pool nor a deletion, and the clusters are moved only by
  // others; its secret is there.
  predicate Refused(me: Self, w: World, v: World) { Drift(me, w, v) && SecretKey(me) in v.secrets }

  lemma ReconcileRefuses(me: Self, s: State, deleting: bool)
    requires Sound(s.w) && me.namespace == "" && SecretKey(me) in s.w.secrets && ListedActive(me, s)
    ensures Refused(me, s.w, Reconcile(me, s, deleting).w)
  {
    hide Rely, Consistent, ObserveFrom;
    var (v, r) := ListClusters(me, s.w);
    var u := Observe(me, s.w, s.st).0;
    TurnDrifts(me, s.w);
    ObserveDrifts(me, s.w, s.st);
    DriftTrans(me, s.w, v, u);
    if r.Ok? {
      LaterTurn(me, s.w);
      LoopRefuses(me, v, s.st, r.value, 0, false);
    }
    ObserveTicks(me, s.w, s.st);
    var ws: seq<World> :| Along(me, s.w, u, ws);
    PathKeepsSecret(me, ws, |ws| - 1);
  }

  // Over every run, with any faults: while its cluster is listed active, a resource that has its secret and names no
  // namespace deletes nothing, however often it is reconciled.
  lemma {:induction false} RunRefuses(me: Self, s: State, deleting: seq<bool>)
    requires Sound(s.w) && me.namespace == "" && SecretKey(me) in s.w.secrets
    requires forall i :: 0 <= i < |deleting| ==> ListedActive(me, Run(me, s, deleting[..i]))
    ensures Refused(me, s.w, Run(me, s, deleting).w)
    decreases |deleting|
  {
    hide Rely, Consistent, ListedActive, Reconcile;
    if deleting == [] {
      RelySame(me.name, s.w.clusters);
    } else {
      var n := |deleting| - 1;
      var t := Run(me, s, deleting[..n]);
      forall i | 0 <= i < n ensures ListedActive(me, Run(me, s, deleting[..n][..i])) {
        assert deleting[..n][..i] == deleting[..i];
      }
      RunRefuses(me, s, deleting[..n]);
      ReconcileRefuses(me, t, deleting[n]);
      DriftTrans(me, s.w, t.w, Run(me, s, deleting).w);
    }
  }

  // In the calm the cluster is listed active for good.

  lemma CalmFails(me: Self, w: World, id: Id)
    requires Sound(w) && w.script == [] && Settled(w.clusters) == w.clusters && me.namespace == ""
    ensures var v := GenerateKubeconfig(me, w, id).0; v.clusters == w.clusters && v.script == []
  {
    var (v, exist) := SecretExists(me, w);
    CalmTurn(me, w);
    var (u, c) := NewConfig(me, v, id);
    CalmTurn(me, v);
    var (x, again) := SecretExists(me, u);
    CalmTurn(me, u);
    CalmTurn(me, x);
  }

  lemma {:induction false} LoopFails(me: Self, w: World, st: Status, s: seq<Data>, i: nat, found: bool)
    requires i <= |s| && Sound(w) && w.script == [] && Settled(w.clusters) == w.clusters
    requires me.namespace == "" && SecretKey(me) in w.secrets
    requires exists j :: i <= j < |s| && s[j].name == me.name && s[j].state == "active"
    ensures var v := ObserveFrom(me, w, st, s, i, found).0; v.clusters == w.clusters && v.script == []
    decreases |s| - i
  {
    if s[i].name == me.name && s[i].state == "active" {
      PresentSecret(me, w, s[i].id);
      CalmFails(me, w, s[i].id);
    } else if s[i].name == me.name {
      LoopFails(me, w, Seen(me, w, st, s[i]).1, s, i + 1, true);
    } else {
      LoopFails(me, w, st, s, i + 1, found);
    }
  }

  // In the calm, with its one cluster listed and no secret yet: the first Observe creates the secret in `default` and
  // succeeds, and the next one fails.
  lemma SecondFails(me: Self, w: World, st: Status, j: nat)
    requires Sound(w) && w.script == [] && me.namespace == "" && OnlyMatch(w.clusters.entries, me.name, j)
    requires Key("default", me.name + "-kubeconfig") !in w.secrets
    ensures var (v, t, r) := Observe(me, w, st);
      var key := Key("default", me.name + "-kubeconfig");
      var id := w.clusters.entries[j].id;
      && r == Ok(true) && t == Status(id, Available)
      && v.log == w.log + [Generate(id), WriteSecret(key)]
      && key in v.secrets && v.secrets[key] == Config(id, w.generated)
      && var (u, _, e) := Observe(me, v, t); e.Err? && key in u.secrets && u.secrets[key] == v.secrets[key]
  {
    hide Rely, Consistent, ObserveFrom, GenerateKubeconfig;
    var u := Turn(me, w);
    CalmTurn(me, w);
    SettledTwice(w.clusters);
    ObserveOnly(me, w, st, j);
    AbsentSecret(me, u, w.clusters.entries[j].id);
    CalmFails(me, u, w.clusters.entries[j].id);
    var (v, t, r) := Observe(me, w, st);
    ObserveDrifts(me, w, st);
    CalmTurn(me, v);
    ObserveOnly(me, v, t, j);
    PresentSecret(me, Turn(me, v), w.clusters.entries[j].id);
  }

  predicate Stuck(me: Self, s: State) {
    && Sound(s.w) && s.w.script == [] && Settled(s.w.clusters) == s.w.clusters
    && Listed(s.w.clusters.entries, me.name) && SecretKey(me) in s.w.secrets
  }

  lemma ReconcileStuck(me: Self, s: State)
    requires Stuck(me, s) && me.namespace == ""
    ensures Stuck(me, Reconcile(me, s, true))
  {
    hide Rely, Consistent, ObserveFrom;
    var (v, r) := ListClusters(me, s.w);
    CalmTurn(me, s.w);
    var es := s.w.clusters.entries;
    var i :| 0 <= i < |es| && es[i].name == me.name;
    assert Settled(s.w.clusters).entries[i].state == "active";
    LoopRefuses(me, v, s.st, r.value, 0, false);
    LoopFails(me, v, s.st, r.value, 0, false);
    ReconcileRefuses(me, s, true);
  }

  lemma {:induction false} RunStuck(me: Self, s: State, n: nat)
    requires Stuck(me, s) && me.namespace == ""
    ensures Stuck(me, Run(me, s, Removing(n)))
  {
    hide Stuck, Reconcile;
    if n > 0 {
      assert Removing(n) == Removing(n - 1) + [true];
      RunOneMore(me, s, Removing(n - 1), true);
      RunStuck(me, s, n - 1);
      ReconcileStuck(me, Run(me, s, Removing(n - 1)));
    }
  }

  // A resource that has all it wants is gone after any number of reconciles that delete it, the first one included, if
  // the namespace of its secret is named, and after none if it is not.
  lemma DeletesExactly(me: Self, s: State, n: nat)
    requires Sound(s.w) && Converged(me, s) && AtMostOne(s.w.clusters.entries, me.name) && 0 < n
    ensures !Listed(Run(me, s, Removing(n)).w.clusters.entries, me.name) <==> me.namespace != ""
  {
    hide Run;
    if me.namespace != "" {
      Removes(me, s, n);
    } else {
      RunStuck(me, s, n);
    }
  }
}

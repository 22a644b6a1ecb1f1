// The kubeconfig secret: written once over whole runs when its namespace is named and reads tell the truth, and
// exactly what happens otherwise.
module SecretRuns {
  import opened Registry
  import opened World
  import opened ClusterSpec
  import opened ObserveProperties
  import opened CreateProperties
  import opened ClusterRuns
  import opened Calm

  // Reads of secrets fail only when the secret is not there.
  predicate Faithful(w: World) { forall i :: 0 <= i < |w.script| ==> !w.script[i].getFails }

  // How often the log notes that the resource's secret was written.
  function Writes(me: Self, log: seq<Request>): nat {
    if log == [] then 0
    else Writes(me, log[..|log| - 1]) + if log[|log| - 1] == WriteSecret(SecretKey(me)) then 1 else 0
  }

  lemma WritesAdd(me: Self, log: seq<Request>, r: Request)
    ensures Writes(me, log + [r]) == Writes(me, log) + if r == WriteSecret(SecretKey(me)) then 1 else 0
  {
    assert (log + [r])[..|log|] == log;
  }

  // No kubeconfig is asked for and no secret written.
  predicate Silent(a: Request) { !a.Generate? && !a.WriteSecret? }

  // From w to v the resource's secret stays as it is, and no kubeconfig is asked for.
  predicate Untouched(me: Self, w: World, v: World) {
    && Faithful(v) && SecretsSame(me, w, v)
    && w.log <= v.log && Writes(me, v.log) == Writes(me, w.log)
    && forall i :: |w.log| <= i < |v.log| ==> Silent(v.log[i])
  }

  predicate SecretsSame(me: Self, w: World, v: World) {
    && (SecretKey(me) in w.secrets <==> SecretKey(me) in v.secrets)
    && (SecretKey(me) in w.secrets ==> v.secrets[SecretKey(me)] == w.secrets[SecretKey(me)])
  }

  // A secret that is there stays untouched; one that is not is written once if it is there in the end, else never.
  predicate Once(me: Self, w: World, v: World) {
    if SecretKey(me) in w.secrets then Untouched(me, w, v)
    else Faithful(v) && w.log <= v.log &&
         Writes(me, v.log) == Writes(me, w.log) + if SecretKey(me) in v.secrets then 1 else 0
  }

  lemma OnceTrans(me: Self, w: World, v: World, u: World)
    requires Once(me, w, v) && Once(me, v, u)
    ensures Once(me, w, u)
  {
  }

  lemma UntouchedOnce(me: Self, w: World, v: World)
    requires Untouched(me, w, v)
    ensures Once(me, w, v)
  {
  }

  lemma TurnUntouched(me: Self, w: World)
    requires Faithful(w)
    ensures Untouched(me, w, Turn(me, w)) && !Next(w).getFails
  {
  }

  // A silent request leaves the secret untouched.
  lemma RequestUntouched(me: Self, w: World, v: World, r: Request)
    requires Faithful(w) && Silent(r)
    requires v.log == Turn(me, w).log + [r] && v.secrets == Turn(me, w).secrets && v.script == Turn(me, w).script
    ensures Untouched(me, w, v)
  {
    WritesAdd(me, w.log, r);
  }

  lemma NewConfigOnce(me: Self, w: World, id: Id)
    requires Faithful(w)
    ensures var u := NewConfig(me, w, id).0;
      && Faithful(u) && SecretsSame(me, w, u) && u.log == w.log + [Generate(id)] && Writes(me, u.log) == Writes(me, w.log)
  {
    TurnUntouched(me, w);
    WritesAdd(me, w.log, Generate(id));
  }

  lemma GenerateOnce(me: Self, w: World, id: Id)
    requires Faithful(w) && me.namespace != ""
    ensures Once(me, w, GenerateKubeconfig(me, w, id).0)
  {
    var (v, exist) := SecretExists(me, w);
    TurnUntouched(me, w);
    if !exist {
      var (u, c) := NewConfig(me, v, id);
      NewConfigOnce(me, v, id);
      assert Once(me, w, u);
      if c.Ok? {
        CreateSecretOnce(me, u, c.value);
        OnceTrans(me, w, u, CreateSecret(me, u, c.value).0);
      }
    }
  }

  lemma CreateSecretOnce(me: Self, w: World, c: Config)
    requires Faithful(w) && me.namespace != "" && SecretKey(me) !in w.secrets
    ensures Once(me, w, CreateSecret(me, w, c).0)
  {
    var (v, exist) := SecretExists(me, w);
    TurnUntouched(me, w);
    TurnUntouched(me, v);
    WritesAdd(me, v.log, WriteSecret(SecretKey(me)));
  }

  lemma SeenOnce(me: Self, w: World, st: Status, x: Data)
    requires Faithful(w) && me.namespace != ""
    ensures Once(me, w, Seen(me, w, st, x).0)
  {
    if x.state == "active" {
      GenerateOnce(me, w, x.id);
    }
  }

  lemma OnceFaithful(me: Self, w: World, v: World)
    requires Once(me, w, v)
    ensures Faithful(v)
  {
  }

  lemma {:induction false} LoopOnce(me: Self, w: World, st: Status, s: seq<Data>, i: nat, found: bool)
    requires i <= |s| && Faithful(w) && me.namespace != ""
    ensures Once(me, w, ObserveFrom(me, w, st, s, i, found).0)
    decreases |s| - i
  {
    if i < |s| {
      if s[i].name != me.name {
        LoopOnce(me, w, st, s, i + 1, found);
      } else {
        var (v, t, r) := Seen(me, w, st, s[i]);
        SeenOnce(me, w, st, s[i]);
        OnceFaithful(me, w, v);
        if r.Ok? {
          LoopOnce(me, v, t, s, i + 1, true);
          OnceTrans(me, w, v, ObserveFrom(me, v, t, s, i + 1, true).0);
        }
      }
    }
  }

  lemma ObserveOnce(me: Self, w: World, st: Status)
    requires Faithful(w) && me.namespace != ""
    ensures Once(me, w, Observe(me, w, st).0)
  {
    var (v, s) := ListClusters(me, w);
    TurnUntouched(me, w);
    if s.Ok? {
      LoopOnce(me, v, st, s.value, 0, false);
      OnceTrans(me, w, v, Observe(me, w, st).0);
    }
  }

  lemma {:induction false} ResolveUntouched(me: Self, w: World, ps: seq<NodePool>, i: nat)
    requires i <= |ps| && Faithful(w)
    ensures Untouched(me, w, Resolve(me, w, ps, i).0)
    decreases |ps| - i
  {
    if i < |ps| {
      if ps[i].templateRef == "" {
        ResolveUntouched(me, w, ps, i + 1);
      } else {
        var (v, id) := LookupTemplate(me, w, ps[i].templateRef);
        TurnUntouched(me, w);
        if id.Ok? {
          ResolveUntouched(me, v, ps[i := ps[i].(templateId := id.value)], i + 1);
        }
      }
    }
  }

  lemma {:induction false} PostsUntouched(me: Self, w: World, id: Id, ps: seq<NodePool>, i: nat)
    requires i <= |ps| && Faithful(w)
    ensures Untouched(me, w, PostPools(me, w, id, ps, i).0)
    decreases |ps| - i
  {
    if i < |ps| {
      var (v, r) := NewNodePool(me, w, id, ps[i]);
      RequestUntouched(me, w, v, PostPool(ps[i].(clusterId := id)));
      if r.Ok? {
        PostsUntouched(me, v, id, ps, i + 1);
      }
    }
  }

  lemma CreateUntouched(me: Self, w: World, ps: seq<NodePool>)
    requires Faithful(w)
    ensures Untouched(me, w, Create(me, w, ps).0)
  {
    var (v, qs, e) := Resolve(me, w, ps, 0);
    ResolveUntouched(me, w, ps, 0);
    if e.Ok? {
      var (u, c) := NewCluster(me, v);
      RequestUntouched(me, v, u, PostCluster(me.rkeName));
      if c.Ok? {
        PostsUntouched(me, u, c.value, qs, 0);
      }
    }
  }

  lemma ReconcileOnce(me: Self, s: State, deleting: bool)
    requires Faithful(s.w) && me.namespace != ""
    ensures Once(me, s.w, Reconcile(me, s, deleting).w)
  {
    var (v, st, found) := Observe(me, s.w, s.st);
    ObserveOnce(me, s.w, s.st);
    var t := Reconcile(me, s, deleting);
    if found.Ok? && found.value != !deleting {
      if deleting {
        RequestUntouched(me, v, t.w, DeleteCluster(st.id));
      } else {
        CreateUntouched(me, v, s.pools);
      }
      UntouchedOnce(me, v, t.w);
      OnceTrans(me, s.w, v, t.w);
    }
  }

  // Write-once: over any run with a named namespace and truthful reads, whatever else fails. That includes every
  // later part of a run, so once the secret is there no kubeconfig is asked for and its content stays.
  lemma {:induction false} RunWritesOnce(me: Self, s: State, deleting: seq<bool>)
    requires Faithful(s.w) && me.namespace != ""
    ensures Once(me, s.w, Run(me, s, deleting).w)
    decreases |deleting|
  {
    if deleting != [] {
      var n := |deleting| - 1;
      RunWritesOnce(me, s, deleting[..n]);
      var t := Run(me, s, deleting[..n]);
      ReconcileOnce(me, t, deleting[n]);
      OnceTrans(me, s.w, t.w, Run(me, s, deleting).w);
    }
  }

  // Request by request, whatever fails and whatever the namespace

  predicate GetFails(w: World, n: nat) { n < |w.script| && w.script[n].getFails }

  function OutcomeOf(w: World, n: nat): Outcome { if n < |w.script| then w.script[n].outcome else Fine }

  // The lookup does not find the secret that is there, so a kubeconfig is asked for.
  predicate Misses(me: Self, w: World) { me.namespace == "" || GetFails(w, 0) }

  // The first read fails and the second one does not, and between and after them the requests get through.
  predicate Overwrites(me: Self, w: World) {
    && me.namespace != "" && GetFails(w, 0)
    && OutcomeOf(w, 1) == Fine && !GetFails(w, 2) && OutcomeOf(w, 3) != Refused
  }

  // The kubeconfig is answered, and the creation of the secret accepted.
  predicate WritesNew(w: World) { OutcomeOf(w, 1) == Fine && OutcomeOf(w, 3) != Refused }

  // One request later: the requests to come are the same, and so is the secret.
  ghost predicate Later(me: Self, w: World, v: World) {
    && Sound(v) && SecretsSame(me, w, v)
    && (forall n: nat :: GetFails(v, n) <==> GetFails(w, n + 1))
    && (forall n: nat :: OutcomeOf(v, n) == OutcomeOf(w, n + 1))
  }

  lemma LaterTurn(me: Self, w: World)
    requires Sound(w)
    ensures Later(me, w, Turn(me, w)) && Next(w).outcome == OutcomeOf(w, 0) && Next(w).getFails == GetFails(w, 0)
    ensures Turn(me, w).generated == w.generated && Turn(me, w).log == w.log
  {
    TurnDrifts(me, w);
  }

  // The lookup: it finds the secret exactly if it is there, its namespace is named, and the read does not fail.
  lemma LookupLater(me: Self, w: World)
    requires Sound(w)
    ensures var (v, exist) := SecretExists(me, w);
      && v == Turn(me, w)
      && (exist <==> SecretKey(me) in w.secrets && me.namespace != "" && !GetFails(w, 0))
  {
    LaterTurn(me, w);
  }

  // generateKubeconfig: a new one for the cluster, if the request is answered.
  lemma ConfigLater(me: Self, w: World, id: Id)
    requires Sound(w)
    ensures var (u, c) := NewConfig(me, w, id);
      && Later(me, w, u) && u.log == w.log + [Generate(id)]
      && c == (if OutcomeOf(w, 0) == Fine then Ok(Config(id, w.generated)) else Err)
      && u.generated == w.generated + (if OutcomeOf(w, 0) == Refused then 0 else 1)
  {
    LaterTurn(me, w);
  }

  // Creating or updating the secret, exactly: for one that is there, and for one that is not.
  lemma CreateSecretExactly(me: Self, w: World, c: Config)
    requires Sound(w)
    ensures var (v, r) := CreateSecret(me, w, c);
      var key := Key(if me.namespace == "" then "default" else me.namespace, me.name + "-kubeconfig");
      var write := (key in w.secrets ==> me.namespace != "" && !GetFails(w, 0)) && OutcomeOf(w, 1) != Refused;
      && (key in v.secrets <==> key in w.secrets || write)
      && (key in v.secrets ==> v.secrets[key] == if write then c else w.secrets[key])
      && (r.Ok? <==> write && OutcomeOf(w, 1) == Fine)
      && v.log == w.log + (if write then [WriteSecret(key)] else []) && v.generated == w.generated
  {
    var (v, exist) := SecretExists(me, w);
    LookupLater(me, w);
    LaterTurn(me, w);
    LaterTurn(me, v);
  }

  // When a secret that is there is overwritten all the same, and with what; what is requested; and what the caller is
  // told.
  lemma PresentSecret(me: Self, w: World, id: Id)
    requires Sound(w)
    requires Key(if me.namespace == "" then "default" else me.namespace, me.name + "-kubeconfig") in w.secrets
    ensures var (v, r) := GenerateKubeconfig(me, w, id);
      var key := Key(if me.namespace == "" then "default" else me.namespace, me.name + "-kubeconfig");
      && key in v.secrets
      && v.secrets[key] == (if Overwrites(me, w) then Config(id, w.generated) else w.secrets[key])
      && (r.Ok? <==> me.namespace != "" && (!GetFails(w, 0) || (Overwrites(me, w) && OutcomeOf(w, 3) == Fine)))
      && v.log == w.log + (if Misses(me, w) then [Generate(id)] else [])
                        + (if Overwrites(me, w) then [WriteSecret(key)] else [])
      && v.generated == w.generated + (if Misses(me, w) && OutcomeOf(w, 1) != Refused then 1 else 0)
  {
    hide CreateSecret, NewConfig, Turn, Sound;
    var (v, exist) := SecretExists(me, w);
    LookupLater(me, w);
    LaterTurn(me, w);
    if !exist {
      ConfigLater(me, v, id);
      var (u, c) := NewConfig(me, v, id);
      if c.Ok? {
        CreateSecretExactly(me, u, c.value);
      }
    }
  }

  // When a secret that is not there is there afterwards, whatever the namespace: under which key and with what; what is
  // requested; and what the caller is told.
  lemma AbsentSecret(me: Self, w: World, id: Id)
    requires Sound(w)
    requires Key(if me.namespace == "" then "default" else me.namespace, me.name + "-kubeconfig") !in w.secrets
    ensures var (v, r) := GenerateKubeconfig(me, w, id);
      var key := Key(if me.namespace == "" then "default" else me.namespace, me.name + "-kubeconfig");
      && (key in v.secrets <==> WritesNew(w))
      && (key in v.secrets ==> v.secrets[key] == Config(id, w.generated))
      && (r.Ok? <==> WritesNew(w) && OutcomeOf(w, 3) == Fine)
      && v.log == w.log + [Generate(id)] + (if WritesNew(w) then [WriteSecret(key)] else [])
      && v.generated == w.generated + (if OutcomeOf(w, 1) != Refused then 1 else 0)
  {
    hide CreateSecret, NewConfig, Turn, Sound;
    var (v, exist) := SecretExists(me, w);
    LookupLater(me, w);
    LaterTurn(me, w);
    ConfigLater(me, v, id);
    var (u, c) := NewConfig(me, v, id);
    if c.Ok? {
      CreateSecretExactly(me, u, c.value);
    }
  }

  // Whose kubeconfig it is

  // A secret that was not there is written for the cluster observed.
  lemma NewSecret(me: Self, w: World, id: Id)
    requires Faithful(w) && me.namespace != "" && SecretKey(me) !in w.secrets
    ensures var v := GenerateKubeconfig(me, w, id).0;
      SecretKey(me) in v.secrets ==> v.secrets[SecretKey(me)] == Config(id, w.generated)
  {
    var (v, exist) := SecretExists(me, w);
    TurnUntouched(me, w);
    var (u, c) := NewConfig(me, v, id);
    TurnUntouched(me, v);
    if c.Ok? {
      NewSecretWritten(me, u, c.value);
    }
  }

  lemma NewSecretWritten(me: Self, w: World, c: Config)
    requires Faithful(w) && me.namespace != "" && SecretKey(me) !in w.secrets
    ensures var v := CreateSecret(me, w, c).0; SecretKey(me) in v.secrets ==> v.secrets[SecretKey(me)] == c
  {
    TurnUntouched(me, w);
    TurnUntouched(me, SecretExists(me, w).0);
  }

  // From a time when the secret was that of the listed cluster, it is that of whatever cluster is listed later exactly
  // if that cluster has not been made since: one that was removed and made again keeps the old one's kubeconfig.
  lemma CurrentExactly(me: Self, s: State, deleting: seq<bool>, x: Data)
    requires Sound(s.w) && AtMostOne(s.w.clusters.entries, me.name) && Faithful(s.w) && me.namespace != ""
    requires SecretKey(me) in s.w.secrets
    requires ListedAs(s.w.clusters.entries, me.name, s.w.secrets[SecretKey(me)].cluster)
    requires x in Run(me, s, deleting).w.clusters.entries && x.name == me.name
    ensures var t := Run(me, s, deleting);
      SecretKey(me) in t.w.secrets && (t.w.secrets[SecretKey(me)].cluster == x.id <==> x.id < s.w.clusters.next)
  {
    var id := s.w.secrets[SecretKey(me)].cluster;
    RunWritesOnce(me, s, deleting);
    RunRefines(me, s, deleting);
    var rs := Registries(me, s, deleting);
    var acts :| IsRun(me.name, me.rkeName, rs, deleting, acts);
    RunDescends(me.name, me.rkeName, rs, deleting, acts, |deleting|);
    var es := rs[|deleting|].entries;
    var i :| 0 <= i < |es| && es[i] == x;
    assert x.id < s.w.clusters.next ==> ListedAs(s.w.clusters.entries, me.name, x.id);
    assert id in s.w.clusters.names;
  }
}

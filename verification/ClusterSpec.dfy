// The cluster controller as functions of the world: what Observe, Create, Delete and a whole reconcile make of it.
module ClusterSpec {
  import opened Registry
  import opened World

  datatype Condition = Unset | Available | Unavailable

  // What Observe writes to the resource.
  datatype Status = Status(id: Id, condition: Condition)

  // Secrets

  function SecretExists(me: Self, w: World): (World, bool) { GetSecret(me, w, LookupKey(me)) }

  function CreateSecret(me: Self, w: World, c: Config): (World, Result<()>) {
    var (v, exist) := SecretExists(me, w);
    PutSecret(me, v, SecretKey(me), c, exist)
  }

  function GenerateKubeconfig(me: Self, w: World, id: Id): (World, Result<()>) {
    var (v, exist) := SecretExists(me, w);
    if exist then (v, Ok(()))
    else
      var (u, c) := NewConfig(me, v, id);
      if c.Err? then (u, Err) else CreateSecret(me, u, c.value)
  }

  // Observe

  function Seen(me: Self, w: World, st: Status, x: Data): (World, Status, Result<()>) {
    if x.state == "active" then
      var (v, r) := GenerateKubeconfig(me, w, x.id);
      (v, Status(x.id, Available), r)
    else (w, Status(x.id, Unavailable), Ok(()))
  }

  // The loop over the listing from its i-th entry on.
  function ObserveFrom(me: Self, w: World, st: Status, s: seq<Data>, i: nat, found: bool): (World, Status, Result<bool>)
    requires i <= |s|
    decreases |s| - i
  {
    if i == |s| then (w, st, Ok(found))
    else if s[i].name != me.name then ObserveFrom(me, w, st, s, i + 1, found)
    else
      var (v, t, r) := Seen(me, w, st, s[i]);
      if r.Err? then (v, t, Err) else ObserveFrom(me, v, t, s, i + 1, true)
  }

  function Observe(me: Self, w: World, st: Status): (World, Status, Result<bool>) {
    var (v, s) := ListClusters(me, w);
    if s.Err? then (v, st, Err) else ObserveFrom(me, v, st, s.value, 0, false)
  }

  // Create

  // The loop that resolves references, from the i-th pool on.
  function Resolve(me: Self, w: World, ps: seq<NodePool>, i: nat): (r: (World, seq<NodePool>, Result<()>))
    requires i <= |ps|
    ensures |r.1| == |ps|
    decreases |ps| - i
  {
    if i == |ps| then (w, ps, Ok(()))
    else if ps[i].templateRef == "" then Resolve(me, w, ps, i + 1)
    else
      var (v, id) := LookupTemplate(me, w, ps[i].templateRef);
      if id.Err? then (v, ps, Err)
      else Resolve(me, v, ps[i := ps[i].(templateId := id.value)], i + 1)
  }

  // The loop that posts pools, from the i-th pool on.
  function PostPools(me: Self, w: World, id: Id, ps: seq<NodePool>, i: nat): (World, Result<()>)
    requires i <= |ps|
    decreases |ps| - i
  {
    if i == |ps| then (w, Ok(()))
    else
      var (v, r) := NewNodePool(me, w, id, ps[i]);
      if r.Err? then (v, Err) else PostPools(me, v, id, ps, i + 1)
  }

  function Create(me: Self, w: World, ps: seq<NodePool>): (World, seq<NodePool>, Result<()>) {
    var (v, qs, r) := Resolve(me, w, ps, 0);
    if r.Err? then (v, qs, Err)
    else
      var (u, id) := NewCluster(me, v);
      if id.Err? then (u, qs, Err)
      else
        var (t, e) := PostPools(me, u, id.value, qs, 0);
        (t, qs, e)
  }

  // A reconcile and a run of them

  datatype State = State(w: World, st: Status, pools: seq<NodePool>)

  // Observe, and then nothing on an error; Delete if the resource is being deleted and exists; Create if it is
  // not being deleted and does not exist.
  function Reconcile(me: Self, s: State, deleting: bool): State {
    var (v, st, found) := Observe(me, s.w, s.st);
    if found.Err? || found.value == !deleting then State(v, st, s.pools)
    else if deleting then State(DropCluster(me, v, st.id).0, st, s.pools)
    else
      var (u, ps, _) := Create(me, v, s.pools);
      State(u, st, ps)
  }

  function Run(me: Self, s: State, deleting: seq<bool>): State
    decreases |deleting|
  {
    if deleting == [] then s else Reconcile(me, Run(me, s, deleting[..|deleting| - 1]), deleting[|deleting| - 1])
  }
}

// What one cluster resource's controller talks to: the Rancher server, the secrets of the Kubernetes API, and an
// environment that interferes before every request.
module World {
  import opened Registry

  datatype Option<T> = None | Some(value: T)

  // An error return carries no payload; the controller never looks inside.
  datatype Result<T> = Ok(value: T) | Err

  datatype Key = Key(namespace: string, name: string)

  // The kubeconfig the server generates for a cluster; every one is a new one.
  datatype Config = Config(cluster: Id, serial: nat)

  datatype NodePool = NodePool(name: string, templateRef: string, templateId: Id, clusterId: Id, rest: string)

  // The parts of the resource that no reconcile changes.
  datatype Self = Self(name: string, rkeName: string, namespace: string)

  // Requests with effects, in the order they are made; a secret is noted when it is written.
  datatype Request =
    | PostCluster(name: string)
    | PostPool(pool: NodePool)
    | DeleteCluster(id: Id)
    | Generate(id: Id)
    | WriteSecret(key: Key)

  // Refused: not accepted. Lost: accepted, but the answer does not arrive.
  datatype Outcome = Fine | Refused | Lost

  // One request's worth of environment: what the world has become, whether a read of a secret fails, and how the
  // request itself goes.
  datatype Beat = Beat(clusters: Registry, templates: seq<Data>, secrets: map<Key, Config>, getFails: bool, outcome: Outcome)

  // The script lists what will go on, request by request. When it has run out the world is calm: every cluster
  // becomes active, nothing else moves and every request succeeds.
  datatype World = World(
    clusters: Registry,
    templates: seq<Data>,
    secrets: map<Key, Config>,
    generated: nat,
    log: seq<Request>,
    script: seq<Beat>
  )

  function SecretName(name: string): string { name + "-kubeconfig" }

  // The key GenerateKubeconfigSecret puts on the secret.
  function SecretKey(me: Self): Key {
    Key(if me.namespace == "" then "default" else me.namespace, SecretName(me.name))
  }

  // The key KubeconfigSecretExist asks for.
  function LookupKey(me: Self): Key { Key(me.namespace, SecretName(me.name)) }

  // The environment leaves this resource's secret alone, and no secret is without a namespace.
  predicate SecretsRely(me: Self, s: map<Key, Config>, t: map<Key, Config>) {
    && (SecretKey(me) in s <==> SecretKey(me) in t)
    && (SecretKey(me) in s ==> s[SecretKey(me)] == t[SecretKey(me)])
    && (forall k :: k in t ==> k.namespace != "")
  }

  // A change that the resource may not expect of others does not happen.
  function Absorb(me: Self, w: World, b: Beat): World {
    w.(clusters := if Rely(me.name, w.clusters, b.clusters) then b.clusters else w.clusters,
       templates := b.templates,
       secrets := if SecretsRely(me, w.secrets, b.secrets) then b.secrets else w.secrets)
  }

  function CalmBeat(w: World): Beat { Beat(Settled(w.clusters), w.templates, w.secrets, false, Fine) }

  function Next(w: World): Beat { if w.script == [] then CalmBeat(w) else w.script[0] }

  // The world as a request finds it.
  function Turn(me: Self, w: World): World {
    Absorb(me, w, Next(w)).(script := if w.script == [] then [] else w.script[1..])
  }

  // The requests

  // GetClusters
  function ListClusters(me: Self, w: World): (World, Result<seq<Data>>) {
    var v := Turn(me, w);
    (v, if Next(w).outcome == Fine then Ok(v.clusters.entries) else Err)
  }

  // The entries of a name, which is what the server answers when asked for them.
  function Matching(s: seq<Data>, name: string): (t: seq<Data>)
    ensures t == [] <==> !Listed(s, name)
    ensures t != [] ==>
      exists i :: 0 <= i < |s| && s[i] == t[0] && s[i].name == name && forall j :: 0 <= j < i ==> s[j].name != name
  {
    if s == [] then []
    else
      var t := Matching(s[1..], name);
      assert forall i :: 0 <= i < |s[1..]| ==> s[1..][i] == s[i + 1];
      assert Listed(s[1..], name) ==> Listed(s, name);
      assert Listed(s, name) && s[0].name != name ==> Listed(s[1..], name);
      if s[0].name == name then [s[0]] + t else t
  }

  function AskTemplates(me: Self, w: World, name: string): (World, Result<seq<Data>>) {
    var v := Turn(me, w);
    (v, if Next(w).outcome == Fine then Ok(Matching(v.templates, name)) else Err)
  }

  // GetNodeTemplateByName. The source takes the first element of the answer without looking whether there is one,
  // and panics when there is none; that ends Create as an error does.
  function LookupTemplate(me: Self, w: World, name: string): (World, Result<Id>) {
    var (v, answer) := AskTemplates(me, w, name);
    (v, if answer.Err? || answer.value == [] then Err else Ok(answer.value[0].id))
  }

  // CreateCluster
  function NewCluster(me: Self, w: World): (World, Result<Id>) {
    var v := Turn(me, w);
    var u := v.(log := v.log + [PostCluster(me.rkeName)]);
    match Next(w).outcome
    case Refused => (u, Err)
    case Fine => (u.(clusters := Posted(u.clusters, me.rkeName)), Ok(u.clusters.next))
    case Lost => (u.(clusters := Posted(u.clusters, me.rkeName)), Err)
  }

  // CreateNodePool, which sets the cluster id on its own copy of the pool
  function NewNodePool(me: Self, w: World, id: Id, pool: NodePool): (World, Result<()>) {
    var v := Turn(me, w);
    (v.(log := v.log + [PostPool(pool.(clusterId := id))]), if Next(w).outcome == Fine then Ok(()) else Err)
  }

  // DeleteCluster
  function DropCluster(me: Self, w: World, id: Id): (World, Result<()>) {
    var v := Turn(me, w);
    var u := v.(log := v.log + [DeleteCluster(id)]);
    match Next(w).outcome
    case Refused => (u, Err)
    case Fine => (u.(clusters := Removed(u.clusters, id)),
                  if exists i :: 0 <= i < |u.clusters.entries| && u.clusters.entries[i].id == id then Ok(()) else Err)
    case Lost => (u.(clusters := Removed(u.clusters, id)), Err)
  }

  // POST action=generateKubeconfig
  function NewConfig(me: Self, w: World, id: Id): (World, Result<Config>) {
    var v := Turn(me, w);
    var u := v.(log := v.log + [Generate(id)]);
    match Next(w).outcome
    case Refused => (u, Err)
    case Fine => (u.(generated := u.generated + 1), Ok(Config(id, u.generated)))
    case Lost => (u.(generated := u.generated + 1), Err)
  }

  // kubeClient.Get, of which only success or failure is used
  function GetSecret(me: Self, w: World, key: Key): (World, bool) {
    var v := Turn(me, w);
    (v, !Next(w).getFails && key in v.secrets)
  }

  // kubeClient.Create if present is false, kubeClient.Update if it is true: an error when the secret is there, or
  // is not.
  function PutSecret(me: Self, w: World, key: Key, c: Config, present: bool): (World, Result<()>) {
    var v := Turn(me, w);
    if Next(w).outcome == Refused || (key in v.secrets) != present then (v, Err)
    else (v.(secrets := v.secrets[key := c], log := v.log + [WriteSecret(key)]),
          if Next(w).outcome == Fine then Ok(()) else Err)
  }
}

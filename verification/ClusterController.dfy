// The cluster controller step by step, with the resource and the world changed in place.
module ClusterController {
  import opened Registry
  import opened World
  import Spec = ClusterSpec

  // The HTTP and Kubernetes clients of one external client, and the world behind them.
  class Clients {
    const me: Self
    var w: World

    constructor (me: Self, w: World)
      ensures this.me == me && this.w == w
    {
      this.me := me;
      this.w := w;
    }

    method GetClusters() returns (r: Result<seq<Data>>)
      modifies this
      ensures (w, r) == ListClusters(me, old(w))
    {
      var (v, s) := ListClusters(me, w);
      w, r := v, s;
    }

    method GetNodeTemplateByName(name: string) returns (r: Result<Id>)
      modifies this
      ensures (w, r) == LookupTemplate(me, old(w), name)
    {
      var (v, answer) := AskTemplates(me, w, name);
      w := v;
      if answer.Err? {
        return Err;
      }
      var data := answer.value;
      if |data| == 0 {
        return Err; // Data[0] panics
      }
      return Ok(data[0].id);
    }

    method CreateCluster() returns (r: Result<Id>)
      modifies this
      ensures (w, r) == NewCluster(me, old(w))
    {
      var (v, s) := NewCluster(me, w);
      w, r := v, s;
    }

    method CreateNodePool(id: Id, pool: NodePool) returns (r: Result<()>)
      modifies this
      ensures (w, r) == NewNodePool(me, old(w), id, pool)
    {
      var (v, s) := NewNodePool(me, w, id, pool);
      w, r := v, s;
    }

    method DeleteCluster(id: Id) returns (r: Result<()>)
      modifies this
      ensures (w, r) == DropCluster(me, old(w), id)
    {
      var (v, s) := DropCluster(me, w, id);
      w, r := v, s;
    }

    method PostGenerateKubeconfig(id: Id) returns (r: Result<Config>)
      modifies this
      ensures (w, r) == NewConfig(me, old(w), id)
    {
      var (v, s) := NewConfig(me, w, id);
      w, r := v, s;
    }

    method Get(key: Key) returns (ok: bool)
      modifies this
      ensures (w, ok) == GetSecret(me, old(w), key)
    {
      var (v, s) := GetSecret(me, w, key);
      w, ok := v, s;
    }

    method Put(key: Key, c: Config, present: bool) returns (r: Result<()>)
      modifies this
      ensures (w, r) == PutSecret(me, old(w), key, c, present)
    {
      var (v, s) := PutSecret(me, w, key, c, present);
      w, r := v, s;
    }
  }

  method KubeconfigSecretExist(name: string, namespace: string, clients: Clients) returns (exist: bool)
    modifies clients
    ensures (clients.w, exist) == GetSecret(clients.me, old(clients.w), Key(namespace, SecretName(name)))
  {
    exist := clients.Get(Key(namespace, SecretName(name)));
  }

  method GenerateKubeconfigSecret(c: Config, name: string, namespace: string) returns (key: Key, data: Config)
    ensures key == Key(if namespace == "" then "default" else namespace, SecretName(name)) && data == c
  {
    var ns := namespace;
    if ns == "" {
      ns := "default";
    }
    key, data := Key(ns, SecretName(name)), c;
  }

  method CreateKubeconfigSecret(c: Config, name: string, namespace: string, clients: Clients) returns (r: Result<()>)
    requires name == clients.me.name && namespace == clients.me.namespace
    modifies clients
    ensures (clients.w, r) == Spec.CreateSecret(clients.me, old(clients.w), c)
  {
    var key, secret := GenerateKubeconfigSecret(c, name, namespace);
    var exist := KubeconfigSecretExist(name, namespace, clients);
    if !exist {
      r := clients.Put(key, secret, false);
      return;
    }
    r := clients.Put(key, secret, true);
  }

  method GenerateKubeconfig(id: Id, name: string, namespace: string, clients: Clients) returns (r: Result<()>)
    requires name == clients.me.name && namespace == clients.me.namespace
    modifies clients
    ensures (clients.w, r) == Spec.GenerateKubeconfig(clients.me, old(clients.w), id)
  {
    var exist := KubeconfigSecretExist(name, namespace, clients);
    if !exist {
      var c := clients.PostGenerateKubeconfig(id);
      if c.Err? {
        return Err;
      }
      var e := CreateKubeconfigSecret(c.value, name, namespace, clients);
      if e.Err? {
        return Err;
      }
    }
    return Ok(());
  }

  // cr *v1alpha1.RKE1Cluster
  class RKE1Cluster {
    const me: Self
    const nodePools: array<NodePool>
    var id: Id
    var condition: Spec.Condition

    constructor (me: Self, nodePools: array<NodePool>)
      ensures this.me == me && this.nodePools == nodePools && Status() == Spec.Status(NO_ID, Spec.Unset)
    {
      this.me, this.nodePools := me, nodePools;
      id, condition := NO_ID, Spec.Unset;
    }

    function Status(): Spec.Status
      reads this
    {
      Spec.Status(id, condition)
    }
  }

  method Observe(cr: RKE1Cluster, clients: Clients) returns (r: Result<bool>)
    requires cr.me == clients.me
    modifies cr, clients
    ensures (clients.w, cr.Status(), r) == Spec.Observe(cr.me, old(clients.w), old(cr.Status()))
  {
    ghost var st := cr.Status();
    var results := clients.GetClusters();
    if results.Err? {
      return Err;
    }
    ghost var v := clients.w;
    var found := false;
    for i := 0 to |results.value|
      invariant Spec.ObserveFrom(cr.me, clients.w, cr.Status(), results.value, i, found) ==
                Spec.ObserveFrom(cr.me, v, st, results.value, 0, false)
    {
      var cluster := results.value[i];
      if cluster.name == cr.me.name {
        found := true;
        cr.id := cluster.id;
        if cluster.state == "active" {
          cr.condition := Spec.Available;
          var e := GenerateKubeconfig(cluster.id, cr.me.name, cr.me.namespace, clients);
          if e.Err? {
            return Err;
          }
        } else {
          cr.condition := Spec.Unavailable;
        }
      }
    }
    return Ok(found);
  }

  // The first loop of Create
  method ResolveReferences(cr: RKE1Cluster, clients: Clients) returns (r: Result<()>)
    requires cr.me == clients.me
    modifies cr.nodePools, clients
    ensures (clients.w, cr.nodePools[..], r) == Spec.Resolve(cr.me, old(clients.w), old(cr.nodePools[..]), 0)
  {
    ghost var w, ps := clients.w, cr.nodePools[..];
    for index := 0 to cr.nodePools.Length
      invariant Spec.Resolve(cr.me, clients.w, cr.nodePools[..], index) == Spec.Resolve(cr.me, w, ps, 0)
    {
      var node := cr.nodePools[index];
      if node.templateRef != "" {
        var id := clients.GetNodeTemplateByName(node.templateRef);
        if id.Err? {
          return Err;
        }
        ghost var before := cr.nodePools[..];
        cr.nodePools[index] := cr.nodePools[index].(templateId := id.value);
        assert cr.nodePools[..] == before[index := before[index].(templateId := id.value)];
      }
    }
    return Ok(());
  }

  // The second loop of Create
  method PostNodePools(cr: RKE1Cluster, clients: Clients, clusterId: Id) returns (r: Result<()>)
    requires cr.me == clients.me
    modifies clients
    ensures (clients.w, r) == Spec.PostPools(cr.me, old(clients.w), clusterId, old(cr.nodePools[..]), 0)
  {
    ghost var w, ps := clients.w, cr.nodePools[..];
    for index := 0 to cr.nodePools.Length
      invariant cr.nodePools[..] == ps
      invariant Spec.PostPools(cr.me, clients.w, clusterId, ps, index) == Spec.PostPools(cr.me, w, clusterId, ps, 0)
    {
      var e := clients.CreateNodePool(clusterId, cr.nodePools[index]);
      if e.Err? {
        return Err;
      }
    }
    return Ok(());
  }

  method Create(cr: RKE1Cluster, clients: Clients) returns (r: Result<()>)
    requires cr.me == clients.me
    modifies cr.nodePools, clients
    ensures (clients.w, cr.nodePools[..], r) == Spec.Create(cr.me, old(clients.w), old(cr.nodePools[..]))
  {
    var resolved := ResolveReferences(cr, clients);
    if resolved.Err? {
      return Err;
    }
    ghost var qs := cr.nodePools[..];
    var clusterId := clients.CreateCluster();
    if clusterId.Err? {
      return Err;
    }
    assert cr.nodePools[..] == qs;
    r := PostNodePools(cr, clients, clusterId.value);
  }

  method Delete(cr: RKE1Cluster, clients: Clients) returns (r: Result<()>)
    requires cr.me == clients.me
    modifies clients
    ensures (clients.w, r) == DropCluster(cr.me, old(clients.w), cr.id)
  {
    r := clients.DeleteCluster(cr.id);
  }

  // The driver: observe, then create, delete or do nothing.
  method Reconcile(cr: RKE1Cluster, clients: Clients, deleting: bool)
    requires cr.me == clients.me
    modifies cr, cr.nodePools, clients
    ensures Spec.State(clients.w, cr.Status(), cr.nodePools[..]) ==
            Spec.Reconcile(cr.me, Spec.State(old(clients.w), old(cr.Status()), old(cr.nodePools[..])), deleting)
  {
    ghost var ps := cr.nodePools[..];
    var found := Observe(cr, clients);
    assert cr.nodePools[..] == ps;
    if found.Err? {
      return;
    }
    if deleting {
      if found.value {
        var _ := Delete(cr, clients);
      }
    } else if !found.value {
      var _ := Create(cr, clients);
    }
  }
}

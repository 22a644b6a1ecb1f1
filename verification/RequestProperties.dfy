// What single requests mean for the one who makes them, stated over what the server has when the request comes to it.
module RequestProperties {
  import opened Registry
  import opened World
  import opened ClusterSpec
  import opened ClusterRuns

  // GetClusters: an answer has every cluster of the server, in its order and with its id, name and state, and nothing
  // else. An id of the resource's own name was listed under it before the request already.
  lemma ListingMeans(me: Self, w: World)
    requires Sound(w)
    ensures var (v, r) := ListClusters(me, w);
      var es := Turn(me, w).clusters.entries;
      && v == Turn(me, w) && v.log == w.log && Rely(me.name, w.clusters, v.clusters)
      && (r.Ok? <==> Next(w).outcome == Fine)
      && (r.Ok? ==>
            && |r.value| == |es|
            && forall i :: 0 <= i < |es| ==>
                 && r.value[i].id == es[i].id && r.value[i].name == es[i].name && r.value[i].state == es[i].state
                 && es[i].id in v.clusters.names && v.clusters.names[es[i].id] == es[i].name
                 && (es[i].name == me.name ==> ListedAs(w.clusters.entries, me.name, es[i].id)))
  {
    TurnDrifts(me, w);
  }

  // CreateCluster: an answer is a new id, listed under the posted name. Without one the cluster may be there all the
  // same, and is exactly if the request was not refused.
  lemma CreationMeans(me: Self, w: World)
    requires Sound(w)
    ensures var (v, r) := NewCluster(me, w);
      var u := Turn(me, w).clusters;
      && u.next !in w.clusters.names && v.log == w.log + [PostCluster(me.rkeName)]
      && r == (if Next(w).outcome == Fine then Ok(u.next) else Err)
      && (ListedAs(v.clusters.entries, me.rkeName, u.next) <==> Next(w).outcome != Refused)
      && (forall x :: x in u.entries ==> x in v.clusters.entries)
      && (forall x :: x in v.clusters.entries ==> x in u.entries || (x.id == u.next && x.name == me.rkeName))
  {
    var (v, r) := NewCluster(me, w);
    var u := Turn(me, w).clusters;
    TurnDrifts(me, w);
    assert forall i :: 0 <= i < |u.entries| ==> u.entries[i].id < u.next;
    if Next(w).outcome != Refused {
      assert v.clusters.entries[|u.entries|] == Data(u.next, "provisioning", me.rkeName);
      assert forall i :: 0 <= i < |u.entries| ==> v.clusters.entries[i] == u.entries[i];
    }
  }

  // DeleteCluster: unless it is refused no entry has the id any more, and every other entry is still there. It succeeds
  // exactly if there was one and the request is answered.
  lemma DeletionMeans(me: Self, w: World, id: Id)
    ensures var (v, r) := DropCluster(me, w, id);
      var before := Turn(me, w).clusters.entries;
      && (forall x :: x in v.clusters.entries <==> x in before && (x.id != id || Next(w).outcome == Refused))
      && (r.Ok? <==> Next(w).outcome == Fine && exists x :: x in before && x.id == id)
      && v.clusters.names == Turn(me, w).clusters.names && v.log == w.log + [DeleteCluster(id)]
  {
    var before := Turn(me, w).clusters.entries;
    if exists x :: x in before && x.id == id {
      var x :| x in before && x.id == id;
      var i :| 0 <= i < |before| && before[i] == x;
    }
  }

  // CreateNodePool: the pool requested is the caller's but for the cluster id, success is an answer, and neither the
  // clusters nor the templates nor the secrets are concerned.
  lemma PoolMeans(me: Self, w: World, id: Id, pool: NodePool)
    requires Sound(w)
    ensures var (v, r) := NewNodePool(me, w, id, pool);
      var last := v.log[|v.log| - 1];
      && |v.log| == |w.log| + 1 && w.log <= v.log && v.(log := w.log) == Turn(me, w)
      && last.PostPool? && last.pool.clusterId == id && last.pool.(clusterId := pool.clusterId) == pool
      && (r.Ok? <==> Next(w).outcome == Fine)
      && Rely(me.name, w.clusters, v.clusters) && SecretsRely(me, w.secrets, v.secrets)
  {
    TurnDrifts(me, w);
  }

  // Entry j is the first that has the name.
  predicate FirstMatch(s: seq<Data>, name: string, j: nat) {
    j < |s| && s[j].name == name && forall i :: 0 <= i < j ==> s[i].name != name
  }

  // GetNodeTemplateByName: an id is found exactly if the request is answered and a template has the name, and it is
  // that of the first one that does; nothing is requested or changed.
  lemma TemplateLookupMeans(me: Self, w: World, name: string)
    ensures var (v, r) := LookupTemplate(me, w, name);
      var ts := Turn(me, w).templates;
      && v == Turn(me, w) && v.log == w.log
      && (r.Ok? <==> Next(w).outcome == Fine && Listed(ts, name))
      && (r.Ok? ==> exists j: nat :: FirstMatch(ts, name, j) && r.value == ts[j].id)
  {
    var ts := Turn(me, w).templates;
    var found := Matching(ts, name);
    if found != [] {
      var j :| 0 <= j < |ts| && ts[j] == found[0] && ts[j].name == name && forall i :: 0 <= i < j ==> ts[i].name != name;
      assert FirstMatch(ts, name, j);
    }
  }

  // KubeconfigSecretExist finds the secret exactly if it is there, its namespace is named, and the read does not fail.
  lemma LookupMeans(me: Self, w: World)
    requires Sound(w)
    ensures var (v, exist) := SecretExists(me, w);
      && v == Turn(me, w)
      && (exist <==> SecretKey(me) in w.secrets && me.namespace != "" && !Next(w).getFails)
  {
    TurnDrifts(me, w);
  }
}

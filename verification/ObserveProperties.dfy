// The loop of Observe against a plain left fold over the listing, and what the fold comes to.
module ObserveProperties {
  import opened Registry
  import opened World
  import opened ClusterSpec

  datatype Progress = Progress(w: World, st: Status, found: bool, failed: bool)

  function Visit(me: Self, p: Progress, x: Data): Progress {
    if p.failed || x.name != me.name then p
    else
      var (v, t, r) := Seen(me, p.w, p.st, x);
      Progress(v, t, true, r.Err?)
  }

  // What the first k entries of the listing come to.
  function Fold(me: Self, w: World, st: Status, s: seq<Data>, k: nat): Progress
    requires k <= |s|
  {
    if k == 0 then Progress(w, st, false, false) else Visit(me, Fold(me, w, st, s, k - 1), s[k - 1])
  }

  lemma {:induction false} LoopIsFold(me: Self, w: World, st: Status, s: seq<Data>, i: nat)
    requires i <= |s| && !Fold(me, w, st, s, i).failed
    ensures var p, q := Fold(me, w, st, s, i), Fold(me, w, st, s, |s|);
      ObserveFrom(me, p.w, p.st, s, i, p.found) == (q.w, q.st, if q.failed then Err else Ok(q.found))
    decreases |s| - i
  {
    if i < |s| {
      var p := Fold(me, w, st, s, i + 1);
      if p.failed {
        FailedStays(me, w, st, s, i + 1, |s|);
      } else {
        LoopIsFold(me, w, st, s, i + 1);
      }
    }
  }

  lemma {:induction false} FailedStays(me: Self, w: World, st: Status, s: seq<Data>, i: nat, k: nat)
    requires i <= k <= |s| && Fold(me, w, st, s, i).failed
    ensures Fold(me, w, st, s, k) == Fold(me, w, st, s, i)
    decreases k
  {
    if i < k {
      FailedStays(me, w, st, s, i, k - 1);
    }
  }

  function ConditionOf(x: Data): Condition { if x.state == "active" then Available else Unavailable }

  // Entry j is the last of the first k that has the name.
  predicate LastMatch(s: seq<Data>, name: string, k: nat, j: nat) {
    j < k <= |s| && s[j].name == name && forall i :: j < i < k ==> s[i].name != name
  }

  lemma {:induction false} FoldMeans(me: Self, w: World, st: Status, s: seq<Data>, k: nat)
    requires k <= |s| && !Fold(me, w, st, s, k).failed
    ensures var p := Fold(me, w, st, s, k);
      && (p.found <==> exists i :: 0 <= i < k && s[i].name == me.name)
      && (!p.found ==> p.st == st && p.w == w)
      && (forall j: nat :: LastMatch(s, me.name, k, j) ==> p.st == Status(s[j].id, ConditionOf(s[j])))
      && (p.found ==> exists j: nat :: LastMatch(s, me.name, k, j))
    decreases k
  {
    if k > 0 {
      FoldMeans(me, w, st, s, k - 1);
      if s[k - 1].name == me.name {
        assert LastMatch(s, me.name, k, k - 1);
      } else {
        forall j: nat | LastMatch(s, me.name, k, j) ensures LastMatch(s, me.name, k - 1, j) {
        }
        if Fold(me, w, st, s, k).found {
          var j: nat :| LastMatch(s, me.name, k - 1, j);
          assert LastMatch(s, me.name, k, j);
        }
      }
    }
  }

  // Observe without an error: the resource exists iff some entry the server has is of its name, and the status is that
  // of the last such entry, or what it was if there is none.
  lemma ObserveOk(me: Self, w: World, st: Status)
    requires Observe(me, w, st).2.Ok?
    ensures var s := Turn(me, w).clusters.entries;
      var (u, t, r) := Observe(me, w, st);
      && Next(w).outcome == Fine
      && (r.value <==> Listed(s, me.name))
      && (!r.value ==> t == st && u == Turn(me, w))
      && (r.value ==> exists j: nat :: LastMatch(s, me.name, |s|, j))
      && (forall j: nat :: LastMatch(s, me.name, |s|, j) ==> t == Status(s[j].id, ConditionOf(s[j])))
  {
    var (v, s) := ListClusters(me, w);
    LoopIsFold(me, v, st, s.value, 0);
    FoldMeans(me, v, st, s.value, |s.value|);
  }

  // The first k entries went well, entry k is an active one of this name, and making its kubeconfig failed.
  predicate StopsAt(me: Self, w: World, st: Status, s: seq<Data>, k: nat) {
    && k < |s| && !Fold(me, w, st, s, k).failed
    && s[k].name == me.name && s[k].state == "active"
    && GenerateKubeconfig(me, Fold(me, w, st, s, k).w, s[k].id).1.Err?
  }

  lemma {:induction false} FailedAt(me: Self, w: World, st: Status, s: seq<Data>, k: nat)
    requires k <= |s| && Fold(me, w, st, s, k).failed
    ensures exists j: nat :: j < k && StopsAt(me, w, st, s, j)
    decreases k
  {
    if Fold(me, w, st, s, k - 1).failed {
      FailedAt(me, w, st, s, k - 1);
    } else {
      assert StopsAt(me, w, st, s, k - 1);
    }
  }

  lemma StopsThere(me: Self, w: World, st: Status, s: seq<Data>, k: nat)
    requires StopsAt(me, w, st, s, k)
    ensures Fold(me, w, st, s, |s|) ==
            Progress(GenerateKubeconfig(me, Fold(me, w, st, s, k).w, s[k].id).0, Status(s[k].id, Available), true, true)
  {
    FailedStays(me, w, st, s, k + 1, |s|);
  }

  // Observe with an error after the listing: it stopped at exactly the first active entry of this name whose
  // kubeconfig could not be made, with that entry's id recorded and the condition set; later entries are not looked at.
  lemma ObserveErr(me: Self, w: World, st: Status)
    requires Next(w).outcome == Fine
    ensures var v := Turn(me, w);
      var s := v.clusters.entries;
      var (u, t, r) := Observe(me, w, st);
      && (r.Err? <==> exists k: nat :: StopsAt(me, v, st, s, k))
      && (forall k: nat :: StopsAt(me, v, st, s, k) ==>
            && t == Status(s[k].id, Available)
            && u == GenerateKubeconfig(me, Fold(me, v, st, s, k).w, s[k].id).0)
  {
    var (v, s) := ListClusters(me, w);
    LoopIsFold(me, v, st, s.value, 0);
    if Fold(me, v, st, s.value, |s.value|).failed {
      FailedAt(me, v, st, s.value, |s.value|);
    }
    forall k: nat | StopsAt(me, v, st, s.value, k)
      ensures Fold(me, v, st, s.value, |s.value|).failed
      ensures Fold(me, v, st, s.value, |s.value|).st == Status(s.value[k].id, Available)
      ensures Fold(me, v, st, s.value, |s.value|).w ==
              GenerateKubeconfig(me, Fold(me, v, st, s.value, k).w, s.value[k].id).0
    {
      StopsThere(me, v, st, s.value, k);
    }
  }

  // Observe when the listing fails: an error, and nothing is recorded or requested.
  lemma ObserveUnanswered(me: Self, w: World, st: Status)
    requires Next(w).outcome != Fine
    ensures Observe(me, w, st) == (Turn(me, w), st, Err)
  {
  }

  // What Observe does for one entry

  lemma {:induction false} LoopSkipsTo(me: Self, w: World, st: Status, s: seq<Data>, i: nat, k: nat, found: bool)
    requires i <= k <= |s| && forall j :: i <= j < k ==> s[j].name != me.name
    ensures ObserveFrom(me, w, st, s, i, found) == ObserveFrom(me, w, st, s, k, found)
    decreases k - i
  {
    if i < k {
      LoopSkipsTo(me, w, st, s, i + 1, k, found);
    }
  }

  // Entry j and no other has the name.
  predicate OnlyMatch(s: seq<Data>, name: string, j: nat) {
    j < |s| && s[j].name == name && forall i :: 0 <= i < |s| && i != j ==> s[i].name != name
  }

  // With one entry of the name its id is recorded. If it is active the resource is Available and its kubeconfig is
  // made, the outcome of which decides between success and error; if it is not, the resource is Unavailable, and
  // nothing is requested.
  lemma ObserveOnly(me: Self, w: World, st: Status, j: nat)
    requires Next(w).outcome == Fine && OnlyMatch(Turn(me, w).clusters.entries, me.name, j)
    ensures var v := Turn(me, w);
      var x := v.clusters.entries[j];
      var (u, t, r) := Observe(me, w, st);
      && t == Status(x.id, if x.state == "active" then Available else Unavailable)
      && (x.state != "active" ==> u == v && r == Ok(true))
      && (x.state == "active" ==>
            var (g, e) := GenerateKubeconfig(me, v, x.id); u == g && r == if e.Ok? then Ok(true) else Err)
  {
    var v := Turn(me, w);
    var s := v.clusters.entries;
    LoopSkipsTo(me, v, st, s, 0, j, false);
    var (g, t, e) := Seen(me, v, st, s[j]);
    if e.Ok? {
      LoopSkipsTo(me, g, t, s, j + 1, |s|, true);
    }
  }

  // What Observe requests

  predicate ActiveAs(s: seq<Data>, name: string, id: Id) {
    exists j :: 0 <= j < |s| && s[j].name == name && s[j].state == "active" && s[j].id == id
  }

  predicate AnyActive(s: seq<Data>, name: string) {
    exists j :: 0 <= j < |s| && s[j].name == name && s[j].state == "active"
  }

  lemma {:induction false} LoopQuiet(me: Self, w: World, st: Status, s: seq<Data>, i: nat, found: bool)
    requires i <= |s| && forall j :: i <= j < |s| ==> !(s[j].name == me.name && s[j].state == "active")
    ensures ObserveFrom(me, w, st, s, i, found).0 == w
    decreases |s| - i
  {
    if i < |s| {
      if s[i].name != me.name {
        LoopQuiet(me, w, st, s, i + 1, found);
      } else {
        LoopQuiet(me, w, Seen(me, w, st, s[i]).1, s, i + 1, true);
      }
    }
  }

  // Unless the server lists an active cluster of the name, Observe requests nothing but the listing.
  lemma ObserveQuiet(me: Self, w: World, st: Status)
    requires Next(w).outcome != Fine || !AnyActive(Turn(me, w).clusters.entries, me.name)
    ensures Observe(me, w, st).0 == Turn(me, w)
  {
    if Next(w).outcome == Fine {
      LoopQuiet(me, Turn(me, w), st, Turn(me, w).clusters.entries, 0, false);
    }
  }

  // A request that Observe may make when the server lists s: a kubeconfig of an active cluster of the name, and its
  // secret under one key, when there is such a cluster.
  predicate MayRequest(me: Self, s: seq<Data>, a: Request) {
    || (a.Generate? && ActiveAs(s, me.name, a.id))
    || (a.WriteSecret? && AnyActive(s, me.name) &&
        a.key == Key(if me.namespace == "" then "default" else me.namespace, me.name + "-kubeconfig"))
  }

  lemma CreateSecretRequests(me: Self, w: World, c: Config, s: seq<Data>)
    requires AnyActive(s, me.name)
    ensures var v := CreateSecret(me, w, c).0;
      w.log <= v.log && forall i :: |w.log| <= i < |v.log| ==> MayRequest(me, s, v.log[i])
  {
    hide Rely, SecretsRely, AnyActive, ActiveAs;
  }

  lemma GenerateRequests(me: Self, w: World, id: Id, s: seq<Data>)
    requires ActiveAs(s, me.name, id)
    ensures var v := GenerateKubeconfig(me, w, id).0;
      w.log <= v.log && forall i :: |w.log| <= i < |v.log| ==> MayRequest(me, s, v.log[i])
  {
    hide Rely, SecretsRely, ActiveAs, AnyActive, CreateSecret;
    ActiveIsActive(s, me.name, id);
    var (v, exist) := SecretExists(me, w);
    if !exist {
      var (u, c) := NewConfig(me, v, id);
      assert u.log == w.log + [Generate(id)];
      if c.Ok? {
        CreateSecretRequests(me, u, c.value, s);
      }
    }
  }

  lemma ActiveIsActive(s: seq<Data>, name: string, id: Id)
    requires ActiveAs(s, name, id)
    ensures AnyActive(s, name)
  {
  }

  lemma {:induction false} LoopRequests(me: Self, w: World, st: Status, s: seq<Data>, i: nat, found: bool)
    requires i <= |s|
    ensures var v := ObserveFrom(me, w, st, s, i, found).0;
      w.log <= v.log && forall k :: |w.log| <= k < |v.log| ==> MayRequest(me, s, v.log[k])
    decreases |s| - i
  {
    hide GenerateKubeconfig, MayRequest;
    if i < |s| {
      if s[i].name != me.name {
        LoopRequests(me, w, st, s, i + 1, found);
      } else {
        var (v, t, r) := Seen(me, w, st, s[i]);
        if s[i].state == "active" {
          GenerateRequests(me, w, s[i].id, s);
        }
        if r.Ok? {
          LoopRequests(me, v, t, s, i + 1, true);
        }
      }
    }
  }

  // Every request of Observe is one for an active cluster that the server lists under the resource's name.
  lemma ObserveRequests(me: Self, w: World, st: Status)
    ensures var u := Observe(me, w, st).0;
      w.log <= u.log &&
      forall k :: |w.log| <= k < |u.log| ==> Next(w).outcome == Fine && MayRequest(me, Turn(me, w).clusters.entries, u.log[k])
  {
    hide ObserveFrom, MayRequest;
    if Next(w).outcome == Fine {
      LoopRequests(me, Turn(me, w), st, Turn(me, w).clusters.entries, 0, false);
    }
  }

  // What a reconcile makes of it

  // An entry of the name, with its id and condition recorded.
  predicate Records(s: seq<Data>, name: string, st: Status) {
    exists j :: 0 <= j < |s| && s[j].name == name && st == Status(s[j].id, ConditionOf(s[j]))
  }

  lemma ObserveRecords(me: Self, w: World, st: Status)
    requires Next(w).outcome == Fine
    ensures var s := Turn(me, w).clusters.entries;
      var (u, t, r) := Observe(me, w, st);
      && (Listed(s, me.name) ==> Records(s, me.name, t) && r != Ok(false))
      && (!Listed(s, me.name) ==> u == Turn(me, w) && t == st && r == Ok(false))
  {
    var v := Turn(me, w);
    var s := v.clusters.entries;
    if Observe(me, w, st).2.Ok? {
      ObserveOk(me, w, st);
    } else {
      ObserveErr(me, w, st);
      var k: nat :| StopsAt(me, v, st, s, k);
      assert s[k].name == me.name;
    }
  }

  // A reconcile that gets no listing, or finds nothing to delete, changes nothing. One that finds nothing and is not
  // deleting is a Create. One that finds the cluster records it and leaves the pools alone; it requests a deletion, of
  // the id recorded, exactly if it is deleting and Observe did not fail.
  lemma ReconcileMeans(me: Self, s: State, deleting: bool)
    ensures var w := Turn(me, s.w);
      var (v, _, r) := Observe(me, s.w, s.st);
      var t := Reconcile(me, s, deleting);
      var found := Next(s.w).outcome == Fine && Listed(w.clusters.entries, me.name);
      && (!found && (deleting || Next(s.w).outcome != Fine) ==> t == State(w, s.st, s.pools))
      && (!found && !deleting && Next(s.w).outcome == Fine ==>
            var (u, ps, _) := Create(me, w, s.pools); t == State(u, s.st, ps))
      && (found ==>
            && Records(w.clusters.entries, me.name, t.st) && t.pools == s.pools
            && (!deleting || r.Err? ==> t.w == v)
            && (deleting && r.Ok? ==> t.w == DropCluster(me, v, t.st.id).0 && t.w.log == v.log + [DeleteCluster(t.st.id)]))
  {
    hide Observe, Create, Records;
    if Next(s.w).outcome == Fine {
      ObserveRecords(me, s.w, s.st);
    } else {
      ObserveUnanswered(me, s.w, s.st);
    }
  }
}

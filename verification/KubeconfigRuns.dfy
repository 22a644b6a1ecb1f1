// For which clusters a kubeconfig is asked for and stored, over whole runs.
module KubeconfigRuns {
  import opened Registry
  import opened World
  import opened ClusterSpec
  import opened ObserveProperties
  import opened CreateProperties
  import opened SecretRuns

  lemma CreateSilent(me: Self, w: World, ps: seq<NodePool>)
    ensures var u := Create(me, w, ps).0; w.log <= u.log && forall k :: |w.log| <= k < |u.log| ==> Silent(u.log[k])
  {
    CreateOutcome(me, w, ps);
    var resolved: bool, id: Id, n: nat :| CreateComesTo(me, w, ps, resolved, id, n);
    var u, qs := Create(me, w, ps).0, Create(me, w, ps).1;
    if resolved {
      forall k | |w.log| <= k < |u.log| ensures Silent(u.log[k]) {
        assert k > |w.log| ==> u.log[k] == Posts(id, qs[..n])[k - |w.log| - 1];
      }
    }
  }

  // A request that a reconcile may make when it starts in w: about kubeconfigs, only for a cluster that the server
  // lists active under the resource's name.
  predicate OnlyActive(me: Self, w: World, a: Request) {
    Silent(a) || (Next(w).outcome == Fine && MayRequest(me, Turn(me, w).clusters.entries, a))
  }

  lemma ReconcileRequests(me: Self, s: State, deleting: bool)
    ensures var t := Reconcile(me, s, deleting);
      s.w.log <= t.w.log && forall k :: |s.w.log| <= k < |t.w.log| ==> OnlyActive(me, s.w, t.w.log[k])
  {
    hide Observe, Create, MayRequest, Turn;
    var (v, st, found) := Observe(me, s.w, s.st);
    ObserveRequests(me, s.w, s.st);
    if found.Ok? && found.value != !deleting {
      var t := Reconcile(me, s, deleting);
      if deleting {
        DropLog(me, v, st.id);
      } else {
        CreateSilent(me, v, s.pools);
      }
      forall k | |s.w.log| <= k < |t.w.log| ensures OnlyActive(me, s.w, t.w.log[k]) {
        assert k < |v.log| ==> t.w.log[k] == v.log[k];
      }
    }
  }

  lemma DropLog(me: Self, w: World, id: Id)
    ensures DropCluster(me, w, id).0.log == w.log + [DeleteCluster(id)]
  {
  }

  // Request k was made by reconcile i.
  predicate MadeBy(me: Self, s: State, deleting: seq<bool>, i: nat, k: nat) {
    i < |deleting| && |Run(me, s, deleting[..i]).w.log| <= k < |Run(me, s, deleting[..i + 1]).w.log|
  }

  // Over every run, whatever fails: each kubeconfig asked for, and each secret written, is so by a reconcile whose
  // listing was answered with an active cluster of the resource's name; what is asked for is the kubeconfig of such a
  // cluster, and the key written is the resource's own.
  lemma {:induction false} RunRequests(me: Self, s: State, deleting: seq<bool>, k: nat)
    requires |s.w.log| <= k < |Run(me, s, deleting).w.log|
    ensures exists i: nat ::
      MadeBy(me, s, deleting, i, k) && OnlyActive(me, Run(me, s, deleting[..i]).w, Run(me, s, deleting).w.log[k])
    decreases |deleting|
  {
    hide Reconcile, OnlyActive;
    if deleting != [] {
      var n := |deleting| - 1;
      var t := Run(me, s, deleting[..n]);
      ReconcileRequests(me, t, deleting[n]);
      RunGrows(me, s, deleting[..n]);
      assert deleting[..n + 1] == deleting;
      if k < |t.w.log| {
        RunRequests(me, s, deleting[..n], k);
        var i: nat :| MadeBy(me, s, deleting[..n], i, k)
          && OnlyActive(me, Run(me, s, deleting[..n][..i]).w, t.w.log[k]);
        assert deleting[..n][..i] == deleting[..i] && deleting[..n][..i + 1] == deleting[..i + 1];
        assert MadeBy(me, s, deleting, i, k);
      } else {
        assert MadeBy(me, s, deleting, n, k);
      }
    }
  }

  lemma {:induction false} RunGrows(me: Self, s: State, deleting: seq<bool>)
    ensures s.w.log <= Run(me, s, deleting).w.log
    decreases |deleting|
  {
    hide Reconcile;
    if deleting != [] {
      var n := |deleting| - 1;
      RunGrows(me, s, deleting[..n]);
      ReconcileRequests(me, Run(me, s, deleting[..n]), deleting[n]);
    }
  }
}

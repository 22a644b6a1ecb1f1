// The kubeconfig secrets of different resources do not get in each other's way.
module SecretIsolation {
  import opened Registry
  import opened World
  import opened ClusterSpec
  import opened Paths

  function DefaultNamespace(me: Self): string { if me.namespace == "" then "default" else me.namespace }

  lemma KeysCollideExactly(a: Self, b: Self)
    ensures SecretKey(a) == SecretKey(b) <==> a.name == b.name && DefaultNamespace(a) == DefaultNamespace(b)
  {
    if SecretName(a.name) == SecretName(b.name) {
      assert |a.name| == |b.name|;
      assert a.name == SecretName(a.name)[..|a.name|] == SecretName(b.name)[..|b.name|] == b.name;
    }
  }

  predicate SameAt(k: Key, s: map<Key, Config>, t: map<Key, Config>) { (k in s <==> k in t) && (k in s ==> s[k] == t[k]) }

  // From here on nobody but the other resource's own controller would touch its secret.
  predicate LeftAlone(other: Self, w: World) {
    forall i :: 0 <= i < |w.script| ==> SameAt(SecretKey(other), w.secrets, w.script[i].secrets)
  }

  // From w to v the other resource's secret stays as it is, and is left alone from then on too.
  predicate Aside(other: Self, w: World, v: World) { SameAt(SecretKey(other), w.secrets, v.secrets) && LeftAlone(other, v) }

  lemma TickAside(me: Self, other: Self, w: World, v: World)
    requires LeftAlone(other, w) && me.name != other.name && Tick(me, w, v)
    ensures Aside(other, w, v)
  {
    KeysCollideExactly(me, other);
  }

  lemma {:induction false} PathAside(me: Self, other: Self, ws: seq<World>, i: nat)
    requires Path(me, ws) && i < |ws| && LeftAlone(other, ws[0]) && me.name != other.name
    ensures Aside(other, ws[0], ws[i])
    decreases i
  {
    if i > 0 {
      PathAside(me, other, ws, i - 1);
      assert Tick(me, ws[i - 1], ws[i - 1 + 1]);
      TickAside(me, other, ws[i - 1], ws[i]);
    }
  }

  // However many reconciles of one resource, with any faults, the secret of a resource of another name is neither
  // made, overwritten nor removed by them.
  lemma RunAside(me: Self, other: Self, s: State, deleting: seq<bool>)
    requires LeftAlone(other, s.w) && me.name != other.name
    ensures Aside(other, s.w, Run(me, s, deleting).w)
  {
    RunTicks(me, s, deleting);
    var ws :| Along(me, s.w, Run(me, s, deleting).w, ws);
    PathAside(me, other, ws, |ws| - 1);
  }
}

// A named collection on the Rancher server, clusters or node templates, and the one machine both controllers
// run against it: list, then post, delete or do nothing.
module Registry {
  type Id = nat

  const NO_ID: Id := 0

  // v1alpha1.Data: one entry of a listing.
  datatype Data = Data(id: Id, state: string, name: string)

  // names remembers every id ever issued, also of entries that are gone; next is the id issued next.
  datatype Registry = Registry(entries: seq<Data>, names: map<Id, string>, next: Id)

  predicate Listed(s: seq<Data>, name: string) { exists i :: 0 <= i < |s| && s[i].name == name }

  predicate ListedAs(s: seq<Data>, name: string, id: Id) {
    exists i :: 0 <= i < |s| && s[i].name == name && s[i].id == id
  }

  predicate AtMostOne(s: seq<Data>, name: string) {
    forall i, j :: 0 <= i < j < |s| ==> !(s[i].name == name && s[j].name == name)
  }

  predicate DistinctIds(s: seq<Data>) { forall i, j :: 0 <= i < j < |s| ==> s[i].id != s[j].id }

  predicate Consistent(r: Registry) {
    && NO_ID < r.next
    && (forall k :: k in r.names ==> NO_ID < k < r.next)
    && (forall i :: 0 <= i < |r.entries| ==> r.entries[i].id in r.names && r.names[r.entries[i].id] == r.entries[i].name)
    && DistinctIds(r.entries)
  }

  // What anybody else may do to the registry as far as the owner of one name is concerned: list entries in
  // another order, change their states, add and remove entries, but add none under this name and reuse no id.
  predicate Rely(me: string, r: Registry, q: Registry) {
    && Consistent(q) && r.next <= q.next
    && (forall k :: k in r.names ==> k in q.names && q.names[k] == r.names[k])
    && (forall i :: 0 <= i < |q.entries| && q.entries[i].name == me ==> ListedAs(r.entries, me, q.entries[i].id))
  }

  function Posted(r: Registry, name: string): Registry {
    Registry(r.entries + [Data(r.next, "provisioning", name)], r.names[r.next := name], r.next + 1)
  }

  function Without(s: seq<Data>, id: Id): (t: seq<Data>)
    ensures forall x :: x in t <==> x in s && x.id != id
    ensures |t| <= |s|
  {
    if s == [] then [] else (if s[0].id == id then [] else [s[0]]) + Without(s[1..], id)
  }

  function Removed(r: Registry, id: Id): Registry { r.(entries := Without(r.entries, id)) }

  // Every entry has become active.
  function Settled(r: Registry): Registry {
    r.(entries := seq(|r.entries|, i requires 0 <= i < |r.entries| => r.entries[i].(state := "active")))
  }

  lemma RelySame(me: string, r: Registry)
    requires Consistent(r)
    ensures Rely(me, r, r)
  {
    assert forall i :: 0 <= i < |r.entries| && r.entries[i].name == me ==> ListedAs(r.entries, me, r.entries[i].id);
  }

  lemma RelyTrans(me: string, p: Registry, q: Registry, r: Registry)
    requires Rely(me, p, q) && Rely(me, q, r)
    ensures Rely(me, p, r)
  {
  }

  lemma RelySettled(me: string, r: Registry)
    requires Consistent(r)
    ensures Rely(me, r, Settled(r))
  {
    var s := Settled(r).entries;
    assert forall i :: 0 <= i < |s| && s[i].name == me ==> r.entries[i].name == me && r.entries[i].id == s[i].id;
  }

  lemma RelyKeeps(me: string, r: Registry, q: Registry)
    requires Rely(me, r, q)
    ensures AtMostOne(r.entries, me) ==> AtMostOne(q.entries, me)
    ensures !Listed(r.entries, me) ==> !Listed(q.entries, me)
  {
  }

  // The machine. One reconcile lists the registry, r1; by the time it acts the registry may have moved on, r2.

  datatype Act = Idle | Post | Delete(id: Id)

  ghost predicate ActsFrom(me: string, post: string, deleting: bool, r1: Registry, r2: Registry, q: Registry, act: Act) {
    match act
    case Idle => Rely(me, r2, q)
    case Post => !deleting && !Listed(r1.entries, me) && Rely(me, Posted(r2, post), q)
    case Delete(id) => deleting && ListedAs(r1.entries, me, id) && Rely(me, Removed(r2, id), q)
  }

  ghost predicate Reconciles(me: string, post: string, deleting: bool, r: Registry, q: Registry, act: Act) {
    exists r1, r2 :: Rely(me, r, r1) && Rely(me, r1, r2) && ActsFrom(me, post, deleting, r1, r2, q, act)
  }

  // A run of reconciles: the registries before and after each, whether each found the resource being deleted,
  // and what each did.
  ghost predicate IsRun(me: string, post: string, rs: seq<Registry>, deleting: seq<bool>, acts: seq<Act>) {
    && |rs| == |acts| + 1 && |deleting| == |acts|
    && (forall i :: 0 <= i < |acts| ==> Reconciles(me, post, deleting[i], rs[i], rs[i + 1], acts[i]))
  }

  lemma PostedConsistent(me: string, r: Registry, name: string)
    requires Consistent(r)
    ensures Consistent(Posted(r, name))
    ensures AtMostOne(r.entries, me) && !(name == me && Listed(r.entries, me)) ==> AtMostOne(Posted(r, name).entries, me)
  {
  }

  lemma {:induction false} WithoutDistinct(s: seq<Data>, id: Id)
    requires DistinctIds(s)
    ensures DistinctIds(Without(s, id))
  {
    if s != [] {
      WithoutDistinct(s[1..], id);
      var t := Without(s[1..], id);
      forall x | x in t ensures x.id != s[0].id {
        var j :| 0 <= j < |s[1..]| && s[1..][j] == x;
        assert s[j + 1] == x;
      }
    }
  }

  lemma {:induction false} WithoutAtMostOne(s: seq<Data>, id: Id, name: string)
    requires AtMostOne(s, name)
    ensures AtMostOne(Without(s, id), name)
  {
    if s != [] {
      assert forall j :: 0 <= j < |s[1..]| ==> s[1..][j] == s[j + 1];
      WithoutAtMostOne(s[1..], id, name);
      var t := Without(s[1..], id);
      forall x | x in t ensures !(s[0].name == name && x.name == name) {
        var j :| 0 <= j < |s[1..]| && s[1..][j] == x;
      }
    }
  }

  lemma RemovedConsistent(me: string, r: Registry, id: Id)
    requires Consistent(r)
    ensures Consistent(Removed(r, id))
    ensures AtMostOne(r.entries, me) ==> AtMostOne(Removed(r, id).entries, me)
  {
    assert DistinctIds(r.entries);
    WithoutDistinct(r.entries, id);
    if AtMostOne(r.entries, me) {
      WithoutAtMostOne(r.entries, id, me);
    }
    var t := Removed(r, id).entries;
    assert DistinctIds(t);
    forall i | 0 <= i < |t| ensures t[i].id in r.names && r.names[t[i].id] == t[i].name {
      assert t[i] in t;
    }
  }

  // Single creation, one reconcile.
  lemma ReconcileKeepsOne(me: string, deleting: bool, r: Registry, q: Registry, act: Act)
    requires Consistent(r) && AtMostOne(r.entries, me) && Reconciles(me, me, deleting, r, q, act)
    ensures Consistent(q) && AtMostOne(q.entries, me)
  {
    var r1, r2 :| Rely(me, r, r1) && Rely(me, r1, r2) && ActsFrom(me, me, deleting, r1, r2, q, act);
    RelyKeeps(me, r, r1);
    RelyKeeps(me, r1, r2);
    match act
    case Idle => RelyKeeps(me, r2, q);
    case Post => PostedConsistent(me, r2, me); RelyKeeps(me, Posted(r2, me), q);
    case Delete(id) => RemovedConsistent(me, r2, id); RelyKeeps(me, Removed(r2, id), q);
  }

  // Single creation over whole runs, whatever the environment and the faults were: it holds after every reconcile.
  lemma {:induction false} RunKeepsOne(me: string, rs: seq<Registry>, deleting: seq<bool>, acts: seq<Act>, i: nat)
    requires IsRun(me, me, rs, deleting, acts) && Consistent(rs[0]) && AtMostOne(rs[0].entries, me) && i < |rs|
    ensures Consistent(rs[i]) && AtMostOne(rs[i].entries, me)
    decreases i
  {
    if i > 0 {
      RunKeepsOne(me, rs, deleting, acts, i - 1);
      assert Reconciles(me, me, deleting[i - 1], rs[i - 1], rs[i - 1 + 1], acts[i - 1]);
      ReconcileKeepsOne(me, deleting[i - 1], rs[i - 1], rs[i], acts[i - 1]);
    }
  }

  lemma RunExtends(me: string, post: string, rs: seq<Registry>, deleting: seq<bool>, acts: seq<Act>,
                   q: Registry, d: bool, act: Act)
    requires IsRun(me, post, rs, deleting, acts) && Reconciles(me, post, d, rs[|rs| - 1], q, act)
    ensures IsRun(me, post, rs + [q], deleting + [d], acts + [act])
  {
    var ss, es, bs := rs + [q], deleting + [d], acts + [act];
    forall i | 0 <= i < |bs| ensures Reconciles(me, post, es[i], ss[i], ss[i + 1], bs[i]) {
      if i < |acts| {
        assert es[i] == deleting[i] && ss[i] == rs[i] && ss[i + 1] == rs[i + 1] && bs[i] == acts[i];
      } else {
        assert es[i] == d && ss[i] == rs[|rs| - 1] && ss[i + 1] == q && bs[i] == act;
      }
    }
  }

  // From r to q the entry of the id was removed by somebody who knows r2, and every entry of another name that was
  // there then outlived it.
  ghost predicate SparesAt(me: string, r: Registry, r2: Registry, q: Registry, id: Id) {
    && Rely(me, r, r2) && Rely(me, Removed(r2, id), q)
    && forall x :: x in r2.entries && x.name != me ==> x in Removed(r2, id).entries
  }

  ghost predicate Spares(me: string, r: Registry, q: Registry, id: Id) { exists r2 :: SparesAt(me, r, r2, q, id) }

  lemma RemovedSpares(me: string, r: Registry, id: Id)
    requires Consistent(r) && id in r.names && r.names[id] == me
    ensures forall x :: x in r.entries && x.name != me ==> x in Removed(r, id).entries
  {
    forall x | x in r.entries && x.name != me ensures x in Removed(r, id).entries {
      var i :| 0 <= i < |r.entries| && r.entries[i] == x;
    }
  }

  // Deleting stays in its lane: the id deleted was issued under this name, and no entry of another name goes.
  lemma DeleteInLane(me: string, post: string, r: Registry, q: Registry, id: Id)
    requires Consistent(r) && Reconciles(me, post, true, r, q, Delete(id))
    ensures id in q.names && q.names[id] == me && Spares(me, r, q, id)
  {
    var r1, r2 :| Rely(me, r, r1) && Rely(me, r1, r2) && ActsFrom(me, post, true, r1, r2, q, Delete(id));
    assert id in r1.names && r1.names[id] == me;
    RelyTrans(me, r, r1, r2);
    RemovedSpares(me, r2, id);
    assert SparesAt(me, r, r2, q, id);
  }

  lemma ReconcileExtends(me: string, post: string, deleting: bool, r: Registry, q: Registry, act: Act)
    requires Consistent(r) && Reconciles(me, post, deleting, r, q, act)
    ensures Consistent(q) && forall k :: k in r.names ==> k in q.names && q.names[k] == r.names[k]
    ensures act.Delete? ==> deleting && act.id in q.names && q.names[act.id] == me && Spares(me, r, q, act.id)
  {
    if act.Delete? {
      DeleteInLane(me, post, r, q, act.id);
    }
  }

  lemma {:induction false} RunNames(me: string, post: string, rs: seq<Registry>, deleting: seq<bool>, acts: seq<Act>,
                                    i: nat, j: nat)
    requires IsRun(me, post, rs, deleting, acts) && i <= j < |rs| && Consistent(rs[i])
    ensures Consistent(rs[j]) && forall k :: k in rs[i].names ==> k in rs[j].names && rs[j].names[k] == rs[i].names[k]
    decreases j
  {
    if i < j {
      RunNames(me, post, rs, deleting, acts, i, j - 1);
      assert Reconciles(me, post, deleting[j - 1], rs[j - 1], rs[j - 1 + 1], acts[j - 1]);
      ReconcileExtends(me, post, deleting[j - 1], rs[j - 1], rs[j], acts[j - 1]);
    }
  }

  // Over whole runs: only ids issued under this name are deleted, only while the resource is, and every time all
  // entries of other names outlive it.
  lemma RunDeletesInLane(me: string, post: string, rs: seq<Registry>, deleting: seq<bool>, acts: seq<Act>, i: nat)
    requires IsRun(me, post, rs, deleting, acts) && Consistent(rs[0]) && i < |acts| && acts[i].Delete?
    ensures var last := rs[|acts|];
      && deleting[i] && acts[i].id in last.names && last.names[acts[i].id] == me
      && Spares(me, rs[i], rs[i + 1], acts[i].id)
  {
    RunNames(me, post, rs, deleting, acts, 0, i);
    assert Reconciles(me, post, deleting[i], rs[i], rs[i + 1], acts[i]);
    ReconcileExtends(me, post, deleting[i], rs[i], rs[i + 1], acts[i]);
    RunNames(me, post, rs, deleting, acts, i + 1, |acts|);
  }

  // An entry of the name is one of those there were, or newer.
  predicate Descends(me: string, r: Registry, q: Registry) {
    && r.next <= q.next
    && forall i :: 0 <= i < |q.entries| && q.entries[i].name == me ==>
      r.next <= q.entries[i].id || ListedAs(r.entries, me, q.entries[i].id)
  }

  lemma DescendsTrans(me: string, p: Registry, q: Registry, r: Registry)
    requires Descends(me, p, q) && Descends(me, q, r)
    ensures Descends(me, p, r)
  {
  }

  lemma ReconcileDescends(me: string, post: string, deleting: bool, r: Registry, q: Registry, act: Act)
    requires Consistent(r) && Reconciles(me, post, deleting, r, q, act)
    ensures Descends(me, r, q)
  {
    var r1, r2 :| Rely(me, r, r1) && Rely(me, r1, r2) && ActsFrom(me, post, deleting, r1, r2, q, act);
    RelyTrans(me, r, r1, r2);
    assert Descends(me, r, r2);
    match act
    case Idle =>
      assert Descends(me, r2, q);
    case Post =>
      assert Descends(me, r2, Posted(r2, post));
      DescendsTrans(me, r, r2, Posted(r2, post));
      assert Descends(me, Posted(r2, post), q);
      DescendsTrans(me, r, Posted(r2, post), q);
    case Delete(id) =>
      RemovedDescends(me, r2, id);
      DescendsTrans(me, r, r2, Removed(r2, id));
      assert Descends(me, Removed(r2, id), q);
      DescendsTrans(me, r, Removed(r2, id), q);
  }

  lemma RemovedDescends(me: string, r: Registry, id: Id)
    ensures Descends(me, r, Removed(r, id))
  {
    var t := Removed(r, id).entries;
    forall i | 0 <= i < |t| && t[i].name == me ensures ListedAs(r.entries, me, t[i].id) {
      assert t[i] in t;
    }
  }

  // Whatever the run, an entry of the name was there before or is newer.
  lemma {:induction false} RunDescends(me: string, post: string, rs: seq<Registry>, deleting: seq<bool>, acts: seq<Act>,
                                       i: nat)
    requires IsRun(me, post, rs, deleting, acts) && Consistent(rs[0]) && i < |rs|
    ensures Descends(me, rs[0], rs[i])
    decreases i
  {
    if i > 0 {
      RunDescends(me, post, rs, deleting, acts, i - 1);
      RunNames(me, post, rs, deleting, acts, 0, i - 1);
      assert Reconciles(me, post, deleting[i - 1], rs[i - 1], rs[i - 1 + 1], acts[i - 1]);
      ReconcileDescends(me, post, deleting[i - 1], rs[i - 1], rs[i], acts[i - 1]);
      DescendsTrans(me, rs[0], rs[i - 1], rs[i]);
    } else {
      assert forall j :: 0 <= j < |rs[0].entries| && rs[0].entries[j].name == me ==>
        ListedAs(rs[0].entries, me, rs[0].entries[j].id);
    }
  }

  // With at most one entry of the name, removing the one that was listed leaves none.
  lemma RemovedGone(me: string, r1: Registry, r2: Registry, id: Id)
    requires Rely(me, r1, r2) && AtMostOne(r1.entries, me) && ListedAs(r1.entries, me, id)
    ensures !Listed(Removed(r2, id).entries, me)
  {
    var gone := Removed(r2, id).entries;
    forall i | 0 <= i < |gone| ensures gone[i].name != me {
      assert gone[i] in gone;
      var j :| 0 <= j < |r2.entries| && r2.entries[j] == gone[i];
      assert r2.entries[j].name == me ==> ListedAs(r1.entries, me, r2.entries[j].id);
    }
  }

  // Every step of this machine is one that the owner of another name relies on.
  lemma OthersMayRely(me: string, other: string, r: Registry, id: Id)
    requires Consistent(r) && other != me
    ensures Rely(other, r, Posted(r, me))
    ensures Rely(other, r, Removed(r, id))
  {
    var p, q := Posted(r, me), Removed(r, id);
    PostedConsistent(me, r, me);
    RemovedConsistent(me, r, id);
    forall i | 0 <= i < |p.entries| && p.entries[i].name == other ensures ListedAs(r.entries, other, p.entries[i].id) {
      assert p.entries[i] == r.entries[i];
    }
    forall i | 0 <= i < |q.entries| && q.entries[i].name == other ensures ListedAs(r.entries, other, q.entries[i].id) {
      assert q.entries[i] in q.entries;
    }
  }
}

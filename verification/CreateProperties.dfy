// The two loops of Create and the one POST between them.
module CreateProperties {
  import opened Registry
  import opened World
  import opened ClusterSpec

  // Resolution of node template references

  function Refs(ps: seq<NodePool>): seq<string> { seq(|ps|, i requires 0 <= i < |ps| => ps[i].templateRef) }

  // The world in which the loop that starts at reference i comes to reference j.
  function At(me: Self, w: World, refs: seq<string>, i: nat, j: nat): World
    requires i <= j <= |refs|
    decreases j - i
  {
    if i == j then w
    else At(me, if refs[i] == "" then w else Turn(me, w), refs, i + 1, j)
  }

  // The lookup that the loop makes for reference j.
  function LookupAt(me: Self, w: World, refs: seq<string>, i: nat, j: nat): Result<Id>
    requires i <= j < |refs|
  {
    LookupTemplate(me, At(me, w, refs, i, j), refs[j]).1
  }

  // q is p with the id that its own lookup gave, and anything else about it is as it was.
  predicate ResolvedAt(me: Self, w: World, refs: seq<string>, i: nat, j: nat, p: NodePool, q: NodePool)
    requires i <= j < |refs|
  {
    if refs[j] == "" then q == p
    else var id := LookupAt(me, w, refs, i, j); id.Ok? && q == p.(templateId := id.value)
  }

  // The loop from i on got as far as k: the pools from i to k are resolved, all others as they were, and if k is not
  // the end then its lookup failed.
  predicate ResolvesTo(me: Self, w: World, ps: seq<NodePool>, i: nat, k: nat)
    requires i <= |ps|
  {
    var refs := Refs(ps);
    var (v, qs, r) := Resolve(me, w, ps, i);
    && i <= k <= |ps|
    && (forall j :: i <= j < k ==> ResolvedAt(me, w, refs, i, j, ps[j], qs[j]))
    && (forall j :: 0 <= j < |ps| && !(i <= j < k) ==> qs[j] == ps[j])
    && (r.Ok? <==> k == |ps|)
    && (r.Ok? ==> v == At(me, w, refs, i, k))
    && (r.Err? ==> refs[k] != "" && LookupAt(me, w, refs, i, k).Err? && v == Turn(me, At(me, w, refs, i, k)))
    && v.log == w.log
  }

  lemma ResolveNone(me: Self, w: World, ps: seq<NodePool>, i: nat)
    requires i < |ps| && ps[i].templateRef != "" && LookupTemplate(me, w, ps[i].templateRef).1.Err?
    ensures ResolvesTo(me, w, ps, i, i)
  {
    assert LookupAt(me, w, Refs(ps), i, i) == LookupTemplate(me, w, ps[i].templateRef).1;
  }

  lemma ResolveSkip(me: Self, w: World, ps: seq<NodePool>, i: nat, k: nat)
    requires i < |ps| && ps[i].templateRef == "" && ResolvesTo(me, w, ps, i + 1, k)
    ensures ResolvesTo(me, w, ps, i, k)
  {
    var qs := Resolve(me, w, ps, i).1;
    assert forall j :: i < j <= |ps| ==> At(me, w, Refs(ps), i, j) == At(me, w, Refs(ps), i + 1, j);
    forall j | i < j < k ensures ResolvedAt(me, w, Refs(ps), i, j, ps[j], qs[j]) {
      assert ResolvedAt(me, w, Refs(ps), i + 1, j, ps[j], qs[j]);
    }
  }

  // One round of the loop at a pool whose reference is found.
  lemma ResolveRound(me: Self, w: World, ps: seq<NodePool>, i: nat)
    requires i < |ps| && ps[i].templateRef != "" && LookupTemplate(me, w, ps[i].templateRef).1.Ok?
    ensures var (v, id) := LookupTemplate(me, w, ps[i].templateRef);
      var qs := ps[i := ps[i].(templateId := id.value)];
      && Refs(qs) == Refs(ps) && v.log == w.log
      && Resolve(me, w, ps, i) == Resolve(me, v, qs, i + 1)
      && LookupAt(me, w, Refs(ps), i, i) == id
      && forall j :: i < j < |ps| ==> LookupAt(me, w, Refs(ps), i, j) == LookupAt(me, v, Refs(ps), i + 1, j)
  {
  }

  lemma ResolveOne(me: Self, w: World, ps: seq<NodePool>, i: nat, k: nat)
    requires i < |ps| && ps[i].templateRef != ""
    requires var (v, id) := LookupTemplate(me, w, ps[i].templateRef);
      id.Ok? && ResolvesTo(me, v, ps[i := ps[i].(templateId := id.value)], i + 1, k)
    ensures ResolvesTo(me, w, ps, i, k)
  {
    var (v, id) := LookupTemplate(me, w, ps[i].templateRef);
    var qs := ps[i := ps[i].(templateId := id.value)];
    var rs := Resolve(me, w, ps, i).1;
    ResolveRound(me, w, ps, i);
    forall j | i <= j < k ensures ResolvedAt(me, w, Refs(ps), i, j, ps[j], rs[j]) {
      if j > i {
        assert ResolvedAt(me, v, Refs(qs), i + 1, j, qs[j], rs[j]);
      }
    }
  }

  // The loop stops early only at a pool whose reference it could not resolve; the pools before it have the id that
  // their lookup gave, and the others are untouched.
  lemma {:induction false} ResolveOutcome(me: Self, w: World, ps: seq<NodePool>, i: nat)
    requires i <= |ps|
    ensures exists k: nat :: ResolvesTo(me, w, ps, i, k)
    decreases |ps| - i
  {
    if i == |ps| {
      assert ResolvesTo(me, w, ps, i, i);
    } else if ps[i].templateRef == "" {
      ResolveOutcome(me, w, ps, i + 1);
      var k: nat :| ResolvesTo(me, w, ps, i + 1, k);
      ResolveSkip(me, w, ps, i, k);
    } else {
      var (v, id) := LookupTemplate(me, w, ps[i].templateRef);
      if id.Err? {
        ResolveNone(me, w, ps, i);
      } else {
        var qs := ps[i := ps[i].(templateId := id.value)];
        ResolveOutcome(me, v, qs, i + 1);
        var k: nat :| ResolvesTo(me, v, qs, i + 1, k);
        ResolveOne(me, w, ps, i, k);
      }
    }
  }

  // The request for reference j gets through, and the answer has a first element.
  predicate Found(me: Self, w: World, refs: seq<string>, j: nat)
    requires j < |refs|
  {
    var v := At(me, w, refs, 0, j);
    Next(v).outcome == Fine && Listed(Turn(me, v).templates, refs[j])
  }

  // The request gets through, and the source indexes an empty answer.
  predicate Panics(me: Self, w: World, refs: seq<string>, j: nat)
    requires j < |refs|
  {
    AskTemplates(me, At(me, w, refs, 0, j), refs[j]).1 == Ok([])
  }

  predicate FoundUpTo(me: Self, w: World, refs: seq<string>, k: nat) {
    k <= |refs| && forall j :: 0 <= j < k && refs[j] != "" ==> Found(me, w, refs, j)
  }

  // The source indexes an empty answer exactly when the request gets through and no template has the name.
  lemma PanicsExactly(me: Self, w: World, refs: seq<string>, j: nat)
    requires j < |refs|
    ensures Panics(me, w, refs, j) <==> Next(At(me, w, refs, 0, j)).outcome == Fine && !Found(me, w, refs, j)
    ensures LookupAt(me, w, refs, 0, j).Ok? <==> Found(me, w, refs, j)
  {
    var v := At(me, w, refs, 0, j);
    assert Matching(Turn(me, v).templates, refs[j]) == [] <==> !Listed(Turn(me, v).templates, refs[j]);
  }

  // When resolution succeeds and when it fails, in any world: it goes through exactly if every reference is found,
  // and stops exactly at the first that is not.
  lemma ResolvesExactly(me: Self, w: World, ps: seq<NodePool>)
    ensures var refs := Refs(ps);
      && (Resolve(me, w, ps, 0).2.Ok? <==> FoundUpTo(me, w, refs, |ps|))
      && (Resolve(me, w, ps, 0).2.Err? <==>
            exists k :: 0 <= k < |ps| && refs[k] != "" && FoundUpTo(me, w, refs, k) && !Found(me, w, refs, k))
  {
    ResolveOutcome(me, w, ps, 0);
    var refs := Refs(ps);
    var k: nat :| ResolvesTo(me, w, ps, 0, k);
    var qs := Resolve(me, w, ps, 0).1;
    forall j | 0 <= j < k && refs[j] != "" ensures Found(me, w, refs, j) {
      assert ResolvedAt(me, w, refs, 0, j, ps[j], qs[j]);
      PanicsExactly(me, w, refs, j);
    }
    if k < |ps| {
      PanicsExactly(me, w, refs, k);
    }
    assert FoundUpTo(me, w, refs, k);
  }

  // While the templates stay as they are

  predicate TemplatesStay(w: World) { forall i :: 0 <= i < |w.script| ==> w.script[i].templates == w.templates }

  predicate Resolvable(ts: seq<Data>, ps: seq<NodePool>) {
    forall i :: 0 <= i < |ps| && ps[i].templateRef != "" ==> Listed(ts, ps[i].templateRef)
  }

  function ResolvedPool(ts: seq<Data>, p: NodePool): NodePool {
    var found := Matching(ts, p.templateRef);
    if p.templateRef == "" || found == [] then p else p.(templateId := found[0].id)
  }

  function ResolvedPools(ts: seq<Data>, ps: seq<NodePool>): seq<NodePool> {
    seq(|ps|, i requires 0 <= i < |ps| => ResolvedPool(ts, ps[i]))
  }

  lemma {:induction false} AtStays(me: Self, w: World, refs: seq<string>, i: nat, j: nat)
    requires i <= j <= |refs| && TemplatesStay(w)
    ensures TemplatesStay(At(me, w, refs, i, j)) && At(me, w, refs, i, j).templates == w.templates
    decreases j - i
  {
    if i < j {
      AtStays(me, if refs[i] == "" then w else Turn(me, w), refs, i + 1, j);
    }
  }

  // What the loop makes of the pools it reaches is then their lookup in the one list.
  lemma ResolveStays(me: Self, w: World, ps: seq<NodePool>, k: nat)
    requires TemplatesStay(w) && ResolvesTo(me, w, ps, 0, k)
    ensures var qs := Resolve(me, w, ps, 0).1;
      && (forall j :: 0 <= j < k ==> qs[j] == ResolvedPool(w.templates, ps[j]))
      && (forall j :: 0 <= j < k && ps[j].templateRef != "" ==> Listed(w.templates, ps[j].templateRef))
  {
    var qs := Resolve(me, w, ps, 0).1;
    forall j | 0 <= j < k
      ensures qs[j] == ResolvedPool(w.templates, ps[j])
      ensures ps[j].templateRef != "" ==> Listed(w.templates, ps[j].templateRef)
    {
      AtStays(me, w, Refs(ps), 0, j);
      assert ResolvedAt(me, w, Refs(ps), 0, j, ps[j], qs[j]);
    }
  }

  // A run of the loop that succeeds computes the lookup of every reference.
  lemma ResolveStable(me: Self, w: World, ps: seq<NodePool>)
    requires TemplatesStay(w)
    ensures var (v, qs, r) := Resolve(me, w, ps, 0);
      r.Ok? ==> qs == ResolvedPools(w.templates, ps) && Resolvable(w.templates, ps)
  {
    ResolveOutcome(me, w, ps, 0);
    var k: nat :| ResolvesTo(me, w, ps, 0, k);
    ResolveStays(me, w, ps, k);
  }

  // Running it again on its result, while the templates are still the same, changes no pool, whether the second run
  // gets to the end or stops anywhere.
  lemma RerunChangesNothing(me: Self, w: World, ps: seq<NodePool>, u: World)
    requires TemplatesStay(w) && TemplatesStay(u) && u.templates == w.templates
    requires Resolve(me, w, ps, 0).2.Ok?
    ensures var qs := Resolve(me, w, ps, 0).1; Resolve(me, u, qs, 0).1 == qs
  {
    var qs := Resolve(me, w, ps, 0).1;
    ResolveStable(me, w, ps);
    ResolveOutcome(me, u, qs, 0);
    var k: nat :| ResolvesTo(me, u, qs, 0, k);
    ResolveStays(me, u, qs, k);
  }

  // Posting

  function Posts(id: Id, ps: seq<NodePool>): seq<Request> {
    seq(|ps|, i requires 0 <= i < |ps| => PostPool(ps[i].(clusterId := id)))
  }

  // The world in which the loop that starts at pool i comes to pool j.
  function PostAt(me: Self, w: World, id: Id, ps: seq<NodePool>, i: nat, j: nat): World
    requires i <= j <= |ps|
    decreases j - i
  {
    if i == j then w else PostAt(me, NewNodePool(me, w, id, ps[i]).0, id, ps, i + 1, j)
  }

  // The post of pool j, if the loop comes to it, is answered.
  predicate AnswersAt(me: Self, w: World, id: Id, ps: seq<NodePool>, i: nat, j: nat)
    requires i <= j < |ps|
  {
    Next(PostAt(me, w, id, ps, i, j)).outcome == Fine
  }

  // The loop from i on posted the pools up to k and did nothing else: all posts before the last were answered, and the
  // last was if and only if the loop succeeds.
  predicate PostsTo(me: Self, w: World, id: Id, ps: seq<NodePool>, i: nat, k: nat)
    requires i <= |ps|
  {
    var (v, r) := PostPools(me, w, id, ps, i);
    && i <= k <= |ps| && v == PostAt(me, w, id, ps, i, k) && v.log == w.log + Posts(id, ps[i..k])
    && (forall j :: i <= j < k - 1 ==> AnswersAt(me, w, id, ps, i, j))
    && (r.Ok? ==> k == |ps| && (i < k ==> AnswersAt(me, w, id, ps, i, k - 1)))
    && (r.Err? ==> i < k && !AnswersAt(me, w, id, ps, i, k - 1))
  }

  lemma PostsSplit(id: Id, ps: seq<NodePool>, i: nat, k: nat)
    requires i < k <= |ps|
    ensures Posts(id, ps[i..k]) == [PostPool(ps[i].(clusterId := id))] + Posts(id, ps[i + 1..k])
  {
    assert ps[i..k] == [ps[i]] + ps[i + 1..k];
  }

  lemma PostOne(me: Self, w: World, id: Id, ps: seq<NodePool>, i: nat, k: nat)
    requires i < |ps|
    requires var (v, r) := NewNodePool(me, w, id, ps[i]); r.Ok? && PostsTo(me, v, id, ps, i + 1, k)
    ensures PostsTo(me, w, id, ps, i, k)
  {
    var v := NewNodePool(me, w, id, ps[i]).0;
    PostsSplit(id, ps, i, k);
    var p := PostPool(ps[i].(clusterId := id));
    assert w.log + [p] + Posts(id, ps[i + 1..k]) == w.log + ([p] + Posts(id, ps[i + 1..k]));
    assert forall j :: i < j < |ps| ==> AnswersAt(me, w, id, ps, i, j) == AnswersAt(me, v, id, ps, i + 1, j);
    assert AnswersAt(me, w, id, ps, i, i);
  }

  // The pools posted are a prefix of the list, in order, and the loop stops at the first post that is not answered.
  lemma {:induction false} PostPoolsOutcome(me: Self, w: World, id: Id, ps: seq<NodePool>, i: nat)
    requires i <= |ps|
    ensures exists k: nat :: PostsTo(me, w, id, ps, i, k)
    decreases |ps| - i
  {
    if i == |ps| {
      assert w.log + Posts(id, ps[i..i]) == w.log;
      assert PostsTo(me, w, id, ps, i, i);
    } else {
      var (v, r) := NewNodePool(me, w, id, ps[i]);
      if r.Err? {
        PostsSplit(id, ps, i, i + 1);
        assert !AnswersAt(me, w, id, ps, i, i);
        assert PostsTo(me, w, id, ps, i, i + 1);
      } else {
        PostPoolsOutcome(me, v, id, ps, i + 1);
        var k: nat :| PostsTo(me, v, id, ps, i + 1, k);
        PostOne(me, w, id, ps, i, k);
      }
    }
  }

  predicate AnsweredUpTo(me: Self, w: World, id: Id, ps: seq<NodePool>, n: nat) {
    n <= |ps| && forall j :: 0 <= j < n ==> AnswersAt(me, w, id, ps, 0, j)
  }

  // Pool n is posted exactly if every post before it was answered, and the loop succeeds exactly if all were.
  lemma PostedExactly(me: Self, w: World, id: Id, ps: seq<NodePool>, n: nat)
    requires n < |ps|
    ensures var (v, r) := PostPools(me, w, id, ps, 0);
      && (|w.log| + n < |v.log| <==> AnsweredUpTo(me, w, id, ps, n))
      && (|w.log| + n < |v.log| ==> v.log[|w.log| + n] == PostPool(ps[n].(clusterId := id)))
      && (r.Ok? <==> AnsweredUpTo(me, w, id, ps, |ps|))
  {
    PostPoolsOutcome(me, w, id, ps, 0);
    var k: nat :| PostsTo(me, w, id, ps, 0, k);
    if PostPools(me, w, id, ps, 0).1.Err? {
      assert !AnswersAt(me, w, id, ps, 0, k - 1);
    }
  }

  // Create resolved every reference if resolved is true, obtained id, and then posted k pools.
  ghost predicate CreateComesTo(me: Self, w: World, ps: seq<NodePool>, resolved: bool, id: Id, k: nat) {
    var (v, qs, e) := Resolve(me, w, ps, 0);
    var (u, c) := NewCluster(me, v);
    var (t, rs, r) := Create(me, w, ps);
    && rs == qs && k <= |qs| && resolved == e.Ok?
    && (!resolved ==> r.Err? && k == 0 && t == v && t.log == w.log)
    && (resolved ==> t.log == w.log + [PostCluster(me.rkeName)] + Posts(id, qs[..k]))
    && (resolved && c.Err? ==> r.Err? && k == 0 && t == u)
    && (resolved && c.Ok? ==> id == c.value == Turn(me, v).clusters.next && t == PostAt(me, u, id, qs, 0, k))
    && (r.Ok? ==> resolved && c.Ok? && k == |qs|)
    && (r.Err? && resolved && c.Ok? ==> 0 < k)
  }

  // No cluster is posted unless every reference is resolved, no pool unless the cluster was posted and its id came
  // back, and the pools posted are a prefix of the resolved list under that id. Success means the whole list.
  lemma CreateOutcome(me: Self, w: World, ps: seq<NodePool>)
    ensures exists resolved: bool, id: Id, k: nat :: CreateComesTo(me, w, ps, resolved, id, k)
  {
    ResolveOutcome(me, w, ps, 0);
    var (v, qs, e) := Resolve(me, w, ps, 0);
    var (u, c) := NewCluster(me, v);
    if e.Ok? && c.Ok? {
      PostPoolsOutcome(me, u, c.value, qs, 0);
      var k: nat :| PostsTo(me, u, c.value, qs, 0, k);
      assert qs[0..k] == qs[..k];
      assert CreateComesTo(me, w, ps, true, c.value, k);
    } else {
      assert u.log + Posts(NO_ID, qs[..0]) == u.log;
      assert CreateComesTo(me, w, ps, e.Ok?, NO_ID, 0);
    }
  }

  // Create succeeds exactly if every reference is found, the creation is answered, and so is every post of a pool.
  lemma CreateSucceedsExactly(me: Self, w: World, ps: seq<NodePool>)
    ensures var (v, qs, _) := Resolve(me, w, ps, 0);
      var u := NewCluster(me, v).0;
      Create(me, w, ps).2.Ok? <==>
        && FoundUpTo(me, w, Refs(ps), |ps|) && Next(At(me, w, Refs(ps), 0, |ps|)).outcome == Fine
        && AnsweredUpTo(me, u, Turn(me, v).clusters.next, qs, |qs|)
  {
    var (v, qs, e) := Resolve(me, w, ps, 0);
    var (u, c) := NewCluster(me, v);
    ResolvesExactly(me, w, ps);
    ResolveOutcome(me, w, ps, 0);
    if e.Ok? && c.Ok? && qs != [] {
      PostedExactly(me, u, c.value, qs, |qs| - 1);
    }
  }

  // Every reference is found, the creation is answered, and so is every post of a pool but the last.
  predicate PostsAll(me: Self, w: World, ps: seq<NodePool>) {
    var (v, qs, e) := Resolve(me, w, ps, 0);
    var (u, c) := NewCluster(me, v);
    && FoundUpTo(me, w, Refs(ps), |ps|) && Next(v).outcome == Fine
    && AnsweredUpTo(me, u, Turn(me, v).clusters.next, qs, if qs == [] then 0 else |qs| - 1)
  }

  // How many pools Create posts: all of them exactly under that condition. A Create that fails otherwise leaves some
  // out.
  lemma CreatePostsAllExactly(me: Self, w: World, ps: seq<NodePool>)
    requires ps != []
    ensures |Create(me, w, ps).0.log| == |w.log| + 1 + |ps| <==> PostsAll(me, w, ps)
  {
    var (v, qs, e) := Resolve(me, w, ps, 0);
    var (u, c) := NewCluster(me, v);
    ResolvesExactly(me, w, ps);
    ResolveOutcome(me, w, ps, 0);
    if e.Ok? && c.Ok? {
      PostedExactly(me, u, c.value, qs, |qs| - 1);
      PostPoolsOutcome(me, u, c.value, qs, 0);
    }
  }
}

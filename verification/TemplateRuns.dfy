// The node template controller is the same machine, so what was proved of the machine carries over.
module TemplateRuns {
  import opened Registry
  import opened World
  import opened ClusterSpec
  import opened ObserveProperties
  import opened Calm
  import opened TemplateSpec

  // From w to v the templates moved only as others move them, and nothing was requested.
  predicate Moved(me: Template, w: TemplateWorld, v: TemplateWorld) {
    Rely(me.name, w.templates, v.templates) && v.log == w.log
  }

  lemma PassMoves(me: Template, w: TemplateWorld)
    requires Consistent(w.templates)
    ensures Moved(me, w, Pass(me, w))
  {
    RelySame(me.name, w.templates);
    RelySettled(me.name, w.templates);
  }

  // Observe

  // The loop reports whether some entry has the name, and leaves the status of the last one that does.
  lemma {:induction false} LookMeans(me: Template, st: Status, s: seq<Data>, i: nat, found: bool)
    requires i <= |s|
    ensures var (t, f) := LookFrom(me, st, s, i, found);
      && (f <==> found || exists j :: i <= j < |s| && s[j].name == me.name)
      && ((forall j :: i <= j < |s| ==> s[j].name != me.name) ==> t == st)
      && (forall j: nat :: i <= j && LastMatch(s, me.name, |s|, j) ==> t == Status(s[j].id, ConditionOf(s[j])))
      && ((exists j :: i <= j < |s| && s[j].name == me.name) ==> exists j: nat :: i <= j && LastMatch(s, me.name, |s|, j))
    decreases |s| - i
  {
    if i < |s| {
      if s[i].name != me.name {
        LookMeans(me, st, s, i + 1, found);
      } else {
        LookMeans(me, Status(s[i].id, ConditionOf(s[i])), s, i + 1, true);
        if forall j :: i < j < |s| ==> s[j].name != me.name {
          assert LastMatch(s, me.name, |s|, i);
        }
      }
    }
  }

  lemma ObserveTemplateMeans(me: Template, w: TemplateWorld, st: Status)
    requires Consistent(w.templates)
    ensures var (v, t, r) := ObserveTemplate(me, w, st);
      var s := Pass(me, w).templates.entries;
      && v == Pass(me, w) && Moved(me, w, v) && (r.Ok? <==> NextBeat(w).outcome == Fine)
      && (r.Ok? ==> (r.value <==> Listed(s, me.name)))
      && (r.Ok? && r.value ==> exists j: nat :: LastMatch(s, me.name, |s|, j) && t == Status(s[j].id, ConditionOf(s[j])))
      && (r.Err? || !r.value ==> t == st)
  {
    PassMoves(me, w);
    var (v, s) := ListTemplates(me, w);
    if s.Ok? {
      LookMeans(me, st, s.value, 0, false);
    }
  }

  // Create

  // The resource as it was written: only the fields whose reference is set may change.
  predicate AsWritten(me: Template, before: Network, after: Network) {
    (me.vpcRef == "" ==> after.vpcId == before.vpcId) && (me.subnetRef == "" ==> after.subnetId == before.subnetId)
  }

  // The id was found under the reference at some time of a run from w.
  predicate VpcAt(w: TemplateWorld, ref: string, id: string) {
    || (ref in w.vpcs && w.vpcs[ref] == id)
    || exists i :: 0 <= i < |w.script| && ref in w.script[i].vpcs && w.script[i].vpcs[ref] == id
  }

  predicate SubnetAt(w: TemplateWorld, ref: string, id: string) {
    || (ref in w.subnets && w.subnets[ref] == id)
    || exists i :: 0 <= i < |w.script| && ref in w.script[i].subnets && w.script[i].subnets[ref] == id
  }

  // What a template may be posted with: every reference that is set found, and the rest as written.
  predicate Postable(me: Template, w: TemplateWorld, before: Network, r: TemplateRequest) {
    r.PostTemplate? ==>
      && r.name == me.postName && AsWritten(me, before, r.network)
      && (me.vpcRef != "" ==> VpcAt(w, me.vpcRef, r.network.vpcId))
      && (me.subnetRef != "" ==> SubnetAt(w, me.subnetRef, r.network.subnetId))
  }

  // Nothing is found later that was not to be found before.
  ghost predicate NothingNew(w: TemplateWorld, v: TemplateWorld) {
    && (forall ref, id :: VpcAt(v, ref, id) ==> VpcAt(w, ref, id))
    && (forall ref, id :: SubnetAt(v, ref, id) ==> SubnetAt(w, ref, id))
  }

  lemma PassNothingNew(me: Template, w: TemplateWorld)
    ensures NothingNew(w, Pass(me, w))
  {
    var v := Pass(me, w);
    if w.script != [] {
      assert v.script == w.script[1..];
      forall ref, id | VpcAt(v, ref, id) ensures VpcAt(w, ref, id) {
        if !(ref in v.vpcs && v.vpcs[ref] == id) {
          var i :| 0 <= i < |v.script| && ref in v.script[i].vpcs && v.script[i].vpcs[ref] == id;
          assert w.script[i + 1] == v.script[i];
        }
      }
      forall ref, id | SubnetAt(v, ref, id) ensures SubnetAt(w, ref, id) {
        if !(ref in v.subnets && v.subnets[ref] == id) {
          var i :| 0 <= i < |v.script| && ref in v.script[i].subnets && v.script[i].subnets[ref] == id;
          assert w.script[i + 1] == v.script[i];
        }
      }
    }
  }

  // From s to t nothing is posted but what may be, and the spec is as written but for what is resolved.
  ghost predicate PostsFound(me: Template, s: TemplateState, t: TemplateState) {
    && s.w.log <= t.w.log && NothingNew(s.w, t.w) && AsWritten(me, s.net, t.net)
    && forall i :: |s.w.log| <= i < |t.w.log| ==> Postable(me, s.w, s.net, t.w.log[i])
  }

  lemma PostsFoundTrans(me: Template, s: TemplateState, t: TemplateState, u: TemplateState)
    requires PostsFound(me, s, t) && PostsFound(me, t, u)
    ensures PostsFound(me, s, u)
  {
    forall i | |s.w.log| <= i < |u.w.log| ensures Postable(me, s.w, s.net, u.w.log[i]) {
      assert i < |t.w.log| ==> Postable(me, s.w, s.net, t.w.log[i]);
      assert i >= |t.w.log| ==> Postable(me, t.w, t.net, u.w.log[i]);
    }
  }

  // The ids that Create resolves are found on the way, and an error leaves the field of the failed lookup, and the
  // later one, alone.
  lemma ResolveFinds(me: Template, w: TemplateWorld, net: Network)
    ensures var (v, n, e) := ResolveVpc(me, w, net);
      var (u, m, f) := ResolveSubnet(me, v, n);
      && NothingNew(w, v) && NothingNew(v, u) && v.log == w.log && u.log == w.log
      && AsWritten(me, net, n) && AsWritten(me, net, m) && m.vpcId == n.vpcId
      && (e.Ok? && me.vpcRef != "" ==> VpcAt(w, me.vpcRef, n.vpcId)) && (e.Err? ==> n == net)
      && (f.Ok? && me.subnetRef != "" ==> SubnetAt(v, me.subnetRef, m.subnetId)) && (f.Err? ==> m == n)
  {
    var (v, n, e) := ResolveVpc(me, w, net);
    PassNothingNew(me, w);
    PassNothingNew(me, v);
    if me.vpcRef != "" && e.Ok? {
      assert VpcAt(Pass(me, w), me.vpcRef, n.vpcId);
    }
    var (u, m, f) := ResolveSubnet(me, v, n);
    if me.subnetRef != "" && f.Ok? {
      assert SubnetAt(Pass(me, v), me.subnetRef, m.subnetId);
    }
  }

  lemma NothingNewTrans(w: TemplateWorld, v: TemplateWorld, u: TemplateWorld)
    requires NothingNew(w, v) && NothingNew(v, u)
    ensures NothingNew(w, u)
  {
  }

  // Steps that request nothing, one deletion, or one post
  lemma OneRequest(me: Template, s: TemplateState, t: TemplateState, rs: seq<TemplateRequest>)
    requires NothingNew(s.w, t.w) && AsWritten(me, s.net, t.net)
    requires t.w.log == s.w.log + rs && |rs| <= 1 && (rs != [] ==> Postable(me, s.w, s.net, rs[0]))
    ensures PostsFound(me, s, t)
  {
  }

  lemma NewTemplateFinds(me: Template, w: TemplateWorld, net: Network)
    ensures var v := NewTemplate(me, w, net).0; NothingNew(w, v) && v.log == w.log + [PostTemplate(me.postName, net)]
  {
    var v, u := Pass(me, w), NewTemplate(me, w, net).0;
    PassNothingNew(me, w);
    assert u.vpcs == v.vpcs && u.subnets == v.subnets && u.script == v.script;
  }

  lemma CreatePostsFound(me: Template, s: TemplateState)
    ensures var (u, net, _) := CreateTemplate(me, s.w, s.net); PostsFound(me, s, TemplateState(u, s.st, net))
  {
    var (v, n, e) := ResolveVpc(me, s.w, s.net);
    var (u, m, f) := ResolveSubnet(me, v, n);
    var (t, net, r) := CreateTemplate(me, s.w, s.net);
    ResolveFinds(me, s.w, s.net);
    NothingNewTrans(s.w, v, u);
    if e.Err? {
      OneRequest(me, s, TemplateState(t, s.st, net), []);
    } else if f.Err? {
      OneRequest(me, s, TemplateState(t, s.st, net), []);
    } else {
      NewTemplateFinds(me, u, m);
      NothingNewTrans(s.w, u, t);
      OneRequest(me, s, TemplateState(t, s.st, net), [PostTemplate(me.postName, m)]);
    }
  }

  lemma DropTemplateFinds(me: Template, w: TemplateWorld, id: Id)
    ensures var v := DropTemplate(me, w, id).0; NothingNew(w, v) && v.log == w.log + [DeleteTemplate(id)]
  {
    var v, u := Pass(me, w), DropTemplate(me, w, id).0;
    PassNothingNew(me, w);
    assert u.vpcs == v.vpcs && u.subnets == v.subnets && u.script == v.script;
  }

  lemma ReconcilePostsFound(me: Template, s: TemplateState, deleting: bool)
    ensures PostsFound(me, s, ReconcileTemplate(me, s, deleting))
  {
    var (v, st, found) := ObserveTemplate(me, s.w, s.st);
    var observed, t := TemplateState(v, st, s.net), ReconcileTemplate(me, s, deleting);
    PassNothingNew(me, s.w);
    OneRequest(me, s, observed, []);
    if found.Ok? && found.value != !deleting {
      if deleting {
        DropTemplateFinds(me, v, st.id);
        OneRequest(me, observed, t, [DeleteTemplate(st.id)]);
      } else {
        CreatePostsFound(me, observed);
      }
      PostsFoundTrans(me, s, observed, t);
    }
  }

  // Over every run, whatever fails, a template is posted only with every reference resolved to an id that was found
  // under it, and with all else as written.
  lemma {:induction false} RunPostsFound(me: Template, s: TemplateState, deleting: seq<bool>)
    ensures PostsFound(me, s, RunTemplate(me, s, deleting))
    decreases |deleting|
  {
    if deleting != [] {
      var n := |deleting| - 1;
      RunPostsFound(me, s, deleting[..n]);
      var t := RunTemplate(me, s, deleting[..n]);
      ReconcilePostsFound(me, t, deleting[n]);
      PostsFoundTrans(me, s, t, RunTemplate(me, s, deleting));
    }
  }

  lemma ResolveMoves(me: Template, w: TemplateWorld, net: Network)
    requires Consistent(w.templates)
    ensures var (v, n, e) := ResolveVpc(me, w, net); Moved(me, w, v) && Moved(me, v, ResolveSubnet(me, v, n).0)
  {
    var (v, n, e) := ResolveVpc(me, w, net);
    RelySame(me.name, w.templates);
    PassMoves(me, w);
    RelySame(me.name, v.templates);
    PassMoves(me, v);
  }

  lemma NewTemplateActs(me: Template, w: TemplateWorld, net: Network, r1: Registry)
    requires Consistent(w.templates) && Rely(me.name, r1, w.templates) && !Listed(r1.entries, me.name)
    ensures var u := NewTemplate(me, w, net).0;
      && Consistent(u.templates)
      && exists r2, act :: Rely(me.name, r1, r2) && ActsFrom(me.name, me.postName, false, r1, r2, u.templates, act)
  {
    var u := NewTemplate(me, w, net).0;
    var r2 := Pass(me, w).templates;
    PassMoves(me, w);
    RelyTrans(me.name, r1, w.templates, r2);
    PostedConsistent(me.name, r2, me.postName);
    RelySame(me.name, u.templates);
    if u.templates == r2 {
      assert ActsFrom(me.name, me.postName, false, r1, r2, u.templates, Idle);
    } else {
      assert ActsFrom(me.name, me.postName, false, r1, r2, u.templates, Post);
    }
  }

  lemma CreateTemplateActs(me: Template, w: TemplateWorld, net: Network, r1: Registry)
    requires Consistent(w.templates) && Rely(me.name, r1, w.templates) && !Listed(r1.entries, me.name)
    ensures var u := CreateTemplate(me, w, net).0;
      && Consistent(u.templates)
      && exists r2, act :: Rely(me.name, r1, r2) && ActsFrom(me.name, me.postName, false, r1, r2, u.templates, act)
  {
    var t := CreateTemplate(me, w, net).0;
    var (v, n, e) := ResolveVpc(me, w, net);
    var (u, m, f) := ResolveSubnet(me, v, n);
    ResolveMoves(me, w, net);
    RelyTrans(me.name, r1, w.templates, v.templates);
    RelyTrans(me.name, r1, v.templates, u.templates);
    if e.Ok? && f.Ok? {
      NewTemplateActs(me, u, m, r1);
    } else {
      RelySame(me.name, t.templates);
      assert ActsFrom(me.name, me.postName, false, r1, t.templates, t.templates, Idle);
    }
  }

  lemma DropTemplateActs(me: Template, w: TemplateWorld, id: Id, r1: Registry)
    requires Consistent(w.templates) && Rely(me.name, r1, w.templates) && ListedAs(r1.entries, me.name, id)
    ensures var u := DropTemplate(me, w, id).0;
      && Consistent(u.templates)
      && exists r2, act :: Rely(me.name, r1, r2) && ActsFrom(me.name, me.postName, true, r1, r2, u.templates, act)
  {
    hide Consistent;
    var u := DropTemplate(me, w, id).0;
    var r2 := Pass(me, w).templates;
    PassMoves(me, w);
    RelyTrans(me.name, r1, w.templates, r2);
    RemovedConsistent(me.name, r2, id);
    RelySame(me.name, u.templates);
    if u.templates == r2 {
      assert ActsFrom(me.name, me.postName, true, r1, r2, u.templates, Idle);
    } else {
      assert ActsFrom(me.name, me.postName, true, r1, r2, u.templates, Delete(id));
    }
  }

  // The machine

  // What was deleted from w to v are ids that the server issued under the name.
  predicate TemplateLane(me: Template, w: TemplateWorld, v: TemplateWorld) {
    && Consistent(v.templates) && w.log <= v.log
    && (forall k :: k in w.templates.names ==> k in v.templates.names && v.templates.names[k] == w.templates.names[k])
    && (forall i :: |w.log| <= i < |v.log| && v.log[i].DeleteTemplate? ==>
          v.log[i].id in v.templates.names && v.templates.names[v.log[i].id] == me.name)
  }

  lemma TemplateLaneTrans(me: Template, w: TemplateWorld, v: TemplateWorld, u: TemplateWorld)
    requires TemplateLane(me, w, v) && TemplateLane(me, v, u)
    ensures TemplateLane(me, w, u)
  {
  }

  lemma MovedInLane(me: Template, w: TemplateWorld, v: TemplateWorld)
    requires Moved(me, w, v)
    ensures TemplateLane(me, w, v)
  {
  }

  lemma NewTemplateInLane(me: Template, w: TemplateWorld, net: Network)
    requires Consistent(w.templates)
    ensures TemplateLane(me, w, NewTemplate(me, w, net).0)
  {
    var v := Pass(me, w);
    PassMoves(me, w);
    MovedInLane(me, w, v);
    PostedConsistent(me.name, v.templates, me.postName);
    assert TemplateLane(me, v, NewTemplate(me, w, net).0);
    TemplateLaneTrans(me, w, v, NewTemplate(me, w, net).0);
  }

  lemma CreateTemplateInLane(me: Template, w: TemplateWorld, net: Network)
    requires Consistent(w.templates)
    ensures TemplateLane(me, w, CreateTemplate(me, w, net).0)
  {
    var (v, n, e) := ResolveVpc(me, w, net);
    var (u, m, f) := ResolveSubnet(me, v, n);
    ResolveMoves(me, w, net);
    MovedInLane(me, w, v);
    MovedInLane(me, v, u);
    TemplateLaneTrans(me, w, v, u);
    if e.Ok? && f.Ok? {
      NewTemplateInLane(me, u, m);
      TemplateLaneTrans(me, w, u, NewTemplate(me, u, m).0);
    }
  }

  lemma DropTemplateShape(me: Template, w: TemplateWorld, id: Id)
    ensures var v, u := Pass(me, w), DropTemplate(me, w, id).0;
      && (u.templates == v.templates || u.templates == Removed(v.templates, id))
      && u.script == v.script && u.log == w.log + [DeleteTemplate(id)]
  {
  }

  lemma DropTemplateInLane(me: Template, w: TemplateWorld, id: Id)
    requires Consistent(w.templates) && id in w.templates.names && w.templates.names[id] == me.name
    ensures TemplateLane(me, w, DropTemplate(me, w, id).0)
  {
    DropTemplateShape(me, w, id);
    PassMoves(me, w);
    RemovedConsistent(me.name, Pass(me, w).templates, id);
  }

  // One reconcile of the node template controller is one reconcile of the machine, and deletes in its lane.
  lemma ReconcileTemplateRefines(me: Template, s: TemplateState, deleting: bool)
    requires Consistent(s.w.templates)
    ensures var t := ReconcileTemplate(me, s, deleting);
      && TemplateLane(me, s.w, t.w)
      && exists act :: Reconciles(me.name, me.postName, deleting, s.w.templates, t.w.templates, act)
  {
    var t := ReconcileTemplate(me, s, deleting);
    var (v, st, found) := ObserveTemplate(me, s.w, s.st);
    ObserveTemplateMeans(me, s.w, s.st);
    MovedInLane(me, s.w, v);
    var r1 := v.templates;
    RelySame(me.name, r1);
    if found.Err? || found.value == !deleting {
      assert ActsFrom(me.name, me.postName, deleting, r1, r1, t.w.templates, Idle);
      assert Reconciles(me.name, me.postName, deleting, s.w.templates, t.w.templates, Idle);
    } else {
      if deleting {
        DropTemplateActs(me, v, st.id, r1);
        DropTemplateInLane(me, v, st.id);
      } else {
        CreateTemplateActs(me, v, s.net, r1);
        CreateTemplateInLane(me, v, s.net);
      }
      TemplateLaneTrans(me, s.w, v, t.w);
      var r2, act :| Rely(me.name, r1, r2) && ActsFrom(me.name, me.postName, deleting, r1, r2, t.w.templates, act);
      assert Reconciles(me.name, me.postName, deleting, s.w.templates, t.w.templates, act);
    }
  }

  // The registries a run goes through, before and after each reconcile.
  function TemplateRegistries(me: Template, s: TemplateState, deleting: seq<bool>): (rs: seq<Registry>)
    ensures |rs| == |deleting| + 1 && rs[0] == s.w.templates
    ensures rs[|deleting|] == RunTemplate(me, s, deleting).w.templates
    decreases |deleting|
  {
    if deleting == [] then [s.w.templates]
    else TemplateRegistries(me, s, deleting[..|deleting| - 1]) + [RunTemplate(me, s, deleting).w.templates]
  }

  lemma TemplateRegistriesExtend(me: Template, s: TemplateState, deleting: seq<bool>, d: bool)
    ensures TemplateRegistries(me, s, deleting + [d]) ==
            TemplateRegistries(me, s, deleting) + [ReconcileTemplate(me, RunTemplate(me, s, deleting), d).w.templates]
  {
    assert (deleting + [d])[..|deleting|] == deleting;
  }

  lemma RunTemplateStep(me: Template, s: TemplateState, before: seq<bool>, d: bool, acts: seq<Act>, act: Act)
    requires IsRun(me.name, me.postName, TemplateRegistries(me, s, before), before, acts)
    requires var t := RunTemplate(me, s, before);
      Reconciles(me.name, me.postName, d, t.w.templates, ReconcileTemplate(me, t, d).w.templates, act)
    ensures IsRun(me.name, me.postName, TemplateRegistries(me, s, before + [d]), before + [d], acts + [act])
  {
    var q := ReconcileTemplate(me, RunTemplate(me, s, before), d).w.templates;
    TemplateRegistriesExtend(me, s, before, d);
    RunExtends(me.name, me.postName, TemplateRegistries(me, s, before), before, acts, q, d, act);
  }

  // A run of the node template controller is a run of the machine.
  lemma {:induction false} RunTemplateRefines(me: Template, s: TemplateState, deleting: seq<bool>)
    requires Consistent(s.w.templates)
    ensures Consistent(RunTemplate(me, s, deleting).w.templates)
    ensures exists acts :: IsRun(me.name, me.postName, TemplateRegistries(me, s, deleting), deleting, acts)
    decreases |deleting|
  {
    hide Reconciles;
    if deleting == [] {
      assert IsRun(me.name, me.postName, TemplateRegistries(me, s, deleting), deleting, []);
    } else {
      var n := |deleting| - 1;
      var before, d := deleting[..n], deleting[n];
      assert deleting == before + [d];
      RunTemplateRefines(me, s, before);
      var t := RunTemplate(me, s, before);
      var acts :| IsRun(me.name, me.postName, TemplateRegistries(me, s, before), before, acts);
      ReconcileTemplateRefines(me, t, d);
      var act :| Reconciles(me.name, me.postName, d, t.w.templates, ReconcileTemplate(me, t, d).w.templates, act);
      RunTemplateStep(me, s, before, d, acts, act);
    }
  }

  lemma {:induction false} RunTemplateInLane(me: Template, s: TemplateState, deleting: seq<bool>)
    requires Consistent(s.w.templates)
    ensures TemplateLane(me, s.w, RunTemplate(me, s, deleting).w)
    decreases |deleting|
  {
    if deleting != [] {
      var n := |deleting| - 1;
      RunTemplateInLane(me, s, deleting[..n]);
      var t := RunTemplate(me, s, deleting[..n]);
      ReconcileTemplateRefines(me, t, deleting[n]);
      TemplateLaneTrans(me, s.w, t.w, RunTemplate(me, s, deleting).w);
    }
  }

  // What the machine's theorems say of node templates: with the names equal at most one template of the name, and
  // whatever is deleted was issued under it.
  lemma TemplatesCarryOver(me: Template, s: TemplateState, deleting: seq<bool>)
    requires Consistent(s.w.templates) && AtMostOne(s.w.templates.entries, me.name)
    ensures me.postName == me.name ==> AtMostOne(RunTemplate(me, s, deleting).w.templates.entries, me.name)
    ensures TemplateLane(me, s.w, RunTemplate(me, s, deleting).w)
  {
    var rs := TemplateRegistries(me, s, deleting);
    RunTemplateRefines(me, s, deleting);
    RunTemplateInLane(me, s, deleting);
    if me.postName == me.name {
      var acts :| IsRun(me.name, me.postName, rs, deleting, acts);
      RunKeepsOne(me.name, rs, deleting, acts, |deleting|);
    }
  }

  // The entry is there, and nobody else would remove it.
  predicate KeptTemplate(name: string, id: Id, w: TemplateWorld) {
    && ListedAs(w.templates.entries, name, id)
    && forall i :: 0 <= i < |w.script| ==> ListedAs(w.script[i].templates.entries, name, id)
  }

  lemma PassKeeps(me: Template, name: string, id: Id, w: TemplateWorld)
    requires KeptTemplate(name, id, w)
    ensures KeptTemplate(name, id, Pass(me, w))
  {
    hide Rely;
    var i :| 0 <= i < |w.templates.entries| && w.templates.entries[i].name == name && w.templates.entries[i].id == id;
    var t := Settled(w.templates).entries;
    assert t[i].name == name && t[i].id == id;
  }

  lemma CreateTemplateKeeps(me: Template, name: string, id: Id, w: TemplateWorld, net: Network)
    requires KeptTemplate(name, id, w)
    ensures KeptTemplate(name, id, CreateTemplate(me, w, net).0)
  {
    hide Pass;
    var (v, n, e) := ResolveVpc(me, w, net);
    PassKeeps(me, name, id, w);
    var (u, m, f) := ResolveSubnet(me, v, n);
    PassKeeps(me, name, id, v);
    PassKeeps(me, name, id, u);
    var es := Pass(me, u).templates.entries;
    var i :| 0 <= i < |es| && es[i].name == name && es[i].id == id;
    assert Posted(Pass(me, u).templates, me.postName).entries[i] == es[i];
  }

  lemma DropTemplateKeeps(me: Template, name: string, id: Id, w: TemplateWorld, own: Id)
    requires KeptTemplate(name, id, w) && own != id
    ensures KeptTemplate(name, id, DropTemplate(me, w, own).0)
  {
    hide Pass, DropTemplate;
    DropTemplateShape(me, w, own);
    PassKeeps(me, name, id, w);
    var es := Pass(me, w).templates.entries;
    var i :| 0 <= i < |es| && es[i].name == name && es[i].id == id;
    assert es[i] in Without(es, own);
  }

  lemma ReconcileTemplateKeeps(me: Template, name: string, id: Id, s: TemplateState, deleting: bool)
    requires Consistent(s.w.templates) && name != me.name && KeptTemplate(name, id, s.w)
    ensures KeptTemplate(name, id, ReconcileTemplate(me, s, deleting).w)
  {
    var (v, st, found) := ObserveTemplate(me, s.w, s.st);
    PassKeeps(me, name, id, s.w);
    ObserveTemplateMeans(me, s.w, s.st);
    if found.Ok? && found.value != !deleting {
      if deleting {
        assert v.templates.names[st.id] == me.name && v.templates.names[id] == name;
        DropTemplateKeeps(me, name, id, v, st.id);
      } else {
        CreateTemplateKeeps(me, name, id, v, s.net);
      }
    }
  }

  // Over every run, with any faults, a template of another name that nobody else removes outlives it.
  lemma {:induction false} RunTemplateSpares(me: Template, name: string, id: Id, s: TemplateState, deleting: seq<bool>)
    requires Consistent(s.w.templates) && name != me.name && KeptTemplate(name, id, s.w)
    ensures KeptTemplate(name, id, RunTemplate(me, s, deleting).w)
    decreases |deleting|
  {
    hide KeptTemplate, ReconcileTemplate;
    if deleting != [] {
      var n := |deleting| - 1;
      RunTemplateSpares(me, name, id, s, deleting[..n]);
      RunTemplateRefines(me, s, deleting[..n]);
      ReconcileTemplateKeeps(me, name, id, RunTemplate(me, s, deleting[..n]), deleting[n]);
    }
  }

  // A server without templates, where every reference is found.
  function NoTemplates(me: Template): TemplateWorld {
    TemplateWorld(Registry([], map[], NO_ID + 1), map[me.vpcRef := "vpc"], map[me.subnetRef := "subnet"], [], [])
  }

  // Calm and with every reference found.
  predicate Easy(me: Template, w: TemplateWorld) {
    Consistent(w.templates) && w.script == [] && me.vpcRef in w.vpcs && me.subnetRef in w.subnets
  }

  lemma EasyPass(me: Template, w: TemplateWorld)
    requires Easy(me, w)
    ensures Easy(me, Pass(me, w)) && NextBeat(w).outcome == Fine
    ensures SameNames(w.templates.entries, Pass(me, w).templates.entries)
  {
    RelySettled(me.name, w.templates);
    SettledTwice(w.templates);
  }

  lemma EasyResolve(me: Template, w: TemplateWorld, net: Network)
    requires Easy(me, w)
    ensures var (v, n, e) := ResolveVpc(me, w, net);
      var (u, m, f) := ResolveSubnet(me, v, n);
      e.Ok? && f.Ok? && Easy(me, u) && SameNames(w.templates.entries, u.templates.entries)
  {
    EasyPass(me, w);
    var (v, n, e) := ResolveVpc(me, w, net);
    EasyPass(me, v);
  }

  // One more entry, under the name.
  predicate PostedNames(w: TemplateWorld, u: TemplateWorld, name: string) {
    var s, t := w.templates.entries, u.templates.entries;
    |t| == |s| + 1 && t[|s|].name == name && forall i :: 0 <= i < |s| ==> t[i].name == s[i].name
  }

  lemma EasyCreate(me: Template, w: TemplateWorld, net: Network)
    requires Easy(me, w)
    ensures var u := CreateTemplate(me, w, net).0;
      Easy(me, u) && PostedNames(w, u, me.postName)
  {
    EasyResolve(me, w, net);
    var (v, n, e) := ResolveVpc(me, w, net);
    var (u, m, f) := ResolveSubnet(me, v, n);
    EasyPass(me, u);
    PostedConsistent(me.name, Pass(me, u).templates, me.postName);
  }

  // A template posted under another name is posted again by every reconcile.
  lemma PostsAnotherTemplate(me: Template, s: TemplateState)
    requires Easy(me, s.w) && me.postName != me.name && !Listed(s.w.templates.entries, me.name)
    ensures var t := ReconcileTemplate(me, s, false); Easy(me, t.w) && PostedNames(s.w, t.w, me.postName)
  {
    ObserveTemplateMeans(me, s.w, s.st);
    EasyPass(me, s.w);
    var v := ObserveTemplate(me, s.w, s.st).0;
    assert !Listed(v.templates.entries, me.name);
    EasyCreate(me, v, s.net);
  }

  lemma TwoTemplates(me: Template, s: TemplateState)
    requires me.postName != me.name && s.w == NoTemplates(me)
    ensures !AtMostOne(RunTemplate(me, s, [false, false]).w.templates.entries, me.postName)
  {
    assert [false, false][..1] == [false] && [false][..0] == [];
    var t := ReconcileTemplate(me, s, false);
    assert t == RunTemplate(me, s, [false]);
    PostsAnotherTemplate(me, s);
    PostsAnotherTemplate(me, t);
    var u := ReconcileTemplate(me, t, false);
    assert u == RunTemplate(me, s, [false, false]);
    assert u.w.templates.entries[0].name == me.postName && u.w.templates.entries[1].name == me.postName;
  }

  ghost predicate NeverTwoTemplates(me: Template) {
    forall s: TemplateState, deleting: seq<bool> ::
      Consistent(s.w.templates) && s.w.script == [] && AtMostOne(s.w.templates.entries, me.postName) ==>
        AtMostOne(RunTemplate(me, s, deleting).w.templates.entries, me.postName)
  }

  // Single creation of templates holds exactly when the names are equal.
  lemma SingleTemplateExactly(me: Template)
    ensures NeverTwoTemplates(me) <==> me.postName == me.name
  {
    if me.postName == me.name {
      forall s: TemplateState, deleting: seq<bool> | Consistent(s.w.templates) && AtMostOne(s.w.templates.entries, me.name)
        ensures AtMostOne(RunTemplate(me, s, deleting).w.templates.entries, me.name)
      {
        TemplatesCarryOver(me, s, deleting);
      }
    } else {
      TwoTemplates(me, TemplateState(NoTemplates(me), Status(NO_ID, Unset), Network("", "")));
      assert Consistent(NoTemplates(me).templates);
    }
  }
}

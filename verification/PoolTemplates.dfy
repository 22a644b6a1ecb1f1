// The template ids that node pools are posted with, over whole runs.
module PoolTemplates {
  import opened Registry
  import opened World
  import opened ClusterSpec
  import opened CreateProperties
  import opened ClusterRuns
  import opened Paths

  predicate Gives(ts: seq<Data>, ref: string, id: Id) { Matching(ts, ref) != [] && Matching(ts, ref)[0].id == id }

  // The id is what a lookup of the reference gives at some time of a run from w.
  predicate TemplateAt(w: World, ref: string, id: Id) {
    Gives(w.templates, ref, id) || exists i :: 0 <= i < |w.script| && Gives(w.script[i].templates, ref, id)
  }

  // Nothing is found later that was not to be found before.
  ghost predicate NothingNew(w: World, v: World) { forall ref, id :: TemplateAt(v, ref, id) ==> TemplateAt(w, ref, id) }

  lemma TickNothingNew(me: Self, w: World, v: World)
    requires Tick(me, w, v)
    ensures NothingNew(w, v)
  {
    hide Gives;
    if w.script != [] {
      assert v.script == w.script[1..] && v.templates == w.script[0].templates;
      forall ref, id | TemplateAt(v, ref, id) ensures TemplateAt(w, ref, id) {
        if !Gives(v.templates, ref, id) {
          var i :| 0 <= i < |v.script| && Gives(v.script[i].templates, ref, id);
          assert w.script[i + 1] == v.script[i];
        }
      }
    }
  }

  lemma {:induction false} PathNothingNew(me: Self, ws: seq<World>, i: nat)
    requires Path(me, ws) && i < |ws|
    ensures NothingNew(ws[0], ws[i])
    decreases i
  {
    hide TemplateAt;
    if i > 0 {
      PathNothingNew(me, ws, i - 1);
      assert Tick(me, ws[i - 1], ws[i - 1 + 1]);
      TickNothingNew(me, ws[i - 1], ws[i]);
    }
  }

  lemma TicksNothingNew(me: Self, w: World, v: World)
    requires Ticks(me, w, v)
    ensures NothingNew(w, v)
  {
    var ws: seq<World> :| Along(me, w, v, ws);
    PathNothingNew(me, ws, |ws| - 1);
  }

  lemma {:induction false} AtTicks(me: Self, w: World, refs: seq<string>, i: nat, j: nat)
    requires i <= j <= |refs|
    ensures Ticks(me, w, At(me, w, refs, i, j))
    decreases j - i
  {
    hide Ticks;
    TicksSame(me, w);
    if i < j {
      var v := if refs[i] == "" then w else AskTemplates(me, w, refs[i]).0;
      TurnTicks(me, w);
      AtTicks(me, v, refs, i + 1, j);
      TicksTrans(me, w, v, At(me, v, refs, i + 1, j));
    }
  }

  // A pool with a reference has an id that a lookup of it gave.
  predicate PoolFound(w: World, p: NodePool) { p.templateRef != "" ==> TemplateAt(w, p.templateRef, p.templateId) }

  lemma LookupFound(me: Self, w: World, refs: seq<string>, j: nat)
    requires j < |refs| && LookupAt(me, w, refs, 0, j).Ok?
    ensures TemplateAt(w, refs[j], LookupAt(me, w, refs, 0, j).value)
  {
    hide At, Ticks;
    var v := At(me, w, refs, 0, j);
    AtTicks(me, w, refs, 0, j);
    TicksNothingNew(me, w, v);
    TurnTicks(me, v);
    TicksNothingNew(me, v, Turn(me, v));
    assert TemplateAt(Turn(me, v), refs[j], LookupAt(me, w, refs, 0, j).value);
  }

  // From w to v every pool posted is one that was found.
  predicate PoolsFound(w: World, v: World) {
    && w.log <= v.log
    && forall i :: |w.log| <= i < |v.log| && v.log[i].PostPool? ==> PoolFound(w, v.log[i].pool)
  }

  lemma PoolsFoundTrans(w: World, v: World, u: World)
    requires PoolsFound(w, v) && NothingNew(w, v) && PoolsFound(v, u)
    ensures PoolsFound(w, u)
  {
    hide TemplateAt;
  }

  lemma ResolvedFound(me: Self, w: World, ps: seq<NodePool>)
    requires Resolve(me, w, ps, 0).2.Ok?
    ensures var qs := Resolve(me, w, ps, 0).1; forall j :: 0 <= j < |qs| ==> PoolFound(w, qs[j])
  {
    hide TemplateAt, At;
    ResolveOutcome(me, w, ps, 0);
    var k: nat :| ResolvesTo(me, w, ps, 0, k);
    var qs := Resolve(me, w, ps, 0).1;
    forall j | 0 <= j < |qs| ensures PoolFound(w, qs[j]) {
      assert ResolvedAt(me, w, Refs(ps), 0, j, ps[j], qs[j]);
      if ps[j].templateRef != "" {
        LookupFound(me, w, Refs(ps), j);
      }
    }
  }

  lemma CreateFound(me: Self, w: World, ps: seq<NodePool>)
    ensures PoolsFound(w, Create(me, w, ps).0)
  {
    hide TemplateAt, Create, Resolve;
    var t := Create(me, w, ps).0;
    var qs := Resolve(me, w, ps, 0).1;
    CreateOutcome(me, w, ps);
    var resolved: bool, id: Id, k: nat :| CreateComesTo(me, w, ps, resolved, id, k);
    if resolved {
      ResolvedFound(me, w, ps);
      forall i | |w.log| <= i < |t.log| && t.log[i].PostPool? ensures PoolFound(w, t.log[i].pool) {
        assert t.log[i] == PostPool(qs[i - |w.log| - 1].(clusterId := id));
      }
    }
  }

  lemma ReconcileFound(me: Self, s: State, deleting: bool)
    requires Sound(s.w)
    ensures PoolsFound(s.w, Reconcile(me, s, deleting).w)
  {
    hide TemplateAt, Create, Observe;
    var (v, st, found) := Observe(me, s.w, s.st);
    ObserveDrifts(me, s.w, s.st);
    DriftTrans(me, s.w, Turn(me, s.w), v);
    ObserveTicks(me, s.w, s.st);
    TicksNothingNew(me, s.w, v);
    if found.Ok? && found.value != !deleting {
      if !deleting {
        CreateFound(me, v, s.pools);
      }
      PoolsFoundTrans(s.w, v, Reconcile(me, s, deleting).w);
    }
  }

  // Over every run, whatever fails, each pool that has a reference is posted with an id that a lookup of the reference
  // gave.
  lemma {:induction false} RunPoolsFound(me: Self, s: State, deleting: seq<bool>)
    requires Sound(s.w)
    ensures PoolsFound(s.w, Run(me, s, deleting).w)
    decreases |deleting|
  {
    hide TemplateAt, Reconcile, PoolsFound;
    if deleting == [] {
      assert PoolsFound(s.w, s.w) by { NothingPosted(s.w); }
    } else {
      var n := |deleting| - 1;
      var t := Run(me, s, deleting[..n]);
      RunPoolsFound(me, s, deleting[..n]);
      RunRefines(me, s, deleting[..n]);
      RunTicks(me, s, deleting[..n]);
      TicksNothingNew(me, s.w, t.w);
      ReconcileFound(me, t, deleting[n]);
      PoolsFoundTrans(s.w, t.w, Run(me, s, deleting).w);
    }
  }

  lemma NothingPosted(w: World)
    ensures PoolsFound(w, w)
  {
  }
}

// Bounded convergence and bounded deletion of node templates, in what goes wrong on the way.
module TemplateConvergence {
  import opened Registry
  import opened World
  import opened ClusterSpec
  import opened ObserveProperties
  import opened Calm
  import opened TemplateSpec
  import opened TemplateRuns

  predicate Findable(spec: Template, vpcs: map<string, string>, subnets: map<string, string>) {
    (spec.vpcRef != "" ==> spec.vpcRef in vpcs) && (spec.subnetRef != "" ==> spec.subnetRef in subnets)
  }

  // The request does not simply succeed, or some reference that is set cannot be found.
  predicate Faulty(spec: Template, b: TemplateBeat) { b.outcome != Fine || !Findable(spec, b.vpcs, b.subnets) }

  // How many faults are still to come.
  function FaultsIn(spec: Template, script: seq<TemplateBeat>): nat {
    if script == [] then 0 else (if Faulty(spec, script[0]) then 1 else 0) + FaultsIn(spec, script[1..])
  }

  // Once the script has run out the references are found.
  predicate FoundInTheEnd(spec: Template, w: TemplateWorld) {
    if w.script == [] then Findable(spec, w.vpcs, w.subnets)
    else var b := w.script[|w.script| - 1]; Findable(spec, b.vpcs, b.subnets)
  }

  // From w to v no fault came back, and one was spent if spent is true.
  predicate Spends(spec: Template, w: TemplateWorld, v: TemplateWorld, spent: bool) {
    && FoundInTheEnd(spec, v) && |v.script| <= |w.script|
    && FaultsIn(spec, v.script) + (if spent then 1 else 0) <= FaultsIn(spec, w.script)
  }

  // The references counted are those of spec: the resource's own when it is kept, none when it is deleted.
  lemma PassSpends(me: Template, spec: Template, w: TemplateWorld)
    requires FoundInTheEnd(spec, w)
    ensures var v := Pass(me, w);
      && Spends(spec, w, v, false) && (w.script != [] ==> |v.script| < |w.script|)
      && (NextBeat(w).outcome != Fine || !Findable(spec, v.vpcs, v.subnets) ==> Spends(spec, w, v, true))
  {
    hide Rely;
    if w.script != [] {
      var v := Pass(me, w);
      assert v.script == w.script[1..];
      assert v.script != [] ==> v.script[|v.script| - 1] == w.script[|w.script| - 1];
    }
  }

  // Each operation fails only at the cost of a fault

  lemma ResolveSpends(me: Template, w: TemplateWorld, net: Network)
    requires FoundInTheEnd(me, w)
    ensures var (v, n, e) := ResolveVpc(me, w, net);
      var (u, m, f) := ResolveSubnet(me, v, n);
      Spends(me, w, v, e.Err?) && Spends(me, v, u, f.Err?)
  {
    hide Pass, FaultsIn;
    var (v, n, e) := ResolveVpc(me, w, net);
    PassSpends(me, me, w);
    PassSpends(me, me, v);
  }

  lemma NewTemplateSpends(me: Template, w: TemplateWorld, net: Network)
    requires FoundInTheEnd(me, w)
    ensures var (v, r) := NewTemplate(me, w, net); Spends(me, w, v, r.Err?)
  {
    hide Pass, FaultsIn, Posted;
    PassSpends(me, me, w);
  }

  lemma CreateTemplateSpends(me: Template, w: TemplateWorld, net: Network)
    requires FoundInTheEnd(me, w)
    ensures var (v, m, r) := CreateTemplate(me, w, net); Spends(me, w, v, r.Err?)
  {
    hide ResolveVpc, ResolveSubnet, FaultsIn;
    var (v, n, e) := ResolveVpc(me, w, net);
    var (u, m, f) := ResolveSubnet(me, v, n);
    ResolveSpends(me, w, net);
    if e.Ok? && f.Ok? {
      NewTemplateSpends(me, u, m);
    }
  }

  lemma DropTemplateSpends(me: Template, spec: Template, w: TemplateWorld, id: Id)
    requires FoundInTheEnd(spec, w)
    ensures var v := DropTemplate(me, w, id).0;
      Spends(spec, w, v, false) && (v.templates != Removed(Pass(me, w).templates, id) ==> Spends(spec, w, v, true))
  {
    hide Pass, FaultsIn;
    PassSpends(me, spec, w);
  }

  // What else can go wrong in a reconcile

  // The listing shows a template of the name that is not active.
  predicate Delayed(me: Template, s: TemplateState) {
    var es := Pass(me, s.w).templates.entries;
    NextBeat(s.w).outcome == Fine && exists i :: 0 <= i < |es| && es[i].name == me.name && es[i].state != "active"
  }

  // The reconcile posts a template and the server accepts it.
  predicate TemplateAccepted(me: Template, s: TemplateState) {
    var (v, st, found) := ObserveTemplate(me, s.w, s.st);
    var (w1, n, e) := ResolveVpc(me, v, s.net);
    var (u, m, f) := ResolveSubnet(me, w1, n);
    found == Ok(false) && e.Ok? && f.Ok? && NextBeat(u).outcome != Refused
  }

  // The template was there, or was made, and others have removed it by the listing or by the end.
  predicate Vanishes(me: Template, s: TemplateState) {
    var listed := Pass(me, s.w).templates.entries;
    var t := ReconcileTemplate(me, s, false);
    || (Listed(s.w.templates.entries, me.name) && !Listed(listed, me.name))
    || ((Listed(listed, me.name) || TemplateAccepted(me, s)) && !Listed(t.w.templates.entries, me.name))
  }

  // Progress

  predicate Ready(me: Template, s: TemplateState) {
    && me.postName == me.name && Consistent(s.w.templates) && AtMostOne(s.w.templates.entries, me.name)
    && FoundInTheEnd(me, s.w)
  }

  // Exists and Available.
  predicate Goal(me: Template, s: TemplateState) {
    ListedAs(s.w.templates.entries, me.name, s.st.id) && s.st.condition == Available
  }

  function Phase(me: Template, s: TemplateState): nat { if Listed(s.w.templates.entries, me.name) then 1 else 2 }

  function Faults(me: Template, s: TemplateState): nat { FaultsIn(me, s.w.script) }

  lemma ReadyStays(me: Template, s: TemplateState)
    requires Ready(me, s)
    ensures var t := ReconcileTemplate(me, s, false); Ready(me, t) && Spends(me, s.w, t.w, false)
    ensures s.w.script != [] ==> |ReconcileTemplate(me, s, false).w.script| < |s.w.script|
  {
    hide Pass, FaultsIn, CreateTemplate, FoundInTheEnd;
    var t := ReconcileTemplate(me, s, false);
    ReconcileTemplateRefines(me, s, false);
    var act :| Reconciles(me.name, me.postName, false, s.w.templates, t.w.templates, act);
    ReconcileKeepsOne(me.name, false, s.w.templates, t.w.templates, act);
    var v := ObserveTemplate(me, s.w, s.st).0;
    PassSpends(me, me, s.w);
    CreateTemplateSpends(me, v, s.net);
  }

  // Observe finds the one template active.
  lemma ObserveArrives(me: Template, s: TemplateState)
    requires Ready(me, s) && Listed(Pass(me, s.w).templates.entries, me.name) && !Delayed(me, s)
    ensures var t := ReconcileTemplate(me, s, false); Goal(me, t) || Faults(me, t) < Faults(me, s)
  {
    hide Rely, FaultsIn, Pass;
    PassSpends(me, me, s.w);
    ObserveTemplateMeans(me, s.w, s.st);
    var (v, t, r) := ObserveTemplate(me, s.w, s.st);
    if r.Ok? {
      var es := v.templates.entries;
      var j: nat :| LastMatch(es, me.name, |es|, j) && t == Status(es[j].id, ConditionOf(es[j]));
      assert es[j].state == "active";
    }
  }

  // A template that is not there is made, and if others leave it alone it is there at the end.
  lemma CreateArrives(me: Template, s: TemplateState)
    requires Ready(me, s) && !Listed(Pass(me, s.w).templates.entries, me.name) && !Vanishes(me, s)
    ensures var t := ReconcileTemplate(me, s, false);
      Listed(t.w.templates.entries, me.name) || Faults(me, t) < Faults(me, s)
  {
    hide Rely, FaultsIn, Pass, CreateTemplate, ResolveVpc, ResolveSubnet;
    PassSpends(me, me, s.w);
    ObserveTemplateMeans(me, s.w, s.st);
    var (v, st, found) := ObserveTemplate(me, s.w, s.st);
    if found.Ok? {
      CreateTemplateSpends(me, v, s.net);
      if !TemplateAccepted(me, s) {
        CreateFails(me, s);
      }
    }
  }

  lemma CreateFails(me: Template, s: TemplateState)
    requires ObserveTemplate(me, s.w, s.st).2 == Ok(false) && !TemplateAccepted(me, s)
    ensures CreateTemplate(me, ObserveTemplate(me, s.w, s.st).0, s.net).2.Err?
  {
  }

  // Every reconcile that others leave alone gets there, or spends a fault or a delay, or makes the missing template.
  lemma ReconcileAdvances(me: Template, s: TemplateState)
    requires Ready(me, s)
    ensures var t := ReconcileTemplate(me, s, false);
      && (Goal(me, t) || Faults(me, t) < Faults(me, s) || Delayed(me, s) || Vanishes(me, s) || Phase(me, t) < Phase(me, s))
      && (Phase(me, t) <= Phase(me, s) || Vanishes(me, s))
  {
    hide FaultsIn, Pass, Goal, Delayed, ReconcileTemplate;
    var r1 := Pass(me, s.w).templates;
    PassMoves(me, s.w);
    RelyKeeps(me.name, s.w.templates, r1);
    if !Vanishes(me, s) {
      if Listed(r1.entries, me.name) {
        if !Delayed(me, s) {
          ObserveArrives(me, s);
        }
      } else {
        CreateArrives(me, s);
      }
    }
  }

  // Over whole runs

  function After(me: Template, s: TemplateState, n: nat): TemplateState { RunTemplate(me, s, seq(n, i => false)) }

  lemma AfterOneMore(me: Template, s: TemplateState, n: nat)
    ensures After(me, s, n + 1) == ReconcileTemplate(me, After(me, s, n), false)
  {
    assert seq(n + 1, i => false)[..n] == seq(n, i => false);
  }

  function Delays(me: Template, s: TemplateState, n: nat): nat {
    if n == 0 then 0 else Delays(me, s, n - 1) + if Delayed(me, After(me, s, n - 1)) then 1 else 0
  }

  function Removals(me: Template, s: TemplateState, n: nat): nat {
    if n == 0 then 0 else Removals(me, s, n - 1) + if Vanishes(me, After(me, s, n - 1)) then 1 else 0
  }

  predicate Reached(me: Template, s: TemplateState, n: nat) { exists k :: 0 < k <= n && Goal(me, After(me, s, k)) }

  // Until the goal is reached, each reconcile is paid for by a fault, a delay, a removal, or the one creation.
  lemma {:induction false} EachIsPaidFor(me: Template, s: TemplateState, n: nat)
    requires Ready(me, s)
    ensures var t := After(me, s, n);
      && Ready(me, t) && Faults(me, t) <= Faults(me, s)
      && (Reached(me, s, n) ||
          n + Faults(me, t) + Phase(me, t) <= Faults(me, s) + Delays(me, s, n) + 2 * Removals(me, s, n) + Phase(me, s))
  {
    hide Ready, Goal, Delayed, Vanishes, FaultsIn, FoundInTheEnd, After, ReconcileTemplate, Phase;
    if n == 0 {
      assert After(me, s, 0) == s by { AfterNone(me, s); }
    } else {
      EachIsPaidFor(me, s, n - 1);
      AfterOneMore(me, s, n - 1);
      var u, t := After(me, s, n - 1), After(me, s, n);
      ReadyStays(me, u);
      ReconcileAdvances(me, u);
      assert Phase(me, t) <= 2 && 1 <= Phase(me, u) by { PhaseBounds(me, t); PhaseBounds(me, u); }
      if Reached(me, s, n - 1) {
        var k :| 0 < k <= n - 1 && Goal(me, After(me, s, k));
        assert Reached(me, s, n);
      } else if Goal(me, t) {
        assert Reached(me, s, n);
      }
    }
  }

  lemma AfterNone(me: Template, s: TemplateState)
    ensures After(me, s, 0) == s
  {
  }

  lemma PhaseBounds(me: Template, s: TemplateState)
    ensures 1 <= Phase(me, s) <= 2
  {
  }

  // Bounded convergence: one reconcile for each fault and for each delay, two for each removal, and two more.
  lemma Converges(me: Template, s: TemplateState, n: nat)
    requires Ready(me, s) && Faults(me, s) + Delays(me, s, n) + 2 * Removals(me, s, n) + 2 <= n
    ensures Reached(me, s, n)
  {
    EachIsPaidFor(me, s, n);
    PhaseBounds(me, s);
    PhaseBounds(me, After(me, s, n));
  }

  // Deletion

  predicate Removable(me: Template, s: TemplateState) {
    Consistent(s.w.templates) && AtMostOne(s.w.templates.entries, me.name)
  }

  // Deleting resolves no references, so that a reference that is not found is no fault.
  function NoRefs(me: Template): Template { me.(vpcRef := "", subnetRef := "") }

  function Failures(me: Template, s: TemplateState): nat { FaultsIn(NoRefs(me), s.w.script) }

  lemma RemovableStays(me: Template, s: TemplateState)
    requires Removable(me, s)
    ensures var t := ReconcileTemplate(me, s, true);
      Consistent(t.w.templates) && AtMostOne(t.w.templates.entries, me.name)
  {
    hide ReconcileTemplate, Consistent, Rely;
    var r, t := s.w.templates, ReconcileTemplate(me, s, true);
    ReconcileTemplateRefines(me, s, true);
    var act :| Reconciles(me.name, me.postName, true, r, t.w.templates, act);
    var r1, r2 :| Rely(me.name, r, r1) && Rely(me.name, r1, r2)
                  && ActsFrom(me.name, me.postName, true, r1, r2, t.w.templates, act);
    assert ActsFrom(me.name, me.name, true, r1, r2, t.w.templates, act);
    ReconcileKeepsOne(me.name, true, r, t.w.templates, act);
  }

  lemma DropArrives(me: Template, w: TemplateWorld, id: Id)
    requires Consistent(w.templates) && AtMostOne(w.templates.entries, me.name)
    requires ListedAs(w.templates.entries, me.name, id)
    ensures var v := DropTemplate(me, w, id).0; Spends(NoRefs(me), w, v, Listed(v.templates.entries, me.name))
  {
    hide DropTemplate, Spends, Consistent;
    PassMoves(me, w);
    RemovedGone(me.name, w.templates, Pass(me, w).templates, id);
    DropTemplateSpends(me, NoRefs(me), w, id);
  }

  // One reconcile deletes the template or spends a fault; without a template it requests nothing, and none appears.
  lemma ReconcileRemoves(me: Template, s: TemplateState)
    requires Removable(me, s)
    ensures var t := ReconcileTemplate(me, s, true);
      && Removable(me, t) && Spends(NoRefs(me), s.w, t.w, Listed(t.w.templates.entries, me.name))
      && (!Listed(s.w.templates.entries, me.name) ==> !Listed(t.w.templates.entries, me.name) && t.w.log == s.w.log)
  {
    hide Consistent, Rely, Pass, DropTemplate, FaultsIn;
    var (v, st, found) := ObserveTemplate(me, s.w, s.st);
    ObserveTemplateMeans(me, s.w, s.st);
    PassMoves(me, s.w);
    PassSpends(me, NoRefs(me), s.w);
    RemovableStays(me, s);
    MovedConsistent(me, s.w, v);
    RelyKeeps(me.name, s.w.templates, v.templates);
    if found == Ok(true) {
      DropArrives(me, v, st.id);
    }
  }

  lemma MovedConsistent(me: Template, w: TemplateWorld, v: TemplateWorld)
    requires Moved(me, w, v)
    ensures Consistent(v.templates)
  {
  }

  lemma {:induction false} RunRemoves(me: Template, s: TemplateState, n: nat)
    requires Removable(me, s)
    ensures var t := RunTemplate(me, s, seq(n, i => true));
      Removable(me, t) && (Listed(t.w.templates.entries, me.name) ==> n + Failures(me, t) <= Failures(me, s))
  {
    hide Removable, ReconcileTemplate, FaultsIn, Listed;
    if n > 0 {
      assert seq(n, i => true)[..n - 1] == seq(n - 1, i => true);
      RunRemoves(me, s, n - 1);
      ReconcileRemoves(me, RunTemplate(me, s, seq(n - 1, i => true)));
    }
  }

  // Bounded deletion: one reconcile more than there are faults to come.
  lemma Removes(me: Template, s: TemplateState, n: nat)
    requires Removable(me, s) && Failures(me, s) < n
    ensures !Listed(RunTemplate(me, s, seq(n, i => true)).w.templates.entries, me.name)
  {
    RunRemoves(me, s, n);
  }
}

// Many resources at once. Each is reconciled serially, but listing, acting and writing its secret are separate
// steps, and the steps of all of them interleave freely with each other and with what else goes on.
module Interleaving {
  import opened Registry
  import opened World
  import opened SecretIsolation

  datatype Phase = Resting | Listing(seen: Registry)

  // The server, the secrets, and how far each resource's reconcile has got.
  datatype System = System(r: Registry, secrets: map<Key, Config>, phases: map<string, Phase>)

  datatype Step =
    | List(name: string)
    | Submit(name: string)
    | Remove(name: string, id: Id)
    | GiveUp(name: string)
    | Write(name: string, config: Config)
    | Outside(q: Registry, secrets: map<Key, Config>)

  // The resources by name; each posts its cluster under a name of its choice.
  predicate Named(rs: map<string, Self>) { forall n :: n in rs ==> rs[n].name == n }

  predicate Tracks(rs: map<string, Self>, s: System) { s.phases.Keys == rs.Keys }

  // The step can be taken: posting takes a listing without the resource's name, removing one with the id under it.
  predicate Enabled(rs: map<string, Self>, s: System, step: Step) {
    match step
    case List(n) => n in rs && n in s.phases && s.phases[n].Resting?
    case Submit(n) => n in rs && n in s.phases && s.phases[n].Listing? && !Listed(s.phases[n].seen.entries, n)
    case Remove(n, id) => n in rs && n in s.phases && s.phases[n].Listing? && ListedAs(s.phases[n].seen.entries, n, id)
    case GiveUp(n) => n in rs && n in s.phases && s.phases[n].Listing?
    case Write(n, c) => n in rs && n in s.phases
    case Outside(q, t) =>
      Consistent(q) && forall n :: n in rs ==> Rely(n, s.r, q) && SameAt(SecretKey(rs[n]), s.secrets, t)
  }

  function Take(rs: map<string, Self>, s: System, step: Step): System
    requires Enabled(rs, s, step)
  {
    match step
    case List(n) => s.(phases := s.phases[n := Listing(s.r)])
    case Submit(n) => s.(r := Posted(s.r, rs[n].rkeName), phases := s.phases[n := Resting])
    case Remove(n, id) => s.(r := Removed(s.r, id), phases := s.phases[n := Resting])
    case GiveUp(n) => s.(phases := s.phases[n := Resting])
    case Write(n, c) => s.(secrets := s.secrets[SecretKey(rs[n]) := c])
    case Outside(q, t) => s.(r := q, secrets := t)
  }

  // The system after the steps; one that is not enabled is not taken.
  function Execute(rs: map<string, Self>, s: System, steps: seq<Step>): System
    decreases |steps|
  {
    if steps == [] then s
    else
      var t := Execute(rs, s, steps[..|steps| - 1]);
      var step := steps[|steps| - 1];
      if Enabled(rs, t, step) then Take(rs, t, step) else t
  }

  lemma {:induction false} ExecuteOneMore(rs: map<string, Self>, s: System, steps: seq<Step>, step: Step)
    ensures var t := Execute(rs, s, steps);
      Execute(rs, s, steps + [step]) == if Enabled(rs, t, step) then Take(rs, t, step) else t
  {
    assert (steps + [step])[..|steps|] == steps;
  }

  // Deleting in its lane, whatever the names

  // Since the resource listed, no id has lost its name.
  predicate Remembered(s: System, n: string)
    requires n in s.phases
  {
    s.phases[n].Listing? ==>
      var seen := s.phases[n].seen;
      Consistent(seen) && forall k :: k in seen.names ==> k in s.r.names && s.r.names[k] == seen.names[k]
  }

  predicate Orderly(rs: map<string, Self>, s: System) {
    Tracks(rs, s) && (rs != map[] ==> Consistent(s.r)) && forall n :: n in s.phases ==> Remembered(s, n)
  }

  lemma {:induction false} TakeOrderly(rs: map<string, Self>, s: System, step: Step)
    requires Orderly(rs, s) && Enabled(rs, s, step)
    ensures Orderly(rs, Take(rs, s, step))
  {
    var t := Take(rs, s, step);
    if step.Submit? {
      PostedConsistent(step.name, s.r, rs[step.name].rkeName);
    } else if step.Remove? {
      RemovedConsistent(step.name, s.r, step.id);
    }
    forall n | n in t.phases ensures Remembered(t, n) {
      assert Remembered(s, n);
      if step.Outside? {
        assert Rely(n, s.r, t.r);
      }
    }
  }

  lemma {:induction false} ExecuteOrderly(rs: map<string, Self>, s: System, steps: seq<Step>)
    requires Orderly(rs, s)
    ensures Orderly(rs, Execute(rs, s, steps))
    decreases |steps|
  {
    if steps != [] {
      var before, step := steps[..|steps| - 1], steps[|steps| - 1];
      ExecuteOrderly(rs, s, before);
      if Enabled(rs, Execute(rs, s, before), step) {
        TakeOrderly(rs, Execute(rs, s, before), step);
      }
    }
  }

  // Whatever is removed in any interleaving was issued under the remover's name, and every entry of another name
  // outlives the step.
  lemma {:induction false} EveryRemovalInLane(rs: map<string, Self>, s: System, steps: seq<Step>, n: string, id: Id)
    requires Orderly(rs, s) && Enabled(rs, Execute(rs, s, steps), Remove(n, id))
    ensures var t := Execute(rs, s, steps);
      && id in t.r.names && t.r.names[id] == n
      && forall x :: x in t.r.entries && x.name != n ==> x in Take(rs, t, Remove(n, id)).r.entries
  {
    ExecuteOrderly(rs, s, steps);
    var t := Execute(rs, s, steps);
    var seen := t.phases[n].seen;
    assert Remembered(t, n);
    assert id in seen.names && seen.names[id] == n;
    RemovedSpares(n, t.r, id);
  }

  // Single creation

  // No resource posts under the name of another one.
  predicate Proper(rs: map<string, Self>) { forall n :: n in rs && rs[n].rkeName in rs ==> rs[n].rkeName == n }

  // The name is held by at most one entry, and since the resource listed nothing happened that it does not rely on.
  predicate GoodFor(s: System, n: string)
    requires n in s.phases
  {
    && AtMostOne(s.r.entries, n)
    && (s.phases[n].Listing? ==> Rely(n, s.phases[n].seen, s.r))
  }

  predicate Good(rs: map<string, Self>, s: System) {
    Tracks(rs, s) && (rs != map[] ==> Consistent(s.r)) && forall n :: n in s.phases ==> GoodFor(s, n)
  }

  // Every registry change of a step is one that each other resource relies on.
  lemma {:induction false} OthersRely(rs: map<string, Self>, s: System, step: Step, other: string)
    requires Proper(rs) && Good(rs, s) && Enabled(rs, s, step) && other in rs
    requires step.Outside? || step.name != other
    ensures Rely(other, s.r, Take(rs, s, step).r)
  {
    match step
    case List(n) => RelySame(other, s.r);
    case Submit(n) => OthersMayRely(rs[n].rkeName, other, s.r, NO_ID);
    case Remove(n, id) => OthersMayRely(n, other, s.r, id);
    case GiveUp(n) => RelySame(other, s.r);
    case Write(n, c) => RelySame(other, s.r);
    case Outside(q, t) =>
  }

  lemma {:induction false} OwnStep(rs: map<string, Self>, s: System, step: Step)
    requires Good(rs, s) && Enabled(rs, s, step) && !step.Outside?
    ensures Consistent(Take(rs, s, step).r) && GoodFor(Take(rs, s, step), step.name)
  {
    var n := step.name;
    RelySame(n, s.r);
    assert GoodFor(s, n);
    if step.Submit? {
      RelyKeeps(n, s.phases[n].seen, s.r);
      PostedConsistent(n, s.r, rs[n].rkeName);
    } else if step.Remove? {
      RemovedConsistent(n, s.r, step.id);
    }
  }

  lemma {:induction false} OthersStep(rs: map<string, Self>, s: System, step: Step, n: string)
    requires Proper(rs) && Good(rs, s) && Enabled(rs, s, step) && n in rs
    requires step.Outside? || step.name != n
    ensures GoodFor(Take(rs, s, step), n)
  {
    var t := Take(rs, s, step);
    OthersRely(rs, s, step, n);
    RelyKeeps(n, s.r, t.r);
    assert GoodFor(s, n);
    if t.phases[n].Listing? {
      RelyTrans(n, t.phases[n].seen, s.r, t.r);
    }
  }

  lemma {:induction false} TakeGood(rs: map<string, Self>, s: System, step: Step)
    requires Proper(rs) && Good(rs, s) && Enabled(rs, s, step)
    ensures Good(rs, Take(rs, s, step))
  {
    var t := Take(rs, s, step);
    if !step.Outside? {
      OwnStep(rs, s, step);
    }
    forall n | n in t.phases ensures GoodFor(t, n) {
      if step.Outside? || step.name != n {
        OthersStep(rs, s, step, n);
      }
    }
  }

  // Single creation for all resources together, over every interleaving.
  lemma {:induction false} EveryInterleavingKeepsOne(rs: map<string, Self>, s: System, steps: seq<Step>)
    requires Proper(rs) && Good(rs, s)
    ensures Good(rs, Execute(rs, s, steps))
    decreases |steps|
  {
    if steps != [] {
      var before, step := steps[..|steps| - 1], steps[|steps| - 1];
      EveryInterleavingKeepsOne(rs, s, before);
      if Enabled(rs, Execute(rs, s, before), step) {
        TakeGood(rs, Execute(rs, s, before), step);
      }
    }
  }

  // All resources at rest.
  function Start(rs: map<string, Self>, r: Registry, secrets: map<Key, Config>): System {
    System(r, secrets, map n | n in rs :: Resting)
  }

  ghost predicate EveryNameSingle(rs: map<string, Self>) {
    forall r: Registry, secrets: map<Key, Config>, steps: seq<Step> ::
      Consistent(r) && (forall n :: n in rs ==> AtMostOne(r.entries, n)) ==>
        forall n :: n in rs ==> AtMostOne(Execute(rs, Start(rs, r, secrets), steps).r.entries, n)
  }

  // Names stay single over every interleaving exactly when no resource posts under the name of another.
  lemma {:induction false} SingleTogetherExactly(rs: map<string, Self>)
    requires Named(rs)
    ensures EveryNameSingle(rs) <==> Proper(rs)
  {
    if Proper(rs) {
      forall r: Registry, secrets: map<Key, Config>, steps: seq<Step>
        | Consistent(r) && (forall n :: n in rs ==> AtMostOne(r.entries, n))
        ensures forall n :: n in rs ==> AtMostOne(Execute(rs, Start(rs, r, secrets), steps).r.entries, n)
      {
        EveryInterleavingKeepsOne(rs, Start(rs, r, secrets), steps);
        forall n | n in rs ensures AtMostOne(Execute(rs, Start(rs, r, secrets), steps).r.entries, n) {
          assert GoodFor(Execute(rs, Start(rs, r, secrets), steps), n);
        }
      }
    } else {
      var n :| n in rs && rs[n].rkeName in rs && rs[n].rkeName != n;
      PostsTwice(rs, n);
    }
  }

  // One round of a resource that does not find its own name: it posts under the other.
  lemma {:induction false} PostRound(rs: map<string, Self>, s: System, steps: seq<Step>, n: string)
    requires n in rs && var t := Execute(rs, s, steps);
      n in t.phases && t.phases[n].Resting? && !Listed(t.r.entries, n)
    ensures var t, u := Execute(rs, s, steps), Execute(rs, s, steps + [List(n)] + [Submit(n)]);
      u == t.(r := Posted(t.r, rs[n].rkeName), phases := t.phases[n := Resting])
  {
    ExecuteOneMore(rs, s, steps, List(n));
    ExecuteOneMore(rs, s, steps + [List(n)], Submit(n));
    var t := Execute(rs, s, steps);
    assert t.phases[n := Listing(t.r)][n := Resting] == t.phases[n := Resting];
  }

  // Two rounds from nothing
  lemma {:induction false} TwoRounds(rs: map<string, Self>, n: string)
    requires n in rs && rs[n].rkeName != n
    ensures var r := Registry([], map[], NO_ID + 1);
      var es := Execute(rs, Start(rs, r, map[]), [] + [List(n)] + [Submit(n)] + [List(n)] + [Submit(n)]).r.entries;
      |es| == 2 && es[0].name == rs[n].rkeName && es[1].name == rs[n].rkeName
  {
    var s := Start(rs, Registry([], map[], NO_ID + 1), map[]);
    PostRound(rs, s, [], n);
    PostRound(rs, s, [] + [List(n)] + [Submit(n)], n);
  }

  lemma {:induction false} PostsTwice(rs: map<string, Self>, n: string)
    requires n in rs && rs[n].rkeName in rs && rs[n].rkeName != n
    ensures !EveryNameSingle(rs)
  {
    var r := Registry([], map[], NO_ID + 1);
    TwoRounds(rs, n);
    var steps := [] + [List(n)] + [Submit(n)] + [List(n)] + [Submit(n)];
    assert !AtMostOne(Execute(rs, Start(rs, r, map[]), steps).r.entries, rs[n].rkeName);
    assert Consistent(r);
  }

  // The machine and the steps

  // In any interleaving, what a resource does is an act of the machine.
  lemma {:induction false} EveryStepIsAnAct(rs: map<string, Self>, s: System, steps: seq<Step>, step: Step)
    requires Proper(rs) && Good(rs, s) && Enabled(rs, Execute(rs, s, steps), step) && (step.Submit? || step.Remove?)
    ensures var t := Execute(rs, s, steps);
      var n, seen := step.name, t.phases[step.name].seen;
      && Rely(n, seen, t.r)
      && ActsFrom(n, rs[n].rkeName, step.Remove?, seen, t.r, Take(rs, t, step).r,
                  if step.Submit? then Post else Delete(step.id))
  {
    EveryInterleavingKeepsOne(rs, s, steps);
    var t := Execute(rs, s, steps);
    assert GoodFor(t, step.name);
    TakeGood(rs, t, step);
    RelySame(step.name, Take(rs, t, step).r);
  }

  function StepOf(me: string, act: Act): Step {
    match act case Idle => GiveUp(me) case Post => Submit(me) case Delete(id) => Remove(me, id)
  }

  // The steps of one reconcile of the machine, with what goes on around them.
  function StepsOf(me: string, r1: Registry, r2: Registry, q: Registry, act: Act, secrets: map<Key, Config>): seq<Step> {
    [] + [Outside(r1, secrets)] + [List(me)] + [Outside(r2, secrets)] + [StepOf(me, act)] + [Outside(q, secrets)]
  }

  lemma {:induction false} Then(rs: map<string, Self>, s: System, steps: seq<Step>, step: Step)
    requires Enabled(rs, Execute(rs, s, steps), step)
    ensures Execute(rs, s, steps + [step]) == Take(rs, Execute(rs, s, steps), step)
  {
    ExecuteOneMore(rs, s, steps, step);
  }

  // One resource alone
  function Solo(me: Self, r: Registry, secrets: map<Key, Config>, phase: Phase): System {
    System(r, secrets, map[me.name := phase])
  }

  lemma {:induction false} SoloOutside(me: Self, r: Registry, secrets: map<Key, Config>, phase: Phase, q: Registry)
    requires Rely(me.name, r, q)
    ensures var rs, s := map[me.name := me], Solo(me, r, secrets, phase);
      Enabled(rs, s, Outside(q, secrets)) && Take(rs, s, Outside(q, secrets)) == Solo(me, q, secrets, phase)
  {
  }

  lemma {:induction false} SoloActs(me: Self, deleting: bool, r1: Registry, r2: Registry, q: Registry, act: Act,
                                    secrets: map<Key, Config>)
    requires ActsFrom(me.name, me.rkeName, deleting, r1, r2, q, act)
    ensures var rs, s := map[me.name := me], Solo(me, r2, secrets, Listing(r1));
      && Enabled(rs, s, StepOf(me.name, act))
      && var t := Take(rs, s, StepOf(me.name, act));
         t == Solo(me, t.r, secrets, Resting) && Rely(me.name, t.r, q)
  {
    var rs, s := map[me.name := me], Solo(me, r2, secrets, Listing(r1));
    assert Take(rs, s, StepOf(me.name, act)).phases == map[me.name := Resting];
  }

  lemma {:induction false} ListRound(me: Self, r: Registry, r1: Registry, r2: Registry, secrets: map<Key, Config>)
    requires Rely(me.name, r, r1) && Rely(me.name, r1, r2)
    ensures Execute(map[me.name := me], Solo(me, r, secrets, Resting),
                    [] + [Outside(r1, secrets)] + [List(me.name)] + [Outside(r2, secrets)])
            == Solo(me, r2, secrets, Listing(r1))
  {
    var rs, s := map[me.name := me], Solo(me, r, secrets, Resting);
    var steps := [] + [Outside(r1, secrets)];
    SoloOutside(me, r, secrets, Resting, r1);
    Then(rs, s, [], Outside(r1, secrets));
    Then(rs, s, steps, List(me.name));
    assert Execute(rs, s, steps + [List(me.name)]) == Solo(me, r1, secrets, Listing(r1));
    SoloOutside(me, r1, secrets, Listing(r1), r2);
    Then(rs, s, steps + [List(me.name)], Outside(r2, secrets));
  }

  lemma {:induction false} ActRound(me: Self, s: System, steps: seq<Step>, deleting: bool, r1: Registry, r2: Registry,
                                    q: Registry, act: Act, secrets: map<Key, Config>)
    requires Execute(map[me.name := me], s, steps) == Solo(me, r2, secrets, Listing(r1))
    requires ActsFrom(me.name, me.rkeName, deleting, r1, r2, q, act)
    ensures Execute(map[me.name := me], s, steps + [StepOf(me.name, act)] + [Outside(q, secrets)])
            == Solo(me, q, secrets, Resting)
  {
    var rs := map[me.name := me];
    SoloActs(me, deleting, r1, r2, q, act, secrets);
    Then(rs, s, steps, StepOf(me.name, act));
    var t := Execute(rs, s, steps + [StepOf(me.name, act)]);
    SoloOutside(me, t.r, secrets, Resting, q);
    Then(rs, s, steps + [StepOf(me.name, act)], Outside(q, secrets));
  }

  // Every reconcile of the machine, and so of the controllers, is a sequence of these steps.
  lemma {:induction false} ReconcileIsSteps(me: Self, deleting: bool, r: Registry, q: Registry, act: Act,
                                            secrets: map<Key, Config>)
    requires Reconciles(me.name, me.rkeName, deleting, r, q, act)
    ensures exists r1, r2 ::
      Execute(map[me.name := me], Solo(me, r, secrets, Resting), StepsOf(me.name, r1, r2, q, act, secrets))
      == Solo(me, q, secrets, Resting)
  {
    var n := me.name;
    var r1, r2 :| Rely(n, r, r1) && Rely(n, r1, r2) && ActsFrom(n, me.rkeName, deleting, r1, r2, q, act);
    ListRound(me, r, r1, r2, secrets);
    var steps := [] + [Outside(r1, secrets)] + [List(n)] + [Outside(r2, secrets)];
    ActRound(me, Solo(me, r, secrets, Resting), steps, deleting, r1, r2, q, act, secrets);
    assert StepsOf(n, r1, r2, q, act, secrets) == steps + [StepOf(n, act)] + [Outside(q, secrets)];
  }

  // Secrets

  function SecretOf(me: Self, secrets: map<Key, Config>): Option<Config> {
    if SecretKey(me) in secrets then Some(secrets[SecretKey(me)]) else None
  }

  // What the resource itself wrote last, if anything.
  function LastWritten(n: string, steps: seq<Step>, before: Option<Config>): Option<Config>
    decreases |steps|
  {
    if steps == [] then before
    else
      var step := steps[|steps| - 1];
      if step.Write? && step.name == n then Some(step.config) else LastWritten(n, steps[..|steps| - 1], before)
  }

  // However the Observes of many resources interleave, each finds its secret as it last wrote it itself: no resource
  // overwrites the kubeconfig of another.
  lemma {:induction false} SecretsKeptApart(rs: map<string, Self>, s: System, steps: seq<Step>, n: string)
    requires Named(rs) && Tracks(rs, s) && n in rs
    ensures Tracks(rs, Execute(rs, s, steps))
    ensures SecretOf(rs[n], Execute(rs, s, steps).secrets) == LastWritten(n, steps, SecretOf(rs[n], s.secrets))
    decreases |steps|
  {
    if steps != [] {
      var before, step := steps[..|steps| - 1], steps[|steps| - 1];
      SecretsKeptApart(rs, s, before, n);
      if step.Write? && step.name in rs {
        KeysCollideExactly(rs[step.name], rs[n]);
      }
    }
  }
}

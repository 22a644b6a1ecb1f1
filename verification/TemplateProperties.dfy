// What single requests of the node template controller, and its Create as a whole, mean for the one who makes them.
module TemplateProperties {
  import opened Registry
  import opened World
  import opened ClusterSpec
  import opened ObserveProperties
  import opened TemplateSpec
  import opened TemplateRuns

  // GetVpcIdByTags and GetSubnetIdByTags: an id is found exactly if the request is answered and the name has one, and
  // it is that one.

  lemma VpcMeans(me: Template, w: TemplateWorld, ref: string)
    ensures var (v, r) := FindVpc(me, w, ref);
      && v == Pass(me, w) && v.log == w.log
      && (r.Ok? <==> NextBeat(w).outcome == Fine && ref in v.vpcs) && (r.Ok? ==> r.value == v.vpcs[ref])
  {
  }

  lemma SubnetMeans(me: Template, w: TemplateWorld, ref: string)
    ensures var (v, r) := FindSubnet(me, w, ref);
      && v == Pass(me, w) && v.log == w.log
      && (r.Ok? <==> NextBeat(w).outcome == Fine && ref in v.subnets) && (r.Ok? ==> r.value == v.subnets[ref])
  {
  }

  // CreateNodeTemplate: an answer is a new id, listed under the posted name. Without one the template may be there all
  // the same, and is exactly if the request was not refused.
  lemma TemplateCreationMeans(me: Template, w: TemplateWorld, net: Network)
    requires Consistent(w.templates)
    ensures var (v, r) := NewTemplate(me, w, net);
      var u := Pass(me, w).templates;
      && u.next !in w.templates.names && v.log == w.log + [PostTemplate(me.postName, net)]
      && r == (if NextBeat(w).outcome == Fine then Ok(u.next) else Err)
      && (ListedAs(v.templates.entries, me.postName, u.next) <==> NextBeat(w).outcome != Refused)
      && (forall x :: x in u.entries ==> x in v.templates.entries)
      && (forall x :: x in v.templates.entries ==> x in u.entries || (x.id == u.next && x.name == me.postName))
  {
    var (v, r) := NewTemplate(me, w, net);
    var u := Pass(me, w).templates;
    PassMoves(me, w);
    assert forall i :: 0 <= i < |u.entries| ==> u.entries[i].id < u.next;
    if NextBeat(w).outcome != Refused {
      assert v.templates.entries[|u.entries|] == Data(u.next, "provisioning", me.postName);
      assert forall i :: 0 <= i < |u.entries| ==> v.templates.entries[i] == u.entries[i];
    }
  }

  // DeleteNodeTemplate: unless it is refused no entry has the id any more, and every other entry is still there. It
  // succeeds exactly if there was one and the request is answered.
  lemma TemplateDeletionMeans(me: Template, w: TemplateWorld, id: Id)
    ensures var (v, r) := DropTemplate(me, w, id);
      var before := Pass(me, w).templates.entries;
      && (forall x :: x in v.templates.entries <==> x in before && (x.id != id || NextBeat(w).outcome == Refused))
      && (r.Ok? <==> NextBeat(w).outcome == Fine && exists x :: x in before && x.id == id)
      && v.templates.names == Pass(me, w).templates.names && v.log == w.log + [DeleteTemplate(id)]
  {
    var before := Pass(me, w).templates.entries;
    if exists x :: x in before && x.id == id {
      var x :| x in before && x.id == id;
      var i :| 0 <= i < |before| && before[i] == x;
    }
  }

  // Create

  // Where the two lookups leave the world; one that has no reference to look up is not made.

  function AfterVpc(me: Template, w: TemplateWorld): TemplateWorld { if me.vpcRef == "" then w else Pass(me, w) }

  function AfterSubnet(me: Template, w: TemplateWorld): TemplateWorld { if me.subnetRef == "" then w else Pass(me, w) }

  predicate VpcFound(me: Template, w: TemplateWorld) {
    me.vpcRef != "" ==> NextBeat(w).outcome == Fine && me.vpcRef in Pass(me, w).vpcs
  }

  predicate SubnetFound(me: Template, w: TemplateWorld) {
    me.subnetRef != "" ==> NextBeat(w).outcome == Fine && me.subnetRef in Pass(me, w).subnets
  }

  // What the spec is to have in the two fields.

  function VpcOf(me: Template, w: TemplateWorld, net: Network): string
    requires VpcFound(me, w)
  {
    if me.vpcRef == "" then net.vpcId else Pass(me, w).vpcs[me.vpcRef]
  }

  function SubnetOf(me: Template, w: TemplateWorld, net: Network): string
    requires SubnetFound(me, w)
  {
    if me.subnetRef == "" then net.subnetId else Pass(me, w).subnets[me.subnetRef]
  }

  // Create, exactly. If the VPC is not found nothing changes. If it is and the subnet is not, the spec keeps the VPC's
  // id and the subnet field is as it was. If both are, the spec has both ids, and with that very spec the template is
  // posted; it is then there exactly if the request was not refused, and Create succeeds exactly if it is answered.
  lemma CreateTemplateMeans(me: Template, w: TemplateWorld, net: Network)
    requires Consistent(w.templates)
    ensures var (t, m, r) := CreateTemplate(me, w, net);
      var v := AfterVpc(me, w);
      var u := AfterSubnet(me, v);
      && (!VpcFound(me, w) ==> r.Err? && t == v && m == net && t.log == w.log)
      && (VpcFound(me, w) ==> m.vpcId == VpcOf(me, w, net))
      && (VpcFound(me, w) && !SubnetFound(me, v) ==> r.Err? && t == u && m.subnetId == net.subnetId && t.log == w.log)
      && (VpcFound(me, w) && SubnetFound(me, v) ==>
            && m.subnetId == SubnetOf(me, v, net) && t == NewTemplate(me, u, m).0
            && t.log == w.log + [PostTemplate(me.postName, m)]
            && (r.Ok? <==> NextBeat(u).outcome == Fine)
            && Pass(me, u).templates.next !in w.templates.names
            && (ListedAs(t.templates.entries, me.postName, Pass(me, u).templates.next) <==> NextBeat(u).outcome != Refused))
  {
    hide Rely, Consistent, NewTemplate;
    ResolveMoves(me, w, net);
    var (v, n, e) := ResolveVpc(me, w, net);
    VpcMeans(me, w, me.vpcRef);
    SubnetMeans(me, v, me.subnetRef);
    var (u, m, f) := ResolveSubnet(me, v, n);
    if e.Ok? && f.Ok? {
      Grows(me, w, v);
      Grows(me, v, u);
      TemplateCreationMeans(me, u, m);
    }
  }

  lemma Grows(me: Template, w: TemplateWorld, v: TemplateWorld)
    requires Moved(me, w, v)
    ensures Consistent(v.templates) && forall id :: id in w.templates.names ==> id in v.templates.names
  {
  }

  lemma DropLog(me: Template, w: TemplateWorld, id: Id)
    ensures DropTemplate(me, w, id).0.log == w.log + [DeleteTemplate(id)]
  {
  }

  // A reconcile that gets no listing, or finds nothing to delete, changes nothing. One that finds nothing and is not
  // deleting is a Create. One that finds the template records the last entry and leaves the spec alone; it requests a
  // deletion, of the id recorded, exactly if it is deleting.
  lemma ReconcileTemplateMeans(me: Template, s: TemplateState, deleting: bool)
    requires Consistent(s.w.templates)
    ensures var w := Pass(me, s.w);
      var es := w.templates.entries;
      var t := ReconcileTemplate(me, s, deleting);
      var found := NextBeat(s.w).outcome == Fine && Listed(es, me.name);
      && (!found && (deleting || NextBeat(s.w).outcome != Fine) ==> t == TemplateState(w, s.st, s.net))
      && (!found && !deleting && NextBeat(s.w).outcome == Fine ==>
            var (u, net, _) := CreateTemplate(me, w, s.net); t == TemplateState(u, s.st, net))
      && (found ==>
            && (exists j: nat :: LastMatch(es, me.name, |es|, j) && t.st == Status(es[j].id, ConditionOf(es[j])))
            && t.net == s.net && (!deleting ==> t.w == w)
            && (deleting ==> t.w == DropTemplate(me, w, t.st.id).0 && t.w.log == w.log + [DeleteTemplate(t.st.id)]))
  {
    hide Pass, ObserveTemplate, CreateTemplate, DropTemplate, LastMatch, Listed, Consistent, Moved, NextBeat;
    var (w, st, found) := ObserveTemplate(me, s.w, s.st);
    ObserveTemplateMeans(me, s.w, s.st);
    DropLog(me, w, st.id);
  }
}

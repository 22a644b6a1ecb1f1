// The node template controller as functions of its world, the second instance of the machine.
module TemplateSpec {
  import opened Registry
  import opened World
  import opened ClusterSpec

  // The parts of a node template resource that no reconcile changes.
  datatype Template = Template(name: string, postName: string, vpcRef: string, subnetRef: string)

  // The parts of its spec that Create fills in.
  datatype Network = Network(vpcId: string, subnetId: string)

  datatype TemplateRequest = PostTemplate(name: string, network: Network) | DeleteTemplate(id: Id)

  // One request's worth of environment: the server's templates, the VPCs and subnets that are found by their tags,
  // and how the request goes.
  datatype TemplateBeat = TemplateBeat(
    templates: Registry,
    vpcs: map<string, string>,
    subnets: map<string, string>,
    outcome: Outcome
  )

  datatype TemplateWorld = TemplateWorld(
    templates: Registry,
    vpcs: map<string, string>,
    subnets: map<string, string>,
    log: seq<TemplateRequest>,
    script: seq<TemplateBeat>
  )

  function NextBeat(w: TemplateWorld): TemplateBeat {
    if w.script == [] then TemplateBeat(Settled(w.templates), w.vpcs, w.subnets, Fine) else w.script[0]
  }

  // The world as a request finds it.
  function Pass(me: Template, w: TemplateWorld): TemplateWorld {
    var b := NextBeat(w);
    TemplateWorld(if Rely(me.name, w.templates, b.templates) then b.templates else w.templates,
                  b.vpcs, b.subnets, w.log, if w.script == [] then [] else w.script[1..])
  }

  // GetNodeTemplates
  function ListTemplates(me: Template, w: TemplateWorld): (TemplateWorld, Result<seq<Data>>) {
    var v := Pass(me, w);
    (v, if NextBeat(w).outcome == Fine then Ok(v.templates.entries) else Err)
  }

  // GetVpcIdByTags
  function FindVpc(me: Template, w: TemplateWorld, ref: string): (TemplateWorld, Result<string>) {
    var v := Pass(me, w);
    (v, if NextBeat(w).outcome == Fine && ref in v.vpcs then Ok(v.vpcs[ref]) else Err)
  }

  // GetSubnetIdByTags
  function FindSubnet(me: Template, w: TemplateWorld, ref: string): (TemplateWorld, Result<string>) {
    var v := Pass(me, w);
    (v, if NextBeat(w).outcome == Fine && ref in v.subnets then Ok(v.subnets[ref]) else Err)
  }

  // CreateNodeTemplate
  function NewTemplate(me: Template, w: TemplateWorld, net: Network): (TemplateWorld, Result<Id>) {
    var v := Pass(me, w);
    var u := v.(log := v.log + [PostTemplate(me.postName, net)]);
    match NextBeat(w).outcome
    case Refused => (u, Err)
    case Fine => (u.(templates := Posted(u.templates, me.postName)), Ok(u.templates.next))
    case Lost => (u.(templates := Posted(u.templates, me.postName)), Err)
  }

  // DeleteNodeTemplate
  function DropTemplate(me: Template, w: TemplateWorld, id: Id): (TemplateWorld, Result<()>) {
    var v := Pass(me, w);
    var u := v.(log := v.log + [DeleteTemplate(id)]);
    match NextBeat(w).outcome
    case Refused => (u, Err)
    case Fine => (u.(templates := Removed(u.templates, id)),
                  if exists i :: 0 <= i < |u.templates.entries| && u.templates.entries[i].id == id then Ok(()) else Err)
    case Lost => (u.(templates := Removed(u.templates, id)), Err)
  }

  // The loop over the listing from its i-th entry on.
  function LookFrom(me: Template, st: Status, s: seq<Data>, i: nat, found: bool): (Status, bool)
    requires i <= |s|
    decreases |s| - i
  {
    if i == |s| then (st, found)
    else if s[i].name != me.name then LookFrom(me, st, s, i + 1, found)
    else LookFrom(me, Status(s[i].id, if s[i].state == "active" then Available else Unavailable), s, i + 1, true)
  }

  function ObserveTemplate(me: Template, w: TemplateWorld, st: Status): (TemplateWorld, Status, Result<bool>) {
    var (v, s) := ListTemplates(me, w);
    if s.Err? then (v, st, Err)
    else
      var (t, found) := LookFrom(me, st, s.value, 0, false);
      (v, t, Ok(found))
  }

  function ResolveVpc(me: Template, w: TemplateWorld, net: Network): (TemplateWorld, Network, Result<()>) {
    if me.vpcRef == "" then (w, net, Ok(()))
    else
      var (v, id) := FindVpc(me, w, me.vpcRef);
      if id.Err? then (v, net, Err) else (v, net.(vpcId := id.value), Ok(()))
  }

  function ResolveSubnet(me: Template, w: TemplateWorld, net: Network): (TemplateWorld, Network, Result<()>) {
    if me.subnetRef == "" then (w, net, Ok(()))
    else
      var (v, id) := FindSubnet(me, w, me.subnetRef);
      if id.Err? then (v, net, Err) else (v, net.(subnetId := id.value), Ok(()))
  }

  function CreateTemplate(me: Template, w: TemplateWorld, net: Network): (TemplateWorld, Network, Result<()>) {
    var (v, n, e) := ResolveVpc(me, w, net);
    if e.Err? then (v, n, Err)
    else
      var (u, m, f) := ResolveSubnet(me, v, n);
      if f.Err? then (u, m, Err)
      else
        var (t, id) := NewTemplate(me, u, m);
        (t, m, if id.Ok? then Ok(()) else Err)
  }

  datatype TemplateState = TemplateState(w: TemplateWorld, st: Status, net: Network)

  function ReconcileTemplate(me: Template, s: TemplateState, deleting: bool): TemplateState {
    var (v, st, found) := ObserveTemplate(me, s.w, s.st);
    if found.Err? || found.value == !deleting then TemplateState(v, st, s.net)
    else if deleting then TemplateState(DropTemplate(me, v, st.id).0, st, s.net)
    else
      var (u, net, _) := CreateTemplate(me, v, s.net);
      TemplateState(u, st, net)
  }

  function RunTemplate(me: Template, s: TemplateState, deleting: seq<bool>): TemplateState
    decreases |deleting|
  {
    if deleting == [] then s
    else ReconcileTemplate(me, RunTemplate(me, s, deleting[..|deleting| - 1]), deleting[|deleting| - 1])
  }
}

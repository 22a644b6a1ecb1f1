// The node template controller step by step, with the resource and the world changed in place.
module TemplateController {
  import opened Registry
  import opened World
  import opened TemplateSpec
  import Spec = ClusterSpec

  // The HTTP client and AWS credentials of one external client, and the world behind them.
  class Clients {
    const me: Template
    var w: TemplateWorld

    constructor (me: Template, w: TemplateWorld)
      ensures this.me == me && this.w == w
    {
      this.me := me;
      this.w := w;
    }

    method GetNodeTemplates() returns (r: Result<seq<Data>>)
      modifies this
      ensures (w, r) == ListTemplates(me, old(w))
    {
      var (v, s) := ListTemplates(me, w);
      w, r := v, s;
    }

    method GetVpcIdByTags(name: string) returns (r: Result<string>)
      modifies this
      ensures (w, r) == FindVpc(me, old(w), name)
    {
      var (v, s) := FindVpc(me, w, name);
      w, r := v, s;
    }

    method GetSubnetIdByTags(name: string) returns (r: Result<string>)
      modifies this
      ensures (w, r) == FindSubnet(me, old(w), name)
    {
      var (v, s) := FindSubnet(me, w, name);
      w, r := v, s;
    }

    method CreateNodeTemplate(net: Network) returns (r: Result<Id>)
      modifies this
      ensures (w, r) == NewTemplate(me, old(w), net)
    {
      var (v, s) := NewTemplate(me, w, net);
      w, r := v, s;
    }

    method DeleteNodeTemplate(id: Id) returns (r: Result<()>)
      modifies this
      ensures (w, r) == DropTemplate(me, old(w), id)
    {
      var (v, s) := DropTemplate(me, w, id);
      w, r := v, s;
    }
  }

  // cr *v1alpha1.RKE1NodeTemplate
  class RKE1NodeTemplate {
    const me: Template
    var vpcId: string
    var subnetId: string
    var id: Id
    var condition: Spec.Condition

    constructor (me: Template, vpcId: string, subnetId: string)
      ensures this.me == me && Net() == Network(vpcId, subnetId) && Status() == Spec.Status(NO_ID, Spec.Unset)
    {
      this.me, this.vpcId, this.subnetId := me, vpcId, subnetId;
      id, condition := NO_ID, Spec.Unset;
    }

    function Status(): Spec.Status
      reads this
    {
      Spec.Status(id, condition)
    }

    function Net(): Network
      reads this
    {
      Network(vpcId, subnetId)
    }
  }

  method Observe(cr: RKE1NodeTemplate, clients: Clients) returns (r: Result<bool>)
    requires cr.me == clients.me
    modifies cr`id, cr`condition, clients
    ensures (clients.w, cr.Status(), r) == ObserveTemplate(cr.me, old(clients.w), old(cr.Status()))
  {
    ghost var st := cr.Status();
    var results := clients.GetNodeTemplates();
    if results.Err? {
      return Err;
    }
    ghost var v := clients.w;
    var found := false;
    for i := 0 to |results.value|
      invariant clients.w == v
      invariant LookFrom(cr.me, cr.Status(), results.value, i, found) == LookFrom(cr.me, st, results.value, 0, false)
    {
      var template := results.value[i];
      if template.name == cr.me.name {
        found := true;
        cr.id := template.id;
        if template.state == "active" {
          cr.condition := Spec.Available;
        } else {
          cr.condition := Spec.Unavailable;
        }
      }
    }
    return Ok(found);
  }

  method Create(cr: RKE1NodeTemplate, clients: Clients) returns (r: Result<()>)
    requires cr.me == clients.me
    modifies cr`vpcId, cr`subnetId, clients
    ensures (clients.w, cr.Net(), r) == CreateTemplate(cr.me, old(clients.w), old(cr.Net()))
  {
    if cr.me.vpcRef != "" {
      var vpc := clients.GetVpcIdByTags(cr.me.vpcRef);
      if vpc.Err? {
        return Err;
      }
      cr.vpcId := vpc.value;
    }
    if cr.me.subnetRef != "" {
      var subnet := clients.GetSubnetIdByTags(cr.me.subnetRef);
      if subnet.Err? {
        return Err;
      }
      cr.subnetId := subnet.value;
    }
    var id := clients.CreateNodeTemplate(cr.Net());
    if id.Err? {
      return Err;
    }
    return Ok(());
  }

  method Delete(cr: RKE1NodeTemplate, clients: Clients) returns (r: Result<()>)
    requires cr.me == clients.me
    modifies clients
    ensures (clients.w, r) == DropTemplate(cr.me, old(clients.w), cr.id)
  {
    r := clients.DeleteNodeTemplate(cr.id);
  }

  // The driver: observe, then create, delete or do nothing.
  method Reconcile(cr: RKE1NodeTemplate, clients: Clients, deleting: bool)
    requires cr.me == clients.me
    modifies cr, clients
    ensures TemplateState(clients.w, cr.Status(), cr.Net()) ==
            ReconcileTemplate(cr.me, TemplateState(old(clients.w), old(cr.Status()), old(cr.Net())), deleting)
  {
    var found := Observe(cr, clients);
    if found.Err? {
      return;
    }
    if deleting {
      if found.value {
        var _ := Delete(cr, clients);
      }
    } else if !found.value {
      var _ := Create(cr, clients);
    }
  }
}

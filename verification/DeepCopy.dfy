// Every generated DeepCopyInto of the cluster configuration, as a method that changes a Go memory step by step.
module DeepCopy {
  import opened GoMemory
  import opened Pointers
  import opened Copies
  import opened ConfigTypes

  // The contracts of the methods for single structs. A method hands them from field to field without looking inside.

  ghost predicate MayCopy(n: Name, h: Heap, src: Pointer, out: Pointer) { Ready(h, src, out, TypeOf(n)) }

  // The first k fields of *out are copied and the rest still shared.
  ghost predicate Stage(n: Name, h: Heap, src: Pointer, g: Heap, out: Pointer, k: nat) {
    Partial(h, src, g, out, TypeOf(n).fields, k)
  }

  ghost predicate IsCopied(n: Name, h: Heap, src: Pointer, g: Heap, out: Pointer) {
    InBounds(h, src) && InBounds(h, out) && Copied(h, src, g, out, TypeOf(n))
  }

  class Memory {
    var cells: Heap

    constructor ()
      ensures cells == []
    {
      cells := [];
    }

    // Allocation and assignment

    method New(c: Cell) returns (a: nat)
      modifies this
      ensures a == |old(cells)| && cells == old(cells) + [c]
    {
      a := |cells|;
      cells := cells + [c];
    }

    method Assign(p: Pointer, w: Value)
      requires InBounds(cells, p)
      modifies this
      ensures cells == Store(old(cells), p, w)
    {
      cells := Store(cells, p, w);
    }

    // *out = make(...) or *out = new(...)
    method Renew(out: Pointer, c: Cell) returns (a: nat)
      requires InBounds(cells, out)
      modifies this
      ensures a == |old(cells)| && |cells| == a + 1 && cells[a] == c
      ensures Extends(old(cells), out, cells) && Load(cells, out) == Whole(a, c)
    {
      a := New(c);
      Assign(out, Whole(a, c));
    }

    // Containers of scalars

    // *out = new(T); **out = **in
    method CopyPointee(src: Pointer, out: Pointer)
      requires Ready(cells, src, out, TPtr(TPlain)) && Load(cells, src).Ref?
      modifies this
      ensures Copied(old(cells), src, cells, out, TPtr(TPlain))
    {
      ghost var h := cells;
      var a := Renew(out, Slots([Plain("")]));
      SourceStays(h, src, cells, out, TPtr(TPlain));
      cells := cells[a := Slots([Deref(cells, Load(cells, src))])];
      LeafCopied(h, src, cells, out, TPtr(TPlain));
    }

    // *out = make([]T, len(*in)); copy(*out, *in)
    method CopySlice(src: Pointer, out: Pointer)
      requires Ready(cells, src, out, TSlice(TPlain)) && Load(cells, src).Ref?
      modifies this
      ensures Copied(old(cells), src, cells, out, TSlice(TPlain))
    {
      ghost var h := cells;
      var n := Load(cells, src).len;
      var a := Renew(out, Slots(seq(n, _ => Plain(""))));
      SourceStays(h, src, cells, out, TSlice(TPlain));
      cells := cells[a := Slots(Elements(cells, Load(cells, src)))];
      LeafCopied(h, src, cells, out, TSlice(TPlain));
    }

    // *out = make(map[string]T, len(*in)), then the entries one by one
    method CopyMap(src: Pointer, out: Pointer)
      requires Ready(cells, src, out, TMap(TPlain)) && Load(cells, src).Ref?
      modifies this
      ensures Copied(old(cells), src, cells, out, TMap(TPlain))
    {
      ghost var h := cells;
      var a := Renew(out, Dict(map[]));
      SourceStays(h, src, cells, out, TMap(TPlain));
      Fill(Load(cells, src).addr, a);
      LeafCopied(h, src, cells, out, TMap(TPlain));
    }

    // for key, val := range *in { (*out)[key] = val }, the keys in any order
    method Fill(b: nat, a: nat)
      requires a < |cells| && b < |cells| && cells[a] == Dict(map[]) && cells[b].Dict?
      modifies this
      ensures cells == old(cells)[a := old(cells)[b]]
    {
      ghost var g := cells;
      var todo := cells[b].entries.Keys;
      assert g[b].entries - todo == map[];
      while todo != {}
        invariant todo <= g[b].entries.Keys
        invariant cells == g[a := Dict(g[b].entries - todo)]
      {
        var key :| key in todo;
        assert (g[b].entries - todo)[key := g[b].entries[key]] == g[b].entries - (todo - {key});
        cells := cells[a := Dict(cells[a].entries[key := cells[b].entries[key]])];
        todo := todo - {key};
      }
      assert g[b].entries - {} == g[b].entries;
    }

    // Containers of slices and of structs

    // The inner slices of a map[string][]T; an entry that is nil stays nil.
    method CopySliceMap(src: Pointer, out: Pointer)
      requires Ready(cells, src, out, TMap(TSlice(TPlain))) && Load(cells, src).Ref?
      modifies this
      ensures Copied(old(cells), src, cells, out, TMap(TSlice(TPlain)))
    {
      ghost var h, e := cells, TSlice(TPlain);
      var a := Renew(out, Dict(map[]));
      SourceStays(h, src, cells, out, TMap(e));
      var from := cells[Load(cells, src).addr].entries;
      var todo := from.Keys;
      while todo != {}
        invariant EntriesDone(h, src, cells, out, e, todo) && h[Load(h, src).addr].entries == from
      {
        ghost var g := cells;
        var key :| key in todo;
        var c := New(Slots([from[key], Nil]));
        EntryReady(h, src, g, out, e, todo, key, cells);
        var val, outVal := Pointer(c, 0, []), Pointer(c, 1, []);
        ghost var f := cells;
        if from[key] == Nil {
          NilCopied(f, val, outVal, e);
        } else {
          CopySlice(val, outVal);
        }
        SetEntry(h, src, g, f, out, e, todo, key, outVal);
        todo := todo - {key};
      }
      EntriesCopied(h, src, cells, out, e);
    }

    // The structs of a map[string]T: (*out)[key] = *val.DeepCopy()
    method CopyStructMap(n: Name, src: Pointer, out: Pointer)
      requires Ready(cells, src, out, TMap(TypeOf(n))) && Load(cells, src).Ref?
      modifies this
      ensures Copied(old(cells), src, cells, out, TMap(TypeOf(n)))
      decreases Rank(n), 6
    {
      ghost var h, e := cells, TypeOf(n);
      var a := Renew(out, Dict(map[]));
      SourceStays(h, src, cells, out, TMap(e));
      var from := cells[Load(cells, src).addr].entries;
      var todo := from.Keys;
      while todo != {}
        invariant EntriesDone(h, src, cells, out, e, todo) && h[Load(h, src).addr].entries == from
      {
        ghost var g := cells;
        var key :| key in todo;
        var c := New(Slots([from[key], Nil]));
        EntryReady(h, src, g, out, e, todo, key, cells);
        var val, outVal := Pointer(c, 0, []), Pointer(c, 1, []);
        ghost var f := cells;
        DeepCopyInto(n, val, outVal);
        SetEntry(h, src, g, f, out, e, todo, key, outVal);
        todo := todo - {key};
      }
      EntriesCopied(h, src, cells, out, e);
    }

    // (*out)[key] = outVal
    method SetEntry(ghost h: Heap, ghost src: Pointer, ghost g: Heap, ghost f: Heap, out: Pointer, ghost e: Type,
                    ghost todo: set<string>, key: string, outVal: Pointer)
      requires EntriesDone(h, src, g, out, e, todo) && key in todo
      requires f == g + [Slots([h[Load(h, src).addr].entries[key], Nil])]
      requires EntriesDone(h, src, f, out, e, todo)
      requires var v := h[Load(h, src).addr].entries[key];
        View(f, v, e) == View(h, v, e) && Ready(f, Pointer(|g|, 0, []), Pointer(|g|, 1, []), e)
      requires outVal == Pointer(|g|, 1, []) && Copied(f, Pointer(|g|, 0, []), cells, outVal, e)
      modifies this
      ensures EntriesDone(h, src, cells, out, e, todo - {key})
    {
      ghost var c := cells;
      var a := Load(cells, out).addr;
      var w := Load(cells, outVal);
      cells := cells[a := Dict(cells[a].entries[key := w])];
      EntryMade(h, h[Load(h, src).addr].entries[key], |g|, f, c, e, a, cells[a]);
      EntryStep(h, src, g, out, e, todo, key, cells, w);
    }

    // *out = new(T); (*in).DeepCopyInto(*out)
    method CopyStructPointer(n: Name, src: Pointer, out: Pointer)
      requires Ready(cells, src, out, TPtr(TypeOf(n))) && Load(cells, src).Ref?
      modifies this
      ensures Copied(old(cells), src, cells, out, TPtr(TypeOf(n)))
      decreases Rank(n), 6
    {
      ghost var h, e := cells, TypeOf(n);
      var a := Renew(out, Slots([Nil]));
      SourceStays(h, src, cells, out, TPtr(e));
      var v := Load(cells, src);
      ghost var g := cells;
      PointeeReady(h, src, g, out, e);
      DeepCopyInto(n, Pointer(v.addr, v.from, v.path), Pointer(a, 0, []));
      PointeeCopied(h, src, g, cells, out, e);
    }

    // *out = make([]T, len(*in)); for i := range *in { (*in)[i].DeepCopyInto(&(*out)[i]) }
    method CopyStructSlice(n: Name, src: Pointer, out: Pointer)
      requires Ready(cells, src, out, TSlice(TypeOf(n))) && Load(cells, src).Ref?
      modifies this
      ensures Copied(old(cells), src, cells, out, TSlice(TypeOf(n)))
      decreases Rank(n), 6
    {
      ghost var h, e := cells, TypeOf(n);
      var len := Load(cells, src).len;
      var a := Renew(out, Slots(seq(len, _ => Nil)));
      SourceStays(h, src, cells, out, TSlice(e));
      var v := Load(cells, src);
      for i := 0 to len
        invariant a == |h| && v == Load(h, src)
        invariant SlotsDone(h, src, cells, out, e, i) && |cells[a].slots| == len
      {
        ghost var g := cells;
        SlotReady(h, src, g, out, e, i);
        DeepCopyInto(n, Pointer(v.addr, v.from + i, []), Pointer(a, i, []));
        SlotStep(h, src, g, cells, out, e, i);
      }
      SlotsCopied(h, src, cells, out, e, len);
    }

    // Structs

    // *out = *in: every container is now shared
    method Shallow(n: Name, src: Pointer, out: Pointer)
      requires MayCopy(n, cells, src, out)
      modifies this
      ensures Stage(n, old(cells), src, cells, out, Scalar(n))
    {
      ghost var h := cells;
      Assign(out, Load(cells, src));
      Begin(h, src, out, TypeOf(n).fields);
      if Scalar(n) == 1 {
        ScalarStep(h, src, cells, out, TypeOf(n).fields);
      }
    }

    // The code for one field, in, out := &in.X, &out.X
    method Field(n: Name, b: Block, src: Pointer, out: Pointer, k: nat, ghost h: Heap)
      requires k < |Shape(n)| && Shape(n)[k] == b && b != Scalars
      requires Stage(n, h, src, cells, out, k)
      modifies this
      ensures Stage(n, h, src, cells, out, k + 1)
      decreases Rank(n), 1
    {
      ghost var g, ts := cells, TypeOf(n).fields;
      FieldReady(h, src, g, out, ts, k);
      CopyBlock(n, b, src.Field(k), out.Field(k));
      Step(h, src, g, cells, out, ts, k);
    }

    // The eight forms of code, under the test for nil where the field can be nil
    method CopyBlock(n: Name, b: Block, src: Pointer, out: Pointer)
      requires b != Scalars && Below(b, n)
      requires Ready(cells, src, out, BlockType(n, b)) && Load(cells, src) == Load(cells, out)
      modifies this
      ensures Copied(old(cells), src, cells, out, BlockType(n, b))
      decreases Rank(n), 0
    {
      if b.Embedded? {
        DeepCopyInto(b.name, src, out);
      } else if Load(cells, src) == Nil {
        NilCopied(cells, src, out, BlockType(n, b));
      } else if b.Pointee? || b.Slice? || b.Map? || b.SliceMap? {
        CopyScalars(n, b, src, out);
      } else {
        match b
        case PointerTo(m) => CopyStructPointer(m, src, out);
        case SliceOf(m) => CopyStructSlice(m, src, out);
        case MapOf(m) => CopyStructMap(m, src, out);
      }
    }

    method CopyScalars(n: Name, b: Block, src: Pointer, out: Pointer)
      requires b.Pointee? || b.Slice? || b.Map? || b.SliceMap?
      requires Ready(cells, src, out, BlockType(n, b)) && Load(cells, src) != Nil
      modifies this
      ensures Copied(old(cells), src, cells, out, BlockType(n, b))
    {
      match b
      case Pointee => CopyPointee(src, out);
      case Slice => CopySlice(src, out);
      case Map => CopyMap(src, out);
      case SliceMap => CopySliceMap(src, out);
    }

    ghost method Close(n: Name, src: Pointer, out: Pointer, h: Heap)
      requires Stage(n, h, src, cells, out, |Shape(n)|)
      ensures IsCopied(n, h, src, cells, out)
    {
      Finish(h, src, cells, out, TypeOf(n).fields);
    }

    // in.DeepCopyInto(out): the receiver's static type selects the method.
    method DeepCopyInto(n: Name, src: Pointer, out: Pointer)
      requires Ready(cells, src, out, TypeOf(n))
      modifies this
      ensures Copied(old(cells), src, cells, out, TypeOf(n))
      decreases Rank(n), 5
    {
      Select(n, src, out);
    }

    method Select(n: Name, src: Pointer, out: Pointer)
      requires MayCopy(n, cells, src, out)
      modifies this
      ensures IsCopied(n, old(cells), src, cells, out)
      decreases Rank(n), 4
    {
      hide MayCopy, IsCopied;
      match n
      case Foreign => DeepCopyForeign(src, out);
      case AWSCloudProvider => DeepCopyAWSCloudProvider(src, out);
      case AciNetworkProvider => DeepCopyAciNetworkProvider(src, out);
      case AuditLog => DeepCopyAuditLog(src, out);
      case AuthnConfig => DeepCopyAuthnConfig(src, out);
      case AuthzConfig => DeepCopyAuthzConfig(src, out);
      case AzureCloudProvider => DeepCopyAzureCloudProvider(src, out);
      case BackupConfig => DeepCopyBackupConfig(src, out);
      case BaseService => DeepCopyBaseService(src, out);
      case Configuration => DeepCopyConfiguration(src, out);
      case DaemonSetUpdateStrategy => DeepCopyDaemonSetUpdateStrategy(src, out);
      case DeploymentStrategy => DeepCopyDeploymentStrategy(src, out);
      case NodeDrainInput => DeepCopyNodeDrainInput(src, out);
      case PrivateRegistry => DeepCopyPrivateRegistry(src, out);
      case Process => DeepCopyProcess(src, out);
      case RKENodePool => DeepCopyRKENodePool(src, out);
      case RKETaint => DeepCopyRKETaint(src, out);
      case RotateCertificates => DeepCopyRotateCertificates(src, out);
      case VsphereCloudProvider => DeepCopyVsphereCloudProvider(src, out);
      case CloudProvider => DeepCopyCloudProvider(src, out);
      case ETCDService => DeepCopyETCDService(src, out);
      case EventRateLimit => DeepCopyEventRateLimit(src, out);
      case KubeAPIService => DeepCopyKubeAPIService(src, out);
      case BaseOnlyService => DeepCopyBaseOnlyService(src, out);
      case RKEConfigServices => DeepCopyRKEConfigServices(src, out);
      case Nodelocal => DeepCopyNodelocal(src, out);
      case DNSConfig => DeepCopyDNSConfig(src, out);
      case ForeignHolder => DeepCopyForeignHolder(src, out);
      case IngressConfig => DeepCopyIngressConfig(src, out);
      case MonitoringConfig => DeepCopyMonitoringConfig(src, out);
      case NetworkConfig => DeepCopyNetworkConfig(src, out);
      case NodeUpgradeStrategy => DeepCopyNodeUpgradeStrategy(src, out);
      case RKEConfigNode => DeepCopyRKEConfigNode(src, out);
      case RKEConfigNodePlan => DeepCopyRKEConfigNodePlan(src, out);
      case RKEPlan => DeepCopyRKEPlan(src, out);
      case RancherKubernetesEngineConfig => DeepCopyRancherKubernetesEngineConfig(src, out);
      case RKEClusterConfigSpec => DeepCopyRKEClusterConfigSpec(src, out);
      case ClusterParameters => DeepCopyClusterParameters(src, out);
      case ClusterSpec => DeepCopyClusterSpec(src, out);
      case ClusterStatus => DeepCopyClusterStatus(src, out);
      case RKE1Cluster => DeepCopyRKE1Cluster(src, out);
      case RKE1ClusterList => DeepCopyRKE1ClusterList(src, out);
    }

    method DeepCopyForeign(src: Pointer, out: Pointer)
      requires MayCopy(Foreign, cells, src, out)
      modifies this
      ensures IsCopied(Foreign, old(cells), src, cells, out)
      decreases Rank(Foreign), 3
    {
      hide MayCopy, Stage, IsCopied;
      ghost var h := cells;
      Shallow(Foreign, src, out);
      Field(Foreign, Pointee, src, out, 1, h);                                // pointer
      Close(Foreign, src, out, h);
    }

    method DeepCopyAWSCloudProvider(src: Pointer, out: Pointer)
      requires MayCopy(AWSCloudProvider, cells, src, out)
      modifies this
      ensures IsCopied(AWSCloudProvider, old(cells), src, cells, out)
      decreases Rank(AWSCloudProvider), 3
    {
      hide MayCopy, Stage, IsCopied;
      ghost var h := cells;
      Shallow(AWSCloudProvider, src, out);
      Field(AWSCloudProvider, Map, src, out, 1, h);                           // ServiceOverride
      Close(AWSCloudProvider, src, out, h);
    }

    method DeepCopyAciNetworkProvider(src: Pointer, out: Pointer)
      requires MayCopy(AciNetworkProvider, cells, src, out)
      modifies this
      ensures IsCopied(AciNetworkProvider, old(cells), src, cells, out)
      decreases Rank(AciNetworkProvider), 3
    {
      hide MayCopy, Stage, IsCopied;
      ghost var h := cells;
      Shallow(AciNetworkProvider, src, out);
      Field(AciNetworkProvider, Slice, src, out, 1, h);                       // ApicHosts
      Field(AciNetworkProvider, Slice, src, out, 2, h);                       // L3OutExternalNetworks
      Field(AciNetworkProvider, Slice, src, out, 3, h);                       // KafkaBrokers
      Close(AciNetworkProvider, src, out, h);
    }

    method DeepCopyAuditLog(src: Pointer, out: Pointer)
      requires MayCopy(AuditLog, cells, src, out)
      modifies this
      ensures IsCopied(AuditLog, old(cells), src, cells, out)
      decreases Rank(AuditLog), 3
    {
      hide MayCopy, Stage, IsCopied;
      ghost var h := cells;
      Shallow(AuditLog, src, out);
      Field(AuditLog, Pointee, src, out, 1, h);                               // Configuration
      Close(AuditLog, src, out, h);
    }

    method DeepCopyAuthnConfig(src: Pointer, out: Pointer)
      requires MayCopy(AuthnConfig, cells, src, out)
      modifies this
      ensures IsCopied(AuthnConfig, old(cells), src, cells, out)
      decreases Rank(AuthnConfig), 3
    {
      hide MayCopy, Stage, IsCopied;
      ghost var h := cells;
      Shallow(AuthnConfig, src, out);
      Field(AuthnConfig, Slice, src, out, 1, h);                              // SANs
      Field(AuthnConfig, Pointee, src, out, 2, h);                            // Webhook
      Close(AuthnConfig, src, out, h);
    }

    method DeepCopyAuthzConfig(src: Pointer, out: Pointer)
      requires MayCopy(AuthzConfig, cells, src, out)
      modifies this
      ensures IsCopied(AuthzConfig, old(cells), src, cells, out)
      decreases Rank(AuthzConfig), 3
    {
      hide MayCopy, Stage, IsCopied;
      ghost var h := cells;
      Shallow(AuthzConfig, src, out);
      Field(AuthzConfig, Map, src, out, 1, h);                                // Options
      Close(AuthzConfig, src, out, h);
    }

    method DeepCopyAzureCloudProvider(src: Pointer, out: Pointer)
      requires MayCopy(AzureCloudProvider, cells, src, out)
      modifies this
      ensures IsCopied(AzureCloudProvider, old(cells), src, cells, out)
      decreases Rank(AzureCloudProvider), 3
    {
      hide MayCopy, Stage, IsCopied;
      ghost var h := cells;
      Shallow(AzureCloudProvider, src, out);
      Field(AzureCloudProvider, Pointee, src, out, 1, h);                     // ExcludeMasterFromStandardLB
      Close(AzureCloudProvider, src, out, h);
    }

    method DeepCopyBackupConfig(src: Pointer, out: Pointer)
      requires MayCopy(BackupConfig, cells, src, out)
      modifies this
      ensures IsCopied(BackupConfig, old(cells), src, cells, out)
      decreases Rank(BackupConfig), 3
    {
      hide MayCopy, Stage, IsCopied;
      ghost var h := cells;
      Shallow(BackupConfig, src, out);
      Field(BackupConfig, Pointee, src, out, 1, h);                           // Enabled
      Field(BackupConfig, Pointee, src, out, 2, h);                           // S3BackupConfig
      Close(BackupConfig, src, out, h);
    }

    method DeepCopyBaseService(src: Pointer, out: Pointer)
      requires MayCopy(BaseService, cells, src, out)
      modifies this
      ensures IsCopied(BaseService, old(cells), src, cells, out)
      decreases Rank(BaseService), 3
    {
      hide MayCopy, Stage, IsCopied;
      ghost var h := cells;
      Shallow(BaseService, src, out);
      Field(BaseService, Map, src, out, 1, h);                                // ExtraArgs
      Field(BaseService, SliceMap, src, out, 2, h);                           // ExtraArgsArray
      Field(BaseService, Slice, src, out, 3, h);                              // ExtraBinds
      Field(BaseService, Slice, src, out, 4, h);                              // ExtraEnv
      Field(BaseService, Map, src, out, 5, h);                                // WindowsExtraArgs
      Field(BaseService, SliceMap, src, out, 6, h);                           // WindowsExtraArgsArray
      Field(BaseService, Slice, src, out, 7, h);                              // WindowsExtraBinds
      Field(BaseService, Slice, src, out, 8, h);                              // WindowsExtraEnv
      Close(BaseService, src, out, h);
    }

    method DeepCopyConfiguration(src: Pointer, out: Pointer)
      requires MayCopy(Configuration, cells, src, out)
      modifies this
      ensures IsCopied(Configuration, old(cells), src, cells, out)
      decreases Rank(Configuration), 3
    {
      hide MayCopy, Stage, IsCopied;
      ghost var h := cells;
      Shallow(Configuration, src, out);
      Field(Configuration, Slice, src, out, 1, h);                            // Limits
      Close(Configuration, src, out, h);
    }

    method DeepCopyDaemonSetUpdateStrategy(src: Pointer, out: Pointer)
      requires MayCopy(DaemonSetUpdateStrategy, cells, src, out)
      modifies this
      ensures IsCopied(DaemonSetUpdateStrategy, old(cells), src, cells, out)
      decreases Rank(DaemonSetUpdateStrategy), 3
    {
      hide MayCopy, Stage, IsCopied;
      ghost var h := cells;
      Shallow(DaemonSetUpdateStrategy, src, out);
      Field(DaemonSetUpdateStrategy, PointerTo(Foreign), src, out, 1, h);     // RollingUpdate
      Close(DaemonSetUpdateStrategy, src, out, h);
    }

    method DeepCopyDeploymentStrategy(src: Pointer, out: Pointer)
      requires MayCopy(DeploymentStrategy, cells, src, out)
      modifies this
      ensures IsCopied(DeploymentStrategy, old(cells), src, cells, out)
      decreases Rank(DeploymentStrategy), 3
    {
      hide MayCopy, Stage, IsCopied;
      ghost var h := cells;
      Shallow(DeploymentStrategy, src, out);
      Field(DeploymentStrategy, PointerTo(Foreign), src, out, 1, h);          // RollingUpdate
      Close(DeploymentStrategy, src, out, h);
    }

    method DeepCopyNodeDrainInput(src: Pointer, out: Pointer)
      requires MayCopy(NodeDrainInput, cells, src, out)
      modifies this
      ensures IsCopied(NodeDrainInput, old(cells), src, cells, out)
      decreases Rank(NodeDrainInput), 3
    {
      hide MayCopy, Stage, IsCopied;
      ghost var h := cells;
      Shallow(NodeDrainInput, src, out);
      Field(NodeDrainInput, Pointee, src, out, 1, h);                         // IgnoreDaemonSets
      Close(NodeDrainInput, src, out, h);
    }

    method DeepCopyPrivateRegistry(src: Pointer, out: Pointer)
      requires MayCopy(PrivateRegistry, cells, src, out)
      modifies this
      ensures IsCopied(PrivateRegistry, old(cells), src, cells, out)
      decreases Rank(PrivateRegistry), 3
    {
      hide MayCopy, Stage, IsCopied;
      ghost var h := cells;
      Shallow(PrivateRegistry, src, out);
      Field(PrivateRegistry, Pointee, src, out, 1, h);                        // ECRCredentialPlugin
      Close(PrivateRegistry, src, out, h);
    }

    method DeepCopyProcess(src: Pointer, out: Pointer)
      requires MayCopy(Process, cells, src, out)
      modifies this
      ensures IsCopied(Process, old(cells), src, cells, out)
      decreases Rank(Process), 3
    {
      hide MayCopy, Stage, IsCopied;
      ghost var h := cells;
      Shallow(Process, src, out);
      Field(Process, Slice, src, out, 1, h);                                  // Command
      Field(Process, Slice, src, out, 2, h);                                  // Args
      Field(Process, Slice, src, out, 3, h);                                  // Env
      Field(Process, Slice, src, out, 4, h);                                  // VolumesFrom
      Field(Process, Slice, src, out, 5, h);                                  // Binds
      Field(Process, Map, src, out, 6, h);                                    // Labels
      Field(Process, Slice, src, out, 7, h);                                  // Publish
      Close(Process, src, out, h);
    }

    method DeepCopyRKENodePool(src: Pointer, out: Pointer)
      requires MayCopy(RKENodePool, cells, src, out)
      modifies this
      ensures IsCopied(RKENodePool, old(cells), src, cells, out)
      decreases Rank(RKENodePool), 3
    {
      hide MayCopy, Stage, IsCopied;
      ghost var h := cells;
      Shallow(RKENodePool, src, out);
      Field(RKENodePool, Map, src, out, 1, h);                                // Annotations
      Field(RKENodePool, Map, src, out, 2, h);                                // Labels
      Close(RKENodePool, src, out, h);
    }

    method DeepCopyRKETaint(src: Pointer, out: Pointer)
      requires MayCopy(RKETaint, cells, src, out)
      modifies this
      ensures IsCopied(RKETaint, old(cells), src, cells, out)
      decreases Rank(RKETaint), 3
    {
      hide MayCopy, Stage, IsCopied;
      ghost var h := cells;
      Shallow(RKETaint, src, out);
      Field(RKETaint, Pointee, src, out, 1, h);                               // TimeAdded
      Close(RKETaint, src, out, h);
    }

    method DeepCopyRotateCertificates(src: Pointer, out: Pointer)
      requires MayCopy(RotateCertificates, cells, src, out)
      modifies this
      ensures IsCopied(RotateCertificates, old(cells), src, cells, out)
      decreases Rank(RotateCertificates), 3
    {
      hide MayCopy, Stage, IsCopied;
      ghost var h := cells;
      Shallow(RotateCertificates, src, out);
      Field(RotateCertificates, Slice, src, out, 1, h);                       // Services
      Close(RotateCertificates, src, out, h);
    }

    method DeepCopyVsphereCloudProvider(src: Pointer, out: Pointer)
      requires MayCopy(VsphereCloudProvider, cells, src, out)
      modifies this
      ensures IsCopied(VsphereCloudProvider, old(cells), src, cells, out)
      decreases Rank(VsphereCloudProvider), 3
    {
      hide MayCopy, Stage, IsCopied;
      ghost var h := cells;
      Shallow(VsphereCloudProvider, src, out);
      Field(VsphereCloudProvider, Map, src, out, 1, h);                       // VirtualCenter
      Close(VsphereCloudProvider, src, out, h);
    }

    method DeepCopyCloudProvider(src: Pointer, out: Pointer)
      requires MayCopy(CloudProvider, cells, src, out)
      modifies this
      ensures IsCopied(CloudProvider, old(cells), src, cells, out)
      decreases Rank(CloudProvider), 3
    {
      hide MayCopy, Stage, IsCopied;
      ghost var h := cells;
      Shallow(CloudProvider, src, out);
      Field(CloudProvider, PointerTo(AWSCloudProvider), src, out, 1, h);      // AWSCloudProvider
      Field(CloudProvider, PointerTo(AzureCloudProvider), src, out, 2, h);    // AzureCloudProvider
      Field(CloudProvider, Pointee, src, out, 3, h);                          // OpenstackCloudProvider
      Field(CloudProvider, PointerTo(VsphereCloudProvider), src, out, 4, h);  // VsphereCloudProvider
      Field(CloudProvider, Pointee, src, out, 5, h);                          // HarvesterCloudProvider
      Close(CloudProvider, src, out, h);
    }

    method DeepCopyETCDService(src: Pointer, out: Pointer)
      requires MayCopy(ETCDService, cells, src, out)
      modifies this
      ensures IsCopied(ETCDService, old(cells), src, cells, out)
      decreases Rank(ETCDService), 3
    {
      hide MayCopy, Stage, IsCopied;
      ghost var h := cells;
      Shallow(ETCDService, src, out);
      Field(ETCDService, Embedded(BaseService), src, out, 1, h);              // BaseService
      Field(ETCDService, Slice, src, out, 2, h);                              // ExternalURLs
      Field(ETCDService, Pointee, src, out, 3, h);                            // Snapshot
      Field(ETCDService, PointerTo(BackupConfig), src, out, 4, h);            // BackupConfig
      Close(ETCDService, src, out, h);
    }

    method DeepCopyEventRateLimit(src: Pointer, out: Pointer)
      requires MayCopy(EventRateLimit, cells, src, out)
      modifies this
      ensures IsCopied(EventRateLimit, old(cells), src, cells, out)
      decreases Rank(EventRateLimit), 3
    {
      hide MayCopy, Stage, IsCopied;
      ghost var h := cells;
      Shallow(EventRateLimit, src, out);
      Field(EventRateLimit, PointerTo(Configuration), src, out, 1, h);        // Configuration
      Close(EventRateLimit, src, out, h);
    }

    method DeepCopyKubeAPIService(src: Pointer, out: Pointer)
      requires MayCopy(KubeAPIService, cells, src, out)
      modifies this
      ensures IsCopied(KubeAPIService, old(cells), src, cells, out)
      decreases Rank(KubeAPIService), 3
    {
      hide MayCopy, Stage, IsCopied;
      ghost var h := cells;
      Shallow(KubeAPIService, src, out);
      Field(KubeAPIService, Embedded(BaseService), src, out, 1, h);           // BaseService
      Field(KubeAPIService, Pointee, src, out, 2, h);                         // SecretsEncryptionConfig
      Field(KubeAPIService, PointerTo(AuditLog), src, out, 3, h);             // AuditLog
      Field(KubeAPIService, PointerTo(EventRateLimit), src, out, 4, h);       // EventRateLimit
      Close(KubeAPIService, src, out, h);
    }

    method DeepCopyBaseOnlyService(src: Pointer, out: Pointer)
      requires MayCopy(BaseOnlyService, cells, src, out)
      modifies this
      ensures IsCopied(BaseOnlyService, old(cells), src, cells, out)
      decreases Rank(BaseOnlyService), 3
    {
      hide MayCopy, Stage, IsCopied;
      ghost var h := cells;
      Shallow(BaseOnlyService, src, out);
      Field(BaseOnlyService, Embedded(BaseService), src, out, 1, h);          // BaseService
      Close(BaseOnlyService, src, out, h);
    }

    method DeepCopyRKEConfigServices(src: Pointer, out: Pointer)
      requires MayCopy(RKEConfigServices, cells, src, out)
      modifies this
      ensures IsCopied(RKEConfigServices, old(cells), src, cells, out)
      decreases Rank(RKEConfigServices), 3
    {
      hide MayCopy, Stage, IsCopied;
      ghost var h := cells;
      Shallow(RKEConfigServices, src, out);
      Field(RKEConfigServices, Embedded(ETCDService), src, out, 0, h);        // Etcd
      Field(RKEConfigServices, Embedded(KubeAPIService), src, out, 1, h);     // KubeAPI
      Field(RKEConfigServices, Embedded(BaseOnlyService), src, out, 2, h);    // KubeController
      Field(RKEConfigServices, Embedded(BaseOnlyService), src, out, 3, h);    // Scheduler
      Field(RKEConfigServices, Embedded(BaseOnlyService), src, out, 4, h);    // Kubelet
      Field(RKEConfigServices, Embedded(BaseOnlyService), src, out, 5, h);    // Kubeproxy
      Close(RKEConfigServices, src, out, h);
    }

    method DeepCopyNodelocal(src: Pointer, out: Pointer)
      requires MayCopy(Nodelocal, cells, src, out)
      modifies this
      ensures IsCopied(Nodelocal, old(cells), src, cells, out)
      decreases Rank(Nodelocal), 3
    {
      hide MayCopy, Stage, IsCopied;
      ghost var h := cells;
      Shallow(Nodelocal, src, out);
      Field(Nodelocal, PointerTo(DaemonSetUpdateStrategy), src, out, 1, h);   // UpdateStrategy
      Field(Nodelocal, Map, src, out, 2, h);                                  // NodeSelector
      Close(Nodelocal, src, out, h);
    }

    method DeepCopyDNSConfig(src: Pointer, out: Pointer)
      requires MayCopy(DNSConfig, cells, src, out)
      modifies this
      ensures IsCopied(DNSConfig, old(cells), src, cells, out)
      decreases Rank(DNSConfig), 3
    {
      hide MayCopy, Stage, IsCopied;
      ghost var h := cells;
      Shallow(DNSConfig, src, out);
      Field(DNSConfig, Map, src, out, 1, h);                                  // Options
      Field(DNSConfig, Slice, src, out, 2, h);                                // UpstreamNameservers
      Field(DNSConfig, Slice, src, out, 3, h);                                // ReverseCIDRs
      Field(DNSConfig, SliceMap, src, out, 4, h);                             // StubDomains
      Field(DNSConfig, Map, src, out, 5, h);                                  // NodeSelector
      Field(DNSConfig, PointerTo(Nodelocal), src, out, 6, h);                 // Nodelocal
      Field(DNSConfig, PointerTo(DeploymentStrategy), src, out, 7, h);        // UpdateStrategy
      Field(DNSConfig, Pointee, src, out, 8, h);                              // LinearAutoscalerParams
      Field(DNSConfig, SliceOf(Foreign), src, out, 9, h);                     // Tolerations
      Close(DNSConfig, src, out, h);
    }

    method DeepCopyForeignHolder(src: Pointer, out: Pointer)
      requires MayCopy(ForeignHolder, cells, src, out)
      modifies this
      ensures IsCopied(ForeignHolder, old(cells), src, cells, out)
      decreases Rank(ForeignHolder), 3
    {
      hide MayCopy, Stage, IsCopied;
      ghost var h := cells;
      Shallow(ForeignHolder, src, out);
      Field(ForeignHolder, Embedded(Foreign), src, out, 0, h);                // embedded
      Close(ForeignHolder, src, out, h);
    }

    method DeepCopyIngressConfig(src: Pointer, out: Pointer)
      requires MayCopy(IngressConfig, cells, src, out)
      modifies this
      ensures IsCopied(IngressConfig, old(cells), src, cells, out)
      decreases Rank(IngressConfig), 3
    {
      hide MayCopy, Stage, IsCopied;
      ghost var h := cells;
      Shallow(IngressConfig, src, out);
      Field(IngressConfig, Map, src, out, 1, h);                              // Options
      Field(IngressConfig, Map, src, out, 2, h);                              // NodeSelector
      Field(IngressConfig, Map, src, out, 3, h);                              // ExtraArgs
      Field(IngressConfig, SliceOf(ForeignHolder), src, out, 4, h);           // ExtraEnvs
      Field(IngressConfig, SliceOf(ForeignHolder), src, out, 5, h);           // ExtraVolumes
      Field(IngressConfig, SliceOf(ForeignHolder), src, out, 6, h);           // ExtraVolumeMounts
      Field(IngressConfig, PointerTo(DaemonSetUpdateStrategy), src, out, 7, h); // UpdateStrategy
      Field(IngressConfig, SliceOf(Foreign), src, out, 8, h);                 // Tolerations
      Field(IngressConfig, Pointee, src, out, 9, h);                          // DefaultBackend
      Field(IngressConfig, Pointee, src, out, 10, h);                         // DefaultIngressClass
      Close(IngressConfig, src, out, h);
    }

    method DeepCopyMonitoringConfig(src: Pointer, out: Pointer)
      requires MayCopy(MonitoringConfig, cells, src, out)
      modifies this
      ensures IsCopied(MonitoringConfig, old(cells), src, cells, out)
      decreases Rank(MonitoringConfig), 3
    {
      hide MayCopy, Stage, IsCopied;
      ghost var h := cells;
      Shallow(MonitoringConfig, src, out);
      Field(MonitoringConfig, Map, src, out, 1, h);                           // Options
      Field(MonitoringConfig, Map, src, out, 2, h);                           // NodeSelector
      Field(MonitoringConfig, PointerTo(DeploymentStrategy), src, out, 3, h); // UpdateStrategy
      Field(MonitoringConfig, Pointee, src, out, 4, h);                       // Replicas
      Field(MonitoringConfig, SliceOf(Foreign), src, out, 5, h);              // Tolerations
      Close(MonitoringConfig, src, out, h);
    }

    method DeepCopyNetworkConfig(src: Pointer, out: Pointer)
      requires MayCopy(NetworkConfig, cells, src, out)
      modifies this
      ensures IsCopied(NetworkConfig, old(cells), src, cells, out)
      decreases Rank(NetworkConfig), 3
    {
      hide MayCopy, Stage, IsCopied;
      ghost var h := cells;
      Shallow(NetworkConfig, src, out);
      Field(NetworkConfig, Map, src, out, 1, h);                              // Options
      Field(NetworkConfig, Pointee, src, out, 2, h);                          // CalicoNetworkProvider
      Field(NetworkConfig, Pointee, src, out, 3, h);                          // CanalNetworkProvider
      Field(NetworkConfig, Pointee, src, out, 4, h);                          // FlannelNetworkProvider
      Field(NetworkConfig, Pointee, src, out, 5, h);                          // WeaveNetworkProvider
      Field(NetworkConfig, PointerTo(AciNetworkProvider), src, out, 6, h);    // AciNetworkProvider
      Field(NetworkConfig, Map, src, out, 7, h);                              // NodeSelector
      Field(NetworkConfig, PointerTo(DaemonSetUpdateStrategy), src, out, 8, h); // UpdateStrategy
      Field(NetworkConfig, SliceOf(Foreign), src, out, 9, h);                 // Tolerations
      Close(NetworkConfig, src, out, h);
    }

    method DeepCopyNodeUpgradeStrategy(src: Pointer, out: Pointer)
      requires MayCopy(NodeUpgradeStrategy, cells, src, out)
      modifies this
      ensures IsCopied(NodeUpgradeStrategy, old(cells), src, cells, out)
      decreases Rank(NodeUpgradeStrategy), 3
    {
      hide MayCopy, Stage, IsCopied;
      ghost var h := cells;
      Shallow(NodeUpgradeStrategy, src, out);
      Field(NodeUpgradeStrategy, Pointee, src, out, 1, h);                    // Drain
      Field(NodeUpgradeStrategy, PointerTo(NodeDrainInput), src, out, 2, h);  // DrainInput
      Close(NodeUpgradeStrategy, src, out, h);
    }

    method DeepCopyRKEConfigNode(src: Pointer, out: Pointer)
      requires MayCopy(RKEConfigNode, cells, src, out)
      modifies this
      ensures IsCopied(RKEConfigNode, old(cells), src, cells, out)
      decreases Rank(RKEConfigNode), 3
    {
      hide MayCopy, Stage, IsCopied;
      ghost var h := cells;
      Shallow(RKEConfigNode, src, out);
      Field(RKEConfigNode, Slice, src, out, 1, h);                            // Role
      Field(RKEConfigNode, Map, src, out, 2, h);                              // Labels
      Field(RKEConfigNode, SliceOf(RKETaint), src, out, 3, h);                // Taints
      Close(RKEConfigNode, src, out, h);
    }

    method DeepCopyRKEConfigNodePlan(src: Pointer, out: Pointer)
      requires MayCopy(RKEConfigNodePlan, cells, src, out)
      modifies this
      ensures IsCopied(RKEConfigNodePlan, old(cells), src, cells, out)
      decreases Rank(RKEConfigNodePlan), 3
    {
      hide MayCopy, Stage, IsCopied;
      ghost var h := cells;
      Shallow(RKEConfigNodePlan, src, out);
      Field(RKEConfigNodePlan, MapOf(Process), src, out, 1, h);               // Processes
      Field(RKEConfigNodePlan, Slice, src, out, 2, h);                        // PortChecks
      Field(RKEConfigNodePlan, Slice, src, out, 3, h);                        // Files
      Field(RKEConfigNodePlan, Map, src, out, 4, h);                          // Annotations
      Field(RKEConfigNodePlan, Map, src, out, 5, h);                          // Labels
      Field(RKEConfigNodePlan, SliceOf(RKETaint), src, out, 6, h);            // Taints
      Close(RKEConfigNodePlan, src, out, h);
    }

    method DeepCopyRKEPlan(src: Pointer, out: Pointer)
      requires MayCopy(RKEPlan, cells, src, out)
      modifies this
      ensures IsCopied(RKEPlan, old(cells), src, cells, out)
      decreases Rank(RKEPlan), 3
    {
      hide MayCopy, Stage, IsCopied;
      ghost var h := cells;
      Shallow(RKEPlan, src, out);
      Field(RKEPlan, SliceOf(RKEConfigNodePlan), src, out, 0, h);             // Nodes
      Close(RKEPlan, src, out, h);
    }

    method DeepCopyRancherKubernetesEngineConfig(src: Pointer, out: Pointer)
      requires MayCopy(RancherKubernetesEngineConfig, cells, src, out)
      modifies this
      ensures IsCopied(RancherKubernetesEngineConfig, old(cells), src, cells, out)
      decreases Rank(RancherKubernetesEngineConfig), 3
    {
      hide MayCopy, Stage, IsCopied;
      ghost var h := cells;
      Shallow(RancherKubernetesEngineConfig, src, out);
      Field(RancherKubernetesEngineConfig, SliceOf(RKEConfigNode), src, out, 1, h); // Nodes
      Field(RancherKubernetesEngineConfig, Embedded(RKEConfigServices), src, out, 2, h); // Services
      Field(RancherKubernetesEngineConfig, Embedded(NetworkConfig), src, out, 3, h); // Network
      Field(RancherKubernetesEngineConfig, Embedded(AuthnConfig), src, out, 4, h); // Authentication
      Field(RancherKubernetesEngineConfig, Slice, src, out, 5, h);            // AddonsInclude
      Field(RancherKubernetesEngineConfig, Embedded(AuthzConfig), src, out, 6, h); // Authorization
      Field(RancherKubernetesEngineConfig, Pointee, src, out, 7, h);          // IgnoreDockerVersion
      Field(RancherKubernetesEngineConfig, Pointee, src, out, 8, h);          // EnableCRIDockerd
      Field(RancherKubernetesEngineConfig, SliceOf(PrivateRegistry), src, out, 9, h); // PrivateRegistries
      Field(RancherKubernetesEngineConfig, Embedded(IngressConfig), src, out, 10, h); // Ingress
      Field(RancherKubernetesEngineConfig, Embedded(CloudProvider), src, out, 11, h); // CloudProvider
      Field(RancherKubernetesEngineConfig, Embedded(MonitoringConfig), src, out, 12, h); // Monitoring
      Field(RancherKubernetesEngineConfig, PointerTo(RotateCertificates), src, out, 13, h); // RotateCertificates
      Field(RancherKubernetesEngineConfig, PointerTo(DNSConfig), src, out, 14, h); // DNS
      Field(RancherKubernetesEngineConfig, PointerTo(NodeUpgradeStrategy), src, out, 15, h); // UpgradeStrategy
      Close(RancherKubernetesEngineConfig, src, out, h);
    }

    method DeepCopyRKEClusterConfigSpec(src: Pointer, out: Pointer)
      requires MayCopy(RKEClusterConfigSpec, cells, src, out)
      modifies this
      ensures IsCopied(RKEClusterConfigSpec, old(cells), src, cells, out)
      decreases Rank(RKEClusterConfigSpec), 3
    {
      hide MayCopy, Stage, IsCopied;
      ghost var h := cells;
      Shallow(RKEClusterConfigSpec, src, out);
      Field(RKEClusterConfigSpec, Embedded(RancherKubernetesEngineConfig), src, out, 1, h); // RKEClusterSpec
      Field(RKEClusterConfigSpec, Map, src, out, 2, h);                       // Labels
      Close(RKEClusterConfigSpec, src, out, h);
    }

    method DeepCopyClusterParameters(src: Pointer, out: Pointer)
      requires MayCopy(ClusterParameters, cells, src, out)
      modifies this
      ensures IsCopied(ClusterParameters, old(cells), src, cells, out)
      decreases Rank(ClusterParameters), 3
    {
      hide MayCopy, Stage, IsCopied;
      ghost var h := cells;
      Shallow(ClusterParameters, src, out);
      Field(ClusterParameters, Embedded(RKEClusterConfigSpec), src, out, 1, h); // RKE
      Field(ClusterParameters, SliceOf(RKENodePool), src, out, 2, h);         // NodePools
      Close(ClusterParameters, src, out, h);
    }

    method DeepCopyClusterSpec(src: Pointer, out: Pointer)
      requires MayCopy(ClusterSpec, cells, src, out)
      modifies this
      ensures IsCopied(ClusterSpec, old(cells), src, cells, out)
      decreases Rank(ClusterSpec), 3
    {
      hide MayCopy, Stage, IsCopied;
      ghost var h := cells;
      Shallow(ClusterSpec, src, out);
      Field(ClusterSpec, Embedded(Foreign), src, out, 0, h);                  // ResourceSpec
      Field(ClusterSpec, Embedded(ClusterParameters), src, out, 1, h);        // ForProvider
      Close(ClusterSpec, src, out, h);
    }

    method DeepCopyClusterStatus(src: Pointer, out: Pointer)
      requires MayCopy(ClusterStatus, cells, src, out)
      modifies this
      ensures IsCopied(ClusterStatus, old(cells), src, cells, out)
      decreases Rank(ClusterStatus), 3
    {
      hide MayCopy, Stage, IsCopied;
      ghost var h := cells;
      Shallow(ClusterStatus, src, out);
      Field(ClusterStatus, Embedded(Foreign), src, out, 1, h);                // ResourceStatus
      Close(ClusterStatus, src, out, h);
    }

    method DeepCopyRKE1Cluster(src: Pointer, out: Pointer)
      requires MayCopy(RKE1Cluster, cells, src, out)
      modifies this
      ensures IsCopied(RKE1Cluster, old(cells), src, cells, out)
      decreases Rank(RKE1Cluster), 3
    {
      hide MayCopy, Stage, IsCopied;
      ghost var h := cells;
      Shallow(RKE1Cluster, src, out);
      Field(RKE1Cluster, Embedded(Foreign), src, out, 1, h);                  // ObjectMeta
      Field(RKE1Cluster, Embedded(ClusterSpec), src, out, 2, h);              // Spec
      Field(RKE1Cluster, Embedded(ClusterStatus), src, out, 3, h);            // Status
      Close(RKE1Cluster, src, out, h);
    }

    method DeepCopyRKE1ClusterList(src: Pointer, out: Pointer)
      requires MayCopy(RKE1ClusterList, cells, src, out)
      modifies this
      ensures IsCopied(RKE1ClusterList, old(cells), src, cells, out)
      decreases Rank(RKE1ClusterList), 3
    {
      hide MayCopy, Stage, IsCopied;
      ghost var h := cells;
      Shallow(RKE1ClusterList, src, out);
      Field(RKE1ClusterList, Embedded(Foreign), src, out, 1, h);              // ListMeta
      Field(RKE1ClusterList, SliceOf(RKE1Cluster), src, out, 2, h);           // Items
      Close(RKE1ClusterList, src, out, h);
    }

    // in.DeepCopy(): nil for nil, else out := new(T); in.DeepCopyInto(out)
    method DeepCopy(n: Name, src: Value) returns (out: Value)
      requires Typed(cells, src, TPtr(TypeOf(n)))
      modifies this
      ensures src == Nil ==> out == Nil && cells == old(cells)
      ensures src != Nil ==> out == Ref(|old(cells)|, 0, 1, []) && old(cells) <= cells
      ensures IsCopy(old(cells), src, |old(cells)|, cells, out, TPtr(TypeOf(n)))
    {
      if src == Nil {
        return Nil;
      }
      ghost var h, e := cells, TypeOf(n);
      var a := New(Slots([Nil]));
      ghost var g := cells;
      FreshReady(h, src, g, e);
      DeepCopyInto(n, Pointer(src.addr, src.from, src.path), Pointer(a, 0, []));
      out := Ref(a, 0, 1, []);
      FreshCopied(h, src, g, cells, e);
    }

    // in.DeepCopyInto(in) for a node pool: what the code does when in and out are the same variable. Each
    // map is replaced before its entries are read, so the loop ranges over the new, empty map.
    method DeepCopyRKENodePoolOntoItself(p: Pointer)
      requires InBounds(cells, p) && Typed(cells, Load(cells, p), TypeOf(RKENodePool))
      modifies this
      ensures Extends(old(cells), p, cells) && Typed(cells, Load(cells, p), TypeOf(RKENodePool))
      ensures var before, after := View(old(cells), Load(old(cells), p), TypeOf(RKENodePool)),
                                   View(cells, Load(cells, p), TypeOf(RKENodePool));
        after == Emptied(before) && (after == before <==> NoEntries(before))
    {
      ghost var h := cells;
      assert TypeOf(RKENodePool) == POOL;
      ExtendsSame(h, p);
      Assign(p, Load(cells, p));
      PoolMaps(h, p);
      SelfCopyMap(p.Field(1));
      ghost var g := cells;
      SecondMap(h, p, g);
      SelfCopyMap(p.Field(2));
      PoolCleared(h, p, g, cells);
      EmptiedSame(View(h, Load(h, p), POOL));
    }

    // CopyMap with in and out the same
    method SelfCopyMap(p: Pointer)
      requires InBounds(cells, p) && Typed(cells, Load(cells, p), TMap(TPlain))
      modifies this
      ensures Cleared(old(cells), p, cells)
    {
      ExtendsSame(cells, p);
      if Load(cells, p) != Nil {
        var a := Renew(p, Dict(map[]));
        Fill(Load(cells, p).addr, a);
      }
    }
  }
}

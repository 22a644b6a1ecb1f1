// The struct types whose DeepCopyInto the generator wrote, and the shape of their fields.
module ConfigTypes {
  import opened GoMemory

  // Foreign stands for any struct whose DeepCopyInto another package brings, ForeignHolder for ExtraEnv, ExtraVolume
  // and ExtraVolumeMount, BaseOnlyService for the services that hold a BaseService and nothing else.
  datatype Name =
    Foreign | AWSCloudProvider | AciNetworkProvider | AuditLog | AuthnConfig | AuthzConfig | AzureCloudProvider |
    BackupConfig | BaseService | Configuration | DaemonSetUpdateStrategy | DeploymentStrategy | NodeDrainInput |
    PrivateRegistry | Process | RKENodePool | RKETaint | RotateCertificates | VsphereCloudProvider | CloudProvider |
    ETCDService | EventRateLimit | KubeAPIService | BaseOnlyService | RKEConfigServices | Nodelocal | DNSConfig |
    ForeignHolder | IngressConfig | MonitoringConfig | NetworkConfig | NodeUpgradeStrategy | RKEConfigNode |
    RKEConfigNodePlan | RKEPlan | RancherKubernetesEngineConfig | RKEClusterConfigSpec | ClusterParameters |
    ClusterSpec | ClusterStatus | RKE1Cluster | RKE1ClusterList

  // How deep a struct nests other structs; every field's type has a smaller rank.
  function Rank(n: Name): nat {
    match n
    case DaemonSetUpdateStrategy | DeploymentStrategy | CloudProvider | ETCDService | EventRateLimit |
      BaseOnlyService | ForeignHolder | NodeUpgradeStrategy | RKEConfigNode | RKEConfigNodePlan | ClusterStatus => 1
    case KubeAPIService | Nodelocal | IngressConfig | MonitoringConfig | NetworkConfig | RKEPlan => 2
    case RKEConfigServices | DNSConfig => 3
    case RancherKubernetesEngineConfig => 4
    case RKEClusterConfigSpec => 5
    case ClusterParameters => 6
    case ClusterSpec => 7
    case RKE1Cluster => 8
    case RKE1ClusterList => 9
    case _ => 0
  }

  // How a field is copied: the eight forms of code the generator emits, and none for scalars.
  datatype Block =
    | Scalars
    | Pointee | Slice | Map | SliceMap
    | Embedded(name: Name) | PointerTo(name: Name) | SliceOf(name: Name) | MapOf(name: Name)

  predicate Below(b: Block, n: Name) {
    (b.Embedded? || b.PointerTo? || b.SliceOf? || b.MapOf?) ==> Rank(b.name) < Rank(n)
  }

  // The fields of each struct in declaration order, its scalar fields merged into one that comes first.
  function Shape(n: Name): (bs: seq<Block>)
    ensures forall i :: 0 <= i < |bs| ==> Below(bs[i], n)
  {
    if Rank(n) == 0 then LeafShape(n) else if Rank(n) <= 2 then PartShape(n) else WholeShape(n)
  }

  // Structs of scalars and of containers of scalars.
  function LeafShape(n: Name): (bs: seq<Block>)
    requires Rank(n) == 0
    ensures forall i :: 0 <= i < |bs| ==> Below(bs[i], n)
  {
    match n
    case Foreign => [Scalars, Pointee]
    case AWSCloudProvider => [Scalars, Map]
    case AciNetworkProvider => [Scalars, Slice, Slice, Slice]
    case AuditLog => [Scalars, Pointee]
    case AuthnConfig => [Scalars, Slice, Pointee]
    case AuthzConfig => [Scalars, Map]
    case AzureCloudProvider => [Scalars, Pointee]
    case BackupConfig => [Scalars, Pointee, Pointee]
    case BaseService => [Scalars, Map, SliceMap, Slice, Slice, Map, SliceMap, Slice, Slice]
    case Configuration => [Scalars, Slice]
    case NodeDrainInput => [Scalars, Pointee]
    case PrivateRegistry => [Scalars, Pointee]
    case Process => [Scalars, Slice, Slice, Slice, Slice, Slice, Map, Slice]
    case RKENodePool => [Scalars, Map, Map]
    case RKETaint => [Scalars, Pointee]
    case RotateCertificates => [Scalars, Slice]
    case VsphereCloudProvider => [Scalars, Map]
  }

  // Structs one or two levels above those.
  function PartShape(n: Name): (bs: seq<Block>)
    requires 1 <= Rank(n) <= 2
    ensures forall i :: 0 <= i < |bs| ==> Below(bs[i], n)
  {
    match n
    case DaemonSetUpdateStrategy => [Scalars, PointerTo(Foreign)]
    case DeploymentStrategy => [Scalars, PointerTo(Foreign)]
    case CloudProvider => [Scalars, PointerTo(AWSCloudProvider), PointerTo(AzureCloudProvider), Pointee,
        PointerTo(VsphereCloudProvider), Pointee]
    case ETCDService => [Scalars, Embedded(BaseService), Slice, Pointee, PointerTo(BackupConfig)]
    case EventRateLimit => [Scalars, PointerTo(Configuration)]
    case KubeAPIService => [Scalars, Embedded(BaseService), Pointee, PointerTo(AuditLog),
        PointerTo(EventRateLimit)]
    case BaseOnlyService => [Scalars, Embedded(BaseService)]
    case Nodelocal => [Scalars, PointerTo(DaemonSetUpdateStrategy), Map]
    case ForeignHolder => [Embedded(Foreign)]
    case IngressConfig => [Scalars, Map, Map, Map, SliceOf(ForeignHolder), SliceOf(ForeignHolder),
        SliceOf(ForeignHolder), PointerTo(DaemonSetUpdateStrategy), SliceOf(Foreign), Pointee, Pointee]
    case MonitoringConfig => [Scalars, Map, Map, PointerTo(DeploymentStrategy), Pointee, SliceOf(Foreign)]
    case NetworkConfig => [Scalars, Map, Pointee, Pointee, Pointee, Pointee, PointerTo(AciNetworkProvider),
        Map, PointerTo(DaemonSetUpdateStrategy), SliceOf(Foreign)]
    case NodeUpgradeStrategy => [Scalars, Pointee, PointerTo(NodeDrainInput)]
    case RKEConfigNode => [Scalars, Slice, Map, SliceOf(RKETaint)]
    case RKEConfigNodePlan => [Scalars, MapOf(Process), Slice, Slice, Map, Map, SliceOf(RKETaint)]
    case RKEPlan => [SliceOf(RKEConfigNodePlan)]
    case ClusterStatus => [Scalars, Embedded(Foreign)]
  }

  // The services, the DNS options, and everything up to the list of clusters.
  function WholeShape(n: Name): (bs: seq<Block>)
    requires 3 <= Rank(n)
    ensures forall i :: 0 <= i < |bs| ==> Below(bs[i], n)
  {
    match n
    case RKEConfigServices => [Embedded(ETCDService), Embedded(KubeAPIService), Embedded(BaseOnlyService),
        Embedded(BaseOnlyService), Embedded(BaseOnlyService), Embedded(BaseOnlyService)]
    case DNSConfig => [Scalars, Map, Slice, Slice, SliceMap, Map, PointerTo(Nodelocal),
        PointerTo(DeploymentStrategy), Pointee, SliceOf(Foreign)]
    case RancherKubernetesEngineConfig =>
      [Scalars, SliceOf(RKEConfigNode), Embedded(RKEConfigServices), Embedded(NetworkConfig)]
      + [Embedded(AuthnConfig), Slice, Embedded(AuthzConfig), Pointee]
      + [Pointee, SliceOf(PrivateRegistry), Embedded(IngressConfig), Embedded(CloudProvider)]
      + [Embedded(MonitoringConfig), PointerTo(RotateCertificates), PointerTo(DNSConfig), PointerTo(NodeUpgradeStrategy)]
    case RKEClusterConfigSpec => [Scalars, Embedded(RancherKubernetesEngineConfig), Map]
    case ClusterParameters => [Scalars, Embedded(RKEClusterConfigSpec), SliceOf(RKENodePool)]
    case ClusterSpec => [Embedded(Foreign), Embedded(ClusterParameters)]
    case RKE1Cluster => [Scalars, Embedded(Foreign), Embedded(ClusterSpec), Embedded(ClusterStatus)]
    case RKE1ClusterList => [Scalars, Embedded(Foreign), SliceOf(RKE1Cluster)]
  }

  // How many leading fields are scalars and need no code of their own.
  function Scalar(n: Name): nat { if Shape(n) != [] && Shape(n)[0] == Scalars then 1 else 0 }

  function TypeOf(n: Name): (t: Type)
    decreases Rank(n), 1
  {
    var bs := Shape(n);
    TStruct(seq(|bs|, i requires 0 <= i < |bs| => BlockType(n, bs[i])))
  }

  function BlockType(n: Name, b: Block): Type
    requires Below(b, n)
    decreases Rank(n), 0
  {
    match b
    case Scalars => TPlain
    case Pointee => TPtr(TPlain)
    case Slice => TSlice(TPlain)
    case Map => TMap(TPlain)
    case SliceMap => TMap(TSlice(TPlain))
    case Embedded(m) => TypeOf(m)
    case PointerTo(m) => TPtr(TypeOf(m))
    case SliceOf(m) => TSlice(TypeOf(m))
    case MapOf(m) => TMap(TypeOf(m))
  }
}

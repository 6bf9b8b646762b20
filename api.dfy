/**
 * The cluster-spec schema of pkg/api/api.go.
 *
 * Every Go pointer field (`*T`) is an `Option<T>`; every non-pointer field
 * carries its Go zero value when the input document leaves it out.
 * The `default` and `validate` struct tags are not part of the data: the
 * defaults live in module Defaults and the constraints in module Validate.
 */
module Api {
  import opened Wrappers

  /** Go's `int16`: the YAML decoder only ever stores values in this range. */
  type Int16 = x: int | -32768 <= x < 32768

  datatype TypeMeta = TypeMeta(kind: string, apiVersion: string)

  datatype ObjectMeta = ObjectMeta(
    name: string,
    labels: map<string, string>,
    annotations: map<string, string>)

  datatype ClusterSpec = ClusterSpec(
    projectId: string,
    private: string,
    region: string,
    addons: Option<AddonsSpec>,
    network: Option<GkeNetwork>,
    version: string,
    regional: string,
    removeDefaultNodePool: Option<bool>,
    zones: Option<seq<string>>,
    taints: Option<seq<TaintSpec>>,
    oauthScopes: Option<seq<string>>,
    tags: Option<seq<string>>,
    labels: Option<map<string, string>>,
    nodePools: Option<seq<GkeNodePool>>,
    metadata: Option<map<string, string>>,
    description: Option<string>,
    ipMasqLinkLocal: Option<string>,
    ipMasqRsyncInterval: Option<string>,
    maintenanceStartTime: Option<string>,
    issueClientCertificate: Option<string>,
    masterAuthorizedNetworksConfig: Option<seq<MasterAuthorizedNetworksConfigSpec>>,
    resourceUsageExportConfig: Option<ResourceUsageExportConfigSpec>,
    stubDomains: Option<seq<StubDomainsSpec>>,
    databaseEncryption: Option<DatabaseEncryptionSpec>,
    nodeVersion: Option<string>,
    serviceAccount: Option<string>,
    workloadIdentityConfig: Option<WorkloadIdentityConfigSpec>,
    deployUsingPrivateEndpoint: Option<bool>,
    defaultMaxPodsPerNode: Int16,
    tpu: string,
    alpha: string,
    intraNodeVisibility: string,
    bastion: Option<GkeBastion>)

  datatype GkeNetwork = GkeNetwork(typeMeta: TypeMeta, metadata: ObjectMeta, spec: NetworkSpec)

  datatype NetworkSpec = NetworkSpec(
    subnetName: string,
    subnetRange: string,
    podSubnetRange: string,
    serviceSubnetRange: string,
    masterIPV4CIDRBlock: string)

  datatype GkeBastion = GkeBastion(typeMeta: TypeMeta, metadata: ObjectMeta, spec: BastionSpec)

  datatype BastionSpec = BastionSpec(zone: string)

  datatype GkeNodePool = GkeNodePool(typeMeta: TypeMeta, metadata: ObjectMeta, spec: NodePoolSpec)

  datatype MasterAuthorizedNetworksConfigSpec = MasterAuthorizedNetworksConfigSpec(
    cidrBlock: Option<string>,
    displayName: Option<string>)

  datatype ResourceUsageExportConfigSpec = ResourceUsageExportConfigSpec(
    enableNetworkEgressMetering: Option<string>,
    datasetId: Option<string>)

  datatype DatabaseEncryptionSpec = DatabaseEncryptionSpec(
    state: Option<string>,
    keyName: Option<string>)

  /** `dnsServerIPAddresses` is a plain Go slice, which may be nil: `None` is nil. */
  datatype StubDomainsSpec = StubDomainsSpec(
    typeMeta: TypeMeta,
    metadata: ObjectMeta,
    dnsServerIPAddresses: Option<seq<string>>)

  datatype WorkloadIdentityConfigSpec = WorkloadIdentityConfigSpec(identityNamespace: Option<string>)

  datatype NodePoolSpec = NodePoolSpec(
    minCount: Int16,
    maxCount: Int16,
    maxPodsPerNode: Int16,
    machineType: string,
    autoRepair: Option<bool>,
    autoUpgrade: Option<bool>,
    preemptible: Option<bool>,
    version: Option<string>,
    diskSizeGB: int,
    diskType: string,
    localSSDCount: int,
    imageType: string,
    initialNodeCount: Int16,
    minCpuPlatform: string,
    tags: Option<seq<string>>,
    oauthScopes: Option<seq<string>>,
    taints: Option<seq<TaintSpec>>,
    labels: Option<map<string, string>>,
    metadata: Option<map<string, string>>,
    workloadMetadataConfig: Option<WorkloadMetadataConfigSpec>,
    acceleratorType: Option<string>,
    acceleratorCount: Int16,
    serviceAccount: Option<string>,
    gvisor: string)

  datatype WorkloadMetadataConfigSpec = WorkloadMetadataConfigSpec(nodeMetadata: Option<string>)

  datatype TaintSpec = TaintSpec(key: string, value: string, effect: string)

  datatype AddonsSpec = AddonsSpec(
    istio: string,
    cloudrun: string,
    logging: Option<string>,
    monitoring: Option<string>,
    networkPolicy: string,
    hpa: string,
    vpa: Option<bool>,
    clusterAutoscaling: Option<bool>,
    binaryAuth: Option<bool>,
    httpLoadBalancing: Option<bool>,
    podSecurityPolicy: Option<bool>)

  /** `&AddonsSpec{}`: every field at its Go zero value. */
  const EmptyAddons := AddonsSpec("", "", None, None, "", "", None, None, None, None, None)

  /**
   * The document root. The Go code passes `*GkeTF` around and the defaulting
   * pass writes into it, so it is an object; everything below `spec` is a value.
   */
  class GkeTF {
    var typeMeta: TypeMeta
    var metadata: ObjectMeta
    var spec: ClusterSpec

    /** The tree the strict YAML decoder produced. */
    constructor (typeMeta: TypeMeta, metadata: ObjectMeta, spec: ClusterSpec)
      ensures this.typeMeta == typeMeta && this.metadata == metadata && this.spec == spec
    {
      this.typeMeta := typeMeta;
      this.metadata := metadata;
      this.spec := spec;
    }
  }
}

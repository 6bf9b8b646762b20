/**
 * ValidateYamlInput of pkg/api/validate.go: the `validate` tags of
 * pkg/api/api.go, checked over `gkeTF.Spec` by go-playground/validator.
 *
 * Two views of the same rules: `Violations` lists the field errors in the
 * order the validator walks the struct (declaration order, nested blocks at
 * their field, the first failing tag of each field), and `Valid` states the
 * constraints as one conjunction. Each `...Violations` function promises that
 * it is empty exactly when its part of `Valid` holds.
 *
 * Validator behaviour modelled: nested structs are always walked; a nil
 * pointer whose tag list does not start with `omitempty` is an error under
 * its first tag; `required` holds for any non-nil pointer, for a non-empty
 * string and for a non-zero integer; a slice is walked only under `dive`.
 * Tags Go's struct-tag lookup cannot read are not enforced.
 */
module Validate {
  import opened Wrappers
  import opened Api
  import opened Syntax

  /** A step of a field's namespace: a Go field name or a slice index. */
  datatype PathElem = Field(name: string) | Index(i: nat)

  /** One field error: where it is, and which tag failed. */
  datatype Violation = Violation(path: seq<PathElem>, tag: string)

  const BoolTag := "eq=true|eq=false"
  const DiskTypeTag := "eq=pd-ssd|eq=pd-standard"
  const ImageTypeTag := "eq=COS|eq=UBUNTU|eq=COS_CONTAINERD"
  const LoggingTag := "eq=logging.googleapis.com/kubernetes|eq=logging.googleapis.com"
  const MonitoringTag := "eq=monitoring.googleapis.com/kubernetes|eq=monitoring.googleapis.com"
  const StateTag := "eq=ENCRYPTED|eq=DECRYPTED"
  const NodeMetadataTag := "eq=UNSPECIFIED|eq=EXPOSED|eq=SECURE|eq=GKE_METADATA_SERVER"

  const DiskTypes: set<string> := {"pd-ssd", "pd-standard"}
  const ImageTypes: set<string> := {"COS", "UBUNTU", "COS_CONTAINERD"}
  const LoggingServices: set<string> := {"logging.googleapis.com/kubernetes", "logging.googleapis.com"}
  const MonitoringServices: set<string> := {"monitoring.googleapis.com/kubernetes", "monitoring.googleapis.com"}
  const EncryptionStates: set<string> := {"ENCRYPTED", "DECRYPTED"}
  const NodeMetadataModes: set<string> := {"UNSPECIFIED", "EXPOSED", "SECURE", "GKE_METADATA_SERVER"}

  /** The string switches: `eq=true|eq=false` admits exactly these two literals. */
  predicate IsBoolText(s: string) { s == "true" || s == "false" }

  // ---------------------------------------------------------------------------
  // The constraints as one conjunction

  ghost predicate ValidAddons(a: AddonsSpec)
  {
    && IsBoolText(a.istio)
    && IsBoolText(a.cloudrun)
    && a.logging.Some? && a.logging.value in LoggingServices
    && a.monitoring.Some? && a.monitoring.value in MonitoringServices
    && IsBoolText(a.networkPolicy)
    && IsBoolText(a.hpa)
  }

  ghost predicate ValidNetwork(n: NetworkSpec)
  {
    && n.subnetName != ""
    && n.subnetRange != "" && IsCidrV4(n.subnetRange)
    && n.podSubnetRange != "" && IsCidrV4(n.podSubnetRange)
    && n.serviceSubnetRange != "" && IsCidrV4(n.serviceSubnetRange)
    && IsCidrV4(n.masterIPV4CIDRBlock)
  }

  ghost predicate ValidNodePool(p: NodePoolSpec)
  {
    && 0 <= p.minCount <= p.maxCount <= 2000
    && 8 <= p.maxPodsPerNode <= 110
    && p.diskType in DiskTypes
    && 0 <= p.localSSDCount <= 2
    && p.imageType in ImageTypes
    && p.initialNodeCount != 0 && p.initialNodeCount <= p.maxCount
    && (p.workloadMetadataConfig.Some? ==>
          var m := p.workloadMetadataConfig.value.nodeMetadata;
          m.Some? && m.value in NodeMetadataModes)
    && (p.serviceAccount.Some? ==> IsEmail(p.serviceAccount.value))
    && IsBoolText(p.gvisor)
  }

  ghost predicate ValidTaint(t: TaintSpec)
  {
    0 < |t.key| <= 250 && |t.value| <= 63
  }

  ghost predicate ValidAuthorizedNetwork(m: MasterAuthorizedNetworksConfigSpec)
  {
    m.cidrBlock.Some? && IsCidrV4(m.cidrBlock.value) && m.displayName.Some?
  }

  ghost predicate ValidStubDomain(d: StubDomainsSpec)
  {
    d.dnsServerIPAddresses.Some? &&
    forall k :: 0 <= k < |d.dnsServerIPAddresses.value| ==> IsIPv4(d.dnsServerIPAddresses.value[k])
  }

  ghost predicate ValidDatabaseEncryption(e: DatabaseEncryptionSpec)
  {
    e.state.Some? && e.state.value in EncryptionStates && e.keyName.Some?
  }

  /** Every taint of a present list satisfies its tags. */
  ghost predicate AllTaintsValid(ts: seq<TaintSpec>)
  {
    forall k :: 0 <= k < |ts| ==> ValidTaint(ts[k])
  }

  /** Every node pool satisfies its tags. */
  ghost predicate AllPoolsValid(ps: seq<GkeNodePool>)
  {
    forall k :: 0 <= k < |ps| ==> ValidNodePool(ps[k].spec)
  }

  /** Every master authorized network satisfies its tags. */
  ghost predicate AllAuthorizedNetworksValid(ms: seq<MasterAuthorizedNetworksConfigSpec>)
  {
    forall k :: 0 <= k < |ms| ==> ValidAuthorizedNetwork(ms[k])
  }

  /** Every stub domain satisfies its tags. */
  ghost predicate AllStubDomainsValid(ds: seq<StubDomainsSpec>)
  {
    forall k :: 0 <= k < |ds| ==> ValidStubDomain(ds[k])
  }


  /** Every tag constraint that the validator enforces over a cluster spec. */
  ghost predicate Valid(s: ClusterSpec)
  {
    && s.projectId != ""
    && IsBoolText(s.private)
    && s.region != ""
    && s.addons.Some? && ValidAddons(s.addons.value)
    && s.network.Some? && ValidNetwork(s.network.value.spec)
    && s.version != ""
    && IsBoolText(s.regional)
    && (s.taints.Some? ==> AllTaintsValid(s.taints.value))
    && s.nodePools.Some?
    && AllPoolsValid(s.nodePools.value)
    && (s.masterAuthorizedNetworksConfig.Some? ==> AllAuthorizedNetworksValid(s.masterAuthorizedNetworksConfig.value))
    && (s.resourceUsageExportConfig.Some? ==> s.resourceUsageExportConfig.value.datasetId.Some?)
    && (s.stubDomains.Some? ==> AllStubDomainsValid(s.stubDomains.value))
    && (s.databaseEncryption.Some? ==> ValidDatabaseEncryption(s.databaseEncryption.value))
    && (s.workloadIdentityConfig.Some? ==> s.workloadIdentityConfig.value.identityNamespace.Some?)
    && 8 <= s.defaultMaxPodsPerNode <= 110
    && IsBoolText(s.tpu)
    && IsBoolText(s.alpha)
    && IsBoolText(s.intraNodeVisibility)
    && (s.bastion.Some? ==> s.bastion.value.spec.zone != "")
  }

  // ---------------------------------------------------------------------------
  // The violations, in the order the validator reports them

  /** A field with one tag: the tag is reported when the field fails it. */
  function Check1(path: seq<PathElem>, tag: string, ok: bool): (r: seq<Violation>)
    ensures r == [] <==> ok
  {
    if ok then [] else [Violation(path, tag)]
  }

  /** A field with two tags: only the first tag that fails is reported. */
  function Check2(path: seq<PathElem>, tag1: string, ok1: bool, tag2: string, ok2: bool): (r: seq<Violation>)
    ensures r == [] <==> ok1 && ok2
    ensures !ok1 ==> r == [Violation(path, tag1)]
  {
    if !ok1 then [Violation(path, tag1)]
    else if !ok2 then [Violation(path, tag2)]
    else []
  }

  /** A `dive` over a list: each element's violations, under its index, in order. */
  function ListViolations<T>(path: seq<PathElem>, xs: seq<T>, each: (seq<PathElem>, T) -> seq<Violation>): (r: seq<Violation>)
    ensures r == [] <==> forall k :: 0 <= k < |xs| ==> each(path + [Index(k)], xs[k]) == []
    ensures forall k :: 0 <= k < |xs| ==> multiset(each(path + [Index(k)], xs[k])) <= multiset(r)
  {
    if xs == [] then []
    else
      var n := |xs| - 1;
      var init := xs[..n];
      var front := ListViolations(path, init, each);
      var last := each(path + [Index(n)], xs[n]);
      assert forall k :: 0 <= k < n ==> init[k] == xs[k];
      assert multiset(front + last) == multiset(front) + multiset(last);
      assert front + last == [] <==> front == [] && last == [];
      front + last
  }

  function AddonsViolations(p: seq<PathElem>, a: AddonsSpec): (r: seq<Violation>)
    ensures r == [] <==> ValidAddons(a)
  {
    Check1(p + [Field("Istio")], BoolTag, IsBoolText(a.istio))
    + Check1(p + [Field("Cloudrun")], BoolTag, IsBoolText(a.cloudrun))
    + Check1(p + [Field("Logging")], LoggingTag, a.logging.Some? && a.logging.value in LoggingServices)
    + Check1(p + [Field("Monitoring")], MonitoringTag, a.monitoring.Some? && a.monitoring.value in MonitoringServices)
    + Check1(p + [Field("NetworkPolicy")], BoolTag, IsBoolText(a.networkPolicy))
    + Check1(p + [Field("HPA")], BoolTag, IsBoolText(a.hpa))
  }

  function NetworkViolations(p: seq<PathElem>, g: GkeNetwork): (r: seq<Violation>)
    ensures r == [] <==> ValidNetwork(g.spec)
  {
    var n := g.spec;
    var q := p + [Field("Spec")];
    Check1(q + [Field("SubnetName")], "required", n.subnetName != "")
    + Check2(q + [Field("SubnetRange")], "required", n.subnetRange != "", "cidrv4", IsCidrV4(n.subnetRange))
    + Check2(q + [Field("PodSubnetRange")], "required", n.podSubnetRange != "", "cidrv4", IsCidrV4(n.podSubnetRange))
    + Check2(q + [Field("ServiceSubnetRange")], "required", n.serviceSubnetRange != "", "cidrv4", IsCidrV4(n.serviceSubnetRange))
    + Check1(q + [Field("MasterIPV4CIDRBlock")], "cidrv4", IsCidrV4(n.masterIPV4CIDRBlock))
  }

  function NodePoolViolations(p: seq<PathElem>, g: GkeNodePool): (r: seq<Violation>)
    ensures r == [] <==> ValidNodePool(g.spec)
  {
    var n := g.spec;
    var q := p + [Field("Spec")];
    Check2(q + [Field("MinCount")], "gte", n.minCount >= 0, "ltefield", n.minCount <= n.maxCount)
    + Check2(q + [Field("MaxCount")], "gtefield", n.maxCount >= n.minCount, "lte", n.maxCount <= 2000)
    + Check2(q + [Field("MaxPodsPerNode")], "gte", n.maxPodsPerNode >= 8, "lte", n.maxPodsPerNode <= 110)
    + Check1(q + [Field("DiskType")], DiskTypeTag, n.diskType in DiskTypes)
    + Check2(q + [Field("LocalSSDCount")], "gte", n.localSSDCount >= 0, "lte", n.localSSDCount <= 2)
    + Check1(q + [Field("ImageType")], ImageTypeTag, n.imageType in ImageTypes)
    + Check2(q + [Field("InitialNodeCount")], "required", n.initialNodeCount != 0, "ltefield", n.initialNodeCount <= n.maxCount)
    + (match n.workloadMetadataConfig
       case None => []
       case Some(w) =>
         Check2(q + [Field("WorkloadMetadataConfig"), Field("NodeMetadata")], "required", w.nodeMetadata.Some?, NodeMetadataTag, w.nodeMetadata.Some? && w.nodeMetadata.value in NodeMetadataModes))
    + (match n.serviceAccount
       case None => []
       case Some(e) => Check1(q + [Field("ServiceAccount")], "email", IsEmail(e)))
    + Check1(q + [Field("Gvisor")], BoolTag, IsBoolText(n.gvisor))
  }

  function TaintViolations(p: seq<PathElem>, t: TaintSpec): (r: seq<Violation>)
    ensures r == [] <==> ValidTaint(t)
  {
    Check2(p + [Field("Key")], "gt", |t.key| > 0, "lte", |t.key| <= 250)
    + Check1(p + [Field("Value")], "lte", |t.value| <= 63)
  }

  function AuthorizedNetworkViolations(p: seq<PathElem>, m: MasterAuthorizedNetworksConfigSpec): (r: seq<Violation>)
    ensures r == [] <==> ValidAuthorizedNetwork(m)
  {
    Check1(p + [Field("CidrBlock")], "cidrv4", m.cidrBlock.Some? && IsCidrV4(m.cidrBlock.value))
    + Check1(p + [Field("DisplayName")], "required", m.displayName.Some?)
  }

  function AddressViolations(p: seq<PathElem>, a: string): (r: seq<Violation>)
    ensures r == [] <==> IsIPv4(a)
  {
    Check1(p, "ipv4", IsIPv4(a))
  }

  function StubDomainViolations(p: seq<PathElem>, d: StubDomainsSpec): (r: seq<Violation>)
    ensures r == [] <==> ValidStubDomain(d)
  {
    var q := p + [Field("DNSServerIPAddresses")];
    match d.dnsServerIPAddresses
    case None => [Violation(q, "required")]
    case Some(addrs) => ListViolations(q, addrs, AddressViolations)
  }

  function DatabaseEncryptionViolations(p: seq<PathElem>, e: DatabaseEncryptionSpec): (r: seq<Violation>)
    ensures r == [] <==> ValidDatabaseEncryption(e)
  {
    Check2(p + [Field("State")], "required", e.state.Some?, StateTag, e.state.Some? && e.state.value in EncryptionStates)
    + Check1(p + [Field("KeyName")], "required", e.keyName.Some?)
  }

  function TaintListViolations(p: seq<PathElem>, ts: seq<TaintSpec>): (r: seq<Violation>)
    ensures r == [] <==> AllTaintsValid(ts)
  {
    var r := ListViolations(p, ts, TaintViolations);
    assert forall k :: 0 <= k < |ts| ==> (TaintViolations(p + [Index(k)], ts[k]) == [] <==> ValidTaint(ts[k]));
    r
  }

  function PoolListViolations(p: seq<PathElem>, ps: seq<GkeNodePool>): (r: seq<Violation>)
    ensures r == [] <==> AllPoolsValid(ps)
  {
    var r := ListViolations(p, ps, NodePoolViolations);
    assert forall k :: 0 <= k < |ps| ==>
      (NodePoolViolations(p + [Index(k)], ps[k]) == [] <==> ValidNodePool(ps[k].spec));
    r
  }

  function AuthorizedNetworkListViolations(p: seq<PathElem>, ms: seq<MasterAuthorizedNetworksConfigSpec>): (r: seq<Violation>)
    ensures r == [] <==> AllAuthorizedNetworksValid(ms)
  {
    var r := ListViolations(p, ms, AuthorizedNetworkViolations);
    assert forall k :: 0 <= k < |ms| ==>
      (AuthorizedNetworkViolations(p + [Index(k)], ms[k]) == [] <==> ValidAuthorizedNetwork(ms[k]));
    r
  }

  function StubDomainListViolations(p: seq<PathElem>, ds: seq<StubDomainsSpec>): (r: seq<Violation>)
    ensures r == [] <==> AllStubDomainsValid(ds)
  {
    var r := ListViolations(p, ds, StubDomainViolations);
    assert forall k :: 0 <= k < |ds| ==>
      (StubDomainViolations(p + [Index(k)], ds[k]) == [] <==> ValidStubDomain(ds[k]));
    r
  }

  function ResourceUsageViolations(p: seq<PathElem>, r: ResourceUsageExportConfigSpec): (res: seq<Violation>)
    ensures res == [] <==> r.datasetId.Some?
  {
    Check1(p + [Field("DatasetId")], "required", r.datasetId.Some?)
  }

  function WorkloadIdentityViolations(p: seq<PathElem>, w: WorkloadIdentityConfigSpec): (r: seq<Violation>)
    ensures r == [] <==> w.identityNamespace.Some?
  {
    Check1(p + [Field("IdentityNamespace")], "required", w.identityNamespace.Some?)
  }

  function BastionViolations(p: seq<PathElem>, b: GkeBastion): (r: seq<Violation>)
    ensures r == [] <==> b.spec.zone != ""
  {
    Check1(p + [Field("Spec"), Field("Zone")], "required", b.spec.zone != "")
  }

  const Root: seq<PathElem> := [Field("ClusterSpec")]

  /** The fields from ProjectId to Regional: scalars and the two required blocks. */
  function HeadViolations(s: ClusterSpec): (r: seq<Violation>)
    ensures r == [] <==>
      && s.projectId != "" && IsBoolText(s.private) && s.region != ""
      && s.addons.Some? && ValidAddons(s.addons.value)
      && s.network.Some? && ValidNetwork(s.network.value.spec)
      && s.version != "" && IsBoolText(s.regional)
  {
    var p := Root;
    Check1(p + [Field("ProjectId")], "required", s.projectId != "")
    + Check1(p + [Field("Private")], BoolTag, IsBoolText(s.private))
    + Check1(p + [Field("Region")], "required", s.region != "")
    + (match s.addons
       case None => [Violation(p + [Field("Addons")], "required")]
       case Some(a) => AddonsViolations(p + [Field("Addons")], a))
    + (match s.network
       case None => [Violation(p + [Field("Network")], "required")]
       case Some(n) => NetworkViolations(p + [Field("Network")], n))
    + Check1(p + [Field("Version")], "required", s.version != "")
    + Check1(p + [Field("Regional")], BoolTag, IsBoolText(s.regional))
  }

  /** The taint list and the node pools. */
  function ListsViolations(s: ClusterSpec): (r: seq<Violation>)
    ensures r == [] <==>
      && (s.taints.Some? ==> AllTaintsValid(s.taints.value))
      && s.nodePools.Some?
      && AllPoolsValid(s.nodePools.value)
  {
    TaintBlockViolations(s) + PoolBlockViolations(s)
  }

  /** The cluster taints, walked only when present. */
  function TaintBlockViolations(s: ClusterSpec): (r: seq<Violation>)
    ensures r == [] <==>
      (s.taints.Some? ==> AllTaintsValid(s.taints.value))
  {
    match s.taints
    case None => []
    case Some(ts) => TaintListViolations(Root + [Field("Taints")], ts)
  }

  /** The node pools: a nil list is reported as `required`, a present one is walked. */
  function PoolBlockViolations(s: ClusterSpec): (r: seq<Violation>)
    ensures r == [] <==>
      s.nodePools.Some? && AllPoolsValid(s.nodePools.value)
  {
    match s.nodePools
    case None => [Violation(Root + [Field("NodePools")], "required")]
    case Some(ps) => PoolListViolations(Root + [Field("NodePools")], ps)
  }

  /** The optional blocks from MasterAuthorizedNetworksConfig to StubDomains. */
  function EarlyBlockViolations(s: ClusterSpec): (r: seq<Violation>)
    ensures r == [] <==>
      && (s.masterAuthorizedNetworksConfig.Some? ==> AllAuthorizedNetworksValid(s.masterAuthorizedNetworksConfig.value))
      && (s.resourceUsageExportConfig.Some? ==> s.resourceUsageExportConfig.value.datasetId.Some?)
      && (s.stubDomains.Some? ==> AllStubDomainsValid(s.stubDomains.value))
  {
    var p := Root;
    (match s.masterAuthorizedNetworksConfig
     case None => []
     case Some(ms) => AuthorizedNetworkListViolations(p + [Field("MasterAuthorizedNetworksConfig")], ms))
    + (match s.resourceUsageExportConfig
       case None => []
       case Some(u) => ResourceUsageViolations(p + [Field("ResourceUsageExportConfig")], u))
    + (match s.stubDomains
       case None => []
       case Some(ds) => StubDomainListViolations(p + [Field("StubDomains")], ds))
  }

  /** The optional blocks DatabaseEncryption and WorkloadIdentityConfig. */
  function LateBlockViolations(s: ClusterSpec): (r: seq<Violation>)
    ensures r == [] <==>
      && (s.databaseEncryption.Some? ==> ValidDatabaseEncryption(s.databaseEncryption.value))
      && (s.workloadIdentityConfig.Some? ==> s.workloadIdentityConfig.value.identityNamespace.Some?)
  {
    var p := Root;
    (match s.databaseEncryption
     case None => []
     case Some(e) => DatabaseEncryptionViolations(p + [Field("DatabaseEncryption")], e))
    + (match s.workloadIdentityConfig
       case None => []
       case Some(w) => WorkloadIdentityViolations(p + [Field("WorkloadIdentityConfig")], w))
  }

  /** The optional blocks, each checked only when present. */
  function OptionalBlockViolations(s: ClusterSpec): (r: seq<Violation>)
    ensures r == [] <==>
      && (s.masterAuthorizedNetworksConfig.Some? ==> AllAuthorizedNetworksValid(s.masterAuthorizedNetworksConfig.value))
      && (s.resourceUsageExportConfig.Some? ==> s.resourceUsageExportConfig.value.datasetId.Some?)
      && (s.stubDomains.Some? ==> AllStubDomainsValid(s.stubDomains.value))
      && (s.databaseEncryption.Some? ==> ValidDatabaseEncryption(s.databaseEncryption.value))
      && (s.workloadIdentityConfig.Some? ==> s.workloadIdentityConfig.value.identityNamespace.Some?)
  {
    EarlyBlockViolations(s) + LateBlockViolations(s)
  }

  /** The fields from DefaultMaxPodsPerNode to Bastion. */
  function TailViolations(s: ClusterSpec): (r: seq<Violation>)
    ensures r == [] <==>
      && 8 <= s.defaultMaxPodsPerNode <= 110
      && IsBoolText(s.tpu) && IsBoolText(s.alpha) && IsBoolText(s.intraNodeVisibility)
      && (s.bastion.Some? ==> s.bastion.value.spec.zone != "")
  {
    var p := Root;
    Check2(p + [Field("DefaultMaxPodsPerNode")], "gte", s.defaultMaxPodsPerNode >= 8,
      "lte", s.defaultMaxPodsPerNode <= 110)
    + Check1(p + [Field("Tpu")], BoolTag, IsBoolText(s.tpu))
    + Check1(p + [Field("Alpha")], BoolTag, IsBoolText(s.alpha))
    + Check1(p + [Field("IntraNodeVisibility")], BoolTag, IsBoolText(s.intraNodeVisibility))
    + (match s.bastion
       case None => []
       case Some(b) => BastionViolations(p + [Field("Bastion")], b))
  }

  /** All field errors of a cluster spec, in the validator's order. */
  function Violations(s: ClusterSpec): (r: seq<Violation>)
    ensures r == [] <==> Valid(s)
  {
    HeadViolations(s) + ListsViolations(s) + OptionalBlockViolations(s) + TailViolations(s)
  }

  /**
   * `Metadata` is tagged `omitempty,dive` with nothing after the dive. The
   * validator then walks each value of a non-empty map with no tag left and
   * panics (the same tag on `Tags` is commented out for that reason), so only
   * a nil or empty map lets validation return.
   */
  predicate MetadataDiveSafe(s: ClusterSpec)
  {
    s.metadata.None? || |s.metadata.value| == 0
  }

  /**
   * ValidateYamlInput: only `Spec` is validated; the result is nil exactly
   * when every constraint holds, and otherwise the whole list of violations.
   * A spec with a non-empty metadata map crashes the validator instead.
   */
  function ValidateYamlInput(gkeTF: GkeTF): (r: Option<seq<Violation>>)
    requires MetadataDiveSafe(gkeTF.spec)
    reads gkeTF
    ensures r.None? <==> Valid(gkeTF.spec)
    ensures r.Some? ==> r.value != [] && r.value == Violations(gkeTF.spec)
  {
    Verdict(gkeTF.spec)
  }

  /** The verdict on a spec: nil when it has no violations, else all of them. */
  function Verdict(s: ClusterSpec): (r: Option<seq<Violation>>)
    ensures r.None? <==> Valid(s)
    ensures r.Some? ==> r.value != [] && r.value == Violations(s)
  {
    var errs := Violations(s);
    if errs == [] then None else Some(errs)
  }

  // ---------------------------------------------------------------------------
  // How violations are reported

  /** A pool with MinCount above MaxCount is reported on both fields, by the two cross-field tags. */
  lemma MinAboveMaxReportedTwice(p: seq<PathElem>, g: GkeNodePool)
    requires 0 <= g.spec.minCount && g.spec.maxCount < g.spec.minCount
    ensures Violation(p + [Field("Spec"), Field("MinCount")], "ltefield") in NodePoolViolations(p, g)
    ensures Violation(p + [Field("Spec"), Field("MaxCount")], "gtefield") in NodePoolViolations(p, g)
  {
    var q := p + [Field("Spec")];
    assert q + [Field("MinCount")] == p + [Field("Spec"), Field("MinCount")];
    assert q + [Field("MaxCount")] == p + [Field("Spec"), Field("MaxCount")];
  }

  /** Three subnet ranges that are set but are not CIDRs give three `cidrv4` violations. */
  lemma BadRangesReported(p: seq<PathElem>, g: GkeNetwork)
    requires g.spec.subnetRange != "" && !IsCidrV4(g.spec.subnetRange)
    requires g.spec.podSubnetRange != "" && !IsCidrV4(g.spec.podSubnetRange)
    requires g.spec.serviceSubnetRange != "" && !IsCidrV4(g.spec.serviceSubnetRange)
    ensures Violation(p + [Field("Spec"), Field("SubnetRange")], "cidrv4") in NetworkViolations(p, g)
    ensures Violation(p + [Field("Spec"), Field("PodSubnetRange")], "cidrv4") in NetworkViolations(p, g)
    ensures Violation(p + [Field("Spec"), Field("ServiceSubnetRange")], "cidrv4") in NetworkViolations(p, g)
  {
    var q := p + [Field("Spec")];
    assert q + [Field("SubnetRange")] == p + [Field("Spec"), Field("SubnetRange")];
    assert q + [Field("PodSubnetRange")] == p + [Field("Spec"), Field("PodSubnetRange")];
    assert q + [Field("ServiceSubnetRange")] == p + [Field("Spec"), Field("ServiceSubnetRange")];
  }

  /** Every violation of node pool k is in the cluster's list, under the pool's index: errors are collected, not cut short. */
  lemma EveryPoolReported(s: ClusterSpec, k: nat)
    requires s.nodePools.Some? && k < |s.nodePools.value|
    ensures multiset(NodePoolViolations(Root + [Field("NodePools"), Index(k)], s.nodePools.value[k]))
      <= multiset(Violations(s))
  {
    var ps := s.nodePools.value;
    var p := Root + [Field("NodePools")];
    assert p + [Index(k)] == Root + [Field("NodePools"), Index(k)];
    var inPool := multiset(NodePoolViolations(p + [Index(k)], ps[k]));
    var pools := PoolBlockViolations(s);
    assert pools == ListViolations(p, ps, NodePoolViolations);
    assert inPool <= multiset(pools);
    var lists := ListsViolations(s);
    assert multiset(lists) == multiset(TaintBlockViolations(s)) + multiset(pools);
    assert multiset(Violations(s)) == multiset(HeadViolations(s)) + multiset(lists)
      + multiset(OptionalBlockViolations(s)) + multiset(TailViolations(s));
  }
}

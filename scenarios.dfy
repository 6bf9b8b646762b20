/**
 * The defaulting pass followed by validation, as the package's tests use
 * them (pkg/api/validate_test.go): a configuration that only names the
 * project, the region, a valid network and some blank node pools is valid
 * once defaulted, while an unknown image type or malformed subnet ranges
 * still fail.
 */
module Scenarios {
  import opened Wrappers
  import opened Api
  import opened Syntax
  import opened Validate
  import opened Defaults

  /** A node-pool spec that sets nothing. */
  const BlankPoolSpec := NodePoolSpec(
    minCount := 0, maxCount := 0, maxPodsPerNode := 0, machineType := "",
    autoRepair := None, autoUpgrade := None, preemptible := None, version := None,
    diskSizeGB := 0, diskType := "", localSSDCount := 0, imageType := "",
    initialNodeCount := 0, minCpuPlatform := "", tags := None, oauthScopes := None,
    taints := None, labels := None, metadata := None, workloadMetadataConfig := None,
    acceleratorType := None, acceleratorCount := 0, serviceAccount := None, gvisor := "")

  /** A configuration that sets only the project, the region, the network and the pools. */
  function MinimalCluster(projectId: string, region: string, network: GkeNetwork, pools: seq<GkeNodePool>): (r: ClusterSpec)
  {
    ClusterSpec(
      projectId := projectId, private := "", region := region, addons := None,
      network := Some(network), version := "", regional := "", removeDefaultNodePool := None,
      zones := None, taints := None, oauthScopes := None, tags := None, labels := None,
      nodePools := Some(pools), metadata := None, description := None, ipMasqLinkLocal := None,
      ipMasqRsyncInterval := None, maintenanceStartTime := None, issueClientCertificate := None,
      masterAuthorizedNetworksConfig := None, resourceUsageExportConfig := None, stubDomains := None,
      databaseEncryption := None, nodeVersion := None, serviceAccount := None,
      workloadIdentityConfig := None, deployUsingPrivateEndpoint := None, defaultMaxPodsPerNode := 0,
      tpu := "", alpha := "", intraNodeVisibility := "", bastion := None)
  }

  /** The default node pool and the default addons satisfy their own constraints. */
  lemma DefaultsAreValid()
    ensures ValidNodePool(DefaultNodePoolSpec)
    ensures ValidAddons(DefaultAddons)
  {
  }

  /**
   * Whatever the pools set, a pool that set nothing comes out as the
   * default pool, apart from its AutoRepair/AutoUpgrade if the original
   * parse set those.
   */
  lemma BlankPoolBecomesDefault(w: ClusterSpec, k: nat)
    requires Defaultable(w, w) && k < |w.nodePools.value|
    requires w.nodePools.value[k].spec == BlankPoolSpec
    ensures Defaulted(w, w).nodePools.value[k].spec == DefaultNodePoolSpec
  {
    PoolAutoFlags(w, w, k);
    PoolFieldDefaults(w, w, k);
    UntaggedPoolFieldsUnchanged(w, w, k);
  }

  /** A minimal configuration with a valid network validates once defaulted. */
  lemma MinimalInputValidatesAfterDefaulting(projectId: string, region: string, network: GkeNetwork, pools: seq<GkeNodePool>)
    requires projectId != "" && region != "" && ValidNetwork(network.spec)
    requires forall k :: 0 <= k < |pools| ==> pools[k].spec == BlankPoolSpec
    ensures var w := MinimalCluster(projectId, region, network, pools);
      Defaultable(w, w) && Valid(Defaulted(w, w)) && Violations(Defaulted(w, w)) == []
  {
    var w := MinimalCluster(projectId, region, network, pools);
    var r := Defaulted(w, w);
    DefaultsAreValid();
    ClusterFieldDefaults(w, w);
    UntaggedClusterFieldsUnchanged(w, w);
    assert r.addons == Some(DefaultAddons);
    forall k | 0 <= k < |pools|
      ensures ValidNodePool(r.nodePools.value[k].spec)
    {
      BlankPoolBecomesDefault(w, k);
    }
  }

  /** A concrete network whose ranges are all 10.0.0.0/24. */
  const ExampleNetwork := GkeNetwork(
    TypeMeta("", ""), ObjectMeta("", map[], map[]),
    NetworkSpec("subnet", "10.0.0.0/24", "10.0.0.0/24", "10.0.0.0/24", "10.0.0.0/24"))

  lemma ExampleNetworkValid()
    ensures ValidNetwork(ExampleNetwork.spec)
  {
    CidrAccepted();
  }

  const ExampleProject := "my project"
  const ExampleRegion := "us-central1"
  const ExamplePools := [GkeNodePool(TypeMeta("", ""), ObjectMeta("pool", map[], map[]), BlankPoolSpec)]

  lemma ExampleFieldsSet()
    ensures ExampleProject != "" && ExampleRegion != ""
    ensures forall k :: 0 <= k < |ExamplePools| ==> ExamplePools[k].spec == BlankPoolSpec
  {
  }

  /** A concrete minimal configuration with one blank pool is valid once defaulted. */
  lemma ExampleValidatesAfterDefaulting()
    ensures var w := MinimalCluster(ExampleProject, ExampleRegion, ExampleNetwork, ExamplePools);
      Defaultable(w, w) && Valid(Defaulted(w, w))
  {
    ExampleFieldsSet();
    ExampleNetworkValid();
    MinimalInputValidatesAfterDefaulting(ExampleProject, ExampleRegion, ExampleNetwork, ExamplePools);
  }

  /** An image type outside the enumeration survives defaulting and fails validation. */
  lemma UnknownImageTypeFailsAfterDefaulting(w: ClusterSpec, o: ClusterSpec, k: nat)
    requires Defaultable(w, o) && k < |w.nodePools.value|
    requires w.nodePools.value[k].spec.imageType != ""
    requires w.nodePools.value[k].spec.imageType !in ImageTypes
    ensures Defaulted(w, o).nodePools.value[k].spec.imageType == w.nodePools.value[k].spec.imageType
    ensures !Valid(Defaulted(w, o)) && Violations(Defaulted(w, o)) != []
  {
    PoolFieldDefaults(w, o, k);
  }

  /** "foo" is such an image type. */
  lemma FooIsNotAnImageType()
    ensures "foo" !in ImageTypes
  {
  }

  /** Subnet ranges set to "bad" survive defaulting and are each reported as `cidrv4` violations. */
  lemma BadSubnetsFailAfterDefaulting(w: ClusterSpec, o: ClusterSpec)
    requires Defaultable(w, o) && w.network.Some?
    requires w.network.value.spec.subnetRange == "bad"
    requires w.network.value.spec.podSubnetRange == "bad"
    requires w.network.value.spec.serviceSubnetRange == "bad"
    ensures !Valid(Defaulted(w, o))
    ensures var p := Root + [Field("Network"), Field("Spec")];
      && Violation(p + [Field("SubnetRange")], "cidrv4") in Violations(Defaulted(w, o))
      && Violation(p + [Field("PodSubnetRange")], "cidrv4") in Violations(Defaulted(w, o))
      && Violation(p + [Field("ServiceSubnetRange")], "cidrv4") in Violations(Defaulted(w, o))
  {
    var r := Defaulted(w, o);
    UntaggedClusterFieldsUnchanged(w, o);
    CidrRejected();
    var n := Root + [Field("Network")];
    BadRangesReported(n, r.network.value);
    assert n + [Field("Spec"), Field("SubnetRange")] == Root + [Field("Network"), Field("Spec")] + [Field("SubnetRange")];
    assert n + [Field("Spec"), Field("PodSubnetRange")] == Root + [Field("Network"), Field("Spec")] + [Field("PodSubnetRange")];
    assert n + [Field("Spec"), Field("ServiceSubnetRange")] == Root + [Field("Network"), Field("Spec")] + [Field("ServiceSubnetRange")];
    assert multiset(NetworkViolations(n, r.network.value)) <= multiset(HeadViolations(r));
  }
}

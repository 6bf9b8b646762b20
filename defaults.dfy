/**
 * SetApiDefaultValues of pkg/api/default_values.go.
 *
 * The pass runs in four steps:
 *  1. build a default cluster spec and a default node-pool spec from the
 *     `default` tags of pkg/api/api.go (creasty/defaults);
 *  2. allocate an empty Addons block when the input has none, then merge
 *     the default cluster spec into the working spec (mergo, no override);
 *  3. merge the default pool spec into every node pool, and put back the
 *     pool's AutoRepair/AutoUpgrade pointers from the second parse
 *     (`original`) when that parse set them;
 *  4. write the listed boolean values of `original` back into the spec.
 *
 * mergo's non-override merge, as assumed here: a working field takes the
 * default only when it is empty (nil pointer, "", 0, an empty list); a
 * non-nil pointer is merged through, so a `false` behind a pointer is
 * replaced by a `true` default. Step 4 exists to undo exactly that.
 */
module Defaults {
  import opened Wrappers
  import opened Api

  const DefaultOauthScopes: seq<string> := [
    "https://www.googleapis.com/auth/trace.append",
    "https://www.googleapis.com/auth/service.management.readonly",
    "https://www.googleapis.com/auth/monitoring",
    "https://www.googleapis.com/auth/devstorage.read_only",
    "https://www.googleapis.com/auth/servicecontrol"]

  /** The `default` tags of AddonsSpec. */
  const DefaultAddons := AddonsSpec(
    istio := "true",
    cloudrun := "false",
    logging := Some("logging.googleapis.com/kubernetes"),
    monitoring := Some("monitoring.googleapis.com/kubernetes"),
    networkPolicy := "true",
    hpa := "true",
    vpa := Some(false),
    clusterAutoscaling := Some(true),
    binaryAuth := Some(true),
    httpLoadBalancing := Some(true),
    podSecurityPolicy := Some(false))

  /**
   * `defaultSpec.Spec` after `defaults.Set`: the `default` tags of
   * ClusterSpec, the allocated Addons block, every other field zero.
   */
  const DefaultClusterSpec := ClusterSpec(
    projectId := "",
    private := "true",
    region := "",
    addons := Some(DefaultAddons),
    network := None,
    version := "latest",
    regional := "true",
    removeDefaultNodePool := Some(true),
    zones := None,
    taints := None,
    oauthScopes := Some(DefaultOauthScopes),
    tags := None,
    labels := None,
    nodePools := None,
    metadata := None,
    description := None,
    ipMasqLinkLocal := None,
    ipMasqRsyncInterval := None,
    maintenanceStartTime := None,
    issueClientCertificate := Some("false"),
    masterAuthorizedNetworksConfig := None,
    resourceUsageExportConfig := None,
    stubDomains := None,
    databaseEncryption := None,
    nodeVersion := None,
    serviceAccount := Some("create"),
    workloadIdentityConfig := None,
    deployUsingPrivateEndpoint := None,
    defaultMaxPodsPerNode := 110,
    tpu := "false",
    alpha := "false",
    intraNodeVisibility := "false",
    bastion := None)

  /**
   * `defaultNodePool.Spec` after `defaults.Set`: the `default` tags of
   * NodePoolSpec. DiskSizeGB's default is read (its tag breaks only after
   * it); InitialNodeCount's default follows its validate tag.
   */
  const DefaultNodePoolSpec := NodePoolSpec(
    minCount := 1,
    maxCount := 1,
    maxPodsPerNode := 110,
    machineType := "n1-standard-1",
    autoRepair := Some(true),
    autoUpgrade := Some(false),
    preemptible := Some(false),
    version := None,
    diskSizeGB := 100,
    diskType := "pd-ssd",
    localSSDCount := 0,
    imageType := "COS",
    initialNodeCount := 1,
    minCpuPlatform := "",
    tags := None,
    oauthScopes := Some(DefaultOauthScopes),
    taints := None,
    labels := None,
    metadata := None,
    workloadMetadataConfig := None,
    acceleratorType := None,
    acceleratorCount := 0,
    serviceAccount := None,
    gvisor := "false")

  // ---------------------------------------------------------------------------
  // mergo.Merge without override, one field kind at a time

  /**
   * A field mergo sees as empty (`""`, `0`) takes the default; any other
   * value is kept.
   */
  function MergeEmpty<T(==)>(w: T, d: T, empty: T): (r: T)
    ensures w != empty ==> r == w
    ensures w == empty ==> r == d
  {
    if w == empty then d else w
  }

  /** `*bool`: a nil pointer takes the default's; a set `false` takes a `true` default. */
  function MergeBoolPtr(w: Option<bool>, d: Option<bool>): (r: Option<bool>)
    ensures d.None? ==> r == w
    ensures d.Some? ==> r.Some? && r.value == ((w.Some? && w.value) || d.value)
  {
    match d
    case None => w
    case Some(db) =>
      match w
      case None => d
      case Some(wb) => Some(wb || db)
  }

  /** `*string`: a nil pointer takes the default's; a set "" takes the default text. */
  function MergeStringPtr(w: Option<string>, d: Option<string>): (r: Option<string>)
    ensures d.None? ==> r == w
    ensures w.Some? && w.value != "" ==> r == w
    ensures d.Some? && (w.None? || w.value == "") ==> r == d
  {
    match d
    case None => w
    case Some(ds) =>
      match w
      case None => d
      case Some(ws) => Some(MergeEmpty(ws, ds, ""))
  }

  /** `*[]T`: a nil pointer takes the default's; a set empty list takes the default list. */
  function MergeListPtr<T>(w: Option<seq<T>>, d: Option<seq<T>>): (r: Option<seq<T>>)
    ensures d.None? ==> r == w
    ensures w.Some? && w.value != [] ==> r == w
    ensures d.Some? && (w.None? || w.value == []) ==> r == d
  {
    match d
    case None => w
    case Some(ds) =>
      match w
      case None => d
      case Some(ws) => if ws == [] then d else w
  }

  /**
   * A pointer to a map or to a struct that the default trees leave nil:
   * mergo keeps the working value. (When both are set mergo would merge
   * through; no default tree here sets one of these.)
   */
  function MergePtr<T>(w: Option<T>, d: Option<T>): (r: Option<T>)
    ensures d.None? ==> r == w
    ensures w.Some? ==> r == w
  {
    if w.None? then d else w
  }

  function MergeAddons(w: AddonsSpec, d: AddonsSpec): (r: AddonsSpec)
  {
    AddonsSpec(
      istio := MergeEmpty(w.istio, d.istio, ""),
      cloudrun := MergeEmpty(w.cloudrun, d.cloudrun, ""),
      logging := MergeStringPtr(w.logging, d.logging),
      monitoring := MergeStringPtr(w.monitoring, d.monitoring),
      networkPolicy := MergeEmpty(w.networkPolicy, d.networkPolicy, ""),
      hpa := MergeEmpty(w.hpa, d.hpa, ""),
      vpa := MergeBoolPtr(w.vpa, d.vpa),
      clusterAutoscaling := MergeBoolPtr(w.clusterAutoscaling, d.clusterAutoscaling),
      binaryAuth := MergeBoolPtr(w.binaryAuth, d.binaryAuth),
      httpLoadBalancing := MergeBoolPtr(w.httpLoadBalancing, d.httpLoadBalancing),
      podSecurityPolicy := MergeBoolPtr(w.podSecurityPolicy, d.podSecurityPolicy))
  }

  function MergeAddonsPtr(w: Option<AddonsSpec>, d: Option<AddonsSpec>): (r: Option<AddonsSpec>)
  {
    match d
    case None => w
    case Some(da) =>
      match w
      case None => d
      case Some(wa) => Some(MergeAddons(wa, da))
  }

  /** `mergo.Merge(&gkeTF.Spec, &defaultSpec.Spec)`. */
  function MergeCluster(w: ClusterSpec, d: ClusterSpec): (r: ClusterSpec)
  {
    ClusterSpec(
      projectId := MergeEmpty(w.projectId, d.projectId, ""),
      private := MergeEmpty(w.private, d.private, ""),
      region := MergeEmpty(w.region, d.region, ""),
      addons := MergeAddonsPtr(w.addons, d.addons),
      network := MergePtr(w.network, d.network),
      version := MergeEmpty(w.version, d.version, ""),
      regional := MergeEmpty(w.regional, d.regional, ""),
      removeDefaultNodePool := MergeBoolPtr(w.removeDefaultNodePool, d.removeDefaultNodePool),
      zones := MergeListPtr(w.zones, d.zones),
      taints := MergeListPtr(w.taints, d.taints),
      oauthScopes := MergeListPtr(w.oauthScopes, d.oauthScopes),
      tags := MergeListPtr(w.tags, d.tags),
      labels := MergePtr(w.labels, d.labels),
      nodePools := MergeListPtr(w.nodePools, d.nodePools),
      metadata := MergePtr(w.metadata, d.metadata),
      description := MergeStringPtr(w.description, d.description),
      ipMasqLinkLocal := MergeStringPtr(w.ipMasqLinkLocal, d.ipMasqLinkLocal),
      ipMasqRsyncInterval := MergeStringPtr(w.ipMasqRsyncInterval, d.ipMasqRsyncInterval),
      maintenanceStartTime := MergeStringPtr(w.maintenanceStartTime, d.maintenanceStartTime),
      issueClientCertificate := MergeStringPtr(w.issueClientCertificate, d.issueClientCertificate),
      masterAuthorizedNetworksConfig := MergeListPtr(w.masterAuthorizedNetworksConfig, d.masterAuthorizedNetworksConfig),
      resourceUsageExportConfig := MergePtr(w.resourceUsageExportConfig, d.resourceUsageExportConfig),
      stubDomains := MergeListPtr(w.stubDomains, d.stubDomains),
      databaseEncryption := MergePtr(w.databaseEncryption, d.databaseEncryption),
      nodeVersion := MergeStringPtr(w.nodeVersion, d.nodeVersion),
      serviceAccount := MergeStringPtr(w.serviceAccount, d.serviceAccount),
      workloadIdentityConfig := MergePtr(w.workloadIdentityConfig, d.workloadIdentityConfig),
      deployUsingPrivateEndpoint := MergeBoolPtr(w.deployUsingPrivateEndpoint, d.deployUsingPrivateEndpoint),
      defaultMaxPodsPerNode := MergeEmpty(w.defaultMaxPodsPerNode, d.defaultMaxPodsPerNode, 0),
      tpu := MergeEmpty(w.tpu, d.tpu, ""),
      alpha := MergeEmpty(w.alpha, d.alpha, ""),
      intraNodeVisibility := MergeEmpty(w.intraNodeVisibility, d.intraNodeVisibility, ""),
      bastion := MergePtr(w.bastion, d.bastion))
  }

  /** `mergo.Merge(&nodePool.Spec, &defaultNodePool.Spec)`. */
  function MergeNodePool(w: NodePoolSpec, d: NodePoolSpec): (r: NodePoolSpec)
  {
    NodePoolSpec(
      minCount := MergeEmpty(w.minCount, d.minCount, 0),
      maxCount := MergeEmpty(w.maxCount, d.maxCount, 0),
      maxPodsPerNode := MergeEmpty(w.maxPodsPerNode, d.maxPodsPerNode, 0),
      machineType := MergeEmpty(w.machineType, d.machineType, ""),
      autoRepair := MergeBoolPtr(w.autoRepair, d.autoRepair),
      autoUpgrade := MergeBoolPtr(w.autoUpgrade, d.autoUpgrade),
      preemptible := MergeBoolPtr(w.preemptible, d.preemptible),
      version := MergeStringPtr(w.version, d.version),
      diskSizeGB := MergeEmpty(w.diskSizeGB, d.diskSizeGB, 0),
      diskType := MergeEmpty(w.diskType, d.diskType, ""),
      localSSDCount := MergeEmpty(w.localSSDCount, d.localSSDCount, 0),
      imageType := MergeEmpty(w.imageType, d.imageType, ""),
      initialNodeCount := MergeEmpty(w.initialNodeCount, d.initialNodeCount, 0),
      minCpuPlatform := MergeEmpty(w.minCpuPlatform, d.minCpuPlatform, ""),
      tags := MergeListPtr(w.tags, d.tags),
      oauthScopes := MergeListPtr(w.oauthScopes, d.oauthScopes),
      taints := MergeListPtr(w.taints, d.taints),
      labels := MergePtr(w.labels, d.labels),
      metadata := MergePtr(w.metadata, d.metadata),
      workloadMetadataConfig := MergePtr(w.workloadMetadataConfig, d.workloadMetadataConfig),
      acceleratorType := MergeStringPtr(w.acceleratorType, d.acceleratorType),
      acceleratorCount := MergeEmpty(w.acceleratorCount, d.acceleratorCount, 0),
      serviceAccount := MergeStringPtr(w.serviceAccount, d.serviceAccount),
      gvisor := MergeEmpty(w.gvisor, d.gvisor, ""))
  }

  // ---------------------------------------------------------------------------
  // The whole pass as a function of the working spec and the second parse

  /**
   * What the Go code dereferences without checking: both pool lists, and pool
   * i of the original for every working pool i. Pools are values here, so a
   * nil pool element (`nodePools: [~]`), on which the pool loop would panic,
   * cannot be written at all.
   */
  predicate Defaultable(w: ClusterSpec, o: ClusterSpec)
  {
    w.nodePools.Some? && o.nodePools.Some? && |w.nodePools.value| <= |o.nodePools.value|
  }

  /** Step 2: the allocated Addons block and the cluster-level merge. */
  function MergedCluster(w: ClusterSpec): (r: ClusterSpec)
  {
    var withAddons := if w.addons.None? then w.(addons := Some(EmptyAddons)) else w;
    MergeCluster(withAddons, DefaultClusterSpec)
  }

  /** Step 3 for one pool: merge, then take AutoRepair/AutoUpgrade from the original pool when it set them. */
  function DefaultedPool(w: GkeNodePool, o: GkeNodePool): (r: GkeNodePool)
  {
    var m := MergeNodePool(w.spec, DefaultNodePoolSpec);
    w.(spec := m.(
      autoRepair := if o.spec.autoRepair.Some? then o.spec.autoRepair else m.autoRepair,
      autoUpgrade := if o.spec.autoUpgrade.Some? then o.spec.autoUpgrade else m.autoUpgrade))
  }

  /** Step 3 over the pool list: pool k against original pool k, in order. */
  function DefaultedPools(ws: seq<GkeNodePool>, os: seq<GkeNodePool>): (r: seq<GkeNodePool>)
    requires |ws| <= |os|
  {
    seq(|ws|, k requires 0 <= k < |ws| => DefaultedPool(ws[k], os[k]))
  }

  /** Step 4 for the addons: the five listed booleans the original parse set. */
  function RestoredAddons(a: AddonsSpec, o: AddonsSpec): (r: AddonsSpec)
  {
    a.(
      vpa := if o.vpa.Some? then o.vpa else a.vpa,
      podSecurityPolicy := if o.podSecurityPolicy.Some? then o.podSecurityPolicy else a.podSecurityPolicy,
      httpLoadBalancing := if o.httpLoadBalancing.Some? then o.httpLoadBalancing else a.httpLoadBalancing,
      binaryAuth := if o.binaryAuth.Some? then o.binaryAuth else a.binaryAuth,
      clusterAutoscaling := if o.clusterAutoscaling.Some? then o.clusterAutoscaling else a.clusterAutoscaling)
  }

  /** Step 4: RemoveDefaultNodePool and the addons booleans the original parse set. */
  function Restored(s: ClusterSpec, o: ClusterSpec): (r: ClusterSpec)
    requires s.addons.Some?
  {
    s.(
      removeDefaultNodePool :=
        if o.removeDefaultNodePool.Some? then o.removeDefaultNodePool else s.removeDefaultNodePool,
      addons :=
        if o.addons.Some? then Some(RestoredAddons(s.addons.value, o.addons.value)) else s.addons)
  }

  /** The spec SetApiDefaultValues leaves behind. */
  function Defaulted(w: ClusterSpec, o: ClusterSpec): (r: ClusterSpec)
    requires Defaultable(w, o)
    ensures r.addons.Some?
    ensures r.nodePools.Some? && |r.nodePools.value| == |w.nodePools.value|
    ensures Defaultable(r, o)
  {
    var m := MergedCluster(w);
    var pools := DefaultedPools(w.nodePools.value, o.nodePools.value);
    Restored(m.(nodePools := Some(pools)), o)
  }

  // ---------------------------------------------------------------------------
  // The pass, in place on the parsed document

  /** Step 3: the loop over the node pools, pool i against original pool i. */
  method DefaultNodePools(pools: seq<GkeNodePool>, originalPools: seq<GkeNodePool>) returns (r: seq<GkeNodePool>)
    requires |pools| <= |originalPools|
    ensures r == DefaultedPools(pools, originalPools)
  {
    r := pools;
    var i := 0;
    while i < |r|
      invariant 0 <= i <= |r| == |pools|
      invariant r[..i] == DefaultedPools(pools, originalPools)[..i]
      invariant r[i..] == pools[i..]
    {
      var spec := MergeNodePool(r[i].spec, DefaultNodePoolSpec);
      var originalPool := originalPools[i];
      if originalPool.spec.autoRepair.Some? {
        spec := spec.(autoRepair := originalPool.spec.autoRepair);
      }
      if originalPool.spec.autoUpgrade.Some? {
        spec := spec.(autoUpgrade := originalPool.spec.autoUpgrade);
      }
      r := r[i := r[i].(spec := spec)];
      i := i + 1;
    }
  }

  /** Step 4 on the addons block: each listed boolean the original parse set is written back. */
  method RestoreAddons(a: AddonsSpec, oa: AddonsSpec) returns (r: AddonsSpec)
    ensures r == RestoredAddons(a, oa)
  {
    r := a;
    if oa.vpa.Some? {
      r := r.(vpa := oa.vpa);
    }
    if oa.podSecurityPolicy.Some? {
      r := r.(podSecurityPolicy := oa.podSecurityPolicy);
    }
    if oa.httpLoadBalancing.Some? {
      r := r.(httpLoadBalancing := oa.httpLoadBalancing);
    }
    if oa.binaryAuth.Some? {
      r := r.(binaryAuth := oa.binaryAuth);
    }
    if oa.clusterAutoscaling.Some? {
      r := r.(clusterAutoscaling := oa.clusterAutoscaling);
    }
  }

  /**
   * SetApiDefaultValues. `original` is the outcome of parsing the
   * configuration file a second time; its failure is the only error the
   * pass reports, and the document is then left untouched.
   */
  method SetApiDefaultValues(gkeTF: GkeTF, original: Result<ClusterSpec, string>) returns (err: Option<string>)
    requires original.Ok? ==> Defaultable(gkeTF.spec, original.value)
    modifies gkeTF
    ensures original.Err? ==> err == Some(original.error) && gkeTF.spec == old(gkeTF.spec)
    ensures original.Ok? ==> err.None? && gkeTF.spec == Defaulted(old(gkeTF.spec), original.value)
    ensures gkeTF.typeMeta == old(gkeTF.typeMeta) && gkeTF.metadata == old(gkeTF.metadata)
  {
    if original.Err? {
      return Some(original.error);
    }
    var o := original.value;
    ghost var w := gkeTF.spec;

    if gkeTF.spec.addons.None? {
      gkeTF.spec := gkeTF.spec.(addons := Some(EmptyAddons));
    }
    gkeTF.spec := MergeCluster(gkeTF.spec, DefaultClusterSpec);
    assert gkeTF.spec == MergedCluster(w);

    var pools := DefaultNodePools(gkeTF.spec.nodePools.value, o.nodePools.value);
    gkeTF.spec := gkeTF.spec.(nodePools := Some(pools));

    // Reset the values the merge may have overwritten.
    if o.removeDefaultNodePool.Some? {
      gkeTF.spec := gkeTF.spec.(removeDefaultNodePool := o.removeDefaultNodePool);
    }
    if o.addons.Some? {
      var a := RestoreAddons(gkeTF.spec.addons.value, o.addons.value);
      gkeTF.spec := gkeTF.spec.(addons := Some(a));
    }
    return None;
  }

  // ---------------------------------------------------------------------------
  // What the pass promises

  /** After the pass the Addons block and every listed addon pointer are set, whatever the input held. */
  lemma AddonsAlwaysPresent(w: ClusterSpec, o: ClusterSpec)
    requires Defaultable(w, o)
    ensures var a := Defaulted(w, o).addons.value;
      && a.logging.Some? && a.monitoring.Some?
      && a.vpa.Some? && a.clusterAutoscaling.Some? && a.binaryAuth.Some?
      && a.httpLoadBalancing.Some? && a.podSecurityPolicy.Some?
    ensures w.addons.None? && o.addons.None? ==> Defaulted(w, o).addons == Some(DefaultAddons)
  {
  }

  /**
   * The text fields of Addons, in a block the input gave or in the one the
   * pass allocated: an empty field takes its tag default, a set one is kept.
   * Istio's tag default is "true", whatever its doc comment says.
   */
  lemma AddonsFieldDefaults(w: ClusterSpec, o: ClusterSpec)
    requires Defaultable(w, o)
    ensures var wa := if w.addons.Some? then w.addons.value else EmptyAddons;
      var a := Defaulted(w, o).addons.value;
      && a.istio == (if wa.istio == "" then "true" else wa.istio)
      && a.cloudrun == (if wa.cloudrun == "" then "false" else wa.cloudrun)
      && a.networkPolicy == (if wa.networkPolicy == "" then "true" else wa.networkPolicy)
      && a.hpa == (if wa.hpa == "" then "true" else wa.hpa)
      && a.logging == (if wa.logging.None? || wa.logging.value == "" then Some("logging.googleapis.com/kubernetes") else wa.logging)
      && a.monitoring == (if wa.monitoring.None? || wa.monitoring.value == "" then Some("monitoring.googleapis.com/kubernetes") else wa.monitoring)
  {
    var m := MergedCluster(w);
    assert Defaulted(w, o) == Restored(m.(nodePools := Defaulted(w, o).nodePools), o);
  }

  /** A cluster field that is empty takes its tag default; one that is set keeps its value. */
  lemma ClusterFieldDefaults(w: ClusterSpec, o: ClusterSpec)
    requires Defaultable(w, o)
    ensures var r := Defaulted(w, o);
      && r.private == (if w.private == "" then "true" else w.private)
      && r.version == (if w.version == "" then "latest" else w.version)
      && r.regional == (if w.regional == "" then "true" else w.regional)
      && r.tpu == (if w.tpu == "" then "false" else w.tpu)
      && r.alpha == (if w.alpha == "" then "false" else w.alpha)
      && r.intraNodeVisibility == (if w.intraNodeVisibility == "" then "false" else w.intraNodeVisibility)
      && r.defaultMaxPodsPerNode == (if w.defaultMaxPodsPerNode == 0 then 110 else w.defaultMaxPodsPerNode)
  {
    var m := MergedCluster(w);
    assert Defaulted(w, o) == Restored(m.(nodePools := Defaulted(w, o).nodePools), o);
  }

  /** The same for the pointer fields with a default: nil or empty takes the default. */
  lemma ClusterPointerDefaults(w: ClusterSpec, o: ClusterSpec)
    requires Defaultable(w, o)
    ensures var r := Defaulted(w, o);
      && r.oauthScopes ==
           (if w.oauthScopes.None? || w.oauthScopes.value == [] then Some(DefaultOauthScopes) else w.oauthScopes)
      && r.issueClientCertificate ==
           (if w.issueClientCertificate.None? || w.issueClientCertificate.value == "" then Some("false")
            else w.issueClientCertificate)
      && r.serviceAccount ==
           (if w.serviceAccount.None? || w.serviceAccount.value == "" then Some("create") else w.serviceAccount)
  {
  }

  /** Fields without a default tag come out exactly as they went in. */
  lemma UntaggedClusterFieldsUnchanged(w: ClusterSpec, o: ClusterSpec)
    requires Defaultable(w, o)
    ensures var r := Defaulted(w, o);
      && r.projectId == w.projectId && r.region == w.region && r.network == w.network
      && r.zones == w.zones && r.taints == w.taints && r.tags == w.tags && r.labels == w.labels
      && r.metadata == w.metadata && r.description == w.description
      && r.ipMasqLinkLocal == w.ipMasqLinkLocal && r.ipMasqRsyncInterval == w.ipMasqRsyncInterval
      && r.maintenanceStartTime == w.maintenanceStartTime
      && r.masterAuthorizedNetworksConfig == w.masterAuthorizedNetworksConfig
      && r.resourceUsageExportConfig == w.resourceUsageExportConfig
      && r.stubDomains == w.stubDomains && r.databaseEncryption == w.databaseEncryption
      && r.nodeVersion == w.nodeVersion && r.workloadIdentityConfig == w.workloadIdentityConfig
      && r.deployUsingPrivateEndpoint == w.deployUsingPrivateEndpoint && r.bastion == w.bastion
  {
  }

  /**
   * The restored booleans: a value the original parse set is the final
   * value, even a `false` whose default is `true`; an unset one ends as
   * the merge left it.
   */
  lemma RestoredBooleans(w: ClusterSpec, o: ClusterSpec)
    requires Defaultable(w, o)
    ensures var r := Defaulted(w, o);
      r.removeDefaultNodePool == (if o.removeDefaultNodePool.Some? then o.removeDefaultNodePool else Some(true))
    ensures var a := Defaulted(w, o).addons.value;
      var oa := if o.addons.Some? then o.addons.value else EmptyAddons;
      var wa := if w.addons.Some? then w.addons.value else EmptyAddons;
      && a.httpLoadBalancing == (if oa.httpLoadBalancing.Some? then oa.httpLoadBalancing else Some(true))
      && a.binaryAuth == (if oa.binaryAuth.Some? then oa.binaryAuth else Some(true))
      && a.clusterAutoscaling == (if oa.clusterAutoscaling.Some? then oa.clusterAutoscaling else Some(true))
      && a.vpa == (if oa.vpa.Some? then oa.vpa else Some(wa.vpa == Some(true)))
      && a.podSecurityPolicy ==
           (if oa.podSecurityPolicy.Some? then oa.podSecurityPolicy else Some(wa.podSecurityPolicy == Some(true)))
  {
  }

  /** Pool k of the result, against pool k of the working and of the original spec. */
  function ResultPool(w: ClusterSpec, o: ClusterSpec, k: nat): (r: NodePoolSpec)
    requires Defaultable(w, o) && k < |w.nodePools.value|
  {
    Defaulted(w, o).nodePools.value[k].spec
  }

  /**
   * Every pool field with a default tag is filled when empty and kept when
   * set; an explicit `0` is not told apart from an absent value.
   */
  lemma PoolFieldDefaults(w: ClusterSpec, o: ClusterSpec, k: nat)
    requires Defaultable(w, o) && k < |w.nodePools.value|
    ensures var p := w.nodePools.value[k].spec; var r := ResultPool(w, o, k);
      && r.minCount == (if p.minCount == 0 then 1 else p.minCount)
      && r.maxCount == (if p.maxCount == 0 then 1 else p.maxCount)
      && r.initialNodeCount == (if p.initialNodeCount == 0 then 1 else p.initialNodeCount)
      && r.maxPodsPerNode == (if p.maxPodsPerNode == 0 then 110 else p.maxPodsPerNode)
      && r.diskSizeGB == (if p.diskSizeGB == 0 then 100 else p.diskSizeGB)
      && r.machineType == (if p.machineType == "" then "n1-standard-1" else p.machineType)
      && r.diskType == (if p.diskType == "" then "pd-ssd" else p.diskType)
      && r.imageType == (if p.imageType == "" then "COS" else p.imageType)
      && r.gvisor == (if p.gvisor == "" then "false" else p.gvisor)
      && r.preemptible == Some(p.preemptible == Some(true))
      && r.oauthScopes ==
           (if p.oauthScopes.None? || p.oauthScopes.value == [] then Some(DefaultOauthScopes) else p.oauthScopes)
  {
  }

  /** Pool fields without a default tag, and each pool's own metadata, are untouched. */
  lemma UntaggedPoolFieldsUnchanged(w: ClusterSpec, o: ClusterSpec, k: nat)
    requires Defaultable(w, o) && k < |w.nodePools.value|
    ensures var p := w.nodePools.value[k]; var q := Defaulted(w, o).nodePools.value[k];
      && q.typeMeta == p.typeMeta && q.metadata == p.metadata
      && q.spec.version == p.spec.version && q.spec.localSSDCount == p.spec.localSSDCount
      && q.spec.minCpuPlatform == p.spec.minCpuPlatform && q.spec.tags == p.spec.tags
      && q.spec.taints == p.spec.taints && q.spec.labels == p.spec.labels
      && q.spec.metadata == p.spec.metadata && q.spec.workloadMetadataConfig == p.spec.workloadMetadataConfig
      && q.spec.acceleratorType == p.spec.acceleratorType && q.spec.acceleratorCount == p.spec.acceleratorCount
      && q.spec.serviceAccount == p.spec.serviceAccount
  {
  }

  /** AutoRepair and AutoUpgrade of pool k come from original pool k when it set them, else from the defaults. */
  lemma PoolAutoFlags(w: ClusterSpec, o: ClusterSpec, k: nat)
    requires Defaultable(w, o) && k < |w.nodePools.value|
    ensures var p := w.nodePools.value[k].spec; var op := o.nodePools.value[k].spec; var r := ResultPool(w, o, k);
      && r.autoRepair == (if op.autoRepair.Some? then op.autoRepair else Some(true))
      && r.autoUpgrade == (if op.autoUpgrade.Some? then op.autoUpgrade else Some(p.autoUpgrade == Some(true)))
  {
  }

  /**
   * Pools are handled one by one and in place: pool k of the result depends
   * only on pool k of the working spec and pool k of the original.
   */
  lemma PoolsIndependent(w1: ClusterSpec, o1: ClusterSpec, w2: ClusterSpec, o2: ClusterSpec, j: nat, k: nat)
    requires Defaultable(w1, o1) && j < |w1.nodePools.value|
    requires Defaultable(w2, o2) && k < |w2.nodePools.value|
    requires w1.nodePools.value[j] == w2.nodePools.value[k] && o1.nodePools.value[j] == o2.nodePools.value[k]
    ensures Defaulted(w1, o1).nodePools.value[j] == Defaulted(w2, o2).nodePools.value[k]
  {
  }

  /** When the file is parsed twice alike, an explicitly written boolean survives the pass. */
  lemma SameFileKeepsExplicitBooleans(w: ClusterSpec)
    requires Defaultable(w, w)
    ensures var r := Defaulted(w, w);
      r.removeDefaultNodePool == (if w.removeDefaultNodePool.Some? then w.removeDefaultNodePool else Some(true))
    ensures w.addons.Some? ==>
      var a := Defaulted(w, w).addons.value; var wa := w.addons.value;
      && a.vpa == (if wa.vpa.Some? then wa.vpa else Some(false))
      && a.podSecurityPolicy == (if wa.podSecurityPolicy.Some? then wa.podSecurityPolicy else Some(false))
      && a.httpLoadBalancing == (if wa.httpLoadBalancing.Some? then wa.httpLoadBalancing else Some(true))
      && a.binaryAuth == (if wa.binaryAuth.Some? then wa.binaryAuth else Some(true))
      && a.clusterAutoscaling == (if wa.clusterAutoscaling.Some? then wa.clusterAutoscaling else Some(true))
    ensures forall k :: 0 <= k < |w.nodePools.value| ==>
      var p := w.nodePools.value[k].spec; var r := Defaulted(w, w).nodePools.value[k].spec;
      && r.autoRepair == (if p.autoRepair.Some? then p.autoRepair else Some(true))
      && r.autoUpgrade == (if p.autoUpgrade.Some? then p.autoUpgrade else Some(false))
  {
    RestoredBooleans(w, w);
    forall k | 0 <= k < |w.nodePools.value|
      ensures var p := w.nodePools.value[k].spec; var r := Defaulted(w, w).nodePools.value[k].spec;
        && r.autoRepair == (if p.autoRepair.Some? then p.autoRepair else Some(true))
        && r.autoUpgrade == (if p.autoUpgrade.Some? then p.autoUpgrade else Some(false))
    {
      PoolAutoFlags(w, w, k);
    }
  }

  /** Running the pass a second time against the same original changes nothing. */
  lemma DefaultingIdempotent(w: ClusterSpec, o: ClusterSpec)
    requires Defaultable(w, o)
    ensures Defaulted(Defaulted(w, o), o) == Defaulted(w, o)
  {
    var r := Defaulted(w, o);
    var ws := w.nodePools.value;
    var os := o.nodePools.value;
    forall k | 0 <= k < |ws|
      ensures DefaultedPool(DefaultedPool(ws[k], os[k]), os[k]) == DefaultedPool(ws[k], os[k])
    {
      PoolIdempotent(ws[k], os[k]);
    }
    assert DefaultedPools(r.nodePools.value, os) == r.nodePools.value;
    if o.addons.Some? {
      AddonsIdempotent(if w.addons.Some? then w.addons.value else EmptyAddons, o.addons.value);
    }
  }

  lemma PoolIdempotent(p: GkeNodePool, op: GkeNodePool)
    ensures DefaultedPool(DefaultedPool(p, op), op) == DefaultedPool(p, op)
  {
  }

  lemma AddonsIdempotent(a: AddonsSpec, oa: AddonsSpec)
    ensures var once := RestoredAddons(MergeAddons(a, DefaultAddons), oa);
      RestoredAddons(MergeAddons(once, DefaultAddons), oa) == once
  {
  }
}

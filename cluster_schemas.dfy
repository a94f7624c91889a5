/// The cluster resource as the API returns it: the `Cluster` record with its
/// required and optional fields, its Kubernetes options and the `ClusterRoot` envelope.
module ClusterSchemas {
  import opened Results
  import opened Json
  import opened ClusterStatus

  /// Additional Kubernetes options of a cluster.
  datatype KubernetesOptions = KubernetesOptions(enablePodSecurityPolicy: bool)

  /// The fields of `KubernetesOptions` in declaration order, the order of its array form.
  const KUBERNETES_OPTIONS_FIELDS: seq<string> := ["enable_pod_security_policy"]

  /// `j` writes options `o`: as an object holding the flag under
  /// "enable_pod_security_policy", or as the one-element array of the flag.
  predicate DescribesOptions(j: Json, o: KubernetesOptions) {
    || (j.Object? && Holds(j.fields, "enable_pod_security_policy", Bool(o.enablePodSecurityPolicy)))
    || j == Array([Bool(o.enablePodSecurityPolicy)])
  }

  function DecodeKubernetesOptions(j: Json): (r: Result<KubernetesOptions, JsonError>)
    ensures !j.Object? && !j.Array? ==> r == Err(InvalidType("struct KubernetesOptions"))
    ensures j.Array? && |j.items| != 1 ==> r == Err(InvalidLength(|j.items|))
    ensures j.Object? && "enable_pod_security_policy" !in j.fields ==> r == Err(MissingField("enable_pod_security_policy"))
    ensures j.Object? ==> (r.Ok? <==> "enable_pod_security_policy" in j.fields && j.fields["enable_pod_security_policy"].Bool?)
    ensures r.Ok? && j.Object? ==> r.value.enablePodSecurityPolicy == j.fields["enable_pod_security_policy"].b
    ensures j.Array? && |j.items| == 1 ==> (r.Ok? <==> j.items[0].Bool?)
    ensures r.Ok? && j.Array? ==> r.value.enablePodSecurityPolicy == j.items[0].b
  {
    var fields :- AsStruct(j, "struct KubernetesOptions", KUBERNETES_OPTIONS_FIELDS);
    var enablePodSecurityPolicy :- Required(fields, "enable_pod_security_policy", AsBool);
    Ok(KubernetesOptions(enablePodSecurityPolicy))
  }

  /// Any JSON value decodes to options `o` exactly when it writes them, in either form.
  lemma KubernetesOptionsExactly(j: Json, o: KubernetesOptions)
    ensures DecodeKubernetesOptions(j) == Ok(o) <==> DescribesOptions(j, o)
  {
  }

  datatype Cluster = Cluster(
    id: string,
    createdAt: Timestamp,
    updatedAt: Option<Timestamp>,
    name: string,
    status: Status,
    projectId: string,
    networkId: string,
    subnetId: string,
    kubeApiIp: string,
    kubeVersion: string,
    region: string,
    pkiTreeUpdatedAt: Option<Timestamp>,
    maintenanceWindowStart: string,
    maintenanceWindowEnd: string,
    maintenanceLastStart: Timestamp,
    enableAutorepair: bool,
    enablePatchVersionAutoUpgrade: bool,
    zonal: bool,
    kubernetesOptions: KubernetesOptions)

  /// The object `fields` holds the fields of `c` from `id` to `kube_version`, except
  /// the status; `updated_at` may be absent or null when `None`.
  predicate DescribesHead(fields: map<string, Json>, c: Cluster) {
    && Holds(fields, "id", Str(c.id))
    && Holds(fields, "created_at", TimestampJson(c.createdAt))
    && HoldsOptional(fields, "updated_at", OptionalTimestampJson(c.updatedAt))
    && Holds(fields, "name", Str(c.name))
    && Holds(fields, "project_id", Str(c.projectId))
    && Holds(fields, "network_id", Str(c.networkId))
    && Holds(fields, "subnet_id", Str(c.subnetId))
    && Holds(fields, "kube_api_ip", Str(c.kubeApiIp))
    && Holds(fields, "kube_version", Str(c.kubeVersion))
  }

  /// The object `fields` holds the fields of `c` from `region` to `kubernetes_options`;
  /// `pki_tree_updated_at` may be absent or null when `None`.
  predicate DescribesTail(fields: map<string, Json>, c: Cluster) {
    && Holds(fields, "region", Str(c.region))
    && HoldsOptional(fields, "pki_tree_updated_at", OptionalTimestampJson(c.pkiTreeUpdatedAt))
    && Holds(fields, "maintenance_window_start", Str(c.maintenanceWindowStart))
    && Holds(fields, "maintenance_window_end", Str(c.maintenanceWindowEnd))
    && Holds(fields, "maintenance_last_start", TimestampJson(c.maintenanceLastStart))
    && Holds(fields, "enable_autorepair", Bool(c.enableAutorepair))
    && Holds(fields, "enable_patch_version_auto_upgrade", Bool(c.enablePatchVersionAutoUpgrade))
    && Holds(fields, "zonal", Bool(c.zonal))
    && "kubernetes_options" in fields && DescribesOptions(fields["kubernetes_options"], c.kubernetesOptions)
  }

  predicate DescribesRest(fields: map<string, Json>, c: Cluster) {
    DescribesHead(fields, c) && DescribesTail(fields, c)
  }

  /// The object `fields` describes cluster `c`: the status under "status" in its
  /// SCREAMING_SNAKE_CASE spelling, bare or mapped to null, and every other
  /// field as `DescribesRest` says.
  predicate Describes(fields: map<string, Json>, c: Cluster) {
    "status" in fields && SpellsUnit(fields["status"], c.status.Wire()) && DescribesRest(fields, c)
  }

  /// The fields of `Cluster` in declaration order, the order of its array form.
  const CLUSTER_FIELDS: seq<string> := [
    "id", "created_at", "updated_at", "name", "status", "project_id", "network_id",
    "subnet_id", "kube_api_ip", "kube_version", "region", "pki_tree_updated_at",
    "maintenance_window_start", "maintenance_window_end", "maintenance_last_start",
    "enable_autorepair", "enable_patch_version_auto_upgrade", "zonal", "kubernetes_options"]

  /// `j` writes cluster `c`: as an object describing it, or as an array holding
  /// its fields in declaration order.
  predicate DescribesValue(j: Json, c: Cluster) {
    || (j.Object? && Describes(j.fields, c))
    || (j.Array? && |j.items| == |CLUSTER_FIELDS| && Describes(Positional(CLUSTER_FIELDS, j.items), c))
  }

  /// The derived `Deserialize` of `Cluster`.
  function DecodeCluster(j: Json): (r: Result<Cluster, JsonError>)
    ensures !j.Object? && !j.Array? ==> r == Err(InvalidType("struct Cluster"))
    ensures j.Array? && |j.items| != |CLUSTER_FIELDS| ==> r == Err(InvalidLength(|j.items|))
    ensures j.Object? && "status" !in j.fields ==> r == Err(MissingField("status"))
    ensures r.Ok? && j.Object? ==> SpellsUnit(j.fields["status"], r.value.status.Wire())
  {
    var f :- AsStruct(j, "struct Cluster", CLUSTER_FIELDS);
    DecodeClusterFields(f)
  }

  /// The fields of a cluster, read by name.
  function DecodeClusterFields(f: map<string, Json>): (r: Result<Cluster, JsonError>)
    ensures "status" !in f ==> r == Err(MissingField("status"))
    ensures r.Ok? ==> SpellsUnit(f["status"], r.value.status.Wire())
  {
    var status :- Required(f, "status", DecodeStatus);
    DecodeClusterRest(f, status)
  }

  /// The fields of a cluster other than its already decoded status, in declaration order.
  function DecodeClusterRest(f: map<string, Json>, status: Status): (r: Result<Cluster, JsonError>)
    ensures r.Ok? ==> r.value.status == status
  {
    var head :- DecodeClusterHead(f);
    var tail :- DecodeClusterTail(f);
    Ok(Cluster(head.0, head.1, head.2, head.3, status, head.4, head.5, head.6, head.7, head.8,
               tail.0, tail.1, tail.2, tail.3, tail.4, tail.5, tail.6, tail.7, tail.8))
  }

  /// The fields from `id` to `kube_version`, skipping `status`.
  function DecodeClusterHead(f: map<string, Json>): Result<(string, Timestamp, Option<Timestamp>, string, string, string, string, string, string), JsonError> {
    var id :- Required(f, "id", AsString);
    var createdAt :- Required(f, "created_at", AsTimestamp);
    var updatedAt :- Optional(f, "updated_at", AsTimestamp);
    var name :- Required(f, "name", AsString);
    var projectId :- Required(f, "project_id", AsString);
    var networkId :- Required(f, "network_id", AsString);
    var subnetId :- Required(f, "subnet_id", AsString);
    var kubeApiIp :- Required(f, "kube_api_ip", AsString);
    var kubeVersion :- Required(f, "kube_version", AsString);
    Ok((id, createdAt, updatedAt, name, projectId, networkId, subnetId, kubeApiIp, kubeVersion))
  }

  /// The fields from `region` to `kubernetes_options`.
  function DecodeClusterTail(f: map<string, Json>): Result<(string, Option<Timestamp>, string, string, Timestamp, bool, bool, bool, KubernetesOptions), JsonError> {
    var region :- Required(f, "region", AsString);
    var pkiTreeUpdatedAt :- Optional(f, "pki_tree_updated_at", AsTimestamp);
    var maintenanceWindowStart :- Required(f, "maintenance_window_start", AsString);
    var maintenanceWindowEnd :- Required(f, "maintenance_window_end", AsString);
    var maintenanceLastStart :- Required(f, "maintenance_last_start", AsTimestamp);
    var enableAutorepair :- Required(f, "enable_autorepair", AsBool);
    var enablePatchVersionAutoUpgrade :- Required(f, "enable_patch_version_auto_upgrade", AsBool);
    var zonal :- Required(f, "zonal", AsBool);
    var kubernetesOptions :- Required(f, "kubernetes_options", DecodeKubernetesOptions);
    Ok((region, pkiTreeUpdatedAt, maintenanceWindowStart, maintenanceWindowEnd, maintenanceLastStart, enableAutorepair, enablePatchVersionAutoUpgrade, zonal, kubernetesOptions))
  }

  lemma HeadDecodesExactly(fields: map<string, Json>, c: Cluster)
    ensures DecodeClusterHead(fields) == Ok((c.id, c.createdAt, c.updatedAt, c.name, c.projectId, c.networkId, c.subnetId, c.kubeApiIp, c.kubeVersion)) <==> DescribesHead(fields, c)
  {
    if DescribesHead(fields, c) {
      assert Required(fields, "id", AsString) == Ok(c.id);
      assert Required(fields, "created_at", AsTimestamp) == Ok(c.createdAt);
      assert Optional(fields, "updated_at", AsTimestamp) == Ok(c.updatedAt);
      assert Required(fields, "name", AsString) == Ok(c.name);
      assert Required(fields, "project_id", AsString) == Ok(c.projectId);
      assert Required(fields, "network_id", AsString) == Ok(c.networkId);
      assert Required(fields, "subnet_id", AsString) == Ok(c.subnetId);
      assert Required(fields, "kube_api_ip", AsString) == Ok(c.kubeApiIp);
      assert Required(fields, "kube_version", AsString) == Ok(c.kubeVersion);
    }
  }

  lemma TailDecodesExactly(fields: map<string, Json>, c: Cluster)
    ensures DecodeClusterTail(fields) == Ok((c.region, c.pkiTreeUpdatedAt, c.maintenanceWindowStart, c.maintenanceWindowEnd, c.maintenanceLastStart, c.enableAutorepair, c.enablePatchVersionAutoUpgrade, c.zonal, c.kubernetesOptions)) <==> DescribesTail(fields, c)
  {
    if DescribesTail(fields, c) {
      assert Required(fields, "region", AsString) == Ok(c.region);
      assert Optional(fields, "pki_tree_updated_at", AsTimestamp) == Ok(c.pkiTreeUpdatedAt);
      assert Required(fields, "maintenance_window_start", AsString) == Ok(c.maintenanceWindowStart);
      assert Required(fields, "maintenance_window_end", AsString) == Ok(c.maintenanceWindowEnd);
      assert Required(fields, "maintenance_last_start", AsTimestamp) == Ok(c.maintenanceLastStart);
      assert Required(fields, "enable_autorepair", AsBool) == Ok(c.enableAutorepair);
      assert Required(fields, "enable_patch_version_auto_upgrade", AsBool) == Ok(c.enablePatchVersionAutoUpgrade);
      assert Required(fields, "zonal", AsBool) == Ok(c.zonal);
      KubernetesOptionsExactly(fields["kubernetes_options"], c.kubernetesOptions);
      assert Required(fields, "kubernetes_options", DecodeKubernetesOptions) == Ok(c.kubernetesOptions);
    } else if "kubernetes_options" in fields {
      KubernetesOptionsExactly(fields["kubernetes_options"], c.kubernetesOptions);
    }
  }

  lemma RestDecodesExactly(fields: map<string, Json>, c: Cluster)
    ensures DecodeClusterRest(fields, c.status) == Ok(c) <==> DescribesRest(fields, c)
  {
    HeadDecodesExactly(fields, c);
    TailDecodesExactly(fields, c);
  }

  /// An object decodes to a cluster exactly when it describes that cluster:
  /// other keys are ignored, and the two `Option` timestamps may be absent or null.
  lemma DecodeClusterExactly(fields: map<string, Json>, c: Cluster)
    ensures DecodeClusterFields(fields) == Ok(c) <==> Describes(fields, c)
  {
    RestDecodesExactly(fields, c);
    if "status" in fields {
      DecodeStatusSpelled(fields["status"], c.status);
    }
  }

  /// Any JSON value decodes to a cluster exactly when it writes that cluster,
  /// in either form.
  lemma DecodeClusterValueExactly(j: Json, c: Cluster)
    ensures DecodeCluster(j) == Ok(c) <==> DescribesValue(j, c)
  {
    match j
    case Object(fields) => DecodeClusterExactly(fields, c);
    case Array(items) =>
      if |items| == |CLUSTER_FIELDS| {
        DecodeClusterExactly(Positional(CLUSTER_FIELDS, items), c);
      }
    case _ =>
  }

  /// `ClusterRoot`: the cluster under the key "cluster".
  function DecodeClusterRoot(j: Json): (r: Result<Cluster, JsonError>)
    ensures j.Object? && "cluster" !in j.fields ==> r == Err(MissingField("cluster"))
    ensures j.Object? && "cluster" in j.fields ==> r == DecodeCluster(j.fields["cluster"])
    ensures j.Array? && |j.items| == 1 ==> r == DecodeCluster(j.items[0])
  {
    Unwrap(j, "cluster", DecodeCluster)
  }

  /// The root of a cluster list: the clusters under the key "clusters".
  function DecodeClusterList(j: Json): (r: Result<seq<Cluster>, JsonError>)
    ensures j.Object? && "clusters" !in j.fields ==> r == Err(MissingField("clusters"))
    ensures j.Object? && "clusters" in j.fields ==> r == AsList(j.fields["clusters"], DecodeCluster)
    ensures j.Array? && |j.items| == 1 ==> r == AsList(j.items[0], DecodeCluster)
  {
    Unwrap(j, "clusters", (items: Json) => AsList(items, DecodeCluster))
  }

  /// A root decodes to a cluster exactly when its "cluster" entry writes it.
  lemma ClusterRootExactly(root: map<string, Json>, c: Cluster)
    ensures DecodeClusterRoot(Object(root)) == Ok(c)
        <==> "cluster" in root && DescribesValue(root["cluster"], c)
  {
    if "cluster" in root {
      DecodeClusterValueExactly(root["cluster"], c);
    }
  }

  /// A list decodes exactly when each element writes the cluster at the same position.
  lemma ClusterListExactly(items: seq<Json>, cs: seq<Cluster>)
    ensures DecodeClusterList(Wrap("clusters", Array(items))) == Ok(cs)
        <==> |cs| == |items| && forall i :: 0 <= i < |items| ==> DescribesValue(items[i], cs[i])
  {
    EachExactly(items, DecodeCluster, cs);
    if |cs| == |items| {
      forall i | 0 <= i < |items|
        ensures DecodeCluster(items[i]) == Ok(cs[i]) <==> DescribesValue(items[i], cs[i])
      {
        DecodeClusterValueExactly(items[i], cs[i]);
      }
    }
  }
}

/// The nodegroup record as the API returns it, with its nodes and labels,
/// and the "nodegroup" and "nodegroups" envelopes the nodegroup api unwraps.
module NodegroupSchemas {
  import opened Results
  import opened Json
  import NodeSchemas

  datatype Nodegroup = Nodegroup(
    id: string,
    createdAt: Timestamp,
    updatedAt: Option<Timestamp>,
    clusterId: string,
    flavorId: string,
    volumeGb: nat,
    volumeType: string,
    localVolume: bool,
    availabilityZone: string,
    nodes: seq<NodeSchemas.Node>,
    labels: map<string, string>)

  /// The object `fields` holds the fields of `g` from `id` to `flavor_id`;
  /// `updated_at` may be absent or null when `None`.
  predicate DescribesHead(fields: map<string, Json>, g: Nodegroup) {
    && Holds(fields, "id", Str(g.id))
    && Holds(fields, "created_at", TimestampJson(g.createdAt))
    && HoldsOptional(fields, "updated_at", OptionalTimestampJson(g.updatedAt))
    && Holds(fields, "cluster_id", Str(g.clusterId))
    && Holds(fields, "flavor_id", Str(g.flavorId))
  }

  /// `j` is an array whose elements write `nodes`, one node per position.
  predicate DescribesNodes(j: Json, nodes: seq<NodeSchemas.Node>) {
    && j.Array? && |j.items| == |nodes|
    && forall i :: 0 <= i < |nodes| ==> NodeSchemas.DescribesValue(j.items[i], nodes[i])
  }

  /// `j` is an object with exactly the keys of `labels`, each holding its label as a string.
  predicate DescribesLabels(j: Json, labels: map<string, string>) {
    && j.Object? && j.fields.Keys == labels.Keys
    && forall k :: k in labels ==> j.fields[k] == Str(labels[k])
  }

  /// The object `fields` holds the fields of `g` from `volume_gb` to `labels`:
  /// the volume size as a `u32`, each node as its own record and the labels as
  /// an object of strings.
  predicate DescribesTail(fields: map<string, Json>, g: Nodegroup) {
    && g.volumeGb < U32_LIMIT && Holds(fields, "volume_gb", Number(g.volumeGb))
    && Holds(fields, "volume_type", Str(g.volumeType))
    && Holds(fields, "local_volume", Bool(g.localVolume))
    && Holds(fields, "availability_zone", Str(g.availabilityZone))
    && "nodes" in fields && DescribesNodes(fields["nodes"], g.nodes)
    && "labels" in fields && DescribesLabels(fields["labels"], g.labels)
  }

  predicate Describes(fields: map<string, Json>, g: Nodegroup) {
    DescribesHead(fields, g) && DescribesTail(fields, g)
  }

  /// The fields of `Nodegroup` in declaration order, the order of its array form.
  const NODEGROUP_FIELDS: seq<string> := [
    "id", "created_at", "updated_at", "cluster_id", "flavor_id", "volume_gb",
    "volume_type", "local_volume", "availability_zone", "nodes", "labels"]

  /// `j` writes nodegroup `g`: as an object describing it, or as an array
  /// holding its fields in declaration order.
  predicate DescribesValue(j: Json, g: Nodegroup) {
    || (j.Object? && Describes(j.fields, g))
    || (j.Array? && |j.items| == |NODEGROUP_FIELDS| && Describes(Positional(NODEGROUP_FIELDS, j.items), g))
  }

  /// The derived `Deserialize` of `Nodegroup`.
  function DecodeNodegroup(j: Json): (r: Result<Nodegroup, JsonError>)
    ensures !j.Object? && !j.Array? ==> r == Err(InvalidType("struct Nodegroup"))
    ensures j.Array? && |j.items| != |NODEGROUP_FIELDS| ==> r == Err(InvalidLength(|j.items|))
    ensures j.Object? && "id" !in j.fields ==> r == Err(MissingField("id"))
  {
    var f :- AsStruct(j, "struct Nodegroup", NODEGROUP_FIELDS);
    DecodeNodegroupFields(f)
  }

  /// The fields of a nodegroup, read by name.
  function DecodeNodegroupFields(f: map<string, Json>): (r: Result<Nodegroup, JsonError>)
    ensures "id" !in f ==> r == Err(MissingField("id"))
  {
    var head :- DecodeNodegroupHead(f);
    var tail :- DecodeNodegroupTail(f);
    Ok(Nodegroup(head.0, head.1, head.2, head.3, head.4, tail.0, tail.1, tail.2, tail.3, tail.4, tail.5))
  }

  /// The fields from `id` to `flavor_id`.
  function DecodeNodegroupHead(f: map<string, Json>): Result<(string, Timestamp, Option<Timestamp>, string, string), JsonError> {
    var id :- Required(f, "id", AsString);
    var createdAt :- Required(f, "created_at", AsTimestamp);
    var updatedAt :- Optional(f, "updated_at", AsTimestamp);
    var clusterId :- Required(f, "cluster_id", AsString);
    var flavorId :- Required(f, "flavor_id", AsString);
    Ok((id, createdAt, updatedAt, clusterId, flavorId))
  }

  /// The fields from `volume_gb` to `labels`.
  function DecodeNodegroupTail(f: map<string, Json>): Result<(nat, string, bool, string, seq<NodeSchemas.Node>, map<string, string>), JsonError> {
    var volumeGb :- Required(f, "volume_gb", AsU32);
    var volumeType :- Required(f, "volume_type", AsString);
    var localVolume :- Required(f, "local_volume", AsBool);
    var availabilityZone :- Required(f, "availability_zone", AsString);
    var nodes :- Required(f, "nodes", (items: Json) => AsList(items, NodeSchemas.DecodeNode));
    var labels :- Required(f, "labels", AsStringMap);
    Ok((volumeGb, volumeType, localVolume, availabilityZone, nodes, labels))
  }

  lemma HeadDecodesExactly(fields: map<string, Json>, g: Nodegroup)
    ensures DecodeNodegroupHead(fields) == Ok((g.id, g.createdAt, g.updatedAt, g.clusterId, g.flavorId)) <==> DescribesHead(fields, g)
  {
    if DescribesHead(fields, g) {
      assert Required(fields, "id", AsString) == Ok(g.id);
      assert Required(fields, "created_at", AsTimestamp) == Ok(g.createdAt);
      assert Optional(fields, "updated_at", AsTimestamp) == Ok(g.updatedAt);
      assert Required(fields, "cluster_id", AsString) == Ok(g.clusterId);
      assert Required(fields, "flavor_id", AsString) == Ok(g.flavorId);
    }
  }

  /// The nodes decode to `nodes` exactly when the array writes them.
  lemma NodesExactly(j: Json, nodes: seq<NodeSchemas.Node>)
    ensures AsList(j, NodeSchemas.DecodeNode) == Ok(nodes) <==> DescribesNodes(j, nodes)
  {
    if j.Array? {
      EachExactly(j.items, NodeSchemas.DecodeNode, nodes);
      if |j.items| == |nodes| {
        forall i | 0 <= i < |nodes|
          ensures NodeSchemas.DecodeNode(j.items[i]) == Ok(nodes[i]) <==> NodeSchemas.DescribesValue(j.items[i], nodes[i])
        {
          NodeSchemas.DecodeNodeValueExactly(j.items[i], nodes[i]);
        }
      }
    }
  }

  /// The labels decode to `labels` exactly when the object writes them.
  lemma LabelsExactly(j: Json, labels: map<string, string>)
    ensures AsStringMap(j) == Ok(labels) <==> DescribesLabels(j, labels)
  {
    if DescribesLabels(j, labels) {
      var r := AsStringMap(j);
      assert r.Ok?;
      assert r.value == labels;
    }
  }

  lemma TailDecodesExactly(fields: map<string, Json>, g: Nodegroup)
    ensures DecodeNodegroupTail(fields) == Ok((g.volumeGb, g.volumeType, g.localVolume, g.availabilityZone, g.nodes, g.labels))
        <==> DescribesTail(fields, g)
  {
    if DescribesTail(fields, g) {
      assert Required(fields, "volume_gb", AsU32) == Ok(g.volumeGb);
      assert Required(fields, "volume_type", AsString) == Ok(g.volumeType);
      assert Required(fields, "local_volume", AsBool) == Ok(g.localVolume);
      assert Required(fields, "availability_zone", AsString) == Ok(g.availabilityZone);
      NodesExactly(fields["nodes"], g.nodes);
      assert Required(fields, "nodes", (items: Json) => AsList(items, NodeSchemas.DecodeNode)) == Ok(g.nodes);
      LabelsExactly(fields["labels"], g.labels);
      assert Required(fields, "labels", AsStringMap) == Ok(g.labels);
    } else {
      if "nodes" in fields {
        NodesExactly(fields["nodes"], g.nodes);
      }
      if "labels" in fields {
        LabelsExactly(fields["labels"], g.labels);
      }
    }
  }

  /// An object decodes to a nodegroup exactly when it describes that nodegroup;
  /// in particular a volume size outside the `u32` range is rejected.
  lemma DecodeNodegroupExactly(fields: map<string, Json>, g: Nodegroup)
    ensures DecodeNodegroupFields(fields) == Ok(g) <==> Describes(fields, g)
  {
    HeadDecodesExactly(fields, g);
    TailDecodesExactly(fields, g);
  }

  /// Any JSON value decodes to a nodegroup exactly when it writes that
  /// nodegroup, in either form.
  lemma DecodeNodegroupValueExactly(j: Json, g: Nodegroup)
    ensures DecodeNodegroup(j) == Ok(g) <==> DescribesValue(j, g)
  {
    match j
    case Object(fields) => DecodeNodegroupExactly(fields, g);
    case Array(items) =>
      if |items| == |NODEGROUP_FIELDS| {
        DecodeNodegroupExactly(Positional(NODEGROUP_FIELDS, items), g);
      }
    case _ =>
  }

  /// The nodegroup under the key "nodegroup".
  function DecodeNodegroupRoot(j: Json): (r: Result<Nodegroup, JsonError>)
    ensures j.Object? && "nodegroup" !in j.fields ==> r == Err(MissingField("nodegroup"))
    ensures j.Object? && "nodegroup" in j.fields ==> r == DecodeNodegroup(j.fields["nodegroup"])
    ensures j.Array? && |j.items| == 1 ==> r == DecodeNodegroup(j.items[0])
  {
    Unwrap(j, "nodegroup", DecodeNodegroup)
  }

  /// `NodegroupsRoot`: the nodegroups under the key "nodegroups".
  function DecodeNodegroupList(j: Json): (r: Result<seq<Nodegroup>, JsonError>)
    ensures j.Object? && "nodegroups" !in j.fields ==> r == Err(MissingField("nodegroups"))
    ensures j.Object? && "nodegroups" in j.fields ==> r == AsList(j.fields["nodegroups"], DecodeNodegroup)
    ensures j.Array? && |j.items| == 1 ==> r == AsList(j.items[0], DecodeNodegroup)
  {
    Unwrap(j, "nodegroups", (items: Json) => AsList(items, DecodeNodegroup))
  }
}

/// The node record as the API returns it, and the "node" envelope the node
/// api unwraps.
module NodeSchemas {
  import opened Results
  import opened Json

  datatype Node = Node(
    id: string,
    createdAt: Timestamp,
    updatedAt: Option<Timestamp>,
    hostname: string,
    ip: string,
    nodegroupId: string)

  /// The fields of `Node` in declaration order, the order of its array form.
  const NODE_FIELDS: seq<string> := ["id", "created_at", "updated_at", "hostname", "ip", "nodegroup_id"]

  /// The object `fields` describes node `n`; `updated_at` may be absent or null when `None`.
  predicate Describes(fields: map<string, Json>, n: Node) {
    && Holds(fields, "id", Str(n.id))
    && Holds(fields, "created_at", TimestampJson(n.createdAt))
    && HoldsOptional(fields, "updated_at", OptionalTimestampJson(n.updatedAt))
    && Holds(fields, "hostname", Str(n.hostname))
    && Holds(fields, "ip", Str(n.ip))
    && Holds(fields, "nodegroup_id", Str(n.nodegroupId))
  }

  /// `j` writes node `n`: as an object describing it, or as an array holding
  /// its fields in declaration order.
  predicate DescribesValue(j: Json, n: Node) {
    || (j.Object? && Describes(j.fields, n))
    || (j.Array? && |j.items| == |NODE_FIELDS| && Describes(Positional(NODE_FIELDS, j.items), n))
  }

  /// The derived `Deserialize` of `Node`.
  function DecodeNode(j: Json): (r: Result<Node, JsonError>)
    ensures !j.Object? && !j.Array? ==> r == Err(InvalidType("struct Node"))
    ensures j.Array? && |j.items| != |NODE_FIELDS| ==> r == Err(InvalidLength(|j.items|))
    ensures j.Object? && "id" !in j.fields ==> r == Err(MissingField("id"))
  {
    var f :- AsStruct(j, "struct Node", NODE_FIELDS);
    DecodeNodeFields(f)
  }

  /// The fields of a node, read by name.
  function DecodeNodeFields(f: map<string, Json>): (r: Result<Node, JsonError>)
    ensures "id" !in f ==> r == Err(MissingField("id"))
  {
    var id :- Required(f, "id", AsString);
    var createdAt :- Required(f, "created_at", AsTimestamp);
    var updatedAt :- Optional(f, "updated_at", AsTimestamp);
    var hostname :- Required(f, "hostname", AsString);
    var ip :- Required(f, "ip", AsString);
    var nodegroupId :- Required(f, "nodegroup_id", AsString);
    Ok(Node(id, createdAt, updatedAt, hostname, ip, nodegroupId))
  }

  /// An object decodes to a node exactly when it describes that node.
  lemma DecodeNodeExactly(fields: map<string, Json>, n: Node)
    ensures DecodeNodeFields(fields) == Ok(n) <==> Describes(fields, n)
  {
    if Describes(fields, n) {
      assert Required(fields, "id", AsString) == Ok(n.id);
      assert Required(fields, "created_at", AsTimestamp) == Ok(n.createdAt);
      assert Optional(fields, "updated_at", AsTimestamp) == Ok(n.updatedAt);
      assert Required(fields, "hostname", AsString) == Ok(n.hostname);
      assert Required(fields, "ip", AsString) == Ok(n.ip);
      assert Required(fields, "nodegroup_id", AsString) == Ok(n.nodegroupId);
    }
  }

  /// Any JSON value decodes to a node exactly when it writes that node, in
  /// either form.
  lemma DecodeNodeValueExactly(j: Json, n: Node)
    ensures DecodeNode(j) == Ok(n) <==> DescribesValue(j, n)
  {
    match j
    case Object(fields) => DecodeNodeExactly(fields, n);
    case Array(items) =>
      if |items| == |NODE_FIELDS| {
        DecodeNodeExactly(Positional(NODE_FIELDS, items), n);
      }
    case _ =>
  }

  /// The node under the key "node".
  function DecodeNodeRoot(j: Json): (r: Result<Node, JsonError>)
    ensures j.Object? && "node" !in j.fields ==> r == Err(MissingField("node"))
    ensures j.Object? && "node" in j.fields ==> r == DecodeNode(j.fields["node"])
    ensures j.Array? && |j.items| == 1 ==> r == DecodeNode(j.items[0])
  {
    Unwrap(j, "node", DecodeNode)
  }
}

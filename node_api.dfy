/// The node operations: reading one node and asking for it to be reinstalled.
module NodeApi {
  import opened Results
  import opened Json
  import opened Transport
  import opened NodeSchemas
  import Errors
  import ResourceUrl

  /// `get_node`: GET on the node's path, which has no "nodes" segment; no body.
  function GetNode(client: Client, serde: Serde, clusterId: string, nodegroupId: string, nodeId: string): (r: Result<Node, Errors.Error>)
    ensures Fetched(r, client, serde, Get, "/v1/clusters/" + clusterId + "/nodegroups/" + nodegroupId + "/" + nodeId, None, DecodeNodeRoot)
  {
    Fetch(client, serde, Get, ResourceUrl.NodePath(clusterId, nodegroupId, nodeId), None, DecodeNodeRoot)
  }

  /// `reinstall_node`: POST with no body on the node's path followed by "/reinstall";
  /// the response body is discarded.
  function ReinstallNode(client: Client, clusterId: string, nodegroupId: string, nodeId: string): (r: Result<(), Errors.Error>)
    ensures Sent(r, client, Post, "/v1/clusters/" + clusterId + "/nodegroups/" + nodegroupId + "/" + nodeId + "/reinstall", None)
  {
    Send(client, Post, ResourceUrl.NodeReinstallPath(clusterId, nodegroupId, nodeId), None)
  }

  /// When the response body parses to an object, `get_node` succeeds with `n` exactly
  /// when the object's "node" entry writes `n`.
  lemma GetNodeReturnsNode(client: Client, serde: Serde, clusterId: string, nodegroupId: string, nodeId: string,
                           root: map<string, Json>, n: Node)
    requires Exchange(client, Get, "/v1/clusters/" + clusterId + "/nodegroups/" + nodegroupId + "/" + nodeId, None).Ok?
    requires serde.parse(Exchange(client, Get, "/v1/clusters/" + clusterId + "/nodegroups/" + nodegroupId + "/" + nodeId, None).value)
          == Ok(Object(root))
    ensures GetNode(client, serde, clusterId, nodegroupId, nodeId) == Ok(n)
        <==> "node" in root && DescribesValue(root["node"], n)
  {
    if "node" in root {
      DecodeNodeValueExactly(root["node"], n);
    }
  }
}

/// The nodegroup operations: reads decode a nodegroup envelope, writes send a
/// `{"nodegroup": opts}` body and discard the response.
module NodegroupApi {
  import opened Results
  import opened Json
  import opened Transport
  import opened NodegroupSchemas
  import Errors
  import ResourceUrl

  /// `get`: GET on the nodegroup's path, no body.
  function GetNodegroup(client: Client, serde: Serde, clusterId: string, nodegroupId: string): (r: Result<Nodegroup, Errors.Error>)
    ensures Fetched(r, client, serde, Get, "/v1/clusters/" + clusterId + "/nodegroups/" + nodegroupId, None, DecodeNodegroupRoot)
  {
    Fetch(client, serde, Get, ResourceUrl.NodegroupPath(clusterId, nodegroupId), None, DecodeNodegroupRoot)
  }

  /// `list`: GET on the cluster's nodegroup collection, no body.
  function ListNodegroups(client: Client, serde: Serde, clusterId: string): (r: Result<seq<Nodegroup>, Errors.Error>)
    ensures Fetched(r, client, serde, Get, "/v1/clusters/" + clusterId + "/nodegroups", None, DecodeNodegroupList)
  {
    Fetch(client, serde, Get, ResourceUrl.NodegroupsPath(clusterId), None, DecodeNodegroupList)
  }

  /// `create`: serialise `{"nodegroup": opts}`, then POST it on the collection path.
  function CreateNodegroup(client: Client, serde: Serde, clusterId: string, opts: Json): (r: Result<(), Errors.Error>)
    ensures serde.render(Wrap("nodegroup", opts)).Err? ==>
              r == Err(Errors.SerializeError(serde.render(Wrap("nodegroup", opts)).error))
    ensures serde.render(Wrap("nodegroup", opts)).Ok? ==>
              Sent(r, client, Post, "/v1/clusters/" + clusterId + "/nodegroups", Some(serde.render(Wrap("nodegroup", opts)).value))
  {
    var serialized :- Serialize(serde, Wrap("nodegroup", opts));
    Send(client, Post, ResourceUrl.NodegroupsPath(clusterId), Some(serialized))
  }

  /// `delete`: DELETE on the nodegroup's path, no body.
  function DeleteNodegroup(client: Client, clusterId: string, nodegroupId: string): (r: Result<(), Errors.Error>)
    ensures Sent(r, client, Delete, "/v1/clusters/" + clusterId + "/nodegroups/" + nodegroupId, None)
  {
    Send(client, Delete, ResourceUrl.NodegroupPath(clusterId, nodegroupId), None)
  }

  /// `resize`: serialise `{"nodegroup": opts}`, then POST it on the nodegroup's path
  /// followed by "/resize".
  function ResizeNodegroup(client: Client, serde: Serde, clusterId: string, nodegroupId: string, opts: Json): (r: Result<(), Errors.Error>)
    ensures serde.render(Wrap("nodegroup", opts)).Err? ==>
              r == Err(Errors.SerializeError(serde.render(Wrap("nodegroup", opts)).error))
    ensures serde.render(Wrap("nodegroup", opts)).Ok? ==>
              Sent(r, client, Post, "/v1/clusters/" + clusterId + "/nodegroups/" + nodegroupId + "/resize",
                   Some(serde.render(Wrap("nodegroup", opts)).value))
  {
    var serialized :- Serialize(serde, Wrap("nodegroup", opts));
    Send(client, Post, ResourceUrl.NodegroupResizePath(clusterId, nodegroupId), Some(serialized))
  }

  /// `update`: serialise `{"nodegroup": opts}`, then PUT it on the nodegroup's path.
  function UpdateNodegroup(client: Client, serde: Serde, clusterId: string, nodegroupId: string, opts: Json): (r: Result<(), Errors.Error>)
    ensures serde.render(Wrap("nodegroup", opts)).Err? ==>
              r == Err(Errors.SerializeError(serde.render(Wrap("nodegroup", opts)).error))
    ensures serde.render(Wrap("nodegroup", opts)).Ok? ==>
              Sent(r, client, Put, "/v1/clusters/" + clusterId + "/nodegroups/" + nodegroupId,
                   Some(serde.render(Wrap("nodegroup", opts)).value))
  {
    var serialized :- Serialize(serde, Wrap("nodegroup", opts));
    Send(client, Put, ResourceUrl.NodegroupPath(clusterId, nodegroupId), Some(serialized))
  }

  /// When the response body parses to an object, `get` succeeds with `g` exactly
  /// when the object's "nodegroup" entry writes `g`.
  lemma GetNodegroupReturnsNodegroup(client: Client, serde: Serde, clusterId: string, nodegroupId: string,
                                     root: map<string, Json>, g: Nodegroup)
    requires Exchange(client, Get, "/v1/clusters/" + clusterId + "/nodegroups/" + nodegroupId, None).Ok?
    requires serde.parse(Exchange(client, Get, "/v1/clusters/" + clusterId + "/nodegroups/" + nodegroupId, None).value) == Ok(Object(root))
    ensures GetNodegroup(client, serde, clusterId, nodegroupId) == Ok(g)
        <==> "nodegroup" in root && DescribesValue(root["nodegroup"], g)
  {
    if "nodegroup" in root {
      DecodeNodegroupValueExactly(root["nodegroup"], g);
    }
  }

  /// When the response body parses to `{"nodegroups": [..items..]}`, `list` succeeds
  /// with `gs` exactly when each item writes the nodegroup at its position.
  lemma ListNodegroupsReturnsNodegroups(client: Client, serde: Serde, clusterId: string, items: seq<Json>, gs: seq<Nodegroup>)
    requires Exchange(client, Get, "/v1/clusters/" + clusterId + "/nodegroups", None).Ok?
    requires serde.parse(Exchange(client, Get, "/v1/clusters/" + clusterId + "/nodegroups", None).value)
          == Ok(Wrap("nodegroups", Array(items)))
    ensures ListNodegroups(client, serde, clusterId) == Ok(gs)
        <==> |gs| == |items| && forall i :: 0 <= i < |items| ==> DescribesValue(items[i], gs[i])
  {
    EachExactly(items, DecodeNodegroup, gs);
    if |gs| == |items| {
      forall i | 0 <= i < |items|
        ensures DecodeNodegroup(items[i]) == Ok(gs[i]) <==> DescribesValue(items[i], gs[i])
      {
        DecodeNodegroupValueExactly(items[i], gs[i]);
      }
    }
  }

  /// A serialisation failure in `create`, `resize` or `update` is reported before
  /// any request is built: the client's behaviour does not matter.
  lemma WritesSerializeBeforeRequest(client1: Client, client2: Client, serde: Serde, clusterId: string, nodegroupId: string, opts: Json)
    requires serde.render(Wrap("nodegroup", opts)).Err?
    ensures CreateNodegroup(client1, serde, clusterId, opts) == CreateNodegroup(client2, serde, clusterId, opts)
    ensures ResizeNodegroup(client1, serde, clusterId, nodegroupId, opts) == ResizeNodegroup(client2, serde, clusterId, nodegroupId, opts)
    ensures UpdateNodegroup(client1, serde, clusterId, nodegroupId, opts) == UpdateNodegroup(client2, serde, clusterId, nodegroupId, opts)
  {
  }
}

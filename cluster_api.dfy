/// The cluster operations: each builds its path, picks its method, optionally
/// serialises a `{"cluster": opts}` body, performs the request and decodes the
/// `ClusterRoot` or the cluster list it gets back.
module ClusterApi {
  import opened Results
  import opened Json
  import opened Transport
  import opened ClusterSchemas
  import Errors
  import ResourceUrl

  /// `get_cluster`: GET on the cluster's path, no body.
  function GetCluster(client: Client, serde: Serde, clusterId: string): (r: Result<Cluster, Errors.Error>)
    ensures Fetched(r, client, serde, Get, "/v1/clusters/" + clusterId, None, DecodeClusterRoot)
  {
    Fetch(client, serde, Get, ResourceUrl.ClusterPath(clusterId), None, DecodeClusterRoot)
  }

  /// `list_clusters`: GET on the collection path, no body.
  function ListClusters(client: Client, serde: Serde): (r: Result<seq<Cluster>, Errors.Error>)
    ensures Fetched(r, client, serde, Get, "/v1/clusters", None, DecodeClusterList)
  {
    Fetch(client, serde, Get, ResourceUrl.ClustersPath(), None, DecodeClusterList)
  }

  /// `create_cluster`: serialise `{"cluster": opts}` first; a failure there is a
  /// `SerializeError` and no request is made. Otherwise POST the text on the
  /// collection path and decode the created cluster.
  function CreateCluster(client: Client, serde: Serde, opts: Json): (r: Result<Cluster, Errors.Error>)
    ensures serde.render(Wrap("cluster", opts)).Err? ==>
              r == Err(Errors.SerializeError(serde.render(Wrap("cluster", opts)).error))
    ensures serde.render(Wrap("cluster", opts)).Ok? ==>
              Fetched(r, client, serde, Post, "/v1/clusters", Some(serde.render(Wrap("cluster", opts)).value), DecodeClusterRoot)
  {
    var serialized :- Serialize(serde, Wrap("cluster", opts));
    Fetch(client, serde, Post, ResourceUrl.ClustersPath(), Some(serialized), DecodeClusterRoot)
  }

  /// `delete_cluster`: DELETE on the cluster's path, no body; the response body is discarded.
  function DeleteCluster(client: Client, clusterId: string): (r: Result<(), Errors.Error>)
    ensures Sent(r, client, Delete, "/v1/clusters/" + clusterId, None)
  {
    Send(client, Delete, ResourceUrl.ClusterPath(clusterId), None)
  }

  /// When the response body parses to an object, `get_cluster` succeeds with `c`
  /// exactly when the object's "cluster" entry writes `c`.
  lemma GetClusterReturnsCluster(client: Client, serde: Serde, clusterId: string, root: map<string, Json>, c: Cluster)
    requires Exchange(client, Get, "/v1/clusters/" + clusterId, None).Ok?
    requires serde.parse(Exchange(client, Get, "/v1/clusters/" + clusterId, None).value) == Ok(Object(root))
    ensures GetCluster(client, serde, clusterId) == Ok(c)
        <==> "cluster" in root && DescribesValue(root["cluster"], c)
  {
    ClusterRootExactly(root, c);
  }

  /// When the response body parses to `{"clusters": [..items..]}`, `list_clusters`
  /// succeeds with `cs` exactly when each item writes the cluster at its position.
  lemma ListClustersReturnsClusters(client: Client, serde: Serde, items: seq<Json>, cs: seq<Cluster>)
    requires Exchange(client, Get, "/v1/clusters", None).Ok?
    requires serde.parse(Exchange(client, Get, "/v1/clusters", None).value) == Ok(Wrap("clusters", Array(items)))
    ensures ListClusters(client, serde) == Ok(cs)
        <==> |cs| == |items| && forall i :: 0 <= i < |items| ==> DescribesValue(items[i], cs[i])
  {
    ClusterListExactly(items, cs);
  }

  /// A serialisation failure is reported before any request is built: the
  /// client's behaviour does not matter.
  lemma CreateSerializeFailureSkipsRequest(client1: Client, client2: Client, serde: Serde, opts: Json)
    requires serde.render(Wrap("cluster", opts)).Err?
    ensures CreateCluster(client1, serde, opts) == CreateCluster(client2, serde, opts)
    ensures CreateCluster(client1, serde, opts).Err? && CreateCluster(client1, serde, opts).error.SerializeError?
  {
  }
}

/// The single Kubernetes-version operation: listing the supported versions.
module KubeVersionApi {
  import opened Results
  import opened Json
  import opened Transport
  import opened KubeVersionSchemas
  import Errors
  import ResourceUrl

  /// `list`: GET on the constant path "/v1/kubeversions", no body.
  function ListKubeVersions(client: Client, serde: Serde): (r: Result<seq<KubeVersion>, Errors.Error>)
    ensures Fetched(r, client, serde, Get, "/v1/kubeversions", None, DecodeKubeVersions)
  {
    Fetch(client, serde, Get, ResourceUrl.KubeVersionsPath(), None, DecodeKubeVersions)
  }

  /// When the response body parses to `{"kube_versions": [..items..]}`, the list
  /// succeeds with `vs` exactly when each item writes the entry at its position:
  /// an object holding its version string and default flag, or the array of the two.
  lemma ListKubeVersionsReturnsVersions(client: Client, serde: Serde, items: seq<Json>, vs: seq<KubeVersion>)
    requires Exchange(client, Get, "/v1/kubeversions", None).Ok?
    requires serde.parse(Exchange(client, Get, "/v1/kubeversions", None).value) == Ok(Wrap("kube_versions", Array(items)))
    ensures ListKubeVersions(client, serde) == Ok(vs)
        <==> |vs| == |items| && forall i :: 0 <= i < |items| ==> DescribesValue(items[i], vs[i])
  {
    EachExactly(items, DecodeKubeVersion, vs);
    if |vs| == |items| {
      forall i | 0 <= i < |items|
        ensures DecodeKubeVersion(items[i]) == Ok(vs[i]) <==> DescribesValue(items[i], vs[i])
      {
        DecodeKubeVersionExactly(items[i], vs[i]);
      }
    }
  }
}

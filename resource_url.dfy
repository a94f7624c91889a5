/// The path segments of the API and the request paths the api functions build
/// from them with `format!`.
module ResourceUrl {
  const API_VERSION: string := "v1"
  const CLUSTERS: string := "clusters"
  const KUBEVERSIONS: string := "kubeversions"
  const NODEGROUPS: string := "nodegroups"
  const RESIZE: string := "resize"
  /// Imported by the task api but not defined in `resource_url.rs`; the API names the resource so.
  const TASKS: string := "tasks"
  /// Imported by the node api but not defined in `resource_url.rs`; the API names the action so.
  const REINSTALL: string := "reinstall"

  function ClustersPath(): (p: string)
    ensures p == "/v1/clusters"
  {
    "/" + API_VERSION + "/" + CLUSTERS
  }

  function ClusterPath(clusterId: string): (p: string)
    ensures p == "/v1/clusters/" + clusterId
  {
    "/" + API_VERSION + "/" + CLUSTERS + "/" + clusterId
  }

  function NodegroupsPath(clusterId: string): (p: string)
    ensures p == "/v1/clusters/" + clusterId + "/nodegroups"
  {
    "/" + API_VERSION + "/" + CLUSTERS + "/" + clusterId + "/" + NODEGROUPS
  }

  function NodegroupPath(clusterId: string, nodegroupId: string): (p: string)
    ensures p == "/v1/clusters/" + clusterId + "/nodegroups/" + nodegroupId
  {
    "/" + API_VERSION + "/" + CLUSTERS + "/" + clusterId + "/" + NODEGROUPS + "/" + nodegroupId
  }

  function NodegroupResizePath(clusterId: string, nodegroupId: string): (p: string)
    ensures p == NodegroupPath(clusterId, nodegroupId) + "/resize"
  {
    "/" + API_VERSION + "/" + CLUSTERS + "/" + clusterId + "/" + NODEGROUPS + "/" + nodegroupId + "/" + RESIZE
  }

  /// A node lives directly under its nodegroup: there is no `nodes` segment.
  function NodePath(clusterId: string, nodegroupId: string, nodeId: string): (p: string)
    ensures p == "/v1/clusters/" + clusterId + "/nodegroups/" + nodegroupId + "/" + nodeId
  {
    "/" + API_VERSION + "/" + CLUSTERS + "/" + clusterId + "/" + NODEGROUPS + "/" + nodegroupId + "/" + nodeId
  }

  function NodeReinstallPath(clusterId: string, nodegroupId: string, nodeId: string): (p: string)
    ensures p == NodePath(clusterId, nodegroupId, nodeId) + "/reinstall"
  {
    "/" + API_VERSION + "/" + CLUSTERS + "/" + clusterId + "/" + NODEGROUPS + "/" + nodegroupId + "/" + nodeId + "/" + REINSTALL
  }

  function TasksPath(clusterId: string): (p: string)
    ensures p == "/v1/clusters/" + clusterId + "/tasks"
  {
    "/" + API_VERSION + "/" + CLUSTERS + "/" + clusterId + "/" + TASKS
  }

  function TaskPath(clusterId: string, taskId: string): (p: string)
    ensures p == "/v1/clusters/" + clusterId + "/tasks/" + taskId
  {
    "/" + API_VERSION + "/" + CLUSTERS + "/" + clusterId + "/" + TASKS + "/" + taskId
  }

  function KubeVersionsPath(): (p: string)
    ensures p == "/v1/kubeversions"
  {
    "/" + API_VERSION + "/" + KUBEVERSIONS
  }

  /// Every item path is its collection path followed by "/" and the item's identifier,
  /// and every action path is the item path followed by "/" and the action.
  lemma ItemPathsExtendCollections(clusterId: string, nodegroupId: string, nodeId: string, taskId: string)
    ensures ClusterPath(clusterId) == ClustersPath() + "/" + clusterId
    ensures NodegroupPath(clusterId, nodegroupId) == NodegroupsPath(clusterId) + "/" + nodegroupId
    ensures NodegroupsPath(clusterId) == ClusterPath(clusterId) + "/" + NODEGROUPS
    ensures NodegroupResizePath(clusterId, nodegroupId) == NodegroupPath(clusterId, nodegroupId) + "/" + RESIZE
    ensures NodePath(clusterId, nodegroupId, nodeId) == NodegroupPath(clusterId, nodegroupId) + "/" + nodeId
    ensures NodeReinstallPath(clusterId, nodegroupId, nodeId) == NodePath(clusterId, nodegroupId, nodeId) + "/" + REINSTALL
    ensures TaskPath(clusterId, taskId) == TasksPath(clusterId) + "/" + taskId
    ensures TasksPath(clusterId) == ClusterPath(clusterId) + "/" + TASKS
  {
  }

  lemma ClusterPathInjective(c1: string, c2: string)
    ensures ClusterPath(c1) == ClusterPath(c2) <==> c1 == c2
  {
    var prefix := "/v1/clusters/";
    if ClusterPath(c1) == ClusterPath(c2) {
      assert c1 == ClusterPath(c1)[|prefix|..];
      assert c2 == ClusterPath(c2)[|prefix|..];
    }
  }
}

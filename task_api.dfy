/// The task operations: reading one task of a cluster and listing them all.
module TaskApi {
  import opened Results
  import opened Json
  import opened Transport
  import opened TaskSchemas
  import Errors
  import ResourceUrl

  /// `get`: GET on the task's path, no body.
  function GetTask(client: Client, serde: Serde, clusterId: string, taskId: string): (r: Result<Task, Errors.Error>)
    ensures Fetched(r, client, serde, Get, "/v1/clusters/" + clusterId + "/tasks/" + taskId, None, DecodeTaskRoot)
  {
    Fetch(client, serde, Get, ResourceUrl.TaskPath(clusterId, taskId), None, DecodeTaskRoot)
  }

  /// `list`: GET on the cluster's task collection, no body.
  function ListTasks(client: Client, serde: Serde, clusterId: string): (r: Result<seq<Task>, Errors.Error>)
    ensures Fetched(r, client, serde, Get, "/v1/clusters/" + clusterId + "/tasks", None, DecodeTaskList)
  {
    Fetch(client, serde, Get, ResourceUrl.TasksPath(clusterId), None, DecodeTaskList)
  }

  /// When the response body parses to an object, `get` succeeds with `t` exactly when
  /// the object's "task" entry writes `t`.
  lemma GetTaskReturnsTask(client: Client, serde: Serde, clusterId: string, taskId: string, root: map<string, Json>, t: Task)
    requires Exchange(client, Get, "/v1/clusters/" + clusterId + "/tasks/" + taskId, None).Ok?
    requires serde.parse(Exchange(client, Get, "/v1/clusters/" + clusterId + "/tasks/" + taskId, None).value) == Ok(Object(root))
    ensures GetTask(client, serde, clusterId, taskId) == Ok(t)
        <==> "task" in root && DescribesValue(root["task"], t)
  {
    TaskRootExactly(root, t);
  }

  /// When the response body parses to `{"tasks": [..items..]}`, `list` succeeds with
  /// `ts` exactly when each item writes the task at its position.
  lemma ListTasksReturnsTasks(client: Client, serde: Serde, clusterId: string, items: seq<Json>, ts: seq<Task>)
    requires Exchange(client, Get, "/v1/clusters/" + clusterId + "/tasks", None).Ok?
    requires serde.parse(Exchange(client, Get, "/v1/clusters/" + clusterId + "/tasks", None).value) == Ok(Wrap("tasks", Array(items)))
    ensures ListTasks(client, serde, clusterId) == Ok(ts)
        <==> |ts| == |items| && forall i :: 0 <= i < |items| ==> DescribesValue(items[i], ts[i])
  {
    TaskListExactly(items, ts);
  }
}

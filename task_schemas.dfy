/// The task resource as the API returns it: the `Task` record, whose kind is
/// read from the JSON key "type", and the `TaskRoot` and `ListRoot` envelopes.
module TaskSchemas {
  import opened Results
  import opened Json
  import TaskStatus
  import TaskType

  datatype Task = Task(
    id: string,
    startedAt: Timestamp,
    updatedAt: Option<Timestamp>,
    clusterId: string,
    status: TaskStatus.Status,
    taskType: TaskType.Type)

  /// The object `fields` holds the fields of `t` that precede its status:
  /// `updated_at` may be absent or null when `None`.
  predicate DescribesHead(fields: map<string, Json>, t: Task) {
    && Holds(fields, "id", Str(t.id))
    && Holds(fields, "started_at", TimestampJson(t.startedAt))
    && HoldsOptional(fields, "updated_at", OptionalTimestampJson(t.updatedAt))
    && Holds(fields, "cluster_id", Str(t.clusterId))
  }

  /// The object `fields` describes task `t`: the head fields as `DescribesHead`
  /// says, then the status and the kind in their SCREAMING_SNAKE_CASE spellings,
  /// bare or mapped to null, the kind under "type".
  predicate Describes(fields: map<string, Json>, t: Task) {
    && DescribesHead(fields, t)
    && "status" in fields && SpellsUnit(fields["status"], t.status.Wire())
    && "type" in fields && SpellsUnit(fields["type"], t.taskType.Wire())
  }

  /// The fields of `Task` in declaration order, the order of its array form.
  const TASK_FIELDS: seq<string> := ["id", "started_at", "updated_at", "cluster_id", "status", "type"]

  /// `j` writes task `t`: as an object describing it, or as an array holding
  /// its fields in declaration order.
  predicate DescribesValue(j: Json, t: Task) {
    || (j.Object? && Describes(j.fields, t))
    || (j.Array? && |j.items| == |TASK_FIELDS| && Describes(Positional(TASK_FIELDS, j.items), t))
  }

  /// The derived `Deserialize` of `Task`, with `task_type` renamed to "type".
  function DecodeTask(j: Json): (r: Result<Task, JsonError>)
    ensures !j.Object? && !j.Array? ==> r == Err(InvalidType("struct Task"))
    ensures j.Array? && |j.items| != |TASK_FIELDS| ==> r == Err(InvalidLength(|j.items|))
    ensures j.Object? && "type" !in j.fields ==> r.Err?
    ensures r.Ok? && j.Object? ==> SpellsUnit(j.fields["type"], r.value.taskType.Wire())
  {
    var f :- AsStruct(j, "struct Task", TASK_FIELDS);
    DecodeTaskFields(f)
  }

  /// The fields of a task, read by name.
  function DecodeTaskFields(f: map<string, Json>): (r: Result<Task, JsonError>)
    ensures "type" !in f ==> r.Err?
    ensures r.Ok? ==> SpellsUnit(f["type"], r.value.taskType.Wire())
  {
    var head :- DecodeTaskHead(f);
    var status :- Required(f, "status", TaskStatus.Decode);
    var taskType :- Required(f, "type", TaskType.Decode);
    Ok(Task(head.0, head.1, head.2, head.3, status, taskType))
  }

  /// The fields from `id` to `cluster_id`.
  function DecodeTaskHead(f: map<string, Json>): Result<(string, Timestamp, Option<Timestamp>, string), JsonError> {
    var id :- Required(f, "id", AsString);
    var startedAt :- Required(f, "started_at", AsTimestamp);
    var updatedAt :- Optional(f, "updated_at", AsTimestamp);
    var clusterId :- Required(f, "cluster_id", AsString);
    Ok((id, startedAt, updatedAt, clusterId))
  }

  lemma HeadDecodesExactly(fields: map<string, Json>, t: Task)
    ensures DecodeTaskHead(fields) == Ok((t.id, t.startedAt, t.updatedAt, t.clusterId)) <==> DescribesHead(fields, t)
  {
    if DescribesHead(fields, t) {
      assert Required(fields, "id", AsString) == Ok(t.id);
      assert Required(fields, "started_at", AsTimestamp) == Ok(t.startedAt);
      assert Optional(fields, "updated_at", AsTimestamp) == Ok(t.updatedAt);
      assert Required(fields, "cluster_id", AsString) == Ok(t.clusterId);
    }
  }

  /// An object decodes to a task exactly when it describes that task; other keys,
  /// among them a "task_type" key, are ignored.
  lemma DecodeTaskExactly(fields: map<string, Json>, t: Task)
    ensures DecodeTaskFields(fields) == Ok(t) <==> Describes(fields, t)
  {
    HeadDecodesExactly(fields, t);
    if "status" in fields {
      TaskStatus.DecodeSpelled(fields["status"], t.status);
    }
    if "type" in fields {
      TaskType.DecodeSpelled(fields["type"], t.taskType);
    }
  }

  /// Any JSON value decodes to a task exactly when it writes that task, in
  /// either form.
  lemma DecodeTaskValueExactly(j: Json, t: Task)
    ensures DecodeTask(j) == Ok(t) <==> DescribesValue(j, t)
  {
    match j
    case Object(fields) => DecodeTaskExactly(fields, t);
    case Array(items) =>
      if |items| == |TASK_FIELDS| {
        DecodeTaskExactly(Positional(TASK_FIELDS, items), t);
      }
    case _ =>
  }

  /// `TaskRoot`: the task under the key "task".
  function DecodeTaskRoot(j: Json): (r: Result<Task, JsonError>)
    ensures j.Object? && "task" !in j.fields ==> r == Err(MissingField("task"))
    ensures j.Object? && "task" in j.fields ==> r == DecodeTask(j.fields["task"])
    ensures j.Array? && |j.items| == 1 ==> r == DecodeTask(j.items[0])
  {
    Unwrap(j, "task", DecodeTask)
  }

  /// `ListRoot`: the tasks under the key "tasks".
  function DecodeTaskList(j: Json): (r: Result<seq<Task>, JsonError>)
    ensures j.Object? && "tasks" !in j.fields ==> r == Err(MissingField("tasks"))
    ensures j.Object? && "tasks" in j.fields ==> r == AsList(j.fields["tasks"], DecodeTask)
    ensures j.Array? && |j.items| == 1 ==> r == AsList(j.items[0], DecodeTask)
  {
    Unwrap(j, "tasks", (items: Json) => AsList(items, DecodeTask))
  }

  /// A root decodes to a task exactly when its "task" entry writes it.
  lemma TaskRootExactly(root: map<string, Json>, t: Task)
    ensures DecodeTaskRoot(Object(root)) == Ok(t)
        <==> "task" in root && DescribesValue(root["task"], t)
  {
    if "task" in root {
      DecodeTaskValueExactly(root["task"], t);
    }
  }

  /// A list decodes exactly when each element writes the task at the same position.
  lemma TaskListExactly(items: seq<Json>, ts: seq<Task>)
    ensures DecodeTaskList(Wrap("tasks", Array(items))) == Ok(ts)
        <==> |ts| == |items| && forall i :: 0 <= i < |items| ==> DescribesValue(items[i], ts[i])
  {
    EachExactly(items, DecodeTask, ts);
    if |ts| == |items| {
      forall i | 0 <= i < |items|
        ensures DecodeTask(items[i]) == Ok(ts[i]) <==> DescribesValue(items[i], ts[i])
      {
        DecodeTaskValueExactly(items[i], ts[i]);
      }
    }
  }
}

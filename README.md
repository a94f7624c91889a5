# selectel-mks-rust, modelled in Dafny

A model of the Rust client for Selectel's Managed Kubernetes Service (MKS) REST API. It covers:

- **Client construction.** `MKS::new`, `MKS::with_builder` and the `Builder`: the token is checked first, then the base endpoint is parsed, then the configuration is filled in. The default timeout is 30 seconds.
- **The request pipeline of every api function.** Each one builds a `/`-separated path, picks a method, and may serialise a `{"<resource>": opts}` body. It then calls `new_request` and `do_request`, decodes an envelope, and maps failures to `SerializeError` or `DeserializeError(err, body)`.
- **serde's derived decoding of the response records.** This covers `Cluster`, `KubernetesOptions`, `Task`, `Node`, `Nodegroup` and `KubeVersion` and their root envelopes. It includes the `Option` fields that may be absent or null, and the `type` rename of `Task::task_type`. As serde_json allows, each struct is read from an object by key or from an array of its fields in declaration order.
- **The enum codecs.** The cluster `Status`, task `Status` and task `Type` are decoded from the SCREAMING_SNAKE_CASE of their variant names. The spelling may be a bare string or the single key of a map to null, the two forms serde_json reads a unit variant from. The hand-written `Display` impls of the task enums are proved to agree with that rule, and the spellings are proved injective.
- **The error taxonomy.** The `Display` messages of `MKSError` and its `From` conversions.

The model is pure: datatypes and functions. The client's I/O primitives, serde_json's text layer, `Url::parse` and the Cargo package metadata are function-valued parameters (`Transport.Client`, `Json.Serde`, `Mks.Platform`). Rust's `?` is Dafny's `:-`.

Modules, one per source file (plus three shared ones):

| module | models |
|---|---|
| `Mks` | `src/lib.rs` |
| `Errors` | `src/errors.rs` and `src/error.rs`, unified as one `Error` datatype |
| `ResourceUrl` | `src/resource_url.rs` and the paths the api files `format!` |
| `Transport` | the `new_request` / `do_request` / `from_str` / `to_string` pipeline shared by the api files |
| `ClusterApi`, `NodegroupApi`, `NodeApi`, `TaskApi`, `KubeVersionApi` | `src/*/api.rs` |
| `ClusterStatus`, `ClusterSchemas` | `src/cluster/schemas.rs` |
| `TaskStatus`, `TaskType`, `TaskSchemas` | `src/task/schemas.rs` |
| `NodeSchemas`, `NodegroupSchemas`, `KubeVersionSchemas` | the record types the api functions return |
| `Json` | the JSON values and the derived-`Deserialize` rules the schemas use |
| `Naming`, `CamelWords` | serde's `rename_all = "SCREAMING_SNAKE_CASE"` rule and the words of the variant names |
| `Results` | `Option` and `Result` |

## Model

| member | source | states |
|---|---|---|
| Mks.DefaultBuilder | src/lib.rs:88-98 | `Builder::default()` has no client and a timeout of `DEFAULT_TIMEOUT` = 30 seconds |
| Mks.Builder.WithClient | src/lib.rs:105-108 | sets the client to the given one and leaves the timeout unchanged |
| Mks.Builder.WithTimeout | src/lib.rs:113-116 | sets the timeout and leaves the client unchanged |
| Mks.Builder.Build | src/lib.rs:119-121 | empty token gives `TokenError`; success exactly when the token is non-empty and the endpoint parses; the result keeps the token, the builder's timeout and a supplied client |
| Mks.UserAgent | src/lib.rs:69-71 | the user agent is the package name, one `/`, then the package version |
| Mks.ParseEndpoint | src/lib.rs:45 | a parse failure becomes `EndpointError`; success carries the parsed URL |
| Mks.WithBuilder | src/lib.rs:37-67 | token checked first (`TokenError` whatever the endpoint), then the endpoint (`EndpointError`); on success token, parsed endpoint, user agent and builder timeout are stored, and the supplied client is used or else a fresh one |
| Mks.New | src/lib.rs:33-35 | `new` is `build` on the default builder, so a successful client has the 30-second timeout and a fresh Hyper client |
| Mks.EmptyTokenFirst | src/lib.rs:38-45 | an empty token is rejected with `TokenError` for every endpoint and every builder |
| Mks.TimeoutOnlyChangesTimeout | src/lib.rs:113-121 | a builder with a timeout set validates exactly as `new` does and its client differs only in the timeout |
| Mks.SuppliedClientIsUsed | src/lib.rs:48-50 | a client given to the builder is the client the constructed `MKS` holds |
| Mks.NewDefaultBuilderExample | src/lib.rs:129-139 | the unit test: endpoint, token `token_a`, user agent `name/version`, timeout 30 s |
| Mks.NewWithBuilderExample | src/lib.rs:142-155 | the unit test: a builder with a 10 s timeout yields token `token_b` and timeout 10 s |
| Errors.Message | src/errors.rs:26-42 | `HttpError(s, b)` shows as `bad status code: ` + decimal `s` + `, error body: ` + `b`; `HyperError` embeds the Hyper message after its fixed prefix |
| Errors.FromHyper | src/errors.rs:44-48 | a Hyper error always becomes `HyperError` wrapping that same error |
| Errors.FromElapsed | src/errors.rs:50-54 | an elapsed timeout always becomes `TimeoutError`, whose message is `request timed out` |
| Errors.FixedMessagesDistinct | src/errors.rs:29-39 | the payload-free variants have pairwise different messages |
| Errors.FixedMessages | src/errors.rs:29-39 | the five payload-free variants display their fixed texts: `failed to parse base endpoint URL`, `token cannot be empty`, `failed to build a new request`, `request timed out`, `failed to parse URL for request` |
| Errors.Decimal | src/errors.rs:32 | a status code is written as a non-empty run of digits without a leading zero |
| Errors.DecimalRoundTrip | src/errors.rs:32 | reading the decimal text back gives the status code |
| Errors.HttpMessageParses | src/errors.rs:31-33 | status and body can be read back out of an `HttpError` message; the body appears verbatim |
| Errors.HttpMessageInjective | src/errors.rs:31-33 | two `HttpError` messages are equal exactly when status and body are |
| ResourceUrl.ClustersPath | src/cluster/api.rs:20 | the cluster collection path is `/v1/clusters` |
| ResourceUrl.ClusterPath | src/cluster/api.rs:9 | the cluster path is `/v1/clusters/` + id |
| ResourceUrl.NodegroupsPath | src/nodegroup/api.rs:27-30 | the nodegroup collection path is `/v1/clusters/` + cluster + `/nodegroups` |
| ResourceUrl.NodegroupPath | src/nodegroup/api.rs:13-16 | the nodegroup path is `/v1/clusters/` + cluster + `/nodegroups/` + nodegroup |
| ResourceUrl.NodegroupResizePath | src/nodegroup/api.rs:74-77 | the resize path is the nodegroup path + `/resize` |
| ResourceUrl.NodePath | src/node/api.rs:14-17 | the node path is the nodegroup path + `/` + node, with no `nodes` segment |
| ResourceUrl.NodeReinstallPath | src/node/api.rs:33-36 | the reinstall path is the node path + `/reinstall` |
| ResourceUrl.TasksPath | src/task/api.rs:23 | the task collection path is `/v1/clusters/` + cluster + `/tasks` |
| ResourceUrl.TaskPath | src/task/api.rs:9-12 | the task path is `/v1/clusters/` + cluster + `/tasks/` + task |
| ResourceUrl.KubeVersionsPath | src/kubeversion/api.rs:9 | the path is always `/v1/kubeversions` |
| ResourceUrl.ItemPathsExtendCollections | src/nodegroup/api.rs:13-30 | every item path is its collection path + `/` + id, every action path the item path + `/` + action |
| ResourceUrl.ClusterPathInjective | src/cluster/api.rs:9 | different cluster ids give different paths |
| Json.FromStr | src/cluster/api.rs:13-14 | `from_str` fails with the parse error or else gives the decoder's result |
| Json.AsString | src/cluster/schemas.rs:30 | a `String` field accepts exactly a JSON string, whose text it keeps |
| Json.AsBool | src/cluster/schemas.rs:78 | a `bool` field accepts exactly a JSON boolean |
| Json.AsU32 | src/nodegroup/schemas.rs:26 | a `u32` accepts exactly the integers in [0, 2^32); others are rejected, not wrapped |
| Json.AsStruct | src/cluster/schemas.rs:27-28 | an object gives its fields by key; an array with one element per declared field gives them by position; an array of another length is `InvalidLength`; any other value is `InvalidType` |
| Json.Positional | src/cluster/schemas.rs:27-91 | the array form puts each element under the field name declared at its position; the names are exactly the keys |
| Json.Required | src/cluster/schemas.rs:30 | an absent required field is `MissingField(key)`, a present one is decoded |
| Json.Optional | src/cluster/schemas.rs:36 | an absent or null `Option` field is `None`; otherwise it is decoded and wrapped in `Some` |
| Json.Each | src/nodegroup/schemas.rs:38 | a `Vec` decodes exactly when every element does, position by position |
| Json.EachExactly | src/nodegroup/schemas.rs:38 | a sequence decodes to `xs` exactly when each element decodes to the element of `xs` at its position |
| Json.AsTimestamp | src/cluster/schemas.rs:33 | a timestamp field accepts exactly a JSON string and keeps its text |
| Json.AsList | src/task/schemas.rs:94 | a `Vec` field accepts exactly a JSON array, decoded element by element |
| Json.AsStringMap | src/nodegroup/schemas.rs:41 | a `HashMap<String, String>` accepts exactly an object of strings, with the same keys and texts |
| Json.Unwrap | src/cluster/schemas.rs:94-97 | a root struct decodes its one key of an object (`MissingField` when absent) or the only element of a one-element array; other arrays are `InvalidLength`, other values `InvalidType` |
| Json.Wrap | src/cluster/api.rs:34 | the serialised options root is an object with the one key |
| Json.UnwrapWrap | src/cluster/api.rs:34 | unwrapping a wrapped value decodes exactly that value |
| Json.UnwrapIgnoresOtherKeys | src/cluster/schemas.rs:94-97 | a root struct ignores every key but its own, as serde does without `deny_unknown_fields` |
| Json.EnumTag | src/cluster/schemas.rs:5-7 | an enum is read from a bare string (no content) or from an object with exactly one key (that key, its value as content); any other object is `InvalidValue`, any other value `InvalidType` |
| Json.UnitVariant | src/cluster/schemas.rs:5-7 | a unit variant is decoded from every value that writes a spelling, bare or mapped to null, as that spelling; success always comes from such a value |
| Json.UnitVariantRefusesContent | src/cluster/schemas.rs:5-7 | a unit variant written as a map to anything but null is refused |
| Results.Result.MapErr | src/cluster/api.rs:13-14 | `map_err` keeps a success and its value and replaces an error by its image under the function |
| Naming.SnakeTail | src/cluster/schemas.rs:6 | the renamed tail has no lowercase letter and is no shorter than the input |
| Naming.ScreamingSnake | src/cluster/schemas.rs:6 | the renamed identifier has no lowercase letter, is no shorter than the name and starts with its upper-cased first letter |
| Naming.SnakeTailKeepsLetters | src/cluster/schemas.rs:6 | with the inserted underscores removed, the renamed tail is the tail upper-cased character for character |
| Naming.ScreamingSnakeKeepsLetters | src/cluster/schemas.rs:6 | with its underscores removed, the renamed identifier is the name upper-cased: no character is dropped or reordered |
| Transport.Exchange | src/cluster/api.rs:10-11 | `new_request` errors propagate; otherwise the result is `do_request`'s |
| Transport.Decode | src/cluster/api.rs:13-14 | a decode failure becomes `DeserializeError(err, body)` with the exact body |
| Transport.Serialize | src/cluster/api.rs:35 | a serialisation failure becomes `SerializeError(err)` |
| Transport.Fetch | src/cluster/api.rs:10-16 | transport errors unchanged, decode failure as `DeserializeError` with the body, otherwise the decoded value |
| Transport.Send | src/cluster/api.rs:49-52 | transport errors unchanged, otherwise `()` whatever the body |
| Transport.DecodedFailures | src/cluster/api.rs:13-14 | every decode failure after a successful exchange is a `DeserializeError` carrying that body |
| Transport.ExchangeFailureSkipsDecoding | src/cluster/api.rs:10-11 | when the exchange fails, no decoding happens: the result is the exchange error whatever the decoder |
| ClusterApi.GetCluster | src/cluster/api.rs:8-17 | GET on `/v1/clusters/` + id with no body; the `cluster` of the decoded root, transport errors unchanged, decode failures with the body |
| ClusterApi.ListClusters | src/cluster/api.rs:19-28 | GET on `/v1/clusters` with no body; the `clusters` of the decoded root |
| ClusterApi.CreateCluster | src/cluster/api.rs:30-45 | `{"cluster": opts}` is serialised first and a failure is `SerializeError`; otherwise POST of that text on `/v1/clusters`, decoding the created cluster |
| ClusterApi.DeleteCluster | src/cluster/api.rs:47-53 | DELETE on the same path as get, no body, `()` on success |
| ClusterApi.GetClusterReturnsCluster | src/cluster/api.rs:13-16 | for a body that parses to an object, get returns `c` exactly when the object's `cluster` entry writes `c`, as an object or as an array |
| ClusterApi.ListClustersReturnsClusters | src/cluster/api.rs:24-27 | for a body `{"clusters": [...]}`, list returns exactly the clusters the items write, in order |
| ClusterApi.CreateSerializeFailureSkipsRequest | src/cluster/api.rs:34-38 | a serialisation failure is a `SerializeError` and no client call influences the result |
| NodegroupApi.GetNodegroup | src/nodegroup/api.rs:8-24 | GET on `/v1/clusters/` + c + `/nodegroups/` + n with no body; the `nodegroup` of the decoded root |
| NodegroupApi.ListNodegroups | src/nodegroup/api.rs:26-38 | GET on `/v1/clusters/` + c + `/nodegroups`; the `nodegroups` of the decoded root |
| NodegroupApi.CreateNodegroup | src/nodegroup/api.rs:40-52 | serialise `{"nodegroup": opts}` (failure: `SerializeError`), then POST on the collection path; `()` on success |
| NodegroupApi.DeleteNodegroup | src/nodegroup/api.rs:54-63 | DELETE on the nodegroup path with no body; `()` on success |
| NodegroupApi.ResizeNodegroup | src/nodegroup/api.rs:65-82 | serialise `{"nodegroup": opts}`, then POST on the nodegroup path + `/resize`; `()` on success |
| NodegroupApi.UpdateNodegroup | src/nodegroup/api.rs:84-101 | serialise `{"nodegroup": opts}`, then PUT on the nodegroup path; `()` on success |
| NodegroupApi.GetNodegroupReturnsNodegroup | src/nodegroup/api.rs:20-23 | get returns `g` exactly when the `nodegroup` entry of the parsed body writes `g`, as an object or as an array |
| NodegroupApi.ListNodegroupsReturnsNodegroups | src/nodegroup/api.rs:34-37 | list returns exactly the nodegroups the items under `nodegroups` write, in order |
| NodegroupApi.WritesSerializeBeforeRequest | src/nodegroup/api.rs:41-48 | create, resize and update report a serialisation failure before any request, whatever the client does |
| NodeApi.GetNode | src/node/api.rs:8-25 | GET on the node path with no body; the `node` of the decoded root |
| NodeApi.ReinstallNode | src/node/api.rs:27-41 | POST with no body on the node path + `/reinstall`; `()` on success |
| NodeApi.GetNodeReturnsNode | src/node/api.rs:21-24 | get_node returns `n` exactly when the `node` entry of the parsed body writes `n`, as an object or as an array |
| TaskApi.GetTask | src/task/api.rs:8-20 | GET on `/v1/clusters/` + c + `/tasks/` + t with no body; the `task` of the decoded `TaskRoot` |
| TaskApi.ListTasks | src/task/api.rs:22-31 | GET on `/v1/clusters/` + c + `/tasks`; the `tasks` of the decoded `ListRoot` |
| TaskApi.GetTaskReturnsTask | src/task/api.rs:16-19 | get returns `t` exactly when the `task` entry of the parsed body writes `t`, as an object or as an array |
| TaskApi.ListTasksReturnsTasks | src/task/api.rs:27-30 | list returns exactly the tasks the items under `tasks` write, in order |
| KubeVersionApi.ListKubeVersions | src/kubeversion/api.rs:8-17 | GET on the constant `/v1/kubeversions` with no body; the `kube_versions` of the decoded root |
| KubeVersionApi.ListKubeVersionsReturnsVersions | src/kubeversion/api.rs:13-16 | the list is exactly the version and default flag each item under `kube_versions` writes, as an object or as `[version, is_default]`, in order |
| ClusterSchemas.DecodeKubernetesOptions | src/cluster/schemas.rs:101-106 | decodes exactly an object with a boolean `enable_pod_security_policy` (a missing key is `MissingField`) or a one-element array holding that boolean; other arrays are `InvalidLength` |
| ClusterSchemas.KubernetesOptionsExactly | src/cluster/schemas.rs:101-106 | any value decodes to options `o` exactly when it writes them, as an object or as a one-element array |
| ClusterSchemas.DecodeCluster | src/cluster/schemas.rs:27-91 | a value that is neither object nor array is rejected, an array of other than 19 elements is `InvalidLength`, a missing `status` is `MissingField("status")`, and a decoded status is the one written under `status` |
| ClusterSchemas.DecodeClusterFields | src/cluster/schemas.rs:27-91 | a field map without `status` is `MissingField("status")`; a decoded status is the one written under `status` |
| ClusterSchemas.DecodeClusterRest | src/cluster/schemas.rs:30-90 | the decoded cluster keeps the status decoded before it |
| ClusterSchemas.HeadDecodesExactly | src/cluster/schemas.rs:30-57 | the fields `id` to `kube_version` decode to given values exactly when the object holds them (`updated_at` absent or null for `None`) |
| ClusterSchemas.TailDecodesExactly | src/cluster/schemas.rs:60-90 | the fields `region` to `kubernetes_options` decode to given values exactly when the object holds them (`pki_tree_updated_at` optional, the options written as their own struct) |
| ClusterSchemas.RestDecodesExactly | src/cluster/schemas.rs:30-90 | all non-status fields decode to those of `c` exactly when the object describes them |
| ClusterSchemas.DecodeClusterExactly | src/cluster/schemas.rs:27-91 | a field map decodes to `c` exactly when it describes `c`: two optional timestamps, every other field required, status in its SCREAMING_SNAKE_CASE spelling, bare or mapped to null |
| ClusterSchemas.DecodeClusterValueExactly | src/cluster/schemas.rs:27-91 | any value decodes to `c` exactly when it writes `c`: an object describing it, or an array of its 19 fields in declaration order |
| ClusterSchemas.DecodeClusterRoot | src/cluster/schemas.rs:94-97 | `ClusterRoot` reads exactly the key `cluster`, or the one element of its array form |
| ClusterSchemas.DecodeClusterList | src/cluster/api.rs:24-27 | the list root reads exactly the key `clusters` (or its one-element array form) as an array of clusters |
| ClusterSchemas.ClusterRootExactly | src/cluster/schemas.rs:94-97 | a root decodes to `c` exactly when its `cluster` entry writes `c` in either form |
| ClusterSchemas.ClusterListExactly | src/cluster/api.rs:24-27 | a `clusters` array decodes to `cs` exactly when each item writes the cluster at its position |
| TaskSchemas.DecodeTask | src/task/schemas.rs:63-83 | a value that is neither object nor array is rejected, an array of other than 6 elements is `InvalidLength`, a missing `type` fails, and the decoded kind is the one written under `type` |
| TaskSchemas.DecodeTaskFields | src/task/schemas.rs:63-83 | a field map without `type` fails; the decoded kind is the one written under `type` |
| TaskSchemas.HeadDecodesExactly | src/task/schemas.rs:66-75 | `id`, `started_at`, `updated_at` and `cluster_id` decode to given values exactly when the object holds them |
| TaskSchemas.DecodeTaskExactly | src/task/schemas.rs:63-83 | a field map decodes to `t` exactly when it describes `t`, the kind read from `type`, both enums bare or mapped to null; `updated_at` optional, the rest required |
| TaskSchemas.DecodeTaskValueExactly | src/task/schemas.rs:63-83 | any value decodes to `t` exactly when it writes `t`: an object describing it, or an array of its 6 fields in declaration order |
| TaskSchemas.DecodeTaskRoot | src/task/schemas.rs:86-89 | `TaskRoot` reads exactly the key `task`, or the one element of its array form |
| TaskSchemas.DecodeTaskList | src/task/schemas.rs:92-95 | `ListRoot` reads exactly the key `tasks`, or the one element of its array form |
| TaskSchemas.TaskRootExactly | src/task/schemas.rs:86-89 | a root decodes to `t` exactly when its `task` entry writes `t` in either form |
| TaskSchemas.TaskListExactly | src/task/schemas.rs:92-95 | a `tasks` array decodes to `ts` exactly when each item writes the task at its position |
| NodeSchemas.DecodeNode | src/node/schemas.rs:4-24 | a value that is neither object nor array is rejected, an array of other than 6 elements is `InvalidLength`, and a missing `id` is `MissingField("id")` |
| NodeSchemas.DecodeNodeFields | src/node/schemas.rs:4-24 | a field map without `id` is `MissingField("id")` |
| NodeSchemas.DecodeNodeExactly | src/node/schemas.rs:4-24 | a field map decodes to `n` exactly when it holds its fields, `updated_at` optional |
| NodeSchemas.DecodeNodeValueExactly | src/node/schemas.rs:4-24 | any value decodes to `n` exactly when it writes `n`: an object describing it, or an array of its 6 fields in declaration order |
| NodeSchemas.DecodeNodeRoot | src/node/api.rs:22-24 | the node root reads exactly the key `node`, or the one element of its array form |
| NodegroupSchemas.DecodeNodegroup | src/nodegroup/schemas.rs:7-42 | a value that is neither object nor array is rejected, an array of other than 11 elements is `InvalidLength`, and a missing `id` is `MissingField("id")` |
| NodegroupSchemas.DecodeNodegroupFields | src/nodegroup/schemas.rs:7-42 | a field map without `id` is `MissingField("id")` |
| NodegroupSchemas.HeadDecodesExactly | src/nodegroup/schemas.rs:11-20 | `id` to `flavor_id` decode to given values exactly when the object holds them |
| NodegroupSchemas.NodesExactly | src/nodegroup/schemas.rs:38 | the `nodes` value decodes to `nodes` exactly when it is an array whose items write those nodes, one per position |
| NodegroupSchemas.LabelsExactly | src/nodegroup/schemas.rs:41 | the `labels` value decodes to `labels` exactly when it is an object with exactly those keys, each holding its label as a string |
| NodegroupSchemas.TailDecodesExactly | src/nodegroup/schemas.rs:26-41 | `volume_gb` (a `u32`) to `labels` decode to given values exactly when the object holds them, each node written as its own record and the labels as an object of strings |
| NodegroupSchemas.DecodeNodegroupExactly | src/nodegroup/schemas.rs:7-42 | a field map decodes to `g` exactly when it describes `g`; a volume size outside `u32` is rejected |
| NodegroupSchemas.DecodeNodegroupValueExactly | src/nodegroup/schemas.rs:7-42 | any value decodes to `g` exactly when it writes `g`: an object describing it, or an array of its 11 fields in declaration order |
| NodegroupSchemas.DecodeNodegroupRoot | src/nodegroup/api.rs:20-23 | the nodegroup root reads exactly the key `nodegroup`, or the one element of its array form |
| NodegroupSchemas.DecodeNodegroupList | src/nodegroup/schemas.rs:44-48 | `NodegroupsRoot` reads exactly the key `nodegroups`, or the one element of its array form |
| KubeVersionSchemas.DecodeKubeVersion | src/kubeversion/schemas.rs:4-11 | decodes exactly an object with a string `version` and a boolean `is_default` (`version` reported missing first) or a two-element array of a string and a boolean; other values are `InvalidType` or `InvalidLength` |
| KubeVersionSchemas.DecodeKubeVersionExactly | src/kubeversion/schemas.rs:4-11 | any value decodes to `v` exactly when it writes `v`, as an object or as `[version, is_default]` |
| KubeVersionSchemas.DecodeKubeVersionArrayForm | src/kubeversion/schemas.rs:4-11 | `["1.29.2", true]` decodes to that version, flagged default; a one-element array is `InvalidLength(1)` |
| KubeVersionSchemas.DecodeKubeVersions | src/kubeversion/schemas.rs:14-17 | `KubeVersionsRoot` reads exactly the key `kube_versions`, or the one element of its array form |
| Naming.FirstWord | src/cluster/schemas.rs:6 | a single capitalised word renames to its upper-case letters |
| Naming.NextWord | src/cluster/schemas.rs:6 | appending a capitalised word appends `_` and that word in upper case |
| Naming.SnakeTailAppend | src/cluster/schemas.rs:6 | the rename rule works piecewise over concatenation |
| ClusterStatus.StatusSpellingActive | src/cluster/schemas.rs:8 | `Active` is spelled `ACTIVE` on the wire, the SCREAMING_SNAKE_CASE of its name |
| ClusterStatus.StatusSpellingPendingCreate | src/cluster/schemas.rs:9 | `PendingCreate` is spelled `PENDING_CREATE` on the wire, the SCREAMING_SNAKE_CASE of its name |
| ClusterStatus.StatusSpellingPendingUpdate | src/cluster/schemas.rs:10 | `PendingUpdate` is spelled `PENDING_UPDATE` on the wire, the SCREAMING_SNAKE_CASE of its name |
| ClusterStatus.StatusSpellingPendingUpgrade | src/cluster/schemas.rs:11 | `PendingUpgrade` is spelled `PENDING_UPGRADE` on the wire, the SCREAMING_SNAKE_CASE of its name |
| ClusterStatus.StatusSpellingPendingRotateCerts | src/cluster/schemas.rs:12 | `PendingRotateCerts` is spelled `PENDING_ROTATE_CERTS` on the wire, the SCREAMING_SNAKE_CASE of its name |
| ClusterStatus.StatusSpellingPendingDelete | src/cluster/schemas.rs:13 | `PendingDelete` is spelled `PENDING_DELETE` on the wire, the SCREAMING_SNAKE_CASE of its name |
| ClusterStatus.StatusSpellingPendingResize | src/cluster/schemas.rs:14 | `PendingResize` is spelled `PENDING_RESIZE` on the wire, the SCREAMING_SNAKE_CASE of its name |
| ClusterStatus.StatusSpellingPendingNodeReinstall | src/cluster/schemas.rs:15 | `PendingNodeReinstall` is spelled `PENDING_NODE_REINSTALL` on the wire, the SCREAMING_SNAKE_CASE of its name |
| ClusterStatus.StatusSpellingPendingUpgradePatchVersion | src/cluster/schemas.rs:16 | `PendingUpgradePatchVersion` is spelled `PENDING_UPGRADE_PATCH_VERSION` on the wire, the SCREAMING_SNAKE_CASE of its name |
| ClusterStatus.StatusSpellingPendingUpgradeMinorVersion | src/cluster/schemas.rs:17 | `PendingUpgradeMinorVersion` is spelled `PENDING_UPGRADE_MINOR_VERSION` on the wire, the SCREAMING_SNAKE_CASE of its name |
| ClusterStatus.StatusSpellingPendingUpdateNodegroup | src/cluster/schemas.rs:18 | `PendingUpdateNodegroup` is spelled `PENDING_UPDATE_NODEGROUP` on the wire, the SCREAMING_SNAKE_CASE of its name |
| ClusterStatus.StatusSpellingPendingUpgradeMastersConfiguration | src/cluster/schemas.rs:19 | `PendingUpgradeMastersConfiguration` is spelled `PENDING_UPGRADE_MASTERS_CONFIGURATION` on the wire, the SCREAMING_SNAKE_CASE of its name |
| ClusterStatus.StatusSpellingPendingUpgradeClusterConfiguration | src/cluster/schemas.rs:20 | `PendingUpgradeClusterConfiguration` is spelled `PENDING_UPGRADE_CLUSTER_CONFIGURATION` on the wire, the SCREAMING_SNAKE_CASE of its name |
| ClusterStatus.StatusSpellingMaintenance | src/cluster/schemas.rs:21 | `Maintenance` is spelled `MAINTENANCE` on the wire, the SCREAMING_SNAKE_CASE of its name |
| ClusterStatus.StatusSpellingError | src/cluster/schemas.rs:22 | `Error` is spelled `ERROR` on the wire, the SCREAMING_SNAKE_CASE of its name |
| ClusterStatus.StatusSpellingUnknown | src/cluster/schemas.rs:23 | `Unknown` is spelled `UNKNOWN` on the wire, the SCREAMING_SNAKE_CASE of its name |
| ClusterStatus.StatusSpellings | src/cluster/schemas.rs:5-24 | each status's renamed spelling is the literal of the table of sixteen |
| ClusterStatus.Status.Name | src/cluster/schemas.rs:7-24 | each variant's identifier is non-empty and starts with a capital letter |
| ClusterStatus.Status.Wire | src/cluster/schemas.rs:6 | each variant's serde spelling is non-empty and has no lowercase letter |
| ClusterStatus.SpellingKeys | src/cluster/schemas.rs:7-24 | each spelling's length, ninth and seventeenth characters are those of the table |
| ClusterStatus.SpellingInjective | src/cluster/schemas.rs:7-24 | the sixteen spellings are pairwise distinct |
| ClusterStatus.StatusWireInjective | src/cluster/schemas.rs:5-24 | two statuses have the same renamed spelling exactly when they are the same |
| ClusterStatus.DecodeStatus | src/cluster/schemas.rs:5-24 | success means the value writes the status's spelling, bare or as a single-key map to null; an unmatched string is `UnknownVariant` (no catch-all); a value neither string nor object is rejected |
| ClusterStatus.StatusNamed | src/cluster/schemas.rs:5-24 | a spelling names the status it is the spelling of; otherwise it is `UnknownVariant` with that string |
| ClusterStatus.DecodeStatusSpelling | src/cluster/schemas.rs:5-24 | each status decodes from its own spelling |
| ClusterStatus.DecodeStatusExactly | src/cluster/schemas.rs:5-24 | a string decodes to `s` exactly when it is `s`'s spelling and fails exactly when it spells no status |
| ClusterStatus.DecodeStatusSpelled | src/cluster/schemas.rs:5-24 | any value decodes to `s` exactly when it writes `s`'s spelling, bare or as a single-key map to null |
| ClusterStatus.UnknownOnlyFromItsSpelling | src/cluster/schemas.rs:23 | `Unknown` comes only from `UNKNOWN` |
| ClusterStatus.DecodePendingRotateCerts | src/cluster/schemas.rs:12 | `PENDING_ROTATE_CERTS`, bare or mapped to null, decodes to `PendingRotateCerts` |
| TaskStatus.StatusDisplayInProgress | src/task/schemas.rs:17 | `InProgress` displays as `IN_PROGRESS`, which is the SCREAMING_SNAKE_CASE of its name |
| TaskStatus.StatusDisplayDone | src/task/schemas.rs:18 | `Done` displays as `DONE`, which is the SCREAMING_SNAKE_CASE of its name |
| TaskStatus.StatusDisplayError | src/task/schemas.rs:19 | `Error` displays as `ERROR`, which is the SCREAMING_SNAKE_CASE of its name |
| TaskStatus.StatusDisplayUnknown | src/task/schemas.rs:20 | `Unknown` displays as `UNKNOWN`, which is the SCREAMING_SNAKE_CASE of its name |
| TaskStatus.DisplayIsWire | src/task/schemas.rs:14-23 | every `Status`'s `Display` text equals its serde spelling |
| TaskStatus.Status.Name | src/task/schemas.rs:7-12 | each variant's identifier is non-empty and starts with a capital letter |
| TaskStatus.Status.Wire | src/task/schemas.rs:6 | each variant's serde spelling is non-empty and has no lowercase letter |
| TaskStatus.Status.Display | src/task/schemas.rs:14-23 | each arm writes a non-empty text that starts with a capital letter |
| TaskStatus.DisplayInjective | src/task/schemas.rs:14-23 | the 4 `Display` texts are pairwise distinct |
| TaskStatus.WireInjective | src/task/schemas.rs:5-12 | two `Status` values have the same serde spelling exactly when they are equal |
| TaskStatus.Decode | src/task/schemas.rs:5-12 | success means the value writes the variant's spelling, bare or as a single-key map to null; an unmatched string is `UnknownVariant` (no catch-all); a value neither string nor object is rejected |
| TaskStatus.Named | src/task/schemas.rs:5-12 | a spelling names the variant it is the spelling of; otherwise it is `UnknownVariant` with that string |
| TaskStatus.DecodeWire | src/task/schemas.rs:5-12 | each value decodes from its own spelling |
| TaskStatus.DecodeDisplay | src/task/schemas.rs:14-23 | decoding the `Display` text gives back the value |
| TaskStatus.DecodeExactly | src/task/schemas.rs:5-12 | a string decodes to `v` exactly when it is `v`'s spelling and fails exactly when it spells none |
| TaskStatus.DecodeSpelled | src/task/schemas.rs:5-12 | any value decodes to `v` exactly when it writes `v`'s spelling, bare or as a single-key map to null |
| TaskStatus.UnknownOnlyFromItsSpelling | src/task/schemas.rs:5-12 | `Unknown` comes only from `UNKNOWN` |
| TaskType.TypeDisplayCreateCluster | src/task/schemas.rs:46 | `CreateCluster` displays as `CREATE_CLUSTER`, which is the SCREAMING_SNAKE_CASE of its name |
| TaskType.TypeDisplayDeleteCluster | src/task/schemas.rs:47 | `DeleteCluster` displays as `DELETE_CLUSTER`, which is the SCREAMING_SNAKE_CASE of its name |
| TaskType.TypeDisplayRotateCerts | src/task/schemas.rs:48 | `RotateCerts` displays as `ROTATE_CERTS`, which is the SCREAMING_SNAKE_CASE of its name |
| TaskType.TypeDisplayNodeGroupResize | src/task/schemas.rs:49 | `NodeGroupResize` displays as `NODE_GROUP_RESIZE`, which is the SCREAMING_SNAKE_CASE of its name |
| TaskType.TypeDisplayNodeReinstall | src/task/schemas.rs:50 | `NodeReinstall` displays as `NODE_REINSTALL`, which is the SCREAMING_SNAKE_CASE of its name |
| TaskType.TypeDisplayClusterResize | src/task/schemas.rs:51 | `ClusterResize` displays as `CLUSTER_RESIZE`, which is the SCREAMING_SNAKE_CASE of its name |
| TaskType.TypeDisplayUpgradePatchVersion | src/task/schemas.rs:52 | `UpgradePatchVersion` displays as `UPGRADE_PATCH_VERSION`, which is the SCREAMING_SNAKE_CASE of its name |
| TaskType.TypeDisplayUpgradeMinorVersion | src/task/schemas.rs:53 | `UpgradeMinorVersion` displays as `UPGRADE_MINOR_VERSION`, which is the SCREAMING_SNAKE_CASE of its name |
| TaskType.TypeDisplayUpdateNodegroupLabels | src/task/schemas.rs:54 | `UpdateNodegroupLabels` displays as `UPDATE_NODEGROUP_LABELS`, which is the SCREAMING_SNAKE_CASE of its name |
| TaskType.TypeDisplayUpgradeMastersConfiguration | src/task/schemas.rs:55 | `UpgradeMastersConfiguration` displays as `UPGRADE_MASTERS_CONFIGURATION`, which is the SCREAMING_SNAKE_CASE of its name |
| TaskType.TypeDisplayUpgradeClusterConfiguration | src/task/schemas.rs:56 | `UpgradeClusterConfiguration` displays as `UPGRADE_CLUSTER_CONFIGURATION`, which is the SCREAMING_SNAKE_CASE of its name |
| TaskType.TypeDisplayUnknown | src/task/schemas.rs:57 | `Unknown` displays as `UNKNOWN`, which is the SCREAMING_SNAKE_CASE of its name |
| TaskType.DisplayIsWire | src/task/schemas.rs:43-60 | every `Type`'s `Display` text equals its serde spelling |
| TaskType.Type.Name | src/task/schemas.rs:28-41 | each variant's identifier is non-empty and starts with a capital letter |
| TaskType.Type.Wire | src/task/schemas.rs:27 | each variant's serde spelling is non-empty and has no lowercase letter |
| TaskType.Type.Display | src/task/schemas.rs:43-60 | each arm writes a non-empty text that starts with a capital letter |
| TaskType.DisplayInjective | src/task/schemas.rs:43-60 | the 12 `Display` texts are pairwise distinct |
| TaskType.WireInjective | src/task/schemas.rs:26-41 | two `Type` values have the same serde spelling exactly when they are equal |
| TaskType.Decode | src/task/schemas.rs:26-41 | success means the value writes the variant's spelling, bare or as a single-key map to null; an unmatched string is `UnknownVariant` (no catch-all); a value neither string nor object is rejected |
| TaskType.Named | src/task/schemas.rs:26-41 | a spelling names the variant it is the spelling of; otherwise it is `UnknownVariant` with that string |
| TaskType.DecodeWire | src/task/schemas.rs:26-41 | each value decodes from its own spelling |
| TaskType.DecodeDisplay | src/task/schemas.rs:43-60 | decoding the `Display` text gives back the value |
| TaskType.DecodeExactly | src/task/schemas.rs:26-41 | a string decodes to `v` exactly when it is `v`'s spelling and fails exactly when it spells none |
| TaskType.DecodeSpelled | src/task/schemas.rs:26-41 | any value decodes to `v` exactly when it writes `v`'s spelling, bare or as a single-key map to null |
| TaskType.UnknownOnlyFromItsSpelling | src/task/schemas.rs:26-41 | `Unknown` comes only from `UNKNOWN` |
| TaskStatus.DecodeInProgress | src/task/schemas.rs:17 | `IN_PROGRESS`, bare or mapped to null, decodes to `InProgress` |
| TaskType.DecodeNodeGroupResize | src/task/schemas.rs:49 | `NODE_GROUP_RESIZE`, bare or mapped to null, decodes to `NodeGroupResize` |

## Left out

- Network execution is abstract. `new_request`, `do_request`, the Hyper client and the tokio timeout race become the two functions of `Transport.Client`, and the model only states how each operation composes them.
- TLS connector selection is not modelled (`src/lib.rs:7-14`, `51-54`). A fresh client always comes from `Mks.Platform.freshClient`, so the `?` on `HttpsConnector::new()` under the native-tls feature, which can fail, is not modelled.
- `Url::parse` is an abstract function of `Mks.Platform`, and joining a path onto the base endpoint happens inside the abstract `new_request`.
- `PKG_NAME` and `PKG_VERSION` come from Cargo at build time. They are fields of `Mks.Platform`.
- `Duration` is a whole number of seconds. Sub-second timeouts are not modelled.
- serde_json's text grammar is not modelled. `Json.Serde` parses and renders text abstractly, and the model works on JSON values. Duplicate keys and number formats are below that level.
- `chrono::DateTime<Utc>` parsing is not modelled. A timestamp field accepts any JSON string and keeps its text, so malformed date strings are accepted by the model.
- Json: when several fields are wrong at once, the model reports the first failure in declaration order. serde reports type errors in the order the keys appear in the input (for the array form, the first bad element), and a missing field or a short array only once the input runs out. Which inputs are accepted and what they decode to do not depend on this order.
- Json.AsStruct: the array form's `InvalidLength` carries the array's length, not the count serde reports. An array that is too long is an error in both.
- ClusterSchemas.DecodeCluster: decodes `status` before the other fields, so its reported error can differ from serde's when the status and another field are both wrong. Acceptance and the decoded value are unaffected (`ClusterSchemas.DecodeClusterValueExactly`).
- Several types the api files use are absent from the schema files: `ListRoot`, `CreateOpts` and `CreateOptsRoot` for clusters; `NodegroupRoot`, `ListRoot` (`src/nodegroup/api.rs:34`), `CreateOpts`, `CreateOptsRoot` (`src/nodegroup/api.rs:41`), `ResizeOpts`, `ResizeOptsRoot`, `UpdateOpts` and `UpdateOptsRoot` for nodegroups; `NodeRoot` for nodes.
  - The envelopes are modelled with the keys the api functions read or write: `clusters`, `nodegroup`, `nodegroups`, `node`.
  - `NodegroupSchemas.DecodeNodegroupList` stands in for the nodegroup `ListRoot`. It reads the key `nodegroups`, which `src/nodegroup/api.rs:37` takes, as does the `NodegroupsRoot` of `src/nodegroup/schemas.rs:44-48`.
  - Option records are arbitrary JSON values wrapped under their key.
- `TASKS` and `REINSTALL` are imported by `src/task/api.rs:4` and `src/node/api.rs:4` but are not defined in `src/resource_url.rs`. They are the constants `"tasks"` and `"reinstall"`.
- Only one `Error` type is modelled. `src/lib.rs:1` declares the module `error` (`EndpointError`, `TokenError`), and the api files also use `SerializeError` and `DeserializeError`, which neither error file defines. `Errors.Error` is the union of both files' variants and those two. The constructor returns `TokenError` for an empty token, as `src/lib.rs:40` does; `EmptyTokenError` exists only for its message.
- TaskStatus.Status.Display: the contract states only that the text is non-empty and capitalised. That it equals the serde spelling is `TaskStatus.DisplayIsWire`, kept as a separate lemma because stating it on the function makes every proof that mentions `Display` unfold the rename rule.
- TaskType.Type.Display: the same as for `TaskStatus.Status.Display`; `TaskType.DisplayIsWire` proves the equality.
- Naming.IsUpper: tests ASCII capitals only, where serde's rule inserts `_` before every character for which `char::is_uppercase` holds. The two agree on the ASCII variant names renamed here.
- The formatter options (width, fill, alignment) that `str::fmt` applies in both `Display` impls are not modelled; `Display` gives the text only.
- ClusterStatus.Status.Wire: the contract states the spelling's shape only; the sixteen spellings are proved by `ClusterStatus.StatusSpellings`.
- TaskStatus.Status.Wire: the contract states the spelling's shape only; `TaskStatus.DisplayIsWire` and the per-variant lemmas give the spellings.
- TaskType.Type.Wire: the contract states the spelling's shape only; `TaskType.DisplayIsWire` and the per-variant lemmas give the spellings.
- The `Debug` derives and the `Display` of `hyper::Error` are left out. A Hyper error is known only by its message text.
- Path injectivity is proved for the cluster path only. For paths with several identifiers, `"a/b"` as one identifier can collide with two segments, so no injectivity is claimed.
- The integration tests and the example programs are left out: polling against a live API and environment reads.

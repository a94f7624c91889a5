/// A supported Kubernetes version, and the `KubeVersionsRoot` envelope.
module KubeVersionSchemas {
  import opened Results
  import opened Json

  datatype KubeVersion = KubeVersion(version: string, isDefault: bool)

  /// The fields of `KubeVersion` in declaration order, the order of its array form.
  const KUBE_VERSION_FIELDS: seq<string> := ["version", "is_default"]

  /// The object `fields` describes version `v`.
  predicate Describes(fields: map<string, Json>, v: KubeVersion) {
    Holds(fields, "version", Str(v.version)) && Holds(fields, "is_default", Bool(v.isDefault))
  }

  /// `j` writes version `v`: as an object describing it, or as the array
  /// `[version, is_default]`.
  predicate DescribesValue(j: Json, v: KubeVersion) {
    || (j.Object? && Describes(j.fields, v))
    || (j.Array? && |j.items| == |KUBE_VERSION_FIELDS| && Describes(Positional(KUBE_VERSION_FIELDS, j.items), v))
  }

  /// The derived `Deserialize` of `KubeVersion`.
  function DecodeKubeVersion(j: Json): (r: Result<KubeVersion, JsonError>)
    ensures !j.Object? && !j.Array? ==> r == Err(InvalidType("struct KubeVersion"))
    ensures j.Array? && |j.items| != |KUBE_VERSION_FIELDS| ==> r == Err(InvalidLength(|j.items|))
    ensures j.Object? && "version" !in j.fields ==> r == Err(MissingField("version"))
    ensures j.Object? && "version" in j.fields && j.fields["version"].Str? && "is_default" !in j.fields
        ==> r == Err(MissingField("is_default"))
    ensures j.Object? ==> (r.Ok? <==> (&& "version" in j.fields && j.fields["version"].Str?
                                         && "is_default" in j.fields && j.fields["is_default"].Bool?))
    ensures r.Ok? && j.Object? ==> r.value == KubeVersion(j.fields["version"].s, j.fields["is_default"].b)
    ensures j.Array? && |j.items| == |KUBE_VERSION_FIELDS| ==> (r.Ok? <==> j.items[0].Str? && j.items[1].Bool?)
    ensures r.Ok? && j.Array? ==> r.value == KubeVersion(j.items[0].s, j.items[1].b)
  {
    var f :- AsStruct(j, "struct KubeVersion", KUBE_VERSION_FIELDS);
    var version :- Required(f, "version", AsString);
    var isDefault :- Required(f, "is_default", AsBool);
    Ok(KubeVersion(version, isDefault))
  }

  /// Any JSON value decodes to a version exactly when it writes that version,
  /// in either form.
  lemma DecodeKubeVersionExactly(j: Json, v: KubeVersion)
    ensures DecodeKubeVersion(j) == Ok(v) <==> DescribesValue(j, v)
  {
    if j.Array? && |j.items| == |KUBE_VERSION_FIELDS| {
      assert FirstAt(KUBE_VERSION_FIELDS, 1);
    }
  }

  /// The array form: the version string, then the default flag, and nothing else.
  lemma DecodeKubeVersionArrayForm()
    ensures DecodeKubeVersion(Array([Str("1.29.2"), Bool(true)])) == Ok(KubeVersion("1.29.2", true))
    ensures DecodeKubeVersion(Array([Str("1.29.2")])) == Err(InvalidLength(1))
  {
    DecodeKubeVersionExactly(Array([Str("1.29.2"), Bool(true)]), KubeVersion("1.29.2", true));
  }

  /// `KubeVersionsRoot`: the versions under the key "kube_versions".
  function DecodeKubeVersions(j: Json): (r: Result<seq<KubeVersion>, JsonError>)
    ensures j.Object? && "kube_versions" !in j.fields ==> r == Err(MissingField("kube_versions"))
    ensures j.Object? && "kube_versions" in j.fields ==> r == AsList(j.fields["kube_versions"], DecodeKubeVersion)
    ensures j.Array? && |j.items| == 1 ==> r == AsList(j.items[0], DecodeKubeVersion)
  {
    Unwrap(j, "kube_versions", (items: Json) => AsList(items, DecodeKubeVersion))
  }
}

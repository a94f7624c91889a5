/// JSON values and the decoding rules that serde's derived `Deserialize`
/// implementations apply to them: struct fields looked up by key, `Option`
/// fields that may be absent or null, sequences decoded element by element,
/// and unit enum variants matched against their renamed spellings.
module Json {
  import opened Results

  datatype Json =
    | Null
    | Bool(b: bool)
    | Number(n: int)
    | Str(s: string)
    | Array(items: seq<Json>)
    | Object(fields: map<string, Json>)

  /// The kinds of `serde_json::Error` the model distinguishes.
  datatype JsonError =
    | Syntax                          // the text is not JSON at all
    | MissingField(field: string)     // a required struct field is absent
    | InvalidType(expected: string)   // a value of the wrong JSON kind
    | InvalidValue(expected: string)  // a value of the right kind but out of range
    | UnknownVariant(variant: string) // a string that names no enum variant
    | InvalidLength(length: nat)      // a struct written as an array of the wrong length
    | Unserializable                  // `to_string` refused the value

  /// The text-level half of serde_json, which the model does not look inside:
  /// `parse` turns a response body into a JSON value and `render` writes one out.
  datatype Serde = Serde(parse: string -> Result<Json, JsonError>, render: Json -> Result<string, JsonError>)

  const U32_LIMIT: int := 0x1_0000_0000

  /// `serde_json::from_str::<T>`: parse the text, then decode the value as `T`.
  function FromStr<T>(serde: Serde, text: string, decode: Json -> Result<T, JsonError>): (r: Result<T, JsonError>)
    ensures serde.parse(text).Err? ==> r == Err(serde.parse(text).error)
    ensures serde.parse(text).Ok? ==> r == decode(serde.parse(text).value)
  {
    var value :- serde.parse(text);
    decode(value)
  }

  function AsString(j: Json): (r: Result<string, JsonError>)
    ensures r.Ok? <==> j.Str?
    ensures r.Ok? ==> r.value == j.s
    ensures r.Err? ==> r.error == InvalidType("a string")
  {
    if j.Str? then Ok(j.s) else Err(InvalidType("a string"))
  }

  function AsBool(j: Json): (r: Result<bool, JsonError>)
    ensures r.Ok? <==> j.Bool?
    ensures r.Ok? ==> r.value == j.b
    ensures r.Err? ==> r.error == InvalidType("a boolean")
  {
    if j.Bool? then Ok(j.b) else Err(InvalidType("a boolean"))
  }

  /// A `u32`: an integer in [0, 2^32); other integers are rejected, not wrapped.
  function AsU32(j: Json): (r: Result<nat, JsonError>)
    ensures r.Ok? <==> j.Number? && 0 <= j.n < U32_LIMIT
    ensures r.Ok? ==> r.value == j.n
    ensures j.Number? && !(0 <= j.n < U32_LIMIT) ==> r == Err(InvalidValue("u32"))
    ensures !j.Number? ==> r == Err(InvalidType("u32"))
  {
    if !j.Number? then Err(InvalidType("u32"))
    else if 0 <= j.n < U32_LIMIT then Ok(j.n)
    else Err(InvalidValue("u32"))
  }

  /// No field before position `i` shares the name of the field at `i`.
  predicate FirstAt(names: seq<string>, i: int)
    requires 0 <= i < |names|
  {
    forall m :: 0 <= m < i ==> names[m] != names[i]
  }

  /// The fields a struct written as an array supplies: the element at each
  /// position under the field name declared at that position.
  function Positional(names: seq<string>, items: seq<Json>): (r: map<string, Json>)
    requires |names| == |items|
    ensures forall k :: k in r <==> k in names
    ensures forall i :: 0 <= i < |names| && FirstAt(names, i) ==> r[names[i]] == items[i]
  {
    if names == [] then map[]
    else
      var rest := Positional(names[1..], items[1..]);
      assert forall i :: 1 <= i < |names| && FirstAt(names, i) ==> FirstAt(names[1..], i - 1);
      rest[names[0] := items[0]]
  }

  /// The fields of a struct whose fields are declared as `names`: an object is
  /// read by key, an array by position and must hold exactly one element per
  /// field; any other kind of value is rejected.
  function AsStruct(j: Json, name: string, names: seq<string>): (r: Result<map<string, Json>, JsonError>)
    ensures j.Object? ==> r == Ok(j.fields)
    ensures j.Array? && |j.items| == |names| ==> r == Ok(Positional(names, j.items))
    ensures j.Array? && |j.items| != |names| ==> r == Err(InvalidLength(|j.items|))
    ensures !j.Object? && !j.Array? ==> r == Err(InvalidType(name))
  {
    match j
    case Object(fields) => Ok(fields)
    case Array(items) => if |items| == |names| then Ok(Positional(names, items)) else Err(InvalidLength(|items|))
    case _ => Err(InvalidType(name))
  }

  /// A required struct field: absent is `MissingField`, present is decoded.
  function Required<T>(fields: map<string, Json>, key: string, decode: Json -> Result<T, JsonError>): (r: Result<T, JsonError>)
    ensures key !in fields ==> r == Err(MissingField(key))
    ensures key in fields ==> r == decode(fields[key])
  {
    if key in fields then decode(fields[key]) else Err(MissingField(key))
  }

  /// An `Option` struct field: absent or null is `None`, anything else is decoded.
  function Optional<T>(fields: map<string, Json>, key: string, decode: Json -> Result<T, JsonError>): (r: Result<Option<T>, JsonError>)
    ensures key !in fields || fields[key] == Null ==> r == Ok(None)
    ensures key in fields && fields[key] != Null && decode(fields[key]).Ok? ==> r == Ok(Some(decode(fields[key]).value))
    ensures key in fields && fields[key] != Null && decode(fields[key]).Err? ==> r == Err(decode(fields[key]).error)
  {
    if key !in fields || fields[key] == Null then Ok(None)
    else
      var v :- decode(fields[key]);
      Ok(Some(v))
  }

  /// Decodes every element of a sequence, failing with the first element's error.
  function Each<T>(items: seq<Json>, decode: Json -> Result<T, JsonError>): (r: Result<seq<T>, JsonError>)
    ensures r.Ok? <==> forall i :: 0 <= i < |items| ==> decode(items[i]).Ok?
    ensures r.Ok? ==> |r.value| == |items| && forall i :: 0 <= i < |items| ==> decode(items[i]) == Ok(r.value[i])
    ensures r.Err? ==> exists i :: 0 <= i < |items| && decode(items[i]) == Err(r.error)
  {
    if items == [] then Ok([])
    else
      var head :- decode(items[0]);
      var tail :- Each(items[1..], decode);
      assert forall i :: 1 <= i < |items| ==> items[i] == items[1..][i - 1];
      Ok([head] + tail)
  }

  /// A `chrono::DateTime<Utc>`, kept as the text it was read from.
  datatype Timestamp = Timestamp(text: string)

  /// A timestamp field: any string is taken as the timestamp's text.
  function AsTimestamp(j: Json): (r: Result<Timestamp, JsonError>)
    ensures r.Ok? <==> j.Str?
    ensures r.Ok? ==> r.value.text == j.s
    ensures r.Err? ==> r.error == InvalidType("a string")
  {
    if j.Str? then Ok(Timestamp(j.s)) else Err(InvalidType("a string"))
  }

  /// `fields` holds `value` under `key`.
  predicate Holds(fields: map<string, Json>, key: string, value: Json) {
    key in fields && fields[key] == value
  }

  /// `fields` holds an `Option` field: absent or null for `None`, the value for `Some`.
  predicate HoldsOptional(fields: map<string, Json>, key: string, value: Option<Json>) {
    match value
    case None => key !in fields || fields[key] == Null
    case Some(v) => Holds(fields, key, v)
  }

  function TimestampJson(t: Timestamp): Json {
    Str(t.text)
  }

  function OptionalTimestampJson(t: Option<Timestamp>): Option<Json> {
    match t
    case None => None
    case Some(x) => Some(TimestampJson(x))
  }

  /// A sequence decodes to `xs` exactly when each element decodes to the element of `xs` at its position.
  lemma EachExactly<T>(items: seq<Json>, decode: Json -> Result<T, JsonError>, xs: seq<T>)
    ensures Each(items, decode) == Ok(xs)
        <==> |xs| == |items| && forall i :: 0 <= i < |items| ==> decode(items[i]) == Ok(xs[i])
  {
    if |xs| == |items| && forall i :: 0 <= i < |items| ==> decode(items[i]) == Ok(xs[i]) {
      var r := Each(items, decode);
      assert r.Ok?;
      assert r.value == xs;
    }
  }

  /// A `Vec<T>`.
  function AsList<T>(j: Json, decode: Json -> Result<T, JsonError>): (r: Result<seq<T>, JsonError>)
    ensures !j.Array? ==> r == Err(InvalidType("a sequence"))
    ensures j.Array? ==> r == Each(j.items, decode)
  {
    if j.Array? then Each(j.items, decode) else Err(InvalidType("a sequence"))
  }

  /// A `HashMap<String, String>`: an object whose values are all strings.
  function AsStringMap(j: Json): (r: Result<map<string, string>, JsonError>)
    ensures r.Ok? <==> j.Object? && forall k :: k in j.fields ==> j.fields[k].Str?
    ensures r.Ok? ==> r.value.Keys == j.fields.Keys && forall k :: k in j.fields ==> r.value[k] == j.fields[k].s
  {
    if !j.Object? then Err(InvalidType("a map"))
    else if forall k :: k in j.fields ==> j.fields[k].Str? then Ok(map k | k in j.fields :: j.fields[k].s)
    else Err(InvalidType("a string"))
  }

  /// A root struct with a single field `key`, such as `ClusterRoot { cluster }`:
  /// the field under its key, or the only element of a one-element array.
  function Unwrap<T>(j: Json, key: string, decode: Json -> Result<T, JsonError>): (r: Result<T, JsonError>)
    ensures j.Object? && key !in j.fields ==> r == Err(MissingField(key))
    ensures j.Object? && key in j.fields ==> r == decode(j.fields[key])
    ensures j.Array? && |j.items| == 1 ==> r == decode(j.items[0])
    ensures j.Array? && |j.items| != 1 ==> r == Err(InvalidLength(|j.items|))
    ensures !j.Object? && !j.Array? ==> r == Err(InvalidType("a root struct"))
  {
    var fields :- AsStruct(j, "a root struct", [key]);
    Required(fields, key, decode)
  }

  /// The single-field root struct that wraps `value` under `key` when it is serialised.
  function Wrap(key: string, value: Json): (r: Json)
    ensures r.Object? && r.fields.Keys == {key} && r.fields[key] == value
  {
    Object(map[key := value])
  }

  /// Unwrapping a wrapped value gives back the value, whatever it holds.
  lemma UnwrapWrap<T>(key: string, value: Json, decode: Json -> Result<T, JsonError>)
    ensures Unwrap(Wrap(key, value), key, decode) == decode(value)
  {
  }

  /// Keys other than the one a root struct names are ignored, as serde does without `deny_unknown_fields`.
  lemma UnwrapIgnoresOtherKeys<T>(fields: map<string, Json>, key: string, other: string, extra: Json, decode: Json -> Result<T, JsonError>)
    requires other != key
    ensures Unwrap(Object(fields[other := extra]), key, decode) == Unwrap(Object(fields), key, decode)
  {
  }

  /// `fields` has `key` and nothing else.
  predicate OnlyKey(fields: map<string, Json>, key: string) {
    fields.Keys == {key}
  }

  /// How serde_json reads an enum: a bare string names a variant with no
  /// content, an object with a single key names the variant and holds its content.
  function EnumTag(j: Json): (r: Result<(string, Option<Json>), JsonError>)
    ensures j.Str? ==> r == Ok((j.s, None))
    ensures j.Object? ==> forall k :: OnlyKey(j.fields, k) ==> r == Ok((k, Some(j.fields[k])))
    ensures j.Object? && (forall k :: !OnlyKey(j.fields, k)) ==> r == Err(InvalidValue("a map with a single key"))
    ensures !j.Str? && !j.Object? ==> r == Err(InvalidType("an enum"))
  {
    match j
    case Str(s) => Ok((s, None))
    case Object(fields) =>
      if exists k :: k in fields && OnlyKey(fields, k) then
        var k :| k in fields && OnlyKey(fields, k);
        Ok((k, Some(fields[k])))
      else Err(InvalidValue("a map with a single key"))
    case _ => Err(InvalidType("an enum"))
  }

  /// `j` writes the unit variant spelled `name`: the bare string, or a map from
  /// that spelling to null.
  predicate SpellsUnit(j: Json, name: string) {
    j == Str(name) || j == Object(map[name := Null])
  }

  /// A unit enum variant: `named` finds the variant a spelling names, and any
  /// content other than null is refused.
  function UnitVariant<T>(j: Json, named: string -> Result<T, JsonError>): (r: Result<T, JsonError>)
    ensures forall name :: SpellsUnit(j, name) ==> r == named(name)
    ensures r.Ok? ==> exists name :: SpellsUnit(j, name) && named(name) == r
    ensures j.Str? ==> r == named(j.s)
    ensures !j.Str? && !j.Object? ==> r == Err(InvalidType("an enum"))
  {
    assert forall name :: SpellsUnit(j, name) && j.Object? ==> OnlyKey(j.fields, name);
    var tag :- EnumTag(j);
    var v :- named(tag.0);
    if tag.1 == None || tag.1 == Some(Null) then
      assert SpellsUnit(j, tag.0) by {
        if j.Object? {
          assert OnlyKey(j.fields, tag.0);
          assert j.fields == map[tag.0 := Null];
        }
      }
      Ok(v)
    else Err(InvalidType("unit variant"))
  }

  /// A variant written as a map to anything other than null is refused, even
  /// when the key names a variant.
  lemma UnitVariantRefusesContent<T>(name: string, content: Json, named: string -> Result<T, JsonError>)
    requires content != Null
    ensures UnitVariant(Object(map[name := content]), named).Err?
  {
    assert OnlyKey(map[name := content], name);
  }
}

/// The status of a task: decoded from the SCREAMING_SNAKE_CASE spelling of its
/// variant name and written out by a hand-written `Display`.
module TaskStatus {
  import opened Results
  import opened Json
  import opened Naming
  import CamelWords

  /// The states a task goes through.
  datatype Status =
    | InProgress
    | Done
    | Error
    | Unknown
  {
    /// The variant's Rust identifier, spelled as its capitalised words.
    function Name(): (n: string)
      ensures |n| > 0 && IsUpper(n[0])
    {
      match this
      case InProgress => "In" + "Progress"
      case Done => "Done"
      case Error => "Error"
      case Unknown => "Unknown"
    }

    /// The spelling `rename_all = "SCREAMING_SNAKE_CASE"` gives the variant.
    function Wire(): (w: string)
      ensures |w| > 0 && NoLower(w)
    {
      ScreamingSnake(Name())
    }

    /// The hand-written `Display` implementation: the upper-case, underscore-separated spelling.
    function Display(): (d: string)
      ensures |d| > 0 && IsUpper(d[0])
    {
      match this
      case InProgress => "IN_PROGRESS"
      case Done => "DONE"
      case Error => "ERROR"
      case Unknown => "UNKNOWN"
    }
  }

  // Each variant's `Display` string, shown equal to its renamed spelling word by word.

  lemma StatusJoinInProgress()
    ensures "IN_PROGRESS" == "IN" + "_" + "PROGRESS"
  {
  }

  lemma StatusWordsInProgress()
    ensures Status.InProgress.Wire() == "IN" + "_" + "PROGRESS"
  {
    CamelWords.In();
    CamelWords.Progress();
    FirstWord("In");
    NextWord("In", "Progress");
  }

  lemma StatusDisplayInProgress()
    ensures Status.InProgress.Display() == Status.InProgress.Wire()
  {
    StatusJoinInProgress();
    StatusWordsInProgress();
  }

  lemma StatusDisplayDone()
    ensures Status.Done.Display() == Status.Done.Wire()
  {
    CamelWords.Done();
    FirstWord("Done");
  }

  lemma StatusDisplayError()
    ensures Status.Error.Display() == Status.Error.Wire()
  {
    CamelWords.Error();
    FirstWord("Error");
  }

  lemma StatusDisplayUnknown()
    ensures Status.Unknown.Display() == Status.Unknown.Wire()
  {
    CamelWords.Unknown();
    FirstWord("Unknown");
  }

  /// `Display` writes exactly the spelling serde accepts.
  lemma DisplayIsWire(v: Status)
    ensures v.Display() == v.Wire()
  {
    match v
    case InProgress => StatusDisplayInProgress();
    case Done => StatusDisplayDone();
    case Error => StatusDisplayError();
    case Unknown => StatusDisplayUnknown();
  }

  /// No two variants display the same string.
  lemma DisplayInjective(a: Status, b: Status)
    ensures a.Display() == b.Display() <==> a == b
  {
    match a
    case InProgress => assert a.Display() == "IN_PROGRESS";
    case Done => assert a.Display() == "DONE";
    case Error => assert a.Display() == "ERROR";
    case Unknown => assert a.Display() == "UNKNOWN";
  }

  /// No two variants share a spelling.
  lemma WireInjective(a: Status, b: Status)
    ensures a.Wire() == b.Wire() <==> a == b
  {
    DisplayIsWire(a);
    DisplayIsWire(b);
    DisplayInjective(a, b);
  }

  /// The variant a spelling names, if any.
  function Named(s: string): (r: Result<Status, JsonError>)
    ensures r.Ok? ==> r.value.Wire() == s
    ensures r.Err? ==> r == Err(UnknownVariant(s))
  {
    if exists v: Status :: v.Wire() == s then
      var v: Status :| v.Wire() == s;
      assert forall t: Status :: t.Wire() == s ==> t == v by {
        forall t: Status | t.Wire() == s
          ensures t == v
        {
          WireInjective(t, v);
        }
      }
      Ok(v)
    else Err(UnknownVariant(s))
  }

  /// The derived `Deserialize` of `Status`: the variant named by a bare string,
  /// or by a map whose single key is the spelling and whose value is null.
  function Decode(j: Json): (r: Result<Status, JsonError>)
    ensures r.Ok? ==> SpellsUnit(j, r.value.Wire())
    ensures j.Str? && r.Err? ==> r == Err(UnknownVariant(j.s))
    ensures !j.Str? && !j.Object? ==> r == Err(InvalidType("an enum"))
  {
    UnitVariant(j, Named)
  }

  /// Every variant decodes from its own spelling.
  lemma DecodeWire(v: Status)
    ensures Decode(Str(v.Wire())) == Ok(v)
  {
    var r := Decode(Str(v.Wire()));
    assert r.Ok?;
    WireInjective(r.value, v);
  }

  /// Decoding the string a variant displays gives back that variant.
  lemma DecodeDisplay(v: Status)
    ensures Decode(Str(v.Display())) == Ok(v)
  {
    DisplayIsWire(v);
    DecodeWire(v);
  }

  /// A string decodes to a variant exactly when it is that variant's spelling,
  /// and fails exactly when it spells none of them.
  lemma DecodeExactly(x: string, v: Status)
    ensures Decode(Str(x)) == Ok(v) <==> x == v.Wire()
    ensures Decode(Str(x)).Err? <==> forall t: Status :: t.Wire() != x
  {
    if x == v.Wire() {
      DecodeWire(v);
    }
  }

  /// Any JSON value decodes to a variant exactly when it writes that variant,
  /// as the bare spelling or as the spelling mapped to null.
  lemma DecodeSpelled(j: Json, v: Status)
    ensures Decode(j) == Ok(v) <==> SpellsUnit(j, v.Wire())
  {
    if SpellsUnit(j, v.Wire()) {
      DecodeWire(v);
    }
  }

  /// `Unknown` is not a fallback: only the literal "UNKNOWN" yields it.
  lemma UnknownOnlyFromItsSpelling(x: string)
    ensures Decode(Str(x)) == Ok(Unknown) <==> x == "UNKNOWN"
  {
    StatusDisplayUnknown();
    DecodeExactly(x, Unknown);
  }

  lemma DecodeInProgress()
    ensures Decode(Str("IN_PROGRESS")) == Ok(InProgress)
    ensures Decode(Object(map["IN_PROGRESS" := Null])) == Ok(InProgress)
  {
    DecodeDisplay(InProgress);
    DecodeSpelled(Object(map["IN_PROGRESS" := Null]), InProgress);
  }
}

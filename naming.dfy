/// serde's `rename_all = "SCREAMING_SNAKE_CASE"` rule on Rust identifiers.
module Naming {
  /// ASCII upper case. serde tests `char::is_uppercase`, which also holds for
  /// non-ASCII capitals; every identifier renamed here is ASCII.
  predicate IsUpper(c: char) { 'A' <= c <= 'Z' }

  function ToUpper(c: char): char {
    if 'a' <= c <= 'z' then (c as int - 32) as char else c
  }

  /// No lowercase ASCII letter occurs in `s`.
  predicate NoLower(s: string) {
    forall i :: 0 <= i < |s| ==> !('a' <= s[i] <= 'z')
  }

  /// The renamed tail of an identifier: every uppercase letter starts a new word.
  function SnakeTail(s: string): (r: string)
    ensures NoLower(r) && |r| >= |s|
  {
    if s == [] then []
    else (if IsUpper(s[0]) then "_" else "") + [ToUpper(s[0])] + SnakeTail(s[1..])
  }

  /// The SCREAMING_SNAKE_CASE form of a CamelCase identifier.
  /// Every letter is upper case, the result is no shorter than the name, and
  /// the first letter stays first; `ScreamingSnakeKeepsLetters` shows that
  /// only underscores are added.
  function ScreamingSnake(name: string): (r: string)
    ensures NoLower(r) && |r| >= |name|
    ensures name != [] ==> r[0] == ToUpper(name[0])
  {
    if name == [] then [] else [ToUpper(name[0])] + SnakeTail(name[1..])
  }

  /// `s` with every character upper-cased.
  function Upper(s: string): (r: string)
    ensures |r| == |s|
  {
    if s == [] then [] else [ToUpper(s[0])] + Upper(s[1..])
  }

  /// `s` with its underscores removed.
  function Letters(s: string): string {
    if s == [] then [] else (if s[0] == '_' then [] else [s[0]]) + Letters(s[1..])
  }

  lemma {:induction false} LettersAppend(a: string, b: string)
    ensures Letters(a + b) == Letters(a) + Letters(b)
  {
    if a == [] {
      assert a + b == b;
    } else {
      assert (a + b)[1..] == a[1..] + b;
      LettersAppend(a[1..], b);
    }
  }

  /// Apart from the underscores it inserts, the renamed tail is the tail
  /// upper-cased, character for character and in order.
  lemma {:induction false} SnakeTailKeepsLetters(s: string)
    ensures Letters(SnakeTail(s)) == Letters(Upper(s))
  {
    if s != [] {
      var head := (if IsUpper(s[0]) then "_" else "") + [ToUpper(s[0])];
      SnakeTailKeepsLetters(s[1..]);
      LettersAppend(head, SnakeTail(s[1..]));
      LettersAppend([ToUpper(s[0])], Upper(s[1..]));
    }
  }

  /// Renaming drops and reorders nothing: removing the underscores from the
  /// SCREAMING_SNAKE_CASE form gives the name upper-cased.
  lemma {:induction false} ScreamingSnakeKeepsLetters(name: string)
    ensures Letters(ScreamingSnake(name)) == Letters(Upper(name))
  {
    if name != [] {
      SnakeTailKeepsLetters(name[1..]);
      LettersAppend([ToUpper(name[0])], SnakeTail(name[1..]));
      LettersAppend([ToUpper(name[0])], Upper(name[1..]));
    }
  }

  function UpperFrom(w: string, i: nat): string
    decreases |w| - i
  {
    if i >= |w| then [] else [ToUpper(w[i])] + UpperFrom(w, i + 1)
  }

  predicate LowerFrom(w: string, i: nat)
    decreases |w| - i
  {
    i >= |w| || (!IsUpper(w[i]) && LowerFrom(w, i + 1))
  }

  /// One word of a CamelCase identifier: an uppercase letter followed by no uppercase letter.
  predicate Capitalized(w: string) { |w| > 0 && IsUpper(w[0]) && LowerFrom(w, 1) }

  lemma {:induction false} SnakeTailAppend(a: string, b: string)
    ensures SnakeTail(a + b) == SnakeTail(a) + SnakeTail(b)
  {
    if a == [] {
      assert a + b == b;
    } else {
      assert (a + b)[1..] == a[1..] + b;
      SnakeTailAppend(a[1..], b);
    }
  }

  lemma {:induction false} TailOfLower(w: string, i: nat)
    requires i <= |w| && LowerFrom(w, i)
    ensures SnakeTail(w[i..]) == UpperFrom(w, i)
    decreases |w| - i
  {
    if i < |w| {
      TailOfLower(w, i + 1);
      assert w[i..][1..] == w[i + 1..];
    }
  }

  lemma {:induction false} TailOfWord(w: string)
    requires Capitalized(w)
    ensures SnakeTail(w) == "_" + UpperFrom(w, 0)
  {
    TailOfLower(w, 1);
    assert w[1..] == w[0..][1..];
  }

  lemma {:induction false} FirstWord(w: string)
    requires Capitalized(w)
    ensures ScreamingSnake(w) == UpperFrom(w, 0)
  {
    TailOfLower(w, 1);
  }

  lemma {:induction false} NextWord(p: string, w: string)
    requires p != [] && Capitalized(w)
    ensures ScreamingSnake(p + w) == ScreamingSnake(p) + "_" + UpperFrom(w, 0)
  {
    TailOfWord(w);
    assert (p + w)[1..] == p[1..] + w;
    SnakeTailAppend(p[1..], w);
    assert (p + w)[0] == p[0];
  }
}

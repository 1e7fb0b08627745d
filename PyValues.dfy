/**
 * The Python values the two generator scripts read out of `resume.yaml`,
 * and the few built-in string methods they apply to them.
 */
module PyValues {
  import opened Wrappers
  import opened Strings

  /**
   * A YAML value as Python sees it. Floats, dates, lists and dictionaries
   * are `PyOther`: the model keeps only the text `str` gives them and their
   * truth value.
   */
  datatype PyValue =
    | PyNone
    | PyBool(b: bool)
    | PyInt(i: int)
    | PyStr(s: string)
    | PyOther(text: string, truthy: bool)

  /** Python's truth test (`if value:`). */
  predicate Truthy(v: PyValue) {
    match v
    case PyNone => false
    case PyBool(b) => b
    case PyInt(i) => i != 0
    case PyStr(s) => s != []
    case PyOther(_, t) => t
  }

  /** `str(value)`. */
  function Str(v: PyValue): string {
    match v
    case PyNone => "None"
    case PyBool(b) => if b then "True" else "False"
    case PyInt(i) => IntToString(i)
    case PyStr(s) => s
    case PyOther(text, _) => text
  }

  /** The integer of a value that passes `isinstance(value, int)`; `bool` is a subclass of `int`. */
  function AsInt(v: PyValue): (r: Option<int>)
    ensures r.Some? <==> (v.PyInt? || v.PyBool?)
  {
    match v
    case PyInt(i) => Some(i)
    case PyBool(b) => Some(if b then 1 else 0)
    case _ => None
  }

  /** A string converts to itself and only falsy values convert to nothing. */
  lemma StrOfString(v: PyValue)
    ensures v.PyStr? ==> Str(v) == v.s
    ensures Str(v) == [] ==> !Truthy(v) || v.PyOther?
  {
    if v.PyInt? {
      assert |IntToString(v.i)| >= 1;
    }
  }

  // ---------------------------------------------------------------------------
  // str.title() on ASCII text
  // ---------------------------------------------------------------------------

  /** A character with an upper and a lower case form (ASCII letters only in this model). */
  predicate IsCased(c: char) {
    'a' <= c <= 'z' || 'A' <= c <= 'Z'
  }

  function Upper(c: char): char {
    if 'a' <= c <= 'z' then (c as int - 32) as char else c
  }

  function Lower(c: char): char {
    if 'A' <= c <= 'Z' then (c as int + 32) as char else c
  }

  /**
   * `str.title()`, with `afterCased` telling whether the character before
   * `s` was cased: a cased character is upper-cased when it starts a word
   * and lower-cased inside one; any other character ends the word.
   */
  function TitleFrom(s: string, afterCased: bool): (r: string)
    ensures |r| == |s|
    decreases |s|
  {
    if s == [] then []
    else if IsCased(s[0]) then [if afterCased then Lower(s[0]) else Upper(s[0])] + TitleFrom(s[1..], true)
    else [s[0]] + TitleFrom(s[1..], false)
  }

  function Title(s: string): (r: string)
    ensures |r| == |s|
  {
    TitleFrom(s, false)
  }

  /**
   * Title case keeps which characters are cased, capitalises each word's
   * first letter and lower-cases the rest of the word.
   */
  lemma {:induction false} TitleFromShape(s: string, afterCased: bool)
    ensures forall i :: 0 <= i < |s| ==> (IsCased(TitleFrom(s, afterCased)[i]) <==> IsCased(s[i]))
    ensures forall i :: 0 <= i < |s| && IsCased(s[i]) ==>
      var startsWord := if i == 0 then !afterCased else !IsCased(s[i - 1]);
      TitleFrom(s, afterCased)[i] == (if startsWord then Upper(s[i]) else Lower(s[i]))
    ensures forall i :: 0 <= i < |s| && !IsCased(s[i]) ==> TitleFrom(s, afterCased)[i] == s[i]
    decreases |s|
  {
    if s != [] {
      TitleFromShape(s[1..], IsCased(s[0]));
      var r := TitleFrom(s, afterCased);
      assert r[1..] == TitleFrom(s[1..], IsCased(s[0]));
      forall i | 1 <= i < |s|
        ensures (IsCased(r[i]) <==> IsCased(s[i]))
        ensures IsCased(s[i]) ==> r[i] == (if !IsCased(s[i - 1]) then Upper(s[i]) else Lower(s[i]))
        ensures !IsCased(s[i]) ==> r[i] == s[i]
      {
        assert r[i] == r[1..][i - 1];
        assert s[1..][i - 1] == s[i];
        if i > 1 {
          assert s[1..][i - 2] == s[i - 1];
        }
      }
    }
  }

  /** Title-casing twice is title-casing once. */
  lemma {:induction false} TitleFromIdempotent(s: string, afterCased: bool)
    ensures TitleFrom(TitleFrom(s, afterCased), afterCased) == TitleFrom(s, afterCased)
    decreases |s|
  {
    if s != [] {
      TitleFromIdempotent(s[1..], IsCased(s[0]));
      var r := TitleFrom(s, afterCased);
      assert r[1..] == TitleFrom(s[1..], IsCased(s[0]));
      assert IsCased(r[0]) == IsCased(s[0]);
    }
  }

  lemma TitleIdempotent(s: string)
    ensures Title(Title(s)) == Title(s)
  {
    TitleFromIdempotent(s, false);
  }

  // ---------------------------------------------------------------------------
  // str.strip()
  // ---------------------------------------------------------------------------

  /** `str.isspace()` on the ASCII and Latin-1 range. */
  predicate IsSpace(c: char) {
    c == ' ' || '\t' <= c <= '\r' || '\U{1C}' <= c <= '\U{1F}' || c == '\U{85}' || c == '\U{A0}'
  }

  /** `s` without its trailing white space. */
  function StripEnd(s: string): string
    decreases |s|
  {
    if s != [] && IsSpace(s[|s| - 1]) then StripEnd(s[..|s| - 1]) else s
  }

  /** `s` without its leading white space. */
  function StripStart(s: string): string
    decreases |s|
  {
    if s != [] && IsSpace(s[0]) then StripStart(s[1..]) else s
  }

  /** `str.strip()`: leading and trailing white space removed. */
  function Strip(s: string): string {
    StripEnd(StripStart(s))
  }

  /** Stripping the end keeps a prefix, drops only white space, and leaves none at the end. */
  lemma {:induction false} StripEndShape(s: string)
    ensures var r := StripEnd(s);
      |r| <= |s| && r == s[..|r|] && (r != [] ==> !IsSpace(r[|r| - 1]))
      && forall i :: |r| <= i < |s| ==> IsSpace(s[i])
    decreases |s|
  {
    if s != [] && IsSpace(s[|s| - 1]) {
      StripEndShape(s[..|s| - 1]);
      var r := StripEnd(s);
      assert r == StripEnd(s[..|s| - 1]);
      forall i | |r| <= i < |s|
        ensures IsSpace(s[i])
      {
        if i < |s| - 1 {
          assert s[..|s| - 1][i] == s[i];
        }
      }
    }
  }

  /** Stripping the start keeps a suffix, drops only white space, and leaves none at the start. */
  lemma {:induction false} StripStartShape(s: string)
    ensures var r := StripStart(s);
      |r| <= |s| && r == s[|s| - |r|..] && (r != [] ==> !IsSpace(r[0]))
      && forall i :: 0 <= i < |s| - |r| ==> IsSpace(s[i])
    decreases |s|
  {
    if s != [] && IsSpace(s[0]) {
      StripStartShape(s[1..]);
      var r := StripStart(s);
      assert r == StripStart(s[1..]);
      forall i | 0 <= i < |s| - |r|
        ensures IsSpace(s[i])
      {
        if i > 0 {
          assert s[1..][i - 1] == s[i];
        }
      }
    }
  }

  /**
   * The stripped text is a piece of the original with no white space at
   * either end, and everything cut away around it is white space.
   */
  lemma StripShape(s: string)
    ensures var r := Strip(s);
      r != [] ==> !IsSpace(r[0]) && !IsSpace(r[|r| - 1])
    ensures var k := |s| - |StripStart(s)|; var r := Strip(s);
      0 <= k && k + |r| <= |s| && s[k..k + |r|] == r
      && (forall i :: 0 <= i < k ==> IsSpace(s[i]))
      && (forall i :: k + |r| <= i < |s| ==> IsSpace(s[i]))
  {
    StripStartShape(s);
    var t := StripStart(s);
    StripEndShape(t);
    var r := Strip(s);
    var k := |s| - |t|;
    assert s[k..k + |r|] == t[..|r|];
    forall i | k + |r| <= i < |s|
      ensures IsSpace(s[i])
    {
      assert s[i] == t[i - k];
    }
  }

  /** A text that neither starts nor ends with white space is its own strip. */
  lemma StripUnchanged(s: string)
    requires s != [] ==> !IsSpace(s[0]) && !IsSpace(s[|s| - 1])
    ensures Strip(s) == s
  {
    assert StripStart(s) == s;
    assert StripEnd(s) == s;
  }
}

/**
 * The text helpers of the LaTeX resume generator: `sanitize_latex_text`,
 * `get_rating_dots`, the URL prefixing of the contact block and the
 * end-date default of the experience section.
 */
module LatexText {
  import opened Wrappers
  import opened Strings
  import opened PyValues

  // ---------------------------------------------------------------------------
  // sanitize_latex_text
  // ---------------------------------------------------------------------------

  /** The replacement table, in the dictionary's order. */
  const Replacements: seq<(char, string)> := [
    ('&', "\\&"), ('%', "\\%"), ('$', "\\$"), ('#', "\\#"), ('_', "\\_"),
    ('{', "\\{"), ('}', "\\}"), ('~', "\\textasciitilde{}")]

  /** The position of `c` among the table's keys, or `|Replacements|` when it is not one. */
  function KeyIndex(c: char): (i: nat)
    ensures i <= |Replacements|
    ensures i < |Replacements| ==> Replacements[i].0 == c
  {
    if c == '&' then 0 else if c == '%' then 1 else if c == '$' then 2 else if c == '#' then 3
    else if c == '_' then 4 else if c == '{' then 5 else if c == '}' then 6 else if c == '~' then 7
    else |Replacements|
  }

  /** What `c` has become once the first `j` replacements have run over the text. */
  function EscapeFirst(j: int, c: char): string {
    var i := KeyIndex(c);
    if i < j && i < |Replacements| then Replacements[i].1 else [c]
  }

  /** Each special character on its own: a backslash before it, or `\textasciitilde{}` for `~`. */
  function EscapeChar(c: char): string {
    if c == '~' then "\\textasciitilde{}"
    else if c in "&%$#_{}" then ['\\', c]
    else [c]
  }

  /** The text `sanitize_latex_text` returns for `s`: every character escaped on its own. */
  function Escape(s: string): string {
    Each(s, EscapeChar)
  }

  /** The keys never occur in the replacement of an earlier key, so no later pass rewrites it. */
  lemma ReplacementSafe(i: int, j: int)
    requires 0 <= i < j < |Replacements|
    ensures !HasChar(Replacements[i].1, Replacements[j].0)
  {
    if i < 7 {
      assert Replacements[i].1 == ['\\', Replacements[i].0];
    }
  }

  lemma KeyIndexOfKey(j: int)
    requires 0 <= j < |Replacements|
    ensures KeyIndex(Replacements[j].0) == j
  {
  }

  /** The text once the first `j` replacements have run over `s`. */
  function Passes(j: int, s: string): string {
    EachIn(j, s, EscapeFirst)
  }

  /** Pass `j` rewrites the output of one character as one more table entry applied. */
  lemma EscapeFirstStep(j: int, c: char)
    requires 0 <= j < |Replacements|
    ensures ReplaceCharEach(EscapeFirst(j, c), Replacements[j].0, Replacements[j].1) == EscapeFirst(j + 1, c)
  {
    var key := Replacements[j].0;
    var repl := Replacements[j].1;
    var i := KeyIndex(c);
    KeyIndexOfKey(j);
    if i == j {
      assert EscapeFirst(j, c) == [key];
      assert ReplaceCharEach([key], key, repl) == repl + ReplaceCharEach([], key, repl);
    } else if i < j {
      ReplacementSafe(i, j);
      ReplaceCharEachAbsent(Replacements[i].1, key, repl);
    } else {
      assert c != key;
      assert ReplaceCharEach([c], key, repl) == [c] + ReplaceCharEach([], key, repl);
    }
  }

  /** Pass `j` of the loop turns the text after `j` passes into the text after `j + 1`. */
  lemma SanitizeStep(s: string, j: int)
    requires 0 <= j < |Replacements|
    ensures ReplaceAll(Passes(j, s), [Replacements[j].0], Replacements[j].1) == Passes(j + 1, s)
  {
    ReplaceSingleChar(Passes(j, s), Replacements[j].0, Replacements[j].1);
    PassEach(s, j);
  }

  lemma {:induction false} PassEach(s: string, j: int)
    requires 0 <= j < |Replacements|
    ensures ReplaceCharEach(Passes(j, s), Replacements[j].0, Replacements[j].1) == Passes(j + 1, s)
    decreases |s|
  {
    if s != [] {
      var n := |s| - 1;
      var key := Replacements[j].0;
      var repl := Replacements[j].1;
      PassEach(s[..n], j);
      assert Passes(j, s) == Passes(j, s[..n]) + EscapeFirst(j, s[n]);
      assert Passes(j + 1, s) == Passes(j + 1, s[..n]) + EscapeFirst(j + 1, s[n]);
      ReplaceCharEachAppend(Passes(j, s[..n]), EscapeFirst(j, s[n]), key, repl);
      EscapeFirstStep(j, s[n]);
    }
  }

  /** Before any pass the text is unchanged. */
  lemma {:induction false} NoPassYet(s: string)
    ensures Passes(0, s) == s
    decreases |s|
  {
    if s != [] {
      NoPassYet(s[..|s| - 1]);
      assert Passes(0, s) == Passes(0, s[..|s| - 1]) + EscapeFirst(0, s[|s| - 1]);
      assert s == s[..|s| - 1] + [s[|s| - 1]];
    }
  }

  /** After all passes every character has been escaped on its own. */
  lemma {:induction false} AllPassesDone(s: string)
    ensures Passes(|Replacements|, s) == Escape(s)
    decreases |s|
  {
    if s != [] {
      AllPassesDone(s[..|s| - 1]);
      var c := s[|s| - 1];
      assert Passes(|Replacements|, s) == Passes(|Replacements|, s[..|s| - 1]) + EscapeFirst(|Replacements|, c);
      assert EscapeFirst(|Replacements|, c) == EscapeChar(c);
    }
  }

  /**
   * `sanitize_latex_text`: converts a non-string with `str`, then runs the
   * table's replacements one after the other. The braces the `~` entry
   * brings in come after the brace entries and stay as they are.
   */
  method SanitizeLatexText(value: PyValue) returns (text: string)
    ensures text == Escape(Str(value))
  {
    text := if value.PyStr? then value.s else Str(value);
    ghost var original := text;
    NoPassYet(original);
    for j := 0 to |Replacements|
      invariant text == Passes(j, original)
    {
      var (key, repl) := Replacements[j];
      SanitizeStep(original, j);
      text := ReplaceAll(text, [key], repl);
    }
    AllPassesDone(original);
  }

  /** Every occurrence of `c` in `s` comes right after a backslash. */
  predicate Guarded(s: string, c: char) {
    forall k :: 0 <= k < |s| && s[k] == c ==> k > 0 && s[k - 1] == '\\'
  }

  /**
   * In the sanitized text each of & % $ # _ is preceded by a backslash, and
   * no `~` is left.
   */
  lemma {:induction false} EscapeGuards(s: string, c: char)
    requires c in "&%$#_"
    ensures Guarded(Escape(s), c) && !HasChar(Escape(s), '~')
    decreases |s|
  {
    if s != [] {
      var init := s[..|s| - 1];
      var last := EscapeChar(s[|s| - 1]);
      EscapeGuards(init, c);
      var r := Escape(s);
      assert r == Escape(init) + last;
      forall k | 0 <= k < |r| && r[k] == c
        ensures k > 0 && r[k - 1] == '\\'
      {
        if k >= |Escape(init)| {
          assert last[k - |Escape(init)|] == c;
        }
      }
      forall k | 0 <= k < |r|
        ensures r[k] != '~'
      {
        if k < |Escape(init)| {
          assert r[k] == Escape(init)[k];
        } else {
          assert r[k] == last[k - |Escape(init)|];
        }
      }
    }
  }

  /** A text without any of the eight special characters comes back unchanged; `\` and `^` are among those kept. */
  lemma {:induction false} EscapeClean(s: string)
    requires forall k :: 0 <= k < |s| ==> KeyIndex(s[k]) == |Replacements|
    ensures Escape(s) == s
    decreases |s|
  {
    if s != [] {
      EscapeClean(s[..|s| - 1]);
      assert s == s[..|s| - 1] + [s[|s| - 1]];
    }
  }

  // ---------------------------------------------------------------------------
  // get_rating_dots
  // ---------------------------------------------------------------------------

  const DotSpacing := "\\hspace{0.1em}"

  /** `{\color{<colour>} \normalsize \faIcon[<style>]{circle}}` and the spacing after it. */
  function DotIcon(color: string, style: string): string {
    "{\\color{" + color + "} \\normalsize \\faIcon[" + style + "]{circle}}" + DotSpacing
  }

  const FilledDot := DotIcon("themecolor", "solid")
  const EmptyDot := DotIcon("lightgray", "regular")

  /**
   * `get_rating_dots` over the two icons `filled` and `empty`: nothing for
   * a rating that is not an integer within [0, total], else `rating`
   * filled icons and `total - rating` empty ones, stripped.
   */
  function DotsWith(filled: string, empty: string, rating: PyValue, totalDots: int): string {
    match AsInt(rating)
    case None => ""
    case Some(r) =>
      if !(0 <= r <= totalDots) then ""
      else Strip(RepeatStr(filled, r) + RepeatStr(empty, totalDots - r))
  }

  /** `get_rating_dots` as written, each circle followed by a spacing. */
  function RatingDotsAsWritten(rating: PyValue, totalDots: int): string {
    DotsWith(FilledDot, EmptyDot, rating, totalDots)
  }

  /** The dots without the spacing after the last one, which the strip was meant to drop. */
  function RatingDots(rating: PyValue, totalDots: int): string {
    DropEnd(RatingDotsAsWritten(rating, totalDots), DotSpacing)
  }

  /** `s` without its last `|q|` characters, when it has that many. */
  function DropEnd(s: string, q: string): string {
    if |s| >= |q| then s[..|s| - |q|] else s
  }

  /** How many copies of `unit` `s` starts with. */
  function LeadingCopies(s: string, unit: string): nat
    requires unit != []
    decreases |s|
  {
    if |s| >= |unit| && s[..|unit|] == unit then 1 + LeadingCopies(s[|unit|..], unit) else 0
  }

  /** One more copy of `unit` in front adds one to the count. */
  lemma LeadingCopiesCons(unit: string, rest: string)
    requires unit != []
    ensures LeadingCopies(unit + rest, unit) == 1 + LeadingCopies(rest, unit)
  {
    assert (unit + rest)[..|unit|] == unit;
    assert (unit + rest)[|unit|..] == rest;
  }

  /** Reading back the copies of `a` in front of copies of `b`, where `b` does not start with `a`. */
  lemma {:induction false} LeadingCopiesPair(a: string, b: string, n: nat, m: nat)
    requires a != [] && |b| >= |a| && b[..|a|] != a
    ensures LeadingCopies(RepeatStr(a, n) + RepeatStr(b, m), a) == n
    decreases n
  {
    if n == 0 {
      assert RepeatStr(a, n) + RepeatStr(b, m) == RepeatStr(b, m);
      if m > 0 {
        RepeatStrCons(b, m);
        assert RepeatStr(b, m)[..|a|] == b[..|a|];
      }
    } else {
      var rest := RepeatStr(a, n - 1) + RepeatStr(b, m);
      assert RepeatStr(a, n) + RepeatStr(b, m) == a + rest by {
        RepeatStrCons(a, n);
        AppendAssoc(a, RepeatStr(a, n - 1), RepeatStr(b, m));
      }
      LeadingCopiesCons(a, rest);
      LeadingCopiesPair(a, b, n - 1, m);
    }
  }

  /** Every icon opens with a brace, shows its colour from column 8, and ends with a brace and the spacing. */
  lemma DotIconShape(color: string, style: string)
    requires color != []
    ensures var d := DotIcon(color, style);
      |d| > 8 + |color| && d[0] == '{' && d[8] == color[0] && d[..8 + |color|] == "{\\color{" + color
      && EndsWith(d, "}" + DotSpacing)
  {
    var d := DotIcon(color, style);
    var head := "{\\color{" + color;
    var tail := "} \\normalsize \\faIcon[" + style + "]{circle}";
    assert d == head + tail + ("}" + DotSpacing);
    assert |"{\\color{"| == 8;
  }

  /** The two icons both open with a brace and end with a closing brace and the spacing; they differ in colour. */
  lemma DotFacts()
    ensures FilledDot != [] && |EmptyDot| >= |FilledDot| && EmptyDot[..|FilledDot|] != FilledDot
    ensures FilledDot[0] == '{' && EmptyDot[0] == '{'
    ensures EndsWith(FilledDot, "}" + DotSpacing) && EndsWith(EmptyDot, "}" + DotSpacing)
  {
    DotIconShape("themecolor", "solid");
    DotIconShape("lightgray", "regular");
    assert |FilledDot| == |"{\\color{" + "themecolor" + "} \\normalsize \\faIcon[" + "solid" + "]{circle}}"| + |DotSpacing|;
    assert |EmptyDot| == |"{\\color{" + "lightgray" + "} \\normalsize \\faIcon[" + "regular" + "]{circle}}"| + |DotSpacing|;
    assert EmptyDot[..|FilledDot|][8] == 'l' != 't' == FilledDot[8];
  }

  /**
   * What the dot lemmas need of the two icons: `a` is not a prefix of
   * `b`, both open with a brace and both end with `tail`, whose last
   * character is not white space.
   */
  predicate IconPair(a: string, b: string, tail: string) {
    a != [] && |b| >= |a| && b[..|a|] != a && a[0] == '{' && b[0] == '{'
    && tail != [] && !IsSpace(tail[|tail| - 1]) && EndsWith(a, tail) && EndsWith(b, tail)
  }

  lemma FilledEmptyPair()
    ensures IconPair(FilledDot, EmptyDot, "}" + DotSpacing)
  {
    DotFacts();
    assert ("}" + DotSpacing)[|DotSpacing|] == DotSpacing[|DotSpacing| - 1] == '}';
  }

  /** At least one icon: the text opens with a brace and ends with `tail`. */
  lemma IconsEnds(a: string, b: string, tail: string, n: nat, m: nat)
    requires IconPair(a, b, tail) && n + m > 0
    ensures var s := RepeatStr(a, n) + RepeatStr(b, m);
      EndsWith(s, tail) && s != [] && s[0] == '{' && !IsSpace(s[|s| - 1])
  {
    var s := RepeatStr(a, n) + RepeatStr(b, m);
    RepeatPairStarts(a, b, n, m, '{');
    RepeatPairEnds(a, b, n, m, tail);
    assert s[|s| - 1] == tail[|tail| - 1];
  }

  /** `n` copies of `a` then `m` of `b` survive the strip. */
  lemma StripIcons(a: string, b: string, tail: string, n: nat, m: nat)
    requires IconPair(a, b, tail)
    ensures Strip(RepeatStr(a, n) + RepeatStr(b, m)) == RepeatStr(a, n) + RepeatStr(b, m)
  {
    var s := RepeatStr(a, n) + RepeatStr(b, m);
    if n + m > 0 {
      IconsEnds(a, b, tail, n, m);
    }
    StripUnchanged(s);
  }

  /** The shape of the dots over any two icons that `IconPair` relates. */
  lemma DotsWithShape(a: string, b: string, tail: string, rating: PyValue, totalDots: int)
    requires IconPair(a, b, tail)
    ensures !(AsInt(rating).Some? && 0 <= AsInt(rating).value <= totalDots) ==> DotsWith(a, b, rating, totalDots) == ""
    ensures AsInt(rating).Some? && 0 <= AsInt(rating).value <= totalDots ==>
      var r := AsInt(rating).value;
      DotsWith(a, b, rating, totalDots) == RepeatStr(a, r) + RepeatStr(b, totalDots - r)
  {
    if AsInt(rating).Some? && 0 <= AsInt(rating).value <= totalDots {
      var r := AsInt(rating).value;
      StripIcons(a, b, tail, r, totalDots - r);
    }
  }

  /** The number of leading filled icons is the rating. */
  lemma DotsWithCount(a: string, b: string, tail: string, rating: PyValue, totalDots: int)
    requires IconPair(a, b, tail) && AsInt(rating).Some? && 0 <= AsInt(rating).value <= totalDots
    ensures LeadingCopies(DotsWith(a, b, rating, totalDots), a) == AsInt(rating).value
  {
    var r := AsInt(rating).value;
    DotsWithShape(a, b, tail, rating, totalDots);
    LeadingCopiesPair(a, b, r, totalDots - r);
  }

  /**
   * An invalid rating gives no dots; a valid one gives `rating` solid
   * circles and then `total - rating` regular ones, and exactly `rating`
   * solid circles are read back from the front.
   */
  lemma RatingDotsShape(rating: PyValue, totalDots: int)
    ensures !(AsInt(rating).Some? && 0 <= AsInt(rating).value <= totalDots) ==> RatingDotsAsWritten(rating, totalDots) == ""
    ensures AsInt(rating).Some? && 0 <= AsInt(rating).value <= totalDots ==>
      var r := AsInt(rating).value;
      RatingDotsAsWritten(rating, totalDots) == RepeatStr(FilledDot, r) + RepeatStr(EmptyDot, totalDots - r) &&
      LeadingCopies(RatingDotsAsWritten(rating, totalDots), FilledDot) == r
  {
    FilledEmptyPair();
    DotsWithShape(FilledDot, EmptyDot, "}" + DotSpacing, rating, totalDots);
    if AsInt(rating).Some? && 0 <= AsInt(rating).value <= totalDots {
      DotsWithCount(FilledDot, EmptyDot, "}" + DotSpacing, rating, totalDots);
    }
  }

  /** A text ending with `p + q` ends with `q`, and the character before `q` is `p`'s last. */
  lemma EndsWithSplit(s: string, p: string, q: string)
    requires p != [] && EndsWith(s, p + q)
    ensures EndsWith(s, q) && |s| > |q| && s[|s| - |q| - 1] == p[|p| - 1]
  {
    assert s[|s| - |q|..] == s[|s| - |p + q|..][|p|..];
    assert s[|s| - |q| - 1] == s[|s| - |p + q|..][|p| - 1];
  }

  /** Dots over icons ending with `p + q`, for a valid rating and a non-zero total, end with `q` after `p`. */
  lemma DotsWithTail(a: string, b: string, p: string, q: string, rating: PyValue, totalDots: int)
    requires p != [] && IconPair(a, b, p + q)
    requires AsInt(rating).Some? && 0 <= AsInt(rating).value <= totalDots && totalDots > 0
    ensures var w := DotsWith(a, b, rating, totalDots);
      EndsWith(w, q) && |w| > |q| && w[|w| - |q| - 1] == p[|p| - 1]
  {
    var r := AsInt(rating).value;
    DotsWithShape(a, b, p + q, rating, totalDots);
    IconsEnds(a, b, p + q, r, totalDots - r);
    EndsWithSplit(DotsWith(a, b, rating, totalDots), p, q);
  }

  /** The dots of a valid rating with a non-zero total, as written: they end with `}` and the spacing. */
  lemma DotsTail(rating: PyValue, totalDots: int)
    requires AsInt(rating).Some? && 0 <= AsInt(rating).value <= totalDots && totalDots > 0
    ensures var w := RatingDotsAsWritten(rating, totalDots);
      EndsWith(w, DotSpacing) && |w| > |DotSpacing| && w[|w| - |DotSpacing| - 1] == '}'
  {
    FilledEmptyPair();
    DotsWithTail(FilledDot, EmptyDot, "}", DotSpacing, rating, totalDots);
  }

  /** As written, a valid rating with a non-zero total leaves a spacing after the last dot. */
  lemma TrailingSpacingAsWritten(rating: PyValue, totalDots: int)
    requires AsInt(rating).Some? && 0 <= AsInt(rating).value <= totalDots && totalDots > 0
    ensures EndsWith(RatingDotsAsWritten(rating, totalDots), DotSpacing)
  {
    DotsTail(rating, totalDots);
  }

  /** With the spacing dropped, the dots end with the last circle's closing brace. */
  lemma RatingDotsEndWithCircle(rating: PyValue, totalDots: int)
    requires AsInt(rating).Some? && 0 <= AsInt(rating).value <= totalDots && totalDots > 0
    ensures var s := RatingDots(rating, totalDots);
      s != [] && s[|s| - 1] == '}' && StartsWith(RatingDotsAsWritten(rating, totalDots), s)
  {
    DotsTail(rating, totalDots);
    DropEndAfter(RatingDotsAsWritten(rating, totalDots), DotSpacing, '}');
  }

  /** Dropping a suffix `q` that follows `c` leaves a prefix ending with `c`. */
  lemma DropEndAfter(w: string, q: string, c: char)
    requires EndsWith(w, q) && |w| > |q| && w[|w| - |q| - 1] == c
    ensures var s := DropEnd(w, q);
      s != [] && s[|s| - 1] == c && StartsWith(w, s)
  {
  }

  // ---------------------------------------------------------------------------
  // Contact links and dates
  // ---------------------------------------------------------------------------

  const LinkedinPrefix := "https://linkedin.com/in/"
  const GithubPrefix := "https://github.com/"
  const WebsitePrefix := "https://"

  /** A value not starting with "http" gets `prefix` in front of it. */
  function LinkUrl(value: string, prefix: string): (url: string)
    requires StartsWith(prefix, "http")
    ensures StartsWith(url, "http")
    ensures StartsWith(value, "http") ==> url == value
    ensures !StartsWith(value, "http") ==> url == prefix + value
  {
    if StartsWith(value, "http") then value else prefix + value
  }

  /** The link text: `value.replace(prefix, '')`, then sanitized. */
  function LinkText(value: string, prefix: string): string
    requires prefix != []
  {
    Escape(ReplaceAll(value, prefix, ""))
  }

  /** Prefixing is idempotent: an address already built is kept. */
  lemma LinkUrlIdempotent(value: string, prefix: string)
    requires StartsWith(prefix, "http")
    ensures LinkUrl(LinkUrl(value, prefix), prefix) == LinkUrl(value, prefix)
  {
  }

  /**
   * A bare handle and the full address built from it give the same link
   * and the same link text.
   */
  lemma HandleOrAddress(handle: string, prefix: string)
    requires StartsWith(prefix, "http") && !StartsWith(handle, "http") && !Contains(handle, prefix)
    ensures LinkUrl(handle, prefix) == LinkUrl(prefix + handle, prefix) == prefix + handle
    ensures LinkText(handle, prefix) == LinkText(prefix + handle, prefix) == Escape(handle)
  {
    ReplaceAbsent(handle, prefix, "");
    var s := prefix + handle;
    assert s[..|prefix|] == prefix;
    assert s[|prefix|..] == handle;
    assert ReplaceAll(s, prefix, "") == "" + ReplaceAll(s[|prefix|..], prefix, "");
    assert ReplaceAll(s, prefix, "") == handle;
    assert LinkText(s, prefix) == Escape(handle);
    assert LinkText(handle, prefix) == Escape(handle);
    assert StartsWith(s, "http") by {
      assert s[..4] == prefix[..4];
    }
  }

  /** The end date of a job: its text when truthy, "Present" when missing or falsy. */
  function EndDate(endDate: Option<PyValue>): string {
    var v := endDate.GetOr(PyNone);
    Escape(if Truthy(v) then Str(v) else "Present")
  }

  lemma EndDateDefault(endDate: Option<PyValue>)
    ensures !Truthy(endDate.GetOr(PyNone)) ==> EndDate(endDate) == "Present"
    ensures endDate.Some? && endDate.value.PyStr? && endDate.value.s != [] ==> EndDate(endDate) == Escape(endDate.value.s)
  {
    EscapeClean("Present");
  }
}

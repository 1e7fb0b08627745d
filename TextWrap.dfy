/**
 * `wrapText(_:indent:width:)` of the terminal viewer: a greedy word wrapper.
 * The text is split on spaces only (newlines inside the text are ordinary
 * characters of a word); each output line starts with `indent` spaces; a
 * word joins the current line only while the line stays within `width`,
 * and a lone word longer than that is never split.
 *
 * `Pack` and `Lines` say which words share a line; `Wrap` is the text that
 * results; `WrapText` is the loop the viewer runs, proved to produce `Wrap`.
 */
module TextWrap {
  import opened Strings

  /** `text.split(separator: " ")`: the non-empty space-separated words. */
  function Words(text: string): (r: seq<string>)
    ensures forall k :: 0 <= k < |r| ==> r[k] != [] && !HasChar(r[k], ' ')
  {
    SplitWhere(text, {' '})
  }

  /** One output line: the indentation, then the words joined by single spaces. */
  function LineOf(group: seq<string>, indent: nat): string {
    Repeat(' ', indent) + Join(group, " ")
  }

  /** All words of a list of groups, in order. */
  function Flatten(groups: seq<seq<string>>): (r: seq<string>)
  {
    if groups == [] then [] else Flatten(groups[..|groups| - 1]) + groups[|groups| - 1]
  }

  /** The finished lines and the line being filled. */
  datatype Packing = Packing(done: seq<seq<string>>, current: seq<string>)

  /** The lines of a packing once the line being filled is closed. */
  function Close(p: Packing): seq<seq<string>> {
    if p.current == [] then p.done else p.done + [p.current]
  }

  lemma LineOfExtend(g: seq<string>, w: string, indent: nat)
    requires g != []
    ensures LineOf(g + [w], indent) == LineOf(g, indent) + " " + w
  {
    assert (g + [w])[..|g + [w]| - 1] == g;
  }

  /** `wrapText`'s handling of one word. */
  function Step(p: Packing, w: string, indent: nat, width: int): Packing {
    if p.current == [] then Packing(p.done, [w])
    else if |LineOf(p.current, indent)| + |w| + 1 <= width then Packing(p.done, p.current + [w])
    else Packing(p.done + [p.current], [w])
  }

  /** The packing of `words`, built word by word as the loop of `wrapText` does. */
  function Pack(words: seq<string>, indent: nat, width: int): Packing
    decreases |words|
  {
    if words == [] then Packing([], [])
    else Step(Pack(words[..|words| - 1], indent, width), words[|words| - 1], indent, width)
  }

  /**
   * What the greedy packing guarantees: every word is kept in order, every
   * line is non-empty, a line of two or more words fits in `width`, and a
   * line was closed only because the next word would not fit on it.
   */
  ghost predicate Greedy(p: Packing, words: seq<string>, indent: nat, width: int) {
    && Flatten(p.done) + p.current == words
    && (words != [] <==> p.current != [])
    && (p.current == [] ==> p.done == [])
    && (forall k :: 0 <= k < |p.done| ==> p.done[k] != [])
    && (forall k :: 0 <= k < |p.done| && |p.done[k]| >= 2 ==> |LineOf(p.done[k], indent)| <= width)
    && (|p.current| >= 2 ==> |LineOf(p.current, indent)| <= width)
    && (forall k :: 0 <= k < |p.done| ==>
          |LineOf(p.done[k], indent)| + |Close(p)[k + 1][0]| + 1 > width)
  }

  lemma StepGreedy(p: Packing, words: seq<string>, w: string, indent: nat, width: int)
    requires Greedy(p, words, indent, width)
    ensures Greedy(Step(p, w, indent, width), words + [w], indent, width)
  {
    if p.current == [] {
      StartGreedy(p, words, w, indent, width);
    } else if |LineOf(p.current, indent)| + |w| + 1 <= width {
      ExtendGreedy(p, words, w, indent, width);
    } else {
      BreakGreedy(p, words, w, indent, width);
    }
  }

  /** The first word opens the first line. */
  lemma StartGreedy(p: Packing, words: seq<string>, w: string, indent: nat, width: int)
    requires Greedy(p, words, indent, width) && p.current == []
    ensures Greedy(Packing(p.done, [w]), words + [w], indent, width)
  {
    assert p.done == [] && words == [];
  }

  /** A word that fits joins the current line. */
  lemma ExtendGreedy(p: Packing, words: seq<string>, w: string, indent: nat, width: int)
    requires Greedy(p, words, indent, width) && p.current != []
    requires |LineOf(p.current, indent)| + |w| + 1 <= width
    ensures Greedy(Packing(p.done, p.current + [w]), words + [w], indent, width)
  {
    var q := Packing(p.done, p.current + [w]);
    LineOfExtend(p.current, w, indent);
    assert Close(q) == p.done + [p.current + [w]];
    assert Close(p) == p.done + [p.current];
    forall k | 0 <= k < |q.done|
      ensures |LineOf(q.done[k], indent)| + |Close(q)[k + 1][0]| + 1 > width
    {
      assert Close(q)[k + 1][0] == Close(p)[k + 1][0];
    }
  }

  /** A word that does not fit closes the current line and opens the next. */
  lemma BreakGreedy(p: Packing, words: seq<string>, w: string, indent: nat, width: int)
    requires Greedy(p, words, indent, width) && p.current != []
    requires |LineOf(p.current, indent)| + |w| + 1 > width
    ensures Greedy(Packing(p.done + [p.current], [w]), words + [w], indent, width)
  {
    var q := Packing(p.done + [p.current], [w]);
    assert q.done[..|q.done| - 1] == p.done;
    assert Flatten(q.done) == Flatten(p.done) + p.current;
    assert Close(q) == p.done + [p.current] + [[w]];
    assert Close(p) == p.done + [p.current];
    forall k | 0 <= k < |q.done|
      ensures |LineOf(q.done[k], indent)| + |Close(q)[k + 1][0]| + 1 > width
    {
      if k < |p.done| {
        assert Close(q)[k + 1] == Close(p)[k + 1];
      }
    }
  }

  /** The packing `wrapText` computes is greedy. */
  lemma {:induction false} PackGreedy(words: seq<string>, indent: nat, width: int)
    ensures Greedy(Pack(words, indent, width), words, indent, width)
    decreases |words|
  {
    if words != [] {
      var init := words[..|words| - 1];
      var w := words[|words| - 1];
      PackGreedy(init, indent, width);
      assert Pack(words, indent, width) == Step(Pack(init, indent, width), w, indent, width);
      StepGreedy(Pack(init, indent, width), init, w, indent, width);
      InitLast(words);
    }
  }

  /** The words of each output line, in order. */
  function Lines(words: seq<string>, indent: nat, width: int): (r: seq<seq<string>>)
    ensures forall k :: 0 <= k < |r| ==> r[k] != []
  {
    PackGreedy(words, indent, width);
    Close(Pack(words, indent, width))
  }

  /** The text of each output line. */
  function RenderLines(lines: seq<seq<string>>, indent: nat): (r: seq<string>)
    ensures |r| == |lines|
    ensures forall k :: 0 <= k < |lines| ==> r[k] == LineOf(lines[k], indent)
  {
    if lines == [] then []
    else RenderLines(lines[..|lines| - 1], indent) + [LineOf(lines[|lines| - 1], indent)]
  }

  /** What `wrapText(text, indent: indent, width: width)` returns. */
  function Wrap(text: string, indent: nat, width: int): string {
    Join(RenderLines(Lines(Words(text), indent, width), indent), "\n")
  }

  // ---------------------------------------------------------------------------
  // The loop of wrapText
  // ---------------------------------------------------------------------------

  /** The finished lines, each followed by its newline. */
  function Flushed(done: seq<seq<string>>, indent: nat): string {
    if done == [] then []
    else Flushed(done[..|done| - 1], indent) + LineOf(done[|done| - 1], indent) + "\n"
  }

  lemma {:induction false} FlushedThenLine(done: seq<seq<string>>, c: seq<string>, indent: nat)
    ensures Flushed(done, indent) + LineOf(c, indent) == Join(RenderLines(done + [c], indent), "\n")
    decreases |done|
  {
    var all := done + [c];
    assert all[..|all| - 1] == done;
    if done == [] {
      assert RenderLines(all, indent) == [LineOf(c, indent)];
    } else {
      var d' := done[..|done| - 1];
      var g := done[|done| - 1];
      FlushedThenLine(d', g, indent);
      assert d' + [g] == done;
    }
  }

  /** The viewer's wrapping loop; it returns exactly `Wrap(text, indent, width)`. */
  method WrapText(text: string, indent: nat, width: int) returns (result: string)
    ensures result == Wrap(text, indent, width)
  {
    result := "";
    var currentLine := "";
    var indentStr := Repeat(' ', indent);
    var words := Words(text);
    ghost var p := Packing([], []);
    var i := 0;
    while i < |words|
      invariant 0 <= i <= |words|
      invariant p == Pack(words[..i], indent, width)
      invariant result == Flushed(p.done, indent)
      invariant p.current == [] ==> currentLine == ""
      invariant p.current != [] ==> currentLine == LineOf(p.current, indent) && currentLine != ""
    {
      assert words[..i + 1][..i] == words[..i];
      result, currentLine := TakeWord(p, result, currentLine, words[i], indentStr, indent, width);
      p := Step(p, words[i], indent, width);
      i := i + 1;
    }
    assert words[..i] == words;
    PackGreedy(words, indent, width);
    if currentLine != "" {
      FlushedThenLine(p.done, p.current, indent);
      result := result + currentLine;
    }
  }

  /** One pass of the loop of `wrapText`: the word joins the line, or the line is flushed and the word opens the next. */
  method TakeWord(ghost p: Packing, result: string, currentLine: string, word: string, indentStr: string, indent: nat, width: int)
    returns (result': string, currentLine': string)
    requires word != [] && indentStr == Repeat(' ', indent)
    requires result == Flushed(p.done, indent)
    requires p.current == [] ==> currentLine == ""
    requires p.current != [] ==> currentLine == LineOf(p.current, indent) && currentLine != ""
    ensures var q := Step(p, word, indent, width);
      result' == Flushed(q.done, indent) && q.current != [] &&
      currentLine' == LineOf(q.current, indent) && currentLine' != ""
  {
    if currentLine == "" {
      result', currentLine' := result, indentStr + word;
    } else if |currentLine| + |word| + 1 <= width {
      LineOfExtend(p.current, word, indent);
      result', currentLine' := result, currentLine + " " + word;
    } else {
      assert (p.done + [p.current])[..|p.done|] == p.done;
      result', currentLine' := result + currentLine + "\n", indentStr + word;
    }
  }

  // ---------------------------------------------------------------------------
  // What the wrapped text promises
  // ---------------------------------------------------------------------------

  /** The lines hold every word, in order. */
  lemma LinesKeepWords(words: seq<string>, indent: nat, width: int)
    ensures Flatten(Lines(words, indent, width)) == words
  {
    PackGreedy(words, indent, width);
    var p := Pack(words, indent, width);
    if p.current != [] {
      assert (p.done + [p.current])[..|p.done|] == p.done;
    }
  }

  /** Every line of two or more words fits in `width`. */
  lemma LinesFit(words: seq<string>, indent: nat, width: int)
    ensures forall k :: 0 <= k < |Lines(words, indent, width)| && |Lines(words, indent, width)[k]| >= 2 ==>
      |LineOf(Lines(words, indent, width)[k], indent)| <= width
  {
    PackGreedy(words, indent, width);
    var p := Pack(words, indent, width);
    var L := Lines(words, indent, width);
    assert L == Close(p);
    forall k | 0 <= k < |L| && |L[k]| >= 2 ensures |LineOf(L[k], indent)| <= width {
      if k < |p.done| {
        assert L[k] == p.done[k];
      } else {
        assert L[k] == p.current;
      }
    }
  }

  /** Every line but the last was ended only because the next line's first word would not fit on it. */
  lemma LinesGreedy(words: seq<string>, indent: nat, width: int)
    ensures forall k :: 0 <= k < |Lines(words, indent, width)| - 1 ==>
      |LineOf(Lines(words, indent, width)[k], indent)| + |Lines(words, indent, width)[k + 1][0]| + 1 > width
  {
    PackGreedy(words, indent, width);
    var p := Pack(words, indent, width);
    var L := Lines(words, indent, width);
    assert L == Close(p);
    forall k | 0 <= k < |L| - 1 ensures |LineOf(L[k], indent)| + |L[k + 1][0]| + 1 > width {
      assert L[k] == p.done[k];
    }
  }

  /** A word with no separator in it: what splitting on `seps` leaves whole. */
  predicate Clean(w: string, seps: set<char>) {
    w != [] && forall j :: 0 <= j < |w| ==> w[j] !in seps
  }

  /** Words joined by single spaces split back into the words. */
  lemma {:induction false} SplitJoinedWords(g: seq<string>, seps: set<char>)
    requires ' ' in seps
    requires forall k :: 0 <= k < |g| ==> Clean(g[k], seps)
    ensures SplitWhere(Join(g, " "), seps) == g
    decreases |g|
  {
    if |g| == 1 {
      SplitNoSep(g[0], seps);
    } else if |g| > 1 {
      var init := g[..|g| - 1];
      SplitJoinedWords(init, seps);
      SplitAroundStr(Join(init, " "), " ", g[|g| - 1], seps);
      SplitNoSep(g[|g| - 1], seps);
      InitLast(g);
    }
  }

  /** An indented line splits back into its words. */
  lemma SplitLine(g: seq<string>, indent: nat, seps: set<char>)
    requires ' ' in seps
    requires forall k :: 0 <= k < |g| ==> Clean(g[k], seps)
    ensures SplitWhere(LineOf(g, indent), seps) == g
  {
    SplitAfterSeps(Repeat(' ', indent), Join(g, " "), seps);
    SplitJoinedWords(g, seps);
  }

  /** Rendered lines joined by newlines split back into all their words. */
  lemma {:induction false} SplitRendered(lines: seq<seq<string>>, indent: nat, seps: set<char>)
    requires ' ' in seps && '\n' in seps
    requires forall k :: 0 <= k < |Flatten(lines)| ==> Clean(Flatten(lines)[k], seps)
    ensures SplitWhere(Join(RenderLines(lines, indent), "\n"), seps) == Flatten(lines)
    decreases |lines|
  {
    if lines != [] {
      var init := lines[..|lines| - 1];
      var last := lines[|lines| - 1];
      assert Flatten(lines) == Flatten(init) + last;
      forall k | 0 <= k < |Flatten(init)| ensures Clean(Flatten(init)[k], seps) {
        assert Flatten(lines)[k] == Flatten(init)[k];
      }
      forall k | 0 <= k < |last| ensures Clean(last[k], seps) {
        assert Flatten(lines)[|Flatten(init)| + k] == last[k];
      }
      SplitLine(last, indent, seps);
      var R := RenderLines(lines, indent);
      if |lines| == 1 {
        assert init == [];
        assert Flatten(lines) == last;
      } else {
        assert R[..|R| - 1] == RenderLines(init, indent);
        SplitRendered(init, indent, seps);
        SplitAroundStr(Join(RenderLines(init, indent), "\n"), "\n", LineOf(last, indent), seps);
      }
    }
  }

  /**
   * Splitting the wrapped text on spaces and newlines gives back the words of
   * the input, in order, when the input has no newline of its own (a newline
   * inside a word is kept as part of the word and would split it here).
   */
  lemma WrapKeepsWords(text: string, indent: nat, width: int)
    requires !HasChar(text, '\n')
    ensures SplitWhere(Wrap(text, indent, width), {' ', '\n'}) == Words(text)
  {
    var words := Words(text);
    var seps := {' ', '\n'};
    SplitKeepsAbsent(text, {' '}, '\n');
    LinesKeepWords(words, indent, width);
    forall k | 0 <= k < |words| ensures Clean(words[k], seps) {
      assert !HasChar(words[k], '\n');
    }
    SplitRendered(Lines(words, indent, width), indent, seps);
  }

  /** The wrapped text is empty exactly when the input has no words. */
  lemma WrapEmptyIffNoWords(text: string, indent: nat, width: int)
    ensures Wrap(text, indent, width) == "" <==> Words(text) == []
  {
    var words := Words(text);
    var L := Lines(words, indent, width);
    LinesKeepWords(words, indent, width);
    if words != [] {
      assert L != [];
      var R := RenderLines(L, indent);
      JoinStartsWithFirst(R, "\n");
      assert L[0] != [];
      JoinStartsWithFirst(L[0], " ");
      assert |R[0]| >= indent + |L[0][0]|;
    }
  }

  /** A line ends with the last character of its last word. */
  lemma LineEndsWithLastWord(g: seq<string>, indent: nat)
    requires g != [] && g[|g| - 1] != []
    ensures LineOf(g, indent) != []
    ensures LineOf(g, indent)[|LineOf(g, indent)| - 1] == g[|g| - 1][|g[|g| - 1]| - 1]
  {
    JoinLastChar(g, " ");
  }

  /** Without newlines in the input, the wrapped text never ends with a newline. */
  lemma WrapNoTrailingNewline(text: string, indent: nat, width: int)
    requires !HasChar(text, '\n')
    ensures Wrap(text, indent, width) != "" ==> Wrap(text, indent, width)[|Wrap(text, indent, width)| - 1] != '\n'
  {
    var out := Wrap(text, indent, width);
    if out != "" {
      WrapEndsWithLastWord(text, indent, width);
      var words := Words(text);
      var w := words[|words| - 1];
      SplitKeepsAbsent(text, {' '}, '\n');
      assert !HasChar(w, '\n');
    }
  }

  /** A non-empty wrapped text ends with the last character of the last word. */
  lemma WrapEndsWithLastWord(text: string, indent: nat, width: int)
    requires Wrap(text, indent, width) != ""
    ensures var words := Words(text); var out := Wrap(text, indent, width);
      words != [] && out[|out| - 1] == words[|words| - 1][|words[|words| - 1]| - 1]
  {
    var words := Words(text);
    var L := Lines(words, indent, width);
    var out := Wrap(text, indent, width);
    WrapEmptyIffNoWords(text, indent, width);
    LinesKeepWords(words, indent, width);
    var R := RenderLines(L, indent);
    assert out == Join(R, "\n");
    assert L != [];
    var g := L[|L| - 1];
    FlattenLast(L);
    var w := words[|words| - 1];
    assert g[|g| - 1] == w;
    assert w != [];
    LineEndsWithLastWord(g, indent);
    assert R[|R| - 1] == LineOf(g, indent);
    JoinLastChar(R, "\n");
  }

  /** The last word of a list of non-empty groups is the last word of its last group. */
  lemma FlattenLast(groups: seq<seq<string>>)
    requires groups != [] && groups[|groups| - 1] != []
    ensures var f := Flatten(groups); var g := groups[|groups| - 1];
      f != [] && f[|f| - 1] == g[|g| - 1]
  {
  }
}

/**
 * Attributed text, as the `ResumeTUI` formatters return it: a list of
 * `(String, Int32)` pairs, each a piece of text and the ncurses attribute it
 * is drawn with. The attribute constants and the colour-pair macro belong to
 * the terminal layer and are parameters here, as is `drawProgressBar`.
 */
module Segments {
  import opened Wrappers
  import opened Strings

  datatype Segment = Segment(text: string, attr: bv32)

  /** What the formatters take from the terminal layer. */
  datatype Terminal = Terminal(
    /** `ResumeTUI.A_BOLD`. */
    bold: bv32,
    /** `ResumeTUI.A_UNDERLINE`. */
    underline: bv32,
    /** `Cncurses.COLOR_PAIR(n)`. */
    colorPair: int -> bv32,
    /** `drawProgressBar(current:maxVal:width:)`. */
    progressBar: (int, int, int) -> string,
    /** `getmaxx(tuiState.contentWin)`, or `None` when there is no content window. */
    windowWidth: Option<int>)

  /** The `─` rule under a section title: two spaces and `n` rule characters. */
  function TitleRule(n: nat): (r: string)
    ensures |r| == n + 2
  {
    "  " + Repeat('─', n)
  }

  /** The 30-character divider segment under the title of a page. */
  function Divider(t: Terminal): Segment {
    Segment(TitleRule(30) + "\n\n", t.colorPair(3))
  }

  /**
   * The widths the Experience, Projects and Contributions entries are laid
   * out with: text wraps at `getmaxx - 10`, and each entry ends with a rule
   * of `getmaxx - 14` dots.
   */
  datatype EntryLayout = EntryLayout(wrapWidth: int, ruleLength: nat, term: Terminal)

  /** A window of width `w` can draw the closing rule of `entries` entries. */
  predicate RuleFits(w: int, entries: nat) {
    entries == 0 || w - 14 >= 0
  }

  function EntryLayoutOf(t: Terminal, w: int): (lay: EntryLayout)
    ensures lay.term == t && lay.wrapWidth == w - 10
    ensures w - 14 >= 0 ==> lay.ruleLength == w - 14
  {
    EntryLayout(w - 10, if w - 14 >= 0 then w - 14 else 0, t)
  }

  /** The segment that closes an entry: a blank line, the dotted rule, a blank line. */
  function EntryRule(lay: EntryLayout): Segment {
    Segment("\n  " + Repeat('·', lay.ruleLength) + "\n\n", lay.term.colorPair(3))
  }

  function SegmentText(s: Segment): string {
    s.text
  }

  /** The text the segments draw, one after the other. */
  function TextOf(segs: seq<Segment>): string {
    Each(segs, SegmentText)
  }

  lemma TextOfAppend(a: seq<Segment>, b: seq<Segment>)
    ensures TextOf(a + b) == TextOf(a) + TextOf(b)
  {
    EachAppend(a, b, SegmentText);
  }

  lemma TextOfSingle(s: Segment)
    ensures TextOf([s]) == s.text
  {
    assert [s][..0] == [];
    assert Each([s], SegmentText) == Each([], SegmentText) + SegmentText(s);
  }
}

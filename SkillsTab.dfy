/**
 * `ResumeTUI.formatSkillsTab`: the Skills page as attributed segments. Both
 * skill lists are sorted by rating descending, then name ascending. A window
 * at least 80 columns wide shows them side by side, row by row, the shorter
 * list padded with blank cells; a narrower one shows them one after the
 * other.
 */
module SkillsTab {
  import opened Wrappers
  import opened Strings
  import opened ResumeModels
  import opened SkillOrder
  import opened Segments

  const MinWidthForTwoColumns := 80
  const Gutter := "    |    "
  const ProgressBarWidth := 15
  const RatingTextWidth := 7
  const LangTitle := "PROGRAMMING LANGUAGES"
  const SdkTitle := "SDKS & APIS"

  /** The widths of the two-column layout: each column, and the name field within a cell. */
  datatype Columns = Columns(columnWidth: nat, nameWidth: nat)

  /**
   * The two-column widths as written: `(contentWidth - 2 - 9 - 2 * 2) / 2`
   * for a column and `columnWidth - 15 - 7 - 1` for a name. The name field
   * leaves room for the bar and the rating text but for only one of the
   * two spaces of a cell, so a cell (`CellWidth`) is one character wider
   * than its column.
   */
  function ColumnsAsWritten(w: int): (c: Columns)
    requires w >= MinWidthForTwoColumns
    ensures c.columnWidth >= |LangTitle|
    ensures c.nameWidth + ProgressBarWidth + 1 + RatingTextWidth == c.columnWidth
  {
    var columnWidth := (w - 2 - |Gutter| - 2 * 2) / 2;
    Columns(columnWidth, columnWidth - ProgressBarWidth - RatingTextWidth - 1)
  }

  /**
   * The two-column widths with the name field leaving room for both spaces
   * of a cell: a cell (`CellWidth`) is exactly one column wide.
   */
  function ColumnsCorrected(w: int): (c: Columns)
    requires w >= MinWidthForTwoColumns
    ensures c.columnWidth >= |LangTitle|
    ensures c.nameWidth + 1 + ProgressBarWidth + 1 + RatingTextWidth == c.columnWidth
  {
    var columnWidth := (w - 2 - |Gutter| - 2 * 2) / 2;
    Columns(columnWidth, columnWidth - ProgressBarWidth - RatingTextWidth - 2)
  }

  /** Which name width the page is laid out with. */
  datatype Variant = AsWritten | Corrected

  function ColumnsFor(v: Variant, w: int): (c: Columns)
    requires w >= MinWidthForTwoColumns
    ensures c.columnWidth >= |LangTitle|
  {
    if v == AsWritten then ColumnsAsWritten(w) else ColumnsCorrected(w)
  }

  /** What a cell is drawn with. */
  datatype CellStyle = CellStyle(term: Terminal, cols: Columns)

  /** The name, its bar and its rating: `"{name} "`, `"{bar} "`, `"(r/5)"` padded to 7. */
  function Cell(st: CellStyle, s: Skill): seq<Segment> {
    [Segment(PadTo(s.name, st.cols.nameWidth) + " ", st.term.colorPair(3)),
     Segment(st.term.progressBar(s.rating, 5, ProgressBarWidth) + " ", st.term.colorPair(5)),
     Segment(PadTo("(" + IntToString(s.rating) + "/5)", RatingTextWidth), st.term.colorPair(3))]
  }

  /** A blank cell, one column wide. */
  function Filler(st: CellStyle): seq<Segment> {
    [Segment(Repeat(' ', st.cols.columnWidth), st.term.colorPair(3))]
  }

  /** Row `i` of one column: the `i`th skill, or a blank cell when the list is shorter. */
  function Side(st: CellStyle, skills: seq<Skill>, i: nat): seq<Segment> {
    if i < |skills| then Cell(st, skills[i]) else Filler(st)
  }

  /** Left padding, the language cell, the gutter, the SDK cell, a newline. */
  function Row(st: CellStyle, langs: seq<Skill>, sdks: seq<Skill>, i: nat): seq<Segment> {
    [Segment("  ", st.term.colorPair(3))] + Side(st, langs, i) + [Segment(Gutter, st.term.colorPair(3))]
      + Side(st, sdks, i) + [Segment("\n", st.term.colorPair(3))]
  }

  /** Both lists and the style their rows are drawn with. */
  datatype RowSource = RowSource(st: CellStyle, langs: seq<Skill>, sdks: seq<Skill>)

  function RowOf(src: RowSource, i: nat): seq<Segment> {
    Row(src.st, src.langs, src.sdks, i)
  }

  /** Rows `0` to `n - 1`, in order. */
  function Rows(st: CellStyle, langs: seq<Skill>, sdks: seq<Skill>, n: nat): seq<Segment> {
    Stack(RowSource(st, langs, sdks), n, RowOf)
  }

  /** The centred column titles and their underlines. */
  function TwoColumnHead(st: CellStyle): seq<Segment>
    requires st.cols.columnWidth >= |LangTitle|
  {
    var t := st.term;
    var lp := (st.cols.columnWidth - |LangTitle|) / 2;
    var sp := (st.cols.columnWidth - |SdkTitle|) / 2;
    var rest := st.cols.columnWidth - |LangTitle| - lp;
    [Segment("  " + Repeat(' ', lp) + LangTitle + Repeat(' ', rest) + Gutter + Repeat(' ', sp) + SdkTitle + "\n",
       t.bold | t.colorPair(3)),
     Segment("  " + Repeat(' ', lp) + Repeat('─', |LangTitle|) + Repeat(' ', rest) + Gutter + Repeat(' ', sp)
       + Repeat('─', |SdkTitle|) + "\n\n", t.colorPair(3))]
  }

  function MaxRows(langs: seq<Skill>, sdks: seq<Skill>): (n: nat)
    ensures n >= |langs| && n >= |sdks| && (n == |langs| || n == |sdks|)
  {
    if |langs| < |sdks| then |sdks| else |langs|
  }

  /** What an entry of the single-column layout is drawn with. */
  datatype EntryStyle = EntryStyle(term: Terminal, nameWidth: nat)

  /** One skill of the single-column layout. */
  function SingleEntry(st: EntryStyle, s: Skill): seq<Segment> {
    [Segment("  " + "  " + PadTo(s.name, st.nameWidth) + " ", st.term.colorPair(3)),
     Segment(st.term.progressBar(s.rating, 5, ProgressBarWidth) + " ", st.term.colorPair(5)),
     Segment("(" + IntToString(s.rating) + "/5)\n", st.term.colorPair(3))]
  }

  function SectionHead(t: Terminal, title: string): seq<Segment> {
    [Segment("  " + title + "\n", t.bold | t.colorPair(3)), Segment(TitleRule(|title|) + "\n\n", t.colorPair(3))]
  }

  /** `contentWidth - 15 - 7 - 2 - 4`; only used when there is a skill to show. */
  function SingleNameWidth(w: int): nat {
    if w - 28 >= 0 then w - 28 else 0
  }

  function Head(t: Terminal, w: int): seq<Segment>
    requires w >= 4
  {
    [Segment("  TECHNICAL SKILLS\n", t.bold | t.colorPair(3)), Segment(TitleRule(w - 4) + "\n", t.colorPair(3))]
  }

  function TwoColumnPage(t: Terminal, w: int, cols: Columns, langs: seq<Skill>, sdks: seq<Skill>): seq<Segment>
    requires w >= 4 && cols.columnWidth >= |LangTitle|
  {
    Head(t, w) + TwoColumnHead(CellStyle(t, cols)) + Rows(CellStyle(t, cols), langs, sdks, MaxRows(langs, sdks))
      + [Segment("\n", t.colorPair(3))]
  }

  function SingleColumnPage(t: Terminal, w: int, langs: seq<Skill>, sdks: seq<Skill>): seq<Segment>
    requires w >= 4
  {
    var st := EntryStyle(t, SingleNameWidth(w));
    Head(t, w) + SectionHead(t, LangTitle) + EachIn(st, langs, SingleEntry) + [Segment("\n", t.colorPair(3))]
      + SectionHead(t, SdkTitle) + EachIn(st, sdks, SingleEntry) + [Segment("\n", t.colorPair(3))]
  }

  /**
   * The page can be drawn without a trap: the rule under the title needs
   * 4 columns, and the single-column name width may not be negative when a
   * skill is shown.
   */
  predicate Drawable(resume: Resume, t: Terminal) {
    t.windowWidth.Some? ==>
      t.windowWidth.value >= 4 &&
      ((t.windowWidth.value < MinWidthForTwoColumns &&
        (resume.skills.programmingLanguages != [] || resume.skills.sdksApis != [])) ==> t.windowWidth.value >= 28)
  }

  /** The page, with the two-column name width of variant `v`. */
  function SkillsPage(resume: Resume, t: Terminal, v: Variant): seq<Segment>
    requires Drawable(resume, t)
  {
    match t.windowWidth
    case None => []
    case Some(w) =>
      var langs := SortSkills(resume.skills.programmingLanguages);
      var sdks := SortSkills(resume.skills.sdksApis);
      if w >= MinWidthForTwoColumns then TwoColumnPage(t, w, ColumnsFor(v, w), langs, sdks)
      else SingleColumnPage(t, w, langs, sdks)
  }

  /** The page as the source lays it out. */
  function SkillsSegmentsAsWritten(resume: Resume, t: Terminal): seq<Segment>
    requires Drawable(resume, t)
  {
    SkillsPage(resume, t, AsWritten)
  }

  /** The page with aligned columns. */
  function SkillsSegments(resume: Resume, t: Terminal): seq<Segment>
    requires Drawable(resume, t)
  {
    SkillsPage(resume, t, Corrected)
  }

  // ---------------------------------------------------------------------------
  // The formatter
  // ---------------------------------------------------------------------------

  method AppendRows(content0: seq<Segment>, st: CellStyle, langs: seq<Skill>, sdks: seq<Skill>)
    returns (content: seq<Segment>)
    ensures content == content0 + Rows(st, langs, sdks, MaxRows(langs, sdks))
  {
    var maxRows := if |langs| < |sdks| then |sdks| else |langs|;
    var t := st.term;
    content := content0;
    var i := 0;
    while i < maxRows
      invariant 0 <= i <= maxRows
      invariant content == content0 + Rows(st, langs, sdks, i)
    {
      var langAttr := BuildSide(st, langs, i);
      var sdkAttr := BuildSide(st, sdks, i);
      var row := [Segment("  ", t.colorPair(3))] + langAttr + [Segment(Gutter, t.colorPair(3))] + sdkAttr
        + [Segment("\n", t.colorPair(3))];
      assert row == Row(st, langs, sdks, i);
      RowsStep(content0, st, langs, sdks, i);
      content := content + row;
      i := i + 1;
    }
  }

  lemma RowsStep(h: seq<Segment>, st: CellStyle, langs: seq<Skill>, sdks: seq<Skill>, i: nat)
    ensures h + Rows(st, langs, sdks, i + 1) == h + Rows(st, langs, sdks, i) + Row(st, langs, sdks, i)
  {
    StackStep(h, RowSource(st, langs, sdks), i, RowOf);
  }

  /** `langAttr` / `sdkAttr`: one column's segments for row `i`. */
  method BuildSide(st: CellStyle, skills: seq<Skill>, i: nat) returns (attr: seq<Segment>)
    ensures attr == Side(st, skills, i)
  {
    attr := [];
    if i < |skills| {
      attr := attr + Cell(st, skills[i]);
    } else {
      attr := attr + [Segment(Repeat(' ', st.cols.columnWidth), st.term.colorPair(3))];
    }
  }

  method AppendSingleEntries(content0: seq<Segment>, st: EntryStyle, skills: seq<Skill>)
    returns (content: seq<Segment>)
    ensures content == content0 + EachIn(st, skills, SingleEntry)
  {
    content := content0;
    var i := 0;
    while i < |skills|
      invariant 0 <= i <= |skills|
      invariant content == content0 + EachIn(st, skills[..i], SingleEntry)
    {
      EachInStep(content0, st, skills, i, SingleEntry);
      var s := skills[i];
      var bar := st.term.progressBar(s.rating, 5, ProgressBarWidth);
      content := content + [Segment("  " + "  " + PadTo(s.name, st.nameWidth) + " ", st.term.colorPair(3)),
                            Segment(bar + " ", st.term.colorPair(5)),
                            Segment("(" + IntToString(s.rating) + "/5)\n", st.term.colorPair(3))];
      i := i + 1;
    }
    assert skills[..i] == skills;
  }

  /**
   * Builds the page segment by segment, as the viewer does, with the
   * two-column widths of variant `v`: `AsWritten` gives the page the
   * source draws, `Corrected` the page with aligned columns.
   */
  method FormatSkillsTab(resume: Resume, t: Terminal, v: Variant) returns (content: seq<Segment>)
    requires Drawable(resume, t)
    ensures content == SkillsPage(resume, t, v)
    ensures v == AsWritten ==> content == SkillsSegmentsAsWritten(resume, t)
    ensures v == Corrected ==> content == SkillsSegments(resume, t)
  {
    if t.windowWidth.None? {
      return [];
    }
    var w := t.windowWidth.value;
    var langs := SortSkills(resume.skills.programmingLanguages);
    var sdks := SortSkills(resume.skills.sdksApis);
    content := Head(t, w);
    if w >= MinWidthForTwoColumns {
      var cols := ColumnsFor(v, w);
      content := content + TwoColumnHead(CellStyle(t, cols));
      content := AppendRows(content, CellStyle(t, cols), langs, sdks);
    } else {
      var st := EntryStyle(t, SingleNameWidth(w));
      content := content + SectionHead(t, LangTitle);
      content := AppendSingleEntries(content, st, langs);
      content := content + [Segment("\n", t.colorPair(3))];
      content := content + SectionHead(t, SdkTitle);
      content := AppendSingleEntries(content, st, sdks);
    }
    content := content + [Segment("\n", t.colorPair(3))];
  }

  // ---------------------------------------------------------------------------
  // Properties
  // ---------------------------------------------------------------------------

  /** The title and its rule, which is as wide as the window less one. */
  lemma HeadShape(t: Terminal, w: int)
    requires w >= 4
    ensures |Head(t, w)| == 2 && |Head(t, w)[1].text| == w - 1
  {
    assert |Head(t, w)[1].text| == 2 + (w - 4) + 1;
  }

  /** The two-column page: the title, its rule, the column titles, ..., a closing newline. */
  lemma TwoColumnStart(t: Terminal, w: int, cols: Columns, langs: seq<Skill>, sdks: seq<Skill>)
    requires w >= 4 && cols.columnWidth >= |LangTitle|
    ensures var r := TwoColumnPage(t, w, cols, langs, sdks);
      |r| >= 5 && r[0] == Head(t, w)[0] && r[1] == Head(t, w)[1] && r[2] == TwoColumnHead(CellStyle(t, cols))[0]
      && r[|r| - 1] == Segment("\n", t.colorPair(3))
  {
  }

  /** The row of column titles spans both columns and the gutter. */
  lemma TitleRowWidth(st: CellStyle)
    requires st.cols.columnWidth >= |LangTitle|
    ensures |TwoColumnHead(st)[0].text| >= 2 + |LangTitle| + |Gutter| + |SdkTitle| + 1
  {
    var lp := (st.cols.columnWidth - |LangTitle|) / 2;
    var sp := (st.cols.columnWidth - |SdkTitle|) / 2;
    var rest := st.cols.columnWidth - |LangTitle| - lp;
    assert |TwoColumnHead(st)[0].text| == 2 + lp + |LangTitle| + rest + |Gutter| + sp + |SdkTitle| + 1;
  }

  /** The single-column page: the title, its rule, the languages title, ..., a closing newline. */
  lemma SingleColumnStart(t: Terminal, w: int, langs: seq<Skill>, sdks: seq<Skill>)
    requires w >= 4
    ensures var r := SingleColumnPage(t, w, langs, sdks);
      |r| >= 5 && r[0] == Head(t, w)[0] && r[1] == Head(t, w)[1] && r[2] == SectionHead(t, LangTitle)[0]
      && r[|r| - 1] == Segment("\n", t.colorPair(3))
  {
  }

  /**
   * The page opens with the bold title and a rule as wide as the window
   * less one (`HeadShape`), and ends with a newline.
   */
  lemma PageFrame(resume: Resume, t: Terminal, v: Variant)
    requires Drawable(resume, t) && t.windowWidth.Some?
    ensures var r := SkillsPage(resume, t, v);
      |r| >= 5 && r[0] == Head(t, t.windowWidth.value)[0] && r[1] == Head(t, t.windowWidth.value)[1]
      && r[|r| - 1] == Segment("\n", t.colorPair(3))
  {
    var w := t.windowWidth.value;
    var langs := SortSkills(resume.skills.programmingLanguages);
    var sdks := SortSkills(resume.skills.sdksApis);
    if w >= MinWidthForTwoColumns {
      TwoColumnStart(t, w, ColumnsFor(v, w), langs, sdks);
    } else {
      SingleColumnStart(t, w, langs, sdks);
    }
  }

  /**
   * Two columns exactly when the window is at least 80 wide: otherwise the
   * third segment is the languages title alone.
   */
  lemma LayoutChoice(resume: Resume, t: Terminal, v: Variant)
    requires Drawable(resume, t) && t.windowWidth.Some?
    ensures var r := SkillsPage(resume, t, v);
      |r| >= 5 && (r[2].text == "  " + LangTitle + "\n" <==> t.windowWidth.value < MinWidthForTwoColumns)
  {
    var w := t.windowWidth.value;
    var langs := SortSkills(resume.skills.programmingLanguages);
    var sdks := SortSkills(resume.skills.sdksApis);
    if w >= MinWidthForTwoColumns {
      TwoColumnStart(t, w, ColumnsFor(v, w), langs, sdks);
      TitleRowWidth(CellStyle(t, ColumnsFor(v, w)));
    } else {
      SingleColumnStart(t, w, langs, sdks);
    }
  }

  /** Every bar `drawProgressBar` draws at width 15 is 15 characters long. */
  ghost predicate BarsFit(t: Terminal) {
    forall rating :: |t.progressBar(rating, 5, ProgressBarWidth)| == ProgressBarWidth
  }

  /** A skill's cell is its name field plus 24 characters wide: a space, the bar, a space, the rating. */
  lemma CellWidth(st: CellStyle, s: Skill)
    requires BarsFit(st.term)
    ensures |TextOf(Cell(st, s))| == st.cols.nameWidth + 24
  {
    var c := Cell(st, s);
    assert c == [c[0]] + [c[1]] + [c[2]];
    TextOfAppend([c[0]] + [c[1]], [c[2]]);
    TextOfAppend([c[0]], [c[1]]);
    TextOfSingle(c[0]);
    TextOfSingle(c[1]);
    TextOfSingle(c[2]);
  }

  /** The text of a row: padding, the language cell, the gutter, the SDK cell, a newline. */
  lemma RowText(st: CellStyle, langs: seq<Skill>, sdks: seq<Skill>, i: nat)
    ensures TextOf(Row(st, langs, sdks, i))
      == "  " + TextOf(Side(st, langs, i)) + Gutter + TextOf(Side(st, sdks, i)) + "\n"
  {
    var a := [Segment("  ", st.term.colorPair(3))];
    var b := Side(st, langs, i);
    var c := [Segment(Gutter, st.term.colorPair(3))];
    var d := Side(st, sdks, i);
    var e := [Segment("\n", st.term.colorPair(3))];
    TextOfAppend(a + b + c + d, e);
    TextOfAppend(a + b + c, d);
    TextOfAppend(a + b, c);
    TextOfAppend(a, b);
    TextOfSingle(a[0]);
    TextOfSingle(c[0]);
    TextOfSingle(e[0]);
  }

  /** The language side of a row is a skill cell or a blank cell one column wide. */
  lemma LeftSideWidth(st: CellStyle, langs: seq<Skill>, i: nat)
    requires BarsFit(st.term)
    ensures |TextOf(Side(st, langs, i))| == if i < |langs| then st.cols.nameWidth + 24 else st.cols.columnWidth
  {
    if i < |langs| {
      CellWidth(st, langs[i]);
    } else {
      TextOfSingle(Filler(st)[0]);
    }
  }

  /** The row's '|' sits right after the padding, the language side and four spaces. */
  lemma PipeColumn(st: CellStyle, langs: seq<Skill>, sdks: seq<Skill>, i: nat)
    requires BarsFit(st.term)
    ensures var text := TextOf(Row(st, langs, sdks, i));
      var at := 2 + |TextOf(Side(st, langs, i))| + 4;
      at < |text| && text[at] == '|' && text[at - 1] == ' '
  {
    RowText(st, langs, sdks, i);
    var left := "  " + TextOf(Side(st, langs, i));
    var rest := TextOf(Side(st, sdks, i)) + "\n";
    var text := TextOf(Row(st, langs, sdks, i));
    assert text == left + Gutter + rest by {
      AppendAssoc(left + Gutter, TextOf(Side(st, sdks, i)), "\n");
    }
    assert text[|left| + 4] == Gutter[4];
    assert text[|left| + 3] == Gutter[3];
  }

  /**
   * With the corrected name width (`ColumnsCorrected`) a skill cell is
   * exactly one column wide, so every row's '|' is in the same column,
   * whether the language side shows a skill or is blank.
   */
  lemma ColumnsAligned(st: CellStyle, langs: seq<Skill>, sdks: seq<Skill>, i: nat)
    requires BarsFit(st.term) && st.cols.nameWidth + 24 == st.cols.columnWidth
    ensures var text := TextOf(Row(st, langs, sdks, i));
      6 + st.cols.columnWidth < |text| && text[6 + st.cols.columnWidth] == '|'
  {
    LeftSideWidth(st, langs, i);
    PipeColumn(st, langs, sdks, i);
  }

  /**
   * With the name width as written (`ColumnsAsWritten`) a skill cell is one
   * column and one character wide: a row whose language side shows a skill
   * has its '|' one column further right than a row whose language side is
   * blank.
   */
  lemma GutterShiftsAsWritten(st: CellStyle, langs: seq<Skill>, sdks: seq<Skill>, i: nat, j: nat)
    requires BarsFit(st.term) && st.cols.nameWidth + 23 == st.cols.columnWidth
    requires i < |langs| <= j
    ensures var at := 6 + st.cols.columnWidth;
      var ti := TextOf(Row(st, langs, sdks, i));
      var tj := TextOf(Row(st, langs, sdks, j));
      at + 1 < |ti| && at < |tj| && ti[at + 1] == '|' && ti[at] == ' ' && tj[at] == '|'
  {
    LeftSideWidth(st, langs, i);
    LeftSideWidth(st, langs, j);
    PipeColumn(st, langs, sdks, i);
    PipeColumn(st, langs, sdks, j);
  }

  /** Row `k` of `n` sits right after the rows before it: rows are in list order. */
  lemma RowInPlace(st: CellStyle, langs: seq<Skill>, sdks: seq<Skill>, k: nat, n: nat)
    requires k < n
    ensures var at := |Rows(st, langs, sdks, k)|;
      at + |Row(st, langs, sdks, k)| <= |Rows(st, langs, sdks, n)| &&
      Rows(st, langs, sdks, n)[at..at + |Row(st, langs, sdks, k)|] == Row(st, langs, sdks, k)
  {
    StackAt(RowSource(st, langs, sdks), k, n, RowOf);
  }

  /**
   * A row holds the padding, the language side, the gutter, the SDK side
   * and the newline; a side shows the `i`th skill in three segments while
   * the list lasts and one blank segment after it.
   */
  lemma RowShape(st: CellStyle, langs: seq<Skill>, sdks: seq<Skill>, i: nat)
    ensures var r := Row(st, langs, sdks, i);
      var left := |Side(st, langs, i)|;
      left == (if i < |langs| then 3 else 1) && |Side(st, sdks, i)| == (if i < |sdks| then 3 else 1) &&
      |r| == 3 + left + |Side(st, sdks, i)| &&
      r[0].text == "  " && r[1 + left].text == Gutter && r[|r| - 1].text == "\n"
  {
  }

  /** A skill's name and rating are in colour pair 3 and its bar in pair 5; a blank cell is one column of spaces. */
  lemma SideColours(st: CellStyle, skills: seq<Skill>, i: nat)
    ensures var side := Side(st, skills, i);
      (i < |skills| ==>
        (|side| == 3 && side[0].attr == st.term.colorPair(3) && side[1].attr == st.term.colorPair(5)
        && side[2].attr == st.term.colorPair(3)
        && side[1].text == st.term.progressBar(skills[i].rating, 5, ProgressBarWidth) + " ")) &&
      (i >= |skills| ==> side == [Segment(Repeat(' ', st.cols.columnWidth), st.term.colorPair(3))])
  {
  }

  lemma {:induction false} SingleEntriesCount(st: EntryStyle, skills: seq<Skill>)
    ensures |EachIn(st, skills, SingleEntry)| == 3 * |skills|
    decreases |skills|
  {
    if skills != [] {
      SingleEntriesCount(st, skills[..|skills| - 1]);
    }
  }

  /** The narrow layout shows the languages section, then the SDK section, three segments per skill. */
  lemma SingleColumnOrder(t: Terminal, w: int, langs: seq<Skill>, sdks: seq<Skill>)
    requires w >= 4
    ensures var r := SingleColumnPage(t, w, langs, sdks);
      |r| == 8 + 3 * |langs| + 3 * |sdks| &&
      r[2] == SectionHead(t, LangTitle)[0] && r[5 + 3 * |langs|] == SectionHead(t, SdkTitle)[0]
  {
    var st := EntryStyle(t, SingleNameWidth(w));
    SingleEntriesCount(st, langs);
    SingleEntriesCount(st, sdks);
  }
}

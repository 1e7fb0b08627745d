/**
 * The navigation state of the terminal viewer (`runResumeTUI` in
 * main.swift): which tab is shown, how far it is scrolled, and whether the
 * key loop still runs; the lines it draws and the style it gives each line.
 * Key codes arrive as a sequence of integers in place of `getch()`; the
 * content window's height is a parameter in place of `getmaxy`.
 */
module Viewer {
  import opened Strings
  import opened ResumeModels
  import opened PlainTabs

  const KeyTab := 9
  const KeyDown := 258
  const KeyUp := 259
  const KeyLeft := 260
  const KeyRight := 261
  const KeyQuitLower := 113
  const KeyQuitUpper := 81

  // ---------------------------------------------------------------------------
  // Display lines
  // ---------------------------------------------------------------------------

  /** `content.split(separator: "\n", omittingEmptySubsequences: false)`. */
  function DisplayLines(content: string): (r: seq<string>)
    ensures r != []
    ensures forall k :: 0 <= k < |r| ==> !HasChar(r[k], '\n')
    decreases |content|
  {
    var i := FirstSep(content, {'\n'});
    if i == |content| then [content] else [content[..i]] + DisplayLines(content[i + 1..])
  }

  /** Joining the display lines with newlines gives the content back. */
  lemma {:induction false} DisplayLinesJoin(content: string)
    ensures Join(DisplayLines(content), "\n") == content
    decreases |content|
  {
    var i := FirstSep(content, {'\n'});
    if i < |content| {
      var rest := content[i + 1..];
      DisplayLinesJoin(rest);
      JoinCons(content[..i], DisplayLines(rest), "\n");
      SplitAt(content, i);
      assert [content[i]] == "\n";
    }
  }

  /**
   * The line count the DOWN key compares against, as written:
   * `currentContent.split(separator: "\n").count`, which drops empty lines.
   */
  function DownLineCountAsWritten(content: string): (n: nat)
  {
    |SplitWhere(content, {'\n'})|
  }

  /** Dropping empty lines never gives more lines than the display has. */
  lemma {:induction false} CountedAtMostDisplayed(content: string)
    ensures DownLineCountAsWritten(content) <= |DisplayLines(content)|
    decreases |content|
  {
    var i := FirstSep(content, {'\n'});
    if i < |content| {
      CountedAtMostDisplayed(content[i + 1..]);
    }
  }

  /** A page that starts with a newline has strictly fewer counted lines than display lines. */
  lemma CountedBelowDisplayed(content: string)
    requires content != [] && content[0] == '\n'
    ensures DownLineCountAsWritten(content) < |DisplayLines(content)|
  {
    assert FirstSep(content, {'\n'}) == 0;
    CountedAtMostDisplayed(content[1..]);
  }

  /** The number of lines the scroll limit is computed from: every display line. */
  function ScrollLineCount(content: string): (n: nat)
    ensures n >= 1
  {
    |DisplayLines(content)|
  }

  /** The number of lines the DOWN key uses for the page of tab `tab`. */
  function PageLines(resume: Resume, tab: int): nat
    requires Drawable(resume, tab)
  {
    ScrollLineCount(TabContent(resume, tab))
  }

  // ---------------------------------------------------------------------------
  // Scrolling arithmetic
  // ---------------------------------------------------------------------------

  /** The largest scroll position DOWN can reach: `max(0, linesCount - height)`. */
  function MaxScroll(linesCount: int, height: int): (m: int)
    ensures m >= 0
    ensures m == 0 || m == linesCount - height
    ensures m >= linesCount - height
  {
    if linesCount > height then linesCount - height else 0
  }

  /** `visibleLines = min(contentMaxY, lines.count - scrollPosition)`. */
  function VisibleCount(linesCount: int, scroll: int, height: int): int {
    if height < linesCount - scroll then height else linesCount - scroll
  }

  /**
   * With the scroll limit taken from the display lines, every display line
   * is drawn at some reachable scroll position.
   */
  lemma EveryLineReachable(linesCount: int, k: int, height: int)
    requires height >= 1 && 0 <= k < linesCount
    ensures exists s :: 0 <= s <= MaxScroll(linesCount, height) && s <= k < s + VisibleCount(linesCount, s, height)
  {
    var s := if k < MaxScroll(linesCount, height) then k else MaxScroll(linesCount, height);
    assert s <= k < s + VisibleCount(linesCount, s, height);
  }

  /**
   * As written, DOWN stops at `counted - height` with empty lines left out
   * of `counted`: when the display has more lines than both the window and
   * the count, its last line is never drawn at any scroll DOWN can reach.
   */
  lemma LastLineHiddenAsWritten(content: string, height: int)
    requires height >= 0
    requires DownLineCountAsWritten(content) < |DisplayLines(content)|
    requires height < |DisplayLines(content)|
    ensures forall s :: 0 <= s <= MaxScroll(DownLineCountAsWritten(content), height) ==>
      s + VisibleCount(|DisplayLines(content)|, s, height) < |DisplayLines(content)|
  {
  }

  /** Every non-empty page starts with a newline, so each page taller than the window loses its last line as written. */
  lemma PagesLoseLastLineAsWritten(resume: Resume, tab: int, height: int)
    requires 0 <= tab < TabCount && Drawable(resume, tab)
    requires 0 <= height < |DisplayLines(TabContent(resume, tab))|
    ensures forall s :: 0 <= s <= MaxScroll(DownLineCountAsWritten(TabContent(resume, tab)), height) ==>
      s + VisibleCount(PageLines(resume, tab), s, height) < PageLines(resume, tab)
  {
    CountedBelowDisplayed(TabContent(resume, tab));
    LastLineHiddenAsWritten(TabContent(resume, tab), height);
  }

  // ---------------------------------------------------------------------------
  // Key handling
  // ---------------------------------------------------------------------------

  datatype NavState = NavState(tab: int, scroll: int, running: bool)

  /** The tab a key selects: TAB and RIGHT the next one, LEFT the previous one, cyclically. */
  function NextTab(tab: int, key: int): int {
    if key == KeyTab || key == KeyRight then (tab + 1) % TabCount
    else if key == KeyLeft then (tab - 1 + TabCount) % TabCount
    else tab
  }

  /**
   * One pass of the key loop: quit, switch tab (scroll back to the top),
   * scroll up while not at the top, scroll down while lines remain below
   * the window; every other key changes nothing. `linesCount` is the line
   * count of the page shown before the key.
   */
  function NextState(st: NavState, key: int, linesCount: int, height: int): NavState {
    if key == KeyQuitLower || key == KeyQuitUpper then st.(running := false)
    else if key == KeyTab || key == KeyRight || key == KeyLeft then NavState(NextTab(st.tab, key), 0, st.running)
    else if key == KeyUp then (if st.scroll > 0 then st.(scroll := st.scroll - 1) else st)
    else if key == KeyDown then
      (if st.scroll < linesCount - height && linesCount > height then st.(scroll := st.scroll + 1) else st)
    else st
  }

  /** Tab keys move cyclically through the five tabs and scroll back to the top. */
  lemma TabKeysCycle(st: NavState, key: int, linesCount: int, height: int)
    requires 0 <= st.tab < TabCount
    ensures var r := NextState(st, key, linesCount, height);
      0 <= r.tab < TabCount &&
      (key == KeyTab || key == KeyRight ==> r.tab == if st.tab == TabCount - 1 then 0 else st.tab + 1) &&
      (key == KeyLeft ==> r.tab == if st.tab == 0 then TabCount - 1 else st.tab - 1) &&
      (r.tab != st.tab ==> r.scroll == 0) &&
      (key != KeyTab && key != KeyRight && key != KeyLeft ==> r.tab == st.tab)
  {
  }

  /** UP moves one line up exactly when not at the top; DOWN one line down exactly below the limit. */
  lemma ScrollKeys(st: NavState, linesCount: int, height: int)
    requires st.scroll >= 0
    ensures NextState(st, KeyUp, linesCount, height).scroll == if st.scroll > 0 then st.scroll - 1 else st.scroll
    ensures NextState(st, KeyDown, linesCount, height).scroll == st.scroll + 1 <==>
      st.scroll < MaxScroll(linesCount, height)
    ensures NextState(st, KeyDown, linesCount, height).scroll != st.scroll + 1 ==>
      NextState(st, KeyDown, linesCount, height) == st
  {
    if linesCount > height {
      assert MaxScroll(linesCount, height) == linesCount - height;
    } else {
      assert MaxScroll(linesCount, height) == 0;
    }
  }

  /** The loop stops exactly on 'q' or 'Q'. */
  lemma QuitKeys(st: NavState, key: int, linesCount: int, height: int)
    requires st.running
    ensures !NextState(st, key, linesCount, height).running <==> key == KeyQuitLower || key == KeyQuitUpper
  {
  }

  /** The tab is one of the five and the scroll lies between the top and the limit of its page. */
  predicate InBounds(st: NavState, resume: Resume, height: int)
    requires Drawable(resume, st.tab)
  {
    0 <= st.tab < TabCount && 0 <= st.scroll <= MaxScroll(PageLines(resume, st.tab), height)
  }

  /** Every key keeps the state in bounds. */
  lemma NextStateInBounds(st: NavState, key: int, resume: Resume, height: int)
    requires Drawable(resume, st.tab) && InBounds(st, resume, height)
    requires Drawable(resume, NextTab(st.tab, key))
    ensures var r := NextState(st, key, PageLines(resume, st.tab), height);
      r.tab == NextTab(st.tab, key) && InBounds(r, resume, height)
  {
    var lines := PageLines(resume, st.tab);
    var r := NextState(st, key, lines, height);
    NextStateBounded(st, key, lines, height);
    if r.tab == st.tab {
      assert PageLines(resume, r.tab) == lines;
    }
  }

  /** One key keeps the scroll within the limit of a page of `linesCount` lines, or resets it on a tab change. */
  lemma NextStateBounded(st: NavState, key: int, linesCount: int, height: int)
    requires 0 <= st.tab < TabCount && 0 <= st.scroll <= MaxScroll(linesCount, height)
    ensures var r := NextState(st, key, linesCount, height);
      r.tab == NextTab(st.tab, key) && 0 <= r.tab < TabCount && 0 <= r.scroll &&
      (r.tab == st.tab ==> r.scroll <= MaxScroll(linesCount, height)) &&
      (r.tab != st.tab ==> r.scroll == 0)
  {
    TabKeysCycle(st, key, linesCount, height);
    ScrollKeys(st, linesCount, height);
  }

  /** The keys of a session, one at a time, until the loop stops or the keys run out. */
  function Replay(st: NavState, keys: seq<int>, resume: Resume, height: int): NavState
    requires SkillRatingsOk(resume)
    decreases |keys|
  {
    if keys == [] || !st.running then st
    else Replay(NextState(st, keys[0], PageLines(resume, st.tab), height), keys[1..], resume, height)
  }

  /** A session stays in bounds whatever keys are pressed. */
  lemma {:induction false} ReplayInBounds(st: NavState, keys: seq<int>, resume: Resume, height: int)
    requires SkillRatingsOk(resume) && InBounds(st, resume, height)
    ensures InBounds(Replay(st, keys, resume, height), resume, height)
    decreases |keys|
  {
    if keys != [] && st.running {
      NextStateInBounds(st, keys[0], resume, height);
      ReplayInBounds(NextState(st, keys[0], PageLines(resume, st.tab), height), keys[1..], resume, height);
    }
  }

  /** A session whose last key is 'q' has stopped, whatever came before. */
  lemma {:induction false} QuitStops(st: NavState, keys: seq<int>, resume: Resume, height: int)
    requires SkillRatingsOk(resume)
    ensures !Replay(st, keys + [KeyQuitLower], resume, height).running
    decreases |keys|
  {
    if st.running {
      var next := NextState(st, (keys + [KeyQuitLower])[0], PageLines(resume, st.tab), height);
      if keys == [] {
        assert Replay(st, [KeyQuitLower], resume, height) == Replay(next, [], resume, height);
      } else {
        assert (keys + [KeyQuitLower])[1..] == keys[1..] + [KeyQuitLower];
        QuitStops(next, keys[1..], resume, height);
      }
    }
  }

  /** LEFT undoes RIGHT and RIGHT undoes LEFT; five presses of TAB come back to the start. */
  lemma TabKeysInverse(tab: int)
    requires 0 <= tab < TabCount
    ensures NextTab(NextTab(tab, KeyRight), KeyLeft) == tab
    ensures NextTab(NextTab(tab, KeyLeft), KeyRight) == tab
    ensures NextTab(NextTab(NextTab(NextTab(NextTab(tab, KeyTab), KeyTab), KeyTab), KeyTab), KeyTab) == tab
  {
  }

  // ---------------------------------------------------------------------------
  // Line styles
  // ---------------------------------------------------------------------------

  /**
   * The style `displayContent` draws a line in: headings in colour pair 4
   * and bold, current roles in pair 5, list items in pair 6, skill bars in
   * bold, anything else plain.
   */
  datatype LineStyle = Heading | CurrentRole | ListItem | SkillBar | Plain

  const HeadingWords: seq<string> := [
    "CONTACT INFORMATION", "PROFESSIONAL SUMMARY", "EDUCATION", "WORK EXPERIENCE",
    "TECHNICAL SKILLS", "PROGRAMMING LANGUAGES", "SDKs & APIs", "PERSONAL PROJECTS",
    "OPEN SOURCE CONTRIBUTIONS"]

  predicate IsHeading(line: string) {
    exists k :: 0 <= k < |HeadingWords| && Contains(line, HeadingWords[k])
  }

  /** The first matching rule wins: heading, "at " with "Present", "•", "[█". */
  function ClassifyLine(line: string): LineStyle {
    if IsHeading(line) then Heading
    else if Contains(line, "at ") && Contains(line, "Present") then CurrentRole
    else if Contains(line, "•") then ListItem
    else if Contains(line, "[█") then SkillBar
    else Plain
  }

  /** Every section title the pages print is drawn as a heading. */
  lemma SectionTitlesAreHeadings(k: nat)
    requires k < |HeadingWords|
    ensures ClassifyLine("  " + HeadingWords[k]) == Heading
  {
    assert OccursAt("  " + HeadingWords[k], HeadingWords[k], 2);
  }

  /** A line with a bullet is never drawn plain or as a skill bar. */
  lemma BulletLinesHighlighted(line: string, before: string, after: string)
    requires line == before + "•" + after
    ensures ClassifyLine(line) in {Heading, CurrentRole, ListItem}
  {
    assert OccursAt(line, "•", |before|);
  }

  /** A skill bar with at least one filled cell is never drawn plain. */
  lemma SkillBarsHighlighted(skill: Skill)
    requires 1 <= skill.rating <= 5
    ensures ClassifyLine(CreateSkillBar(skill, 30)) != Plain
  {
    var bar := CreateSkillBar(skill, 30);
    assert bar[23] == '[' && bar[24] == '█';
    assert bar[23..25] == "[█";
    assert OccursAt(bar, "[█", 23);
  }

  /** The lines drawn for a page scrolled to `scroll`, with their styles. */
  function Window(lines: seq<string>, scroll: int, height: int): (r: seq<(string, LineStyle)>)
    requires 0 <= scroll <= |lines| && height >= 0
    ensures |r| == VisibleCount(|lines|, scroll, height) && |r| <= height
    ensures forall i :: 0 <= i < |r| ==> r[i].0 == lines[scroll + i] && r[i].1 == ClassifyLine(lines[scroll + i])
  {
    var n := VisibleCount(|lines|, scroll, height);
    seq(n, i requires 0 <= i < n => (lines[scroll + i], ClassifyLine(lines[scroll + i])))
  }

  // ---------------------------------------------------------------------------
  // The viewer
  // ---------------------------------------------------------------------------

  class ResumeViewer {
    var currentTabIndex: int
    var scrollPosition: int
    var running: bool
    const resume: Resume
    /** `getmaxy(contentWin)`. */
    const height: int

    function State(): NavState
      reads this
    {
      NavState(currentTabIndex, scrollPosition, running)
    }

    ghost predicate Valid()
      reads this
    {
      height >= 1 && Drawable(resume, currentTabIndex) && InBounds(State(), resume, height)
    }

    /** The viewer opens on the Overview tab, scrolled to the top. */
    constructor (resume: Resume, height: int)
      requires height >= 1
      ensures Valid() && State() == NavState(0, 0, true)
      ensures this.resume == resume && this.height == height
    {
      this.resume := resume;
      this.height := height;
      currentTabIndex := 0;
      scrollPosition := 0;
      running := true;
    }

    /** The lines `displayContent` draws, with their styles. */
    function Screen(): (r: seq<(string, LineStyle)>)
      reads this
      requires Valid()
      ensures |r| <= height
    {
      var lines := DisplayLines(TabContent(resume, currentTabIndex));
      Window(lines, scrollPosition, height)
    }

    /** One key press of the main loop. */
    method HandleKey(key: int)
      requires Valid() && running
      requires Drawable(resume, NextTab(currentTabIndex, key))
      modifies this
      ensures Valid()
      ensures State() == NextState(old(State()), key, PageLines(resume, old(currentTabIndex)), height)
    {
      ghost var next := NextState(State(), key, PageLines(resume, currentTabIndex), height);
      NextStateInBounds(State(), key, resume, height);
      if key == KeyQuitLower || key == KeyQuitUpper {
        running := false;
      } else if key == KeyTab || key == KeyRight {
        currentTabIndex := (currentTabIndex + 1) % TabCount;
        scrollPosition := 0;
      } else if key == KeyUp {
        if scrollPosition > 0 {
          scrollPosition := scrollPosition - 1;
        }
      } else if key == KeyDown {
        var linesCount := ScrollLineCount(TabContent(resume, currentTabIndex));
        if scrollPosition < linesCount - height && linesCount > height {
          scrollPosition := scrollPosition + 1;
        }
      } else if key == KeyLeft {
        currentTabIndex := (currentTabIndex - 1 + TabCount) % TabCount;
        scrollPosition := 0;
      }
      assert State() == next;
    }

    /** Feeds keys to the loop until one quits it or they run out; returns how many were read. */
    method Run(keys: seq<int>) returns (read: nat)
      requires Valid() && running && SkillRatingsOk(resume)
      modifies this
      ensures Valid() && read <= |keys|
      ensures State() == Replay(old(State()), keys, resume, height)
      ensures read < |keys| ==> !running
    {
      read := 0;
      while read < |keys| && running
        invariant Valid() && read <= |keys|
        invariant Replay(old(State()), keys, resume, height) == Replay(State(), keys[read..], resume, height)
        decreases |keys| - read
      {
        HandleKey(keys[read]);
        read := read + 1;
      }
    }
  }
}

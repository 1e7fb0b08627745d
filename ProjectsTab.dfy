/**
 * `ResumeTUI.formatProjectsTab` and `ResumeTUI.formatContributionsTab`: the
 * Projects and Open Source pages as attributed segments. The two differ only
 * in their title and in the list they walk, so they share one entry
 * builder: the bold name, the technologies when there are any, the wrapped
 * description when there is one, the first link when there is one, and the
 * closing rule.
 */
module ProjectsTab {
  import opened Wrappers
  import opened Strings
  import opened ResumeModels
  import opened TextWrap
  import opened Segments

  function NameSegment(lay: EntryLayout, p: Project): Segment {
    Segment("  " + p.name + "\n", lay.term.bold | lay.term.colorPair(3))
  }

  /** `"    Technologies: a, b, c\n"`, only for a present, non-empty list. */
  function TechnologySegments(lay: EntryLayout, technologies: Option<seq<string>>): seq<Segment> {
    if technologies.Some? && technologies.value != [] then
      [Segment("    Technologies: " + Join(technologies.value, ", ") + "\n", lay.term.colorPair(3))]
    else []
  }

  /** The description wrapped with indent 4 at the layout's width. */
  function DescriptionSegments(lay: EntryLayout, description: Option<string>): seq<Segment> {
    if description.Some? then [Segment(Wrap(description.value, 4, lay.wrapWidth) + "\n", lay.term.colorPair(3))]
    else []
  }

  /** `links?.first`: a caption and the underlined URL of the first link. */
  function LinkSegments(lay: EntryLayout, links: Option<seq<Link>>): seq<Segment> {
    if links.Some? && links.value != [] then
      [Segment("    URL: ", lay.term.colorPair(3)),
       Segment(links.value[0].url + "\n", lay.term.colorPair(4) | lay.term.underline)]
    else []
  }

  function EntrySegments(lay: EntryLayout, p: Project): seq<Segment> {
    [NameSegment(lay, p)] + TechnologySegments(lay, p.technologies) + DescriptionSegments(lay, p.description)
      + LinkSegments(lay, p.links) + [EntryRule(lay)]
  }

  function PageTitle(title: string, t: Terminal): Segment {
    Segment("\n  " + title + "\n", t.bold | t.colorPair(3))
  }

  /** A page of entries under `title`, or nothing when there is no content window. */
  function EntriesPage(title: string, entries: seq<Project>, t: Terminal): seq<Segment>
    requires t.windowWidth.Some? ==> RuleFits(t.windowWidth.value, |entries|)
  {
    match t.windowWidth
    case None => []
    case Some(w) => [PageTitle(title, t)] + [Divider(t)] + EachIn(EntryLayoutOf(t, w), entries, EntrySegments)
  }

  predicate ProjectsDrawable(resume: Resume, t: Terminal) {
    t.windowWidth.Some? ==> RuleFits(t.windowWidth.value, |resume.personalProjects|)
  }

  predicate ContributionsDrawable(resume: Resume, t: Terminal) {
    t.windowWidth.Some? ==> RuleFits(t.windowWidth.value, |resume.openSourceContributions|)
  }

  function ProjectsSegments(resume: Resume, t: Terminal): seq<Segment>
    requires ProjectsDrawable(resume, t)
  {
    EntriesPage("PERSONAL PROJECTS", resume.personalProjects, t)
  }

  function ContributionsSegments(resume: Resume, t: Terminal): seq<Segment>
    requires ContributionsDrawable(resume, t)
  {
    EntriesPage("OPEN SOURCE CONTRIBUTIONS", resume.openSourceContributions, t)
  }

  // ---------------------------------------------------------------------------
  // The formatters
  // ---------------------------------------------------------------------------

  method AppendTechnologies(content0: seq<Segment>, lay: EntryLayout, technologies: Option<seq<string>>)
    returns (content: seq<Segment>)
    ensures content == content0 + TechnologySegments(lay, technologies)
  {
    content := content0;
    if technologies.Some? && technologies.value != [] {
      var joined := Join(technologies.value, ", ");
      content := content + [Segment("    Technologies: " + joined + "\n", lay.term.colorPair(3))];
    }
  }

  method AppendDescription(content0: seq<Segment>, lay: EntryLayout, description: Option<string>)
    returns (content: seq<Segment>)
    ensures content == content0 + DescriptionSegments(lay, description)
  {
    content := content0;
    if description.Some? {
      var wrapped := WrapText(description.value, 4, lay.wrapWidth);
      content := content + [Segment(wrapped + "\n", lay.term.colorPair(3))];
    }
  }

  method AppendFirstLink(content0: seq<Segment>, lay: EntryLayout, links: Option<seq<Link>>)
    returns (content: seq<Segment>)
    ensures content == content0 + LinkSegments(lay, links)
  {
    content := content0;
    if links.Some? && links.value != [] {
      var url := links.value[0].url;
      content := content + [Segment("    URL: ", lay.term.colorPair(3))];
      content := content + [Segment(url + "\n", lay.term.colorPair(4) | lay.term.underline)];
    }
  }

  method AppendEntry(content0: seq<Segment>, lay: EntryLayout, p: Project) returns (content: seq<Segment>)
    ensures content == content0 + EntrySegments(lay, p)
  {
    content := content0 + [NameSegment(lay, p)];
    content := AppendTechnologies(content, lay, p.technologies);
    content := AppendDescription(content, lay, p.description);
    content := AppendFirstLink(content, lay, p.links);
    content := content + [EntryRule(lay)];
    ghost var tech := TechnologySegments(lay, p.technologies);
    ghost var desc := DescriptionSegments(lay, p.description);
    ghost var link := LinkSegments(lay, p.links);
    AppendAssoc(content0, [NameSegment(lay, p)], tech);
    AppendAssoc(content0, [NameSegment(lay, p)] + tech, desc);
    AppendAssoc(content0, [NameSegment(lay, p)] + tech + desc, link);
    AppendAssoc(content0, [NameSegment(lay, p)] + tech + desc + link, [EntryRule(lay)]);
  }

  method FormatEntries(title: string, entries: seq<Project>, t: Terminal) returns (content: seq<Segment>)
    requires t.windowWidth.Some? ==> RuleFits(t.windowWidth.value, |entries|)
    ensures content == EntriesPage(title, entries, t)
  {
    if t.windowWidth.None? {
      return [];
    }
    var lay := EntryLayoutOf(t, t.windowWidth.value);
    var head := [PageTitle(title, t)] + [Divider(t)];
    content := head;
    var i := 0;
    while i < |entries|
      invariant 0 <= i <= |entries|
      invariant content == head + EachIn(lay, entries[..i], EntrySegments)
    {
      EachInStep(head, lay, entries, i, EntrySegments);
      content := AppendEntry(content, lay, entries[i]);
      i := i + 1;
    }
    assert entries[..i] == entries;
  }

  method FormatProjectsTab(resume: Resume, t: Terminal) returns (content: seq<Segment>)
    requires ProjectsDrawable(resume, t)
    ensures content == ProjectsSegments(resume, t)
  {
    content := FormatEntries("PERSONAL PROJECTS", resume.personalProjects, t);
  }

  method FormatContributionsTab(resume: Resume, t: Terminal) returns (content: seq<Segment>)
    requires ContributionsDrawable(resume, t)
    ensures content == ContributionsSegments(resume, t)
  {
    content := FormatEntries("OPEN SOURCE CONTRIBUTIONS", resume.openSourceContributions, t);
  }

  // ---------------------------------------------------------------------------
  // Properties
  // ---------------------------------------------------------------------------

  /** How many segments an entry gives: name and rule, one per present part, two for a link. */
  function EntryCount(p: Project): nat {
    2 + (if p.technologies.Some? && p.technologies.value != [] then 1 else 0)
      + (if p.description.Some? then 1 else 0)
      + (if p.links.Some? && p.links.value != [] then 2 else 0)
  }

  function EntriesCount(entries: seq<Project>): nat {
    if entries == [] then 0 else EntriesCount(entries[..|entries| - 1]) + EntryCount(entries[|entries| - 1])
  }

  /** An entry opens with its bold name and closes with the rule; it has one segment per present part, two for a link. */
  lemma EntryFrame(lay: EntryLayout, p: Project)
    ensures var r := EntrySegments(lay, p);
      |r| == EntryCount(p) &&
      r[0].text == "  " + p.name + "\n" && r[0].attr == lay.term.bold | lay.term.colorPair(3) &&
      r[|r| - 1] == EntryRule(lay)
  {
  }

  /** The technologies line, when the list is present and non-empty, follows the name and joins the list with ", ". */
  lemma EntryTechnologies(lay: EntryLayout, p: Project)
    requires p.technologies.Some? && p.technologies.value != []
    ensures EntrySegments(lay, p)[1].text == "    Technologies: " + Join(p.technologies.value, ", ") + "\n"
  {
    var rest := DescriptionSegments(lay, p.description) + LinkSegments(lay, p.links) + [EntryRule(lay)];
    assert EntrySegments(lay, p) == [NameSegment(lay, p)] + TechnologySegments(lay, p.technologies) + rest;
  }

  /** A present description is wrapped with indent 4 and sits just before the link, or the rule when there is no link. */
  lemma EntryDescription(lay: EntryLayout, p: Project)
    requires p.description.Some?
    ensures var r := EntrySegments(lay, p);
      var at := |r| - 2 - |LinkSegments(lay, p.links)|;
      0 <= at && r[at].text == Wrap(p.description.value, 4, lay.wrapWidth) + "\n"
  {
    var front := [NameSegment(lay, p)] + TechnologySegments(lay, p.technologies);
    var desc := DescriptionSegments(lay, p.description);
    var back := LinkSegments(lay, p.links) + [EntryRule(lay)];
    AppendAssoc(front + desc, LinkSegments(lay, p.links), [EntryRule(lay)]);
    assert EntrySegments(lay, p) == front + desc + back;
  }

  /** A link shows as the caption and the underlined URL of the first link, just before the rule. */
  lemma EntryLink(lay: EntryLayout, p: Project)
    requires p.links.Some? && p.links.value != []
    ensures var r := EntrySegments(lay, p);
      |r| >= 3 && r[|r| - 3].text == "    URL: " &&
      r[|r| - 2] == Segment(p.links.value[0].url + "\n", lay.term.colorPair(4) | lay.term.underline)
  {
    var front := [NameSegment(lay, p)] + TechnologySegments(lay, p.technologies) + DescriptionSegments(lay, p.description);
    assert EntrySegments(lay, p) == front + LinkSegments(lay, p.links) + [EntryRule(lay)];
  }

  /** Only the first link matters: dropping every other link leaves the entry as it was. */
  lemma OnlyFirstLink(lay: EntryLayout, p: Project)
    requires p.links.Some? && p.links.value != []
    ensures EntrySegments(lay, p) == EntrySegments(lay, p.(links := Some([p.links.value[0]])))
  {
  }

  lemma {:induction false} EntriesSegmentCount(lay: EntryLayout, entries: seq<Project>)
    ensures |EachIn(lay, entries, EntrySegments)| == EntriesCount(entries)
    decreases |entries|
  {
    if entries != [] {
      EntriesSegmentCount(lay, entries[..|entries| - 1]);
      assert |EntrySegments(lay, entries[|entries| - 1])| == EntryCount(entries[|entries| - 1]);
    }
  }

  /**
   * The page opens with its bold title and the divider, and entry `k`'s
   * segments follow those of the entries before it: entries appear in input
   * order.
   */
  lemma EntriesInOrder(title: string, entries: seq<Project>, t: Terminal, k: nat)
    requires t.windowWidth.Some? && RuleFits(t.windowWidth.value, |entries|) && k < |entries|
    ensures var r := EntriesPage(title, entries, t);
      var at := 2 + EntriesCount(entries[..k]);
      r[0].text == "\n  " + title + "\n" && r[0].attr == t.bold | t.colorPair(3) &&
      r[1].text == "  " + Repeat('─', 30) + "\n\n" &&
      |r| == 2 + EntriesCount(entries) &&
      at + EntryCount(entries[k]) <= |r| &&
      r[at..at + EntryCount(entries[k])] == EntrySegments(EntryLayoutOf(t, t.windowWidth.value), entries[k])
  {
    PageHead(title, entries, t);
    EntryInPlace(title, entries, t, k);
  }

  lemma PageHead(title: string, entries: seq<Project>, t: Terminal)
    requires t.windowWidth.Some? && RuleFits(t.windowWidth.value, |entries|)
    ensures var r := EntriesPage(title, entries, t);
      |r| == 2 + EntriesCount(entries) &&
      r[0].text == "\n  " + title + "\n" && r[0].attr == t.bold | t.colorPair(3) &&
      r[1].text == "  " + Repeat('─', 30) + "\n\n"
  {
    EntriesSegmentCount(EntryLayoutOf(t, t.windowWidth.value), entries);
  }

  lemma EntryInPlace(title: string, entries: seq<Project>, t: Terminal, k: nat)
    requires t.windowWidth.Some? && RuleFits(t.windowWidth.value, |entries|) && k < |entries|
    ensures var r := EntriesPage(title, entries, t);
      var at := 2 + EntriesCount(entries[..k]);
      at + EntryCount(entries[k]) <= |r| &&
      r[at..at + EntryCount(entries[k])] == EntrySegments(EntryLayoutOf(t, t.windowWidth.value), entries[k])
  {
    var lay := EntryLayoutOf(t, t.windowWidth.value);
    EachInAt(lay, entries, k, EntrySegments);
    EntriesSegmentCount(lay, entries[..k]);
    assert |EntrySegments(lay, entries[k])| == EntryCount(entries[k]);
    var head := [PageTitle(title, t)] + [Divider(t)];
    var before := EachIn(lay, entries[..k], EntrySegments);
    var after := EachIn(lay, entries[k + 1..], EntrySegments);
    AppendAssoc(head, before + EntrySegments(lay, entries[k]), after);
    AppendAssoc(head, before, EntrySegments(lay, entries[k]));
    assert EntriesPage(title, entries, t) == head + before + EntrySegments(lay, entries[k]) + after;
  }
}

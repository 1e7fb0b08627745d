/**
 * `ResumeTUI.formatOverviewTab`: the Overview page as attributed segments —
 * the name, the contact fields that are present, the wrapped profile, the
 * education entries and the five best-rated skills of each list with their
 * star strings.
 */
module OverviewTab {
  import opened Wrappers
  import opened Strings
  import opened ResumeModels
  import opened SkillOrder
  import opened TextWrap
  import opened Segments

  function Header(resume: Resume, t: Terminal): seq<Segment> {
    [Segment("\n  " + resume.name + "\n\n", t.bold),
     Segment("  CONTACT INFORMATION\n", t.bold | t.colorPair(3)),
     Segment(TitleRule(30) + "\n", t.colorPair(3))]
  }

  /** A caption and a highlighted value with `prefix` before it, for a present field only. */
  function LabeledValue(t: Terminal, caption: string, prefix: string, value: Option<string>): seq<Segment> {
    if value.Some? then [Segment(caption, t.colorPair(3)), Segment(prefix + value.value + "\n", t.colorPair(4))]
    else []
  }

  /** The phone number is one plain segment. */
  function PhoneLine(t: Terminal, phone: Option<string>): seq<Segment> {
    if phone.Some? then [Segment("  Phone: " + phone.value + "\n", t.colorPair(3))] else []
  }

  function ContactSegments(t: Terminal, c: Contact): seq<Segment> {
    LabeledValue(t, "  Email: ", "", c.email)
      + PhoneLine(t, c.phone)
      + LabeledValue(t, "  Website: ", "", c.website)
      + LabeledValue(t, "  LinkedIn: ", "https://linkedin.com/in/", c.linkedin)
      + LabeledValue(t, "  GitHub: ", "https://github.com/", c.github)
  }

  /** The profile, wrapped with indent 2 at `getmaxx - 6`, between its heading and a blank line. */
  function Summary(resume: Resume, t: Terminal, w: int): seq<Segment> {
    [Segment("\n", t.colorPair(3)),
     Segment("  PROFESSIONAL SUMMARY\n", t.bold | t.colorPair(3)),
     Divider(t),
     Segment(Wrap(resume.profile, 2, w - 6) + "\n", t.colorPair(3)),
     Segment("\n", t.colorPair(3))]
  }

  function EducationHead(t: Terminal): seq<Segment> {
    [Segment("  EDUCATION\n", t.bold | t.colorPair(3)), Divider(t)]
  }

  /** Degree in bold, institution, and the graduation year or "N/A". */
  function EducationSegments(t: Terminal, e: Education): seq<Segment> {
    [Segment("  " + e.degree + "\n", t.bold | t.colorPair(3)),
     Segment("    " + e.institution + "\n", t.colorPair(3)),
     Segment("    " + e.graduationYear.GetOr("N/A") + "\n\n", t.colorPair(3))]
  }

  function SkillsHead(t: Terminal): seq<Segment> {
    [Segment("\n  KEY SKILLS SUMMARY\n", t.bold | t.colorPair(3)),
     Divider(t),
     Segment("    Top Programming Languages:\n", t.bold | t.colorPair(4))]
  }

  function SdkTitle(t: Terminal): Segment {
    Segment("\n    Top SDKs/APIs:\n", t.bold | t.colorPair(4))
  }

  /**
   * `rating` full stars then `5 - rating` empty ones. The page is only drawn
   * for ratings in 0..5 (see `Drawable`); the clamp keeps the function total
   * and is the identity there.
   */
  function Stars(rating: int): (r: string)
    ensures |r| == 5
  {
    var full := if rating < 0 then 0 else if rating > 5 then 5 else rating;
    Repeat('★', full) + Repeat('☆', 5 - full)
  }

  /** A top skill: its name padded to 25 characters, then its stars. */
  function TopSkill(t: Terminal, s: Skill): seq<Segment> {
    [Segment("    " + PadTo(s.name, 25) + " ", t.colorPair(3)), Segment(Stars(s.rating) + "\n", t.colorPair(5))]
  }

  /** The page can be drawn without a trap: every listed top skill rates 0..5. */
  predicate Drawable(resume: Resume, t: Terminal) {
    t.windowWidth.Some? ==>
      RatingsDrawable(TopFive(resume.skills.programmingLanguages)) && RatingsDrawable(TopFive(resume.skills.sdksApis))
  }

  function UpToEducation(resume: Resume, t: Terminal, w: int): seq<Segment> {
    Header(resume, t) + ContactSegments(t, resume.contact) + Summary(resume, t, w) + EducationHead(t)
  }

  function UpToSkills(resume: Resume, t: Terminal, w: int): seq<Segment> {
    UpToEducation(resume, t, w) + EachIn(t, resume.education, EducationSegments) + SkillsHead(t)
  }

  function OverviewSegments(resume: Resume, t: Terminal): seq<Segment>
    requires Drawable(resume, t)
  {
    match t.windowWidth
    case None => []
    case Some(w) =>
      UpToSkills(resume, t, w) + EachIn(t, TopFive(resume.skills.programmingLanguages), TopSkill)
        + [SdkTitle(t)] + EachIn(t, TopFive(resume.skills.sdksApis), TopSkill) + [Segment("\n", t.colorPair(3))]
  }

  // ---------------------------------------------------------------------------
  // The formatter
  // ---------------------------------------------------------------------------

  method AppendLabeled(content0: seq<Segment>, t: Terminal, caption: string, prefix: string, value: Option<string>)
    returns (content: seq<Segment>)
    ensures content == content0 + LabeledValue(t, caption, prefix, value)
  {
    content := content0;
    if value.Some? {
      content := content + [Segment(caption, t.colorPair(3))];
      content := content + [Segment(prefix + value.value + "\n", t.colorPair(4))];
    }
  }

  method AppendPhone(content0: seq<Segment>, t: Terminal, phone: Option<string>) returns (content: seq<Segment>)
    ensures content == content0 + PhoneLine(t, phone)
  {
    content := content0;
    if phone.Some? {
      content := content + [Segment("  Phone: " + phone.value + "\n", t.colorPair(3))];
    }
  }

  method AppendContact(content0: seq<Segment>, t: Terminal, c: Contact) returns (content: seq<Segment>)
    ensures content == content0 + ContactSegments(t, c)
  {
    content := AppendLabeled(content0, t, "  Email: ", "", c.email);
    content := AppendPhone(content, t, c.phone);
    content := AppendLabeled(content, t, "  Website: ", "", c.website);
    content := AppendLabeled(content, t, "  LinkedIn: ", "https://linkedin.com/in/", c.linkedin);
    content := AppendLabeled(content, t, "  GitHub: ", "https://github.com/", c.github);
    ghost var e := LabeledValue(t, "  Email: ", "", c.email);
    ghost var p := PhoneLine(t, c.phone);
    ghost var w := LabeledValue(t, "  Website: ", "", c.website);
    ghost var l := LabeledValue(t, "  LinkedIn: ", "https://linkedin.com/in/", c.linkedin);
    ghost var g := LabeledValue(t, "  GitHub: ", "https://github.com/", c.github);
    AppendAssoc(content0, e, p);
    AppendAssoc(content0, e + p, w);
    AppendAssoc(content0, e + p + w, l);
    AppendAssoc(content0, e + p + w + l, g);
  }

  method AppendEducation(content0: seq<Segment>, t: Terminal, education: seq<Education>)
    returns (content: seq<Segment>)
    ensures content == content0 + EachIn(t, education, EducationSegments)
  {
    content := content0;
    var i := 0;
    while i < |education|
      invariant 0 <= i <= |education|
      invariant content == content0 + EachIn(t, education[..i], EducationSegments)
    {
      EachInStep(content0, t, education, i, EducationSegments);
      var edu := education[i];
      var entry := [Segment("  " + edu.degree + "\n", t.bold | t.colorPair(3)),
                    Segment("    " + edu.institution + "\n", t.colorPair(3)),
                    Segment("    " + edu.graduationYear.GetOr("N/A") + "\n\n", t.colorPair(3))];
      content := content + entry;
      i := i + 1;
    }
    assert education[..i] == education;
  }

  method AppendTopSkills(content0: seq<Segment>, t: Terminal, top: seq<Skill>) returns (content: seq<Segment>)
    requires RatingsDrawable(top)
    ensures content == content0 + EachIn(t, top, TopSkill)
  {
    content := content0;
    var i := 0;
    while i < |top|
      invariant 0 <= i <= |top|
      invariant content == content0 + EachIn(t, top[..i], TopSkill)
    {
      EachInStep(content0, t, top, i, TopSkill);
      var skill := top[i];
      var stars := Repeat('★', skill.rating) + Repeat('☆', 5 - skill.rating);
      content := content + [Segment("    " + PadTo(skill.name, 25) + " ", t.colorPair(3)),
                            Segment(stars + "\n", t.colorPair(5))];
      i := i + 1;
    }
    assert top[..i] == top;
  }

  method AppendSummary(content0: seq<Segment>, resume: Resume, t: Terminal, w: int) returns (content: seq<Segment>)
    ensures content == content0 + Summary(resume, t, w)
  {
    var profile := WrapText(resume.profile, 2, w - 6);
    var segs := [Segment("\n", t.colorPair(3)),
                 Segment("  PROFESSIONAL SUMMARY\n", t.bold | t.colorPair(3)),
                 Divider(t),
                 Segment(profile + "\n", t.colorPair(3)),
                 Segment("\n", t.colorPair(3))];
    assert segs == Summary(resume, t, w);
    content := content0 + segs;
  }

  /** Builds the page segment by segment, as the viewer does. */
  method FormatOverviewTab(resume: Resume, t: Terminal) returns (content: seq<Segment>)
    requires Drawable(resume, t)
    ensures content == OverviewSegments(resume, t)
  {
    if t.windowWidth.None? {
      return [];
    }
    var w := t.windowWidth.value;
    content := Header(resume, t);
    content := AppendContact(content, t, resume.contact);
    content := AppendSummary(content, resume, t, w);
    content := content + EducationHead(t);
    assert content == UpToEducation(resume, t, w);
    content := AppendEducation(content, t, resume.education);
    content := content + SkillsHead(t);
    assert content == UpToSkills(resume, t, w);
    var langs := TopFive(resume.skills.programmingLanguages);
    content := AppendTopSkills(content, t, langs);
    content := content + [SdkTitle(t)];
    var sdks := TopFive(resume.skills.sdksApis);
    content := AppendTopSkills(content, t, sdks);
    content := content + [Segment("\n", t.colorPair(3))];
  }

  // ---------------------------------------------------------------------------
  // Properties
  // ---------------------------------------------------------------------------

  /** The page opens with the name in bold alone. */
  lemma NameFirst(resume: Resume, t: Terminal)
    requires Drawable(resume, t) && t.windowWidth.Some?
    ensures OverviewSegments(resume, t)[0] == Segment("\n  " + resume.name + "\n\n", t.bold)
  {
  }

  function ContactCount(c: Contact): nat {
    (if c.email.Some? then 2 else 0) + (if c.phone.Some? then 1 else 0) + (if c.website.Some? then 2 else 0)
      + (if c.linkedin.Some? then 2 else 0) + (if c.github.Some? then 2 else 0)
  }

  /**
   * Only present fields give segments (two each, one for the phone), and
   * LinkedIn and GitHub values carry their profile URL prefix.
   */
  lemma ContactShown(t: Terminal, c: Contact)
    ensures |ContactSegments(t, c)| == ContactCount(c)
    ensures c.linkedin.Some? ==>
      Segment("https://linkedin.com/in/" + c.linkedin.value + "\n", t.colorPair(4)) in ContactSegments(t, c)
    ensures c.github.Some? ==>
      Segment("https://github.com/" + c.github.value + "\n", t.colorPair(4)) in ContactSegments(t, c)
    ensures c.email.Some? <==> Segment("  Email: ", t.colorPair(3)) in ContactSegments(t, c)
  {
    var e := LabeledValue(t, "  Email: ", "", c.email);
    var rest := PhoneLine(t, c.phone) + LabeledValue(t, "  Website: ", "", c.website)
      + LabeledValue(t, "  LinkedIn: ", "https://linkedin.com/in/", c.linkedin)
      + LabeledValue(t, "  GitHub: ", "https://github.com/", c.github);
    assert ContactSegments(t, c) == e + rest;
    NoEmailCaption(t, c);
  }

  /** No segment after the e-mail's is the e-mail caption: they all end in a newline or carry another caption. */
  lemma NoEmailCaption(t: Terminal, c: Contact)
    ensures Segment("  Email: ", t.colorPair(3)) !in PhoneLine(t, c.phone) + LabeledValue(t, "  Website: ", "", c.website)
      + LabeledValue(t, "  LinkedIn: ", "https://linkedin.com/in/", c.linkedin)
      + LabeledValue(t, "  GitHub: ", "https://github.com/", c.github)
  {
    var email := "  Email: ";
    assert email[2] == 'E';
    assert email[|email| - 1] == ' ';
    assert "  Website: "[2] == 'W' && "  LinkedIn: "[2] == 'L' && "  GitHub: "[2] == 'G';
  }

  /** The page begins with the segments before the education list. */
  lemma OverviewPrefix(resume: Resume, t: Terminal, i: nat)
    requires Drawable(resume, t) && t.windowWidth.Some?
    requires i < |UpToEducation(resume, t, t.windowWidth.value)|
    ensures i < |OverviewSegments(resume, t)|
    ensures OverviewSegments(resume, t)[i] == UpToEducation(resume, t, t.windowWidth.value)[i]
  {
    var w := t.windowWidth.value;
    var ue := UpToEducation(resume, t, w);
    var x := EachIn(t, resume.education, EducationSegments);
    var a := EachIn(t, TopFive(resume.skills.programmingLanguages), TopSkill);
    var c := EachIn(t, TopFive(resume.skills.sdksApis), TopSkill);
    var d := Segment("\n", t.colorPair(3));
    assert OverviewSegments(resume, t) == ue + x + SkillsHead(t) + a + [SdkTitle(t)] + c + [d];
    KeepsPrefix(ue, x, SkillsHead(t), a, SdkTitle(t), c, d, i);
  }

  /**
   * The profile segment, wrapped with indent 2 at the window width less 6,
   * follows the header and contact segments and two summary headings; the
   * page starts with these segments (`OverviewPrefix`).
   */
  lemma ProfileWrapped(resume: Resume, t: Terminal, w: int)
    ensures var ue := UpToEducation(resume, t, w);
      var at := 3 + ContactCount(resume.contact) + 3;
      at < |ue| && ue[at].text == Wrap(resume.profile, 2, w - 6) + "\n"
  {
    ContactShown(t, resume.contact);
    var front := Header(resume, t) + ContactSegments(t, resume.contact);
    var summary := Summary(resume, t, w);
    assert summary[3].text == Wrap(resume.profile, 2, w - 6) + "\n";
    IndexInBack(front, summary, 3);
    IndexInFront(front + summary, EducationHead(t), |front| + 3);
  }

  /** The segments after the first `|ue|` leave those in place. */
  lemma KeepsPrefix<U>(ue: seq<U>, x: seq<U>, y: seq<U>, a: seq<U>, b: U, c: seq<U>, d: U, i: nat)
    requires i < |ue|
    ensures i < |ue + x + y + a + [b] + c + [d]| && (ue + x + y + a + [b] + c + [d])[i] == ue[i]
  {
  }

  lemma {:induction false} EducationCount(t: Terminal, education: seq<Education>)
    ensures |EachIn(t, education, EducationSegments)| == 3 * |education|
    ensures forall k :: 0 <= k < |education| ==>
      EachIn(t, education, EducationSegments)[3 * k + 2].text == "    " + education[k].graduationYear.GetOr("N/A") + "\n\n"
    decreases |education|
  {
    if education != [] {
      var init := education[..|education| - 1];
      EducationCount(t, init);
      forall k | 0 <= k < |education| - 1
        ensures EachIn(t, education, EducationSegments)[3 * k + 2].text
          == "    " + education[k].graduationYear.GetOr("N/A") + "\n\n"
      {
        assert init[k] == education[k];
      }
    }
  }

  /** Star strings have five glyphs: `rating` full stars, then empty ones. */
  lemma StarsShape(rating: int)
    requires 0 <= rating <= 5
    ensures var s := Stars(rating);
      |s| == 5 && (forall i :: 0 <= i < rating ==> s[i] == '★') && (forall i :: rating <= i < 5 ==> s[i] == '☆')
  {
  }

  lemma {:induction false} TopSkillCount(t: Terminal, top: seq<Skill>)
    ensures |EachIn(t, top, TopSkill)| == 2 * |top|
    decreases |top|
  {
    if top != [] {
      TopSkillCount(t, top[..|top| - 1]);
    }
  }

  /**
   * The page ends with the two top-skill lists, at most five skills each,
   * two segments per skill, and a closing blank line.
   */
  lemma TopSkillsAtEnd(resume: Resume, t: Terminal)
    requires Drawable(resume, t) && t.windowWidth.Some?
    ensures var r := OverviewSegments(resume, t);
      var langs := TopFive(resume.skills.programmingLanguages);
      var sdks := TopFive(resume.skills.sdksApis);
      |langs| <= 5 && |sdks| <= 5 &&
      |r| == |UpToSkills(resume, t, t.windowWidth.value)| + 2 * |langs| + 1 + 2 * |sdks| + 1 &&
      r[|r| - 1] == Segment("\n", t.colorPair(3)) &&
      r[|r| - 2 - 2 * |sdks|] == SdkTitle(t)
  {
    var langs := TopFive(resume.skills.programmingLanguages);
    var sdks := TopFive(resume.skills.sdksApis);
    TopSkillCount(t, langs);
    TopSkillCount(t, sdks);
    var front := UpToSkills(resume, t, t.windowWidth.value) + EachIn(t, langs, TopSkill);
    var c := EachIn(t, sdks, TopSkill);
    var r := OverviewSegments(resume, t);
    assert r == front + [SdkTitle(t)] + c + [Segment("\n", t.colorPair(3))];
    assert r[|front|] == SdkTitle(t);
  }
}

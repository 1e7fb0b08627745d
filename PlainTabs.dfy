/**
 * The plain-text tab pages of the terminal viewer (the `format*Tab`
 * functions of main.swift, `createSkillBar` and `getCurrentTabContent`).
 * Each page is specified by a function (`OverviewText`, ...) and built by a
 * method that appends to `content` exactly as the viewer does; every method
 * is proved to return its function's text.
 */
module PlainTabs {
  import opened Wrappers
  import opened Strings
  import opened ResumeModels
  import opened SkillOrder
  import opened TextWrap

  /** `"  " + String(repeating: "─", count: n)`: the rule under a heading. */
  function Rule(n: nat): string {
    "  " + Repeat('─', n)
  }

  // ---------------------------------------------------------------------------
  // createSkillBar
  // ---------------------------------------------------------------------------

  /**
   * The filled cells of a bar: `Int(Double(rating) / 5.0 * Double(maxWidth))`,
   * the largest count whose share of `maxWidth` does not exceed `rating`/5.
   */
  function FilledCells(rating: int, maxWidth: nat): (f: nat)
    requires 0 <= rating <= 5
    ensures f <= maxWidth
    ensures f * 5 <= rating * maxWidth < (f + 1) * 5
    ensures f == maxWidth <==> rating == 5 || maxWidth == 0
  {
    assert rating * maxWidth <= 5 * maxWidth;
    rating * maxWidth / 5
  }

  /** A higher rating never fills fewer cells. */
  lemma FilledCellsMonotone(r1: int, r2: int, maxWidth: nat)
    requires 0 <= r1 <= r2 <= 5
    ensures FilledCells(r1, maxWidth) <= FilledCells(r2, maxWidth)
  {
    assert r1 * maxWidth <= r2 * maxWidth;
  }

  /**
   * `createSkillBar(skill:maxWidth:)`: two spaces, the name padded or cut to
   * 20 characters, then `maxWidth` bar cells (filled ones first) in brackets
   * and the rating out of 5.
   */
  function CreateSkillBar(skill: Skill, maxWidth: nat): (r: string)
    requires 0 <= skill.rating <= 5
    ensures |r| == 30 + maxWidth + |IntToString(skill.rating)|
    ensures r[..2] == "  " && r[2..22] == PadTo(skill.name, 20) && r[22..24] == " ["
    ensures forall k :: 24 <= k < 24 + maxWidth ==>
      r[k] == if k - 24 < FilledCells(skill.rating, maxWidth) then '█' else '░'
    ensures r[24 + maxWidth..] == "] (" + IntToString(skill.rating) + "/5)"
  {
    var filled := FilledCells(skill.rating, maxWidth);
    var bar := Repeat('█', filled) + Repeat('░', maxWidth - filled);
    var r := "  " + PadTo(skill.name, 20) + " [" + bar + "] (" + IntToString(skill.rating) + "/5)";
    assert r[24..24 + maxWidth] == bar;
    r
  }

  /** Every skill of the resume can be drawn as a bar. */
  predicate SkillRatingsOk(resume: Resume) {
    RatingsDrawable(resume.skills.programmingLanguages) && RatingsDrawable(resume.skills.sdksApis)
  }

  /** One bar per skill, each on its own line. */
  function SkillLines(skills: seq<Skill>): string
    requires RatingsDrawable(skills)
  {
    if skills == [] then []
    else SkillLines(skills[..|skills| - 1]) + CreateSkillBar(skills[|skills| - 1], 30) + "\n"
  }

  lemma SortedDrawable(skills: seq<Skill>)
    requires RatingsDrawable(skills)
    ensures RatingsDrawable(SortSkills(skills))
  {
    SortSkillsOrdered(skills);
    var sorted := SortSkills(skills);
    forall k | 0 <= k < |sorted| ensures 0 <= sorted[k].rating <= 5 {
      assert sorted[k] in multiset(skills);
    }
  }

  // ---------------------------------------------------------------------------
  // Line templates shared by the pages
  // ---------------------------------------------------------------------------

  /** `"  \(caption): \(value)\n"`. */
  function Field(caption: string, value: string): string {
    "  " + caption + ": " + value + "\n"
  }

  /** The field's line when the value is present, nothing otherwise (`if let`). */
  function OptField(caption: string, value: Option<string>): string {
    if value.Some? then Field(caption, value.value) else ""
  }

  /** The field's line when the value is present and non-empty (`if let v, !v.isEmpty`). */
  function NonEmptyField(caption: string, value: Option<string>): string {
    if value.Some? && value.value != "" then Field(caption, value.value) else ""
  }

  method AppendOptField(content0: string, caption: string, value: Option<string>) returns (content: string)
    ensures content == content0 + OptField(caption, value)
  {
    content := content0;
    if value.Some? {
      content := content + Field(caption, value.value);
    }
  }

  method AppendNonEmptyField(content0: string, caption: string, value: Option<string>) returns (content: string)
    ensures content == content0 + NonEmptyField(caption, value)
  {
    content := content0;
    if value.Some? && value.value != "" {
      content := content + Field(caption, value.value);
    }
  }

  /** A heading's rule and the blank line after it. */
  function RuleBlock(): string {
    Rule(30) + "\n\n"
  }

  /** The rule that closes each job, project and contribution. */
  function EntryTail(): string {
    "\n  " + Repeat('─', 50) + "\n\n"
  }

  /** `"  \(name)\n"`: the first line of a project or contribution. */
  function NameLine(name: string): string {
    "  " + name + "\n"
  }

  // ---------------------------------------------------------------------------
  // Overview
  // ---------------------------------------------------------------------------

  /** The contact lines, present fields only, in the order email, phone, website, LinkedIn, GitHub. */
  function ContactLines(c: Contact): string {
    OptField("📧 Email", c.email) + OptField("📱 Phone", c.phone) + OptField("🌐 Website", c.website)
    + OptField("👔 LinkedIn", c.linkedin) + OptField("💻 GitHub", c.github)
  }

  /** `" (\(year))"` after the institution, when the year is known. */
  function YearSuffix(year: Option<string>): string {
    if year.Some? then " (" + year.value + ")" else ""
  }

  /** The lines of one education entry, then a blank line. */
  function EducationText(e: Education): string {
    ("  " + e.degree + "\n") + ("  " + e.institution + YearSuffix(e.graduationYear) + "\n")
    + (if e.details.Some? then "  " + e.details.value + "\n" else "") + "\n"
  }

  /** Everything of the Overview page before the education entries. */
  function OverviewHead(resume: Resume): string {
    ("\n  " + resume.name + "\n\n") + "  CONTACT INFORMATION\n" + RuleBlock()
    + ContactLines(resume.contact)
    + "\n  PROFESSIONAL SUMMARY\n" + RuleBlock()
    + Wrap(resume.profile, 2, 80)
    + "\n\n  EDUCATION\n" + RuleBlock()
  }

  /** What `formatOverviewTab(resume:)` returns. */
  function OverviewText(resume: Resume): string {
    OverviewHead(resume) + Each(resume.education, EducationText)
  }

  method AppendContact(content0: string, c: Contact) returns (content: string)
    ensures content == content0 + ContactLines(c)
  {
    var email, phone, website := OptField("📧 Email", c.email), OptField("📱 Phone", c.phone), OptField("🌐 Website", c.website);
    var linkedin := OptField("👔 LinkedIn", c.linkedin);
    content := AppendOptField(content0, "📧 Email", c.email);
    content := AppendOptField(content, "📱 Phone", c.phone);
    AppendAssoc(content0, email, phone);
    content := AppendOptField(content, "🌐 Website", c.website);
    AppendAssoc(content0, email + phone, website);
    content := AppendOptField(content, "👔 LinkedIn", c.linkedin);
    AppendAssoc(content0, email + phone + website, linkedin);
    content := AppendOptField(content, "💻 GitHub", c.github);
    AppendAssoc(content0, email + phone + website + linkedin, OptField("💻 GitHub", c.github));
  }

  method AppendEducation(content0: string, edu: Education) returns (content: string)
    ensures content == content0 + EducationText(edu)
  {
    var degreeLine := "  " + edu.degree + "\n";
    content := content0 + degreeLine;
    var institutionText := "  " + edu.institution;
    if edu.graduationYear.Some? {
      institutionText := institutionText + (" (" + edu.graduationYear.value + ")");
    }
    var institutionLine := institutionText + "\n";
    content := content + institutionLine;
    AppendAssoc(content0, degreeLine, institutionLine);
    var detailsLine := if edu.details.Some? then "  " + edu.details.value + "\n" else "";
    if edu.details.Some? {
      content := content + ("  " + edu.details.value + "\n");
    }
    AppendAssoc(content0, degreeLine + institutionLine, detailsLine);
    content := content + "\n";
    AppendAssoc(content0, degreeLine + institutionLine + detailsLine, "\n");
  }

  method FormatOverviewTab(resume: Resume) returns (content: string)
    ensures content == OverviewText(resume)
  {
    content := "\n  " + resume.name + "\n\n";
    content := content + "  CONTACT INFORMATION\n";
    content := content + RuleBlock();
    content := AppendContact(content, resume.contact);
    content := content + "\n  PROFESSIONAL SUMMARY\n";
    content := content + RuleBlock();
    var profile := WrapText(resume.profile, 2, 80);
    content := content + profile;
    content := content + "\n\n  EDUCATION\n";
    content := content + RuleBlock();
    var i := 0;
    while i < |resume.education|
      invariant 0 <= i <= |resume.education|
      invariant content == OverviewHead(resume) + Each(resume.education[..i], EducationText)
    {
      content := AppendEducation(content, resume.education[i]);
      EachStep(OverviewHead(resume), resume.education, i, EducationText);
      i := i + 1;
    }
    assert resume.education[..i] == resume.education;
  }

  /** The institution line of an education entry: the year in brackets when known. */
  lemma InstitutionInEntry(e: Education)
    ensures Contains(EducationText(e), "  " + e.institution + YearSuffix(e.graduationYear) + "\n")
  {
    var degree := "  " + e.degree + "\n";
    var line := "  " + e.institution + YearSuffix(e.graduationYear) + "\n";
    var details := if e.details.Some? then "  " + e.details.value + "\n" else "";
    AppendAssoc(degree + line, details, "\n");
    ContainsMiddle(degree, line, details + "\n");
  }

  /**
   * Every education entry is listed on the Overview page with its
   * institution, followed by the graduation year in brackets exactly when
   * the year is known.
   */
  lemma EducationListed(resume: Resume, k: nat)
    requires k < |resume.education|
    ensures var e := resume.education[k];
      e.graduationYear.None? ==> Contains(OverviewText(resume), "  " + e.institution + "\n")
    ensures var e := resume.education[k];
      e.graduationYear.Some? ==>
        Contains(OverviewText(resume), "  " + e.institution + " (" + e.graduationYear.value + ")" + "\n")
  {
    var e := resume.education[k];
    var line := "  " + e.institution + YearSuffix(e.graduationYear) + "\n";
    InstitutionInEntry(e);
    EachContains(resume.education, k, EducationText);
    ContainsTrans(Each(resume.education, EducationText), EducationText(e), line);
    ContainsConcatRight(OverviewHead(resume), Each(resume.education, EducationText), line);
    if e.graduationYear.None? {
      assert "  " + e.institution + "" == "  " + e.institution;
    } else {
      AppendAssoc("  " + e.institution, " (" + e.graduationYear.value, ")");
      AppendAssoc("  " + e.institution, " (", e.graduationYear.value);
    }
  }

  // ---------------------------------------------------------------------------
  // Experience
  // ---------------------------------------------------------------------------

  function TitleLine(job: Experience): string {
    "  " + job.title + " at " + job.company + "\n"
  }

  /** The dates and place of a job; a job without an end date runs to "Present". */
  function PeriodLine(job: Experience): string {
    "  📅 " + job.startDate + " - " + job.endDate.GetOr("Present") + " | 📍 " + job.location + "\n\n"
  }

  function MediaLine(url: string): string {
    "    • " + url + "\n"
  }

  /** The media links, when the list is present and non-empty. */
  function MediaBlock(urls: Option<seq<string>>): string {
    if urls.Some? && urls.value != [] then "  🔗 Media Links:\n" + Each(urls.value, MediaLine) + "\n" else ""
  }

  function ResponsibilityLine(responsibility: string): string {
    Wrap("    • " + responsibility, 6, 80) + "\n"
  }

  function JobText(job: Experience): string {
    TitleLine(job) + PeriodLine(job) + NonEmptyField("🔗 App Store", job.appStoreUrl) + MediaBlock(job.mediaUrls)
    + "  Key Responsibilities:\n" + Each(job.responsibilities, ResponsibilityLine) + EntryTail()
  }

  function ExperienceHead(): string {
    "\n  WORK EXPERIENCE\n" + RuleBlock()
  }

  /** What `formatExperienceTab(resume:)` returns. */
  function ExperienceText(resume: Resume): string {
    ExperienceHead() + Each(resume.experience, JobText)
  }

  method AppendMedia(content0: string, mediaUrls: Option<seq<string>>) returns (content: string)
    ensures content == content0 + MediaBlock(mediaUrls)
  {
    content := content0;
    if mediaUrls.Some? && mediaUrls.value != [] {
      var urls := mediaUrls.value;
      content := content + "  🔗 Media Links:\n";
      ghost var beforeUrls := content;
      var j := 0;
      while j < |urls|
        invariant 0 <= j <= |urls|
        invariant content == beforeUrls + Each(urls[..j], MediaLine)
      {
        content := content + ("    • " + urls[j] + "\n");
        EachStep(beforeUrls, urls, j, MediaLine);
        j := j + 1;
      }
      assert urls[..j] == urls;
      AppendAssoc(content0, "  🔗 Media Links:\n", Each(urls, MediaLine));
      content := content + "\n";
      AppendAssoc(content0, "  🔗 Media Links:\n" + Each(urls, MediaLine), "\n");
    }
  }

  method AppendResponsibilities(content0: string, responsibilities: seq<string>) returns (content: string)
    ensures content == content0 + Each(responsibilities, ResponsibilityLine)
  {
    content := content0;
    var k := 0;
    while k < |responsibilities|
      invariant 0 <= k <= |responsibilities|
      invariant content == content0 + Each(responsibilities[..k], ResponsibilityLine)
    {
      var wrapped := WrapText("    • " + responsibilities[k], 6, 80);
      ghost var before := content;
      content := content + wrapped;
      content := content + "\n";
      AppendAssoc(before, wrapped, "\n");
      EachStep(content0, responsibilities, k, ResponsibilityLine);
      k := k + 1;
    }
    assert responsibilities[..k] == responsibilities;
  }

  method AppendJob(content0: string, job: Experience) returns (content: string)
    ensures content == content0 + JobText(job)
  {
    ghost var title, period := TitleLine(job), PeriodLine(job);
    ghost var appStore, media := NonEmptyField("🔗 App Store", job.appStoreUrl), MediaBlock(job.mediaUrls);
    content := content0 + ("  " + job.title + " at " + job.company + "\n");
    content := content + ("  📅 " + job.startDate + " - " + job.endDate.GetOr("Present") + " | 📍 " + job.location + "\n\n");
    AppendAssoc(content0, title, period);
    content := AppendNonEmptyField(content, "🔗 App Store", job.appStoreUrl);
    AppendAssoc(content0, title + period, appStore);
    content := AppendMedia(content, job.mediaUrls);
    AppendAssoc(content0, title + period + appStore, media);
    content := content + "  Key Responsibilities:\n";
    ghost var head := title + period + appStore + media + "  Key Responsibilities:\n";
    AppendAssoc(content0, title + period + appStore + media, "  Key Responsibilities:\n");
    content := AppendResponsibilities(content, job.responsibilities);
    AppendAssoc(content0, head, Each(job.responsibilities, ResponsibilityLine));
    content := content + EntryTail();
    AppendAssoc(content0, head + Each(job.responsibilities, ResponsibilityLine), EntryTail());
  }

  method FormatExperienceTab(resume: Resume) returns (content: string)
    ensures content == ExperienceText(resume)
  {
    content := "\n  WORK EXPERIENCE\n";
    content := content + RuleBlock();
    var i := 0;
    while i < |resume.experience|
      invariant 0 <= i <= |resume.experience|
      invariant content == ExperienceHead() + Each(resume.experience[..i], JobText)
    {
      content := AppendJob(content, resume.experience[i]);
      EachStep(ExperienceHead(), resume.experience, i, JobText);
      i := i + 1;
    }
    assert resume.experience[..i] == resume.experience;
  }

  /** A job without an end date has "Present" in its period line. */
  lemma PresentWithoutEndDate(job: Experience)
    requires job.endDate.None?
    ensures PeriodLine(job) == "  📅 " + job.startDate + " - Present | 📍 " + job.location + "\n\n"
  {
    var a := "  📅 " + job.startDate;
    var b := job.location + "\n\n";
    assert " - " + "Present" + " | 📍 " == " - Present | 📍 ";
    calc {
      PeriodLine(job);
      a + " - " + "Present" + " | 📍 " + b;
      { AppendAssoc(a, " - ", "Present"); AppendAssoc(a, " - " + "Present", " | 📍 "); }
      a + (" - " + "Present" + " | 📍 ") + b;
    }
  }

  /** The period line is the job's second line. */
  lemma PeriodLineInJob(job: Experience)
    ensures Contains(JobText(job), PeriodLine(job))
  {
    var c := NonEmptyField("🔗 App Store", job.appStoreUrl);
    var d := MediaBlock(job.mediaUrls);
    var f := Each(job.responsibilities, ResponsibilityLine);
    Regroup(TitleLine(job), PeriodLine(job), c, d, "  Key Responsibilities:\n", f, EntryTail());
    ContainsMiddle(TitleLine(job), PeriodLine(job), c + d + "  Key Responsibilities:\n" + f + EntryTail());
  }

  lemma Regroup(a: string, b: string, c: string, d: string, e: string, f: string, g: string)
    ensures a + b + c + d + e + f + g == a + b + (c + d + e + f + g)
  {
  }

  /** Every job without an end date is listed on the Experience page as running to "Present". */
  lemma CurrentJobShowsPresent(resume: Resume, k: nat)
    requires k < |resume.experience| && resume.experience[k].endDate.None?
    ensures Contains(ExperienceText(resume),
      "  📅 " + resume.experience[k].startDate + " - Present | 📍 " + resume.experience[k].location + "\n\n")
  {
    var job := resume.experience[k];
    PresentWithoutEndDate(job);
    PeriodLineInJob(job);
    EachContains(resume.experience, k, JobText);
    ContainsTrans(Each(resume.experience, JobText), JobText(job), PeriodLine(job));
    ContainsConcatRight(ExperienceHead(), Each(resume.experience, JobText), PeriodLine(job));
  }

  // ---------------------------------------------------------------------------
  // Skills
  // ---------------------------------------------------------------------------

  /** What `formatSkillsTab(resume:)` returns: each list sorted by rating descending, then name. */
  function SkillsText(resume: Resume): string
    requires SkillRatingsOk(resume)
  {
    SortedDrawable(resume.skills.programmingLanguages);
    SortedDrawable(resume.skills.sdksApis);
    "\n  TECHNICAL SKILLS\n" + RuleBlock() + "  PROGRAMMING LANGUAGES\n" + RuleBlock()
    + SkillLines(SortSkills(resume.skills.programmingLanguages))
    + "\n" + "  SDKs & APIs\n" + RuleBlock()
    + SkillLines(SortSkills(resume.skills.sdksApis))
  }

  method AppendSkillBars(content0: string, skills: seq<Skill>) returns (content: string)
    requires RatingsDrawable(skills)
    ensures content == content0 + SkillLines(skills)
  {
    content := content0;
    var i := 0;
    while i < |skills|
      invariant 0 <= i <= |skills|
      invariant content == content0 + SkillLines(skills[..i])
    {
      assert skills[..i + 1][..i] == skills[..i];
      ghost var before := content;
      var bar := CreateSkillBar(skills[i], 30);
      content := content + bar;
      content := content + "\n";
      AppendAssoc(content0, SkillLines(skills[..i]), bar);
      AppendAssoc(content0, SkillLines(skills[..i]) + bar, "\n");
      i := i + 1;
    }
    assert skills[..i] == skills;
  }

  method FormatSkillsTab(resume: Resume) returns (content: string)
    requires SkillRatingsOk(resume)
    ensures content == SkillsText(resume)
  {
    content := "\n  TECHNICAL SKILLS\n";
    content := content + RuleBlock();
    content := content + "  PROGRAMMING LANGUAGES\n";
    content := content + RuleBlock();
    var sortedLanguages := SortSkills(resume.skills.programmingLanguages);
    SortedDrawable(resume.skills.programmingLanguages);
    content := AppendSkillBars(content, sortedLanguages);
    content := content + "\n";
    content := content + "  SDKs & APIs\n";
    content := content + RuleBlock();
    var sortedSDKs := SortSkills(resume.skills.sdksApis);
    SortedDrawable(resume.skills.sdksApis);
    content := AppendSkillBars(content, sortedSDKs);
  }

  // ---------------------------------------------------------------------------
  // Projects and contributions
  // ---------------------------------------------------------------------------

  /** `project.description` wrapped, when present. */
  function DescriptionText(description: Option<string>): string {
    if description.Some? then Wrap(description.value, 2, 80) + "\n" else ""
  }

  method AppendDescription(content0: string, description: Option<string>) returns (content: string)
    ensures content == content0 + DescriptionText(description)
  {
    content := content0;
    if description.Some? {
      var wrapped := WrapText(description.value, 2, 80);
      content := content + wrapped;
      content := content + "\n";
      AppendAssoc(content0, wrapped, "\n");
    }
  }

  /** The technologies, joined by commas, when present and non-empty. */
  function TechnologiesBlock(technologies: Option<seq<string>>): string {
    if technologies.Some? && technologies.value != [] then
      "  🔧 Technologies:\n" + ("    " + Join(technologies.value, ", ") + "\n")
    else ""
  }

  method AppendTechnologies(content0: string, technologies: Option<seq<string>>) returns (content: string)
    ensures content == content0 + TechnologiesBlock(technologies)
  {
    content := content0;
    if technologies.Some? && technologies.value != [] {
      content := content + "  🔧 Technologies:\n";
      content := content + ("    " + Join(technologies.value, ", ") + "\n");
      AppendAssoc(content0, "  🔧 Technologies:\n", "    " + Join(technologies.value, ", ") + "\n");
    }
  }

  function LinkLine(link: Link): string {
    "    • " + link.title + ": " + link.url + "\n"
  }

  /** Every link, one per line, when the list is present and non-empty. */
  function LinksBlock(links: Option<seq<Link>>): string {
    if links.Some? && links.value != [] then "  🔗 Links:\n" + Each(links.value, LinkLine) else ""
  }

  method AppendLinks(content0: string, links: Option<seq<Link>>) returns (content: string)
    ensures content == content0 + LinksBlock(links)
  {
    content := content0;
    if links.Some? && links.value != [] {
      var all := links.value;
      content := content + "  🔗 Links:\n";
      ghost var beforeLinks := content;
      var j := 0;
      while j < |all|
        invariant 0 <= j <= |all|
        invariant content == beforeLinks + Each(all[..j], LinkLine)
      {
        content := content + ("    • " + all[j].title + ": " + all[j].url + "\n");
        EachStep(beforeLinks, all, j, LinkLine);
        j := j + 1;
      }
      assert all[..j] == all;
      AppendAssoc(content0, "  🔗 Links:\n", Each(all, LinkLine));
    }
  }

  function ProjectText(p: Project): string {
    NameLine(p.name) + DescriptionText(p.description) + TechnologiesBlock(p.technologies)
    + NonEmptyField("📱 App Store", p.appStoreLink) + LinksBlock(p.links) + EntryTail()
  }

  function ProjectsHead(): string {
    "\n  PERSONAL PROJECTS\n" + RuleBlock()
  }

  /** What `formatProjectsTab(resume:)` returns. */
  function ProjectsText(resume: Resume): string {
    ProjectsHead() + Each(resume.personalProjects, ProjectText)
  }

  method FormatProjectsTab(resume: Resume) returns (content: string)
    ensures content == ProjectsText(resume)
  {
    content := "\n  PERSONAL PROJECTS\n";
    content := content + RuleBlock();
    var i := 0;
    while i < |resume.personalProjects|
      invariant 0 <= i <= |resume.personalProjects|
      invariant content == ProjectsHead() + Each(resume.personalProjects[..i], ProjectText)
    {
      var project := resume.personalProjects[i];
      ghost var before := content;
      ghost var name, description := NameLine(project.name), DescriptionText(project.description);
      ghost var technologies := TechnologiesBlock(project.technologies);
      ghost var appStore := NonEmptyField("📱 App Store", project.appStoreLink);
      content := content + NameLine(project.name);
      content := AppendDescription(content, project.description);
      AppendAssoc(before, name, description);
      content := AppendTechnologies(content, project.technologies);
      AppendAssoc(before, name + description, technologies);
      content := AppendNonEmptyField(content, "📱 App Store", project.appStoreLink);
      AppendAssoc(before, name + description + technologies, appStore);
      content := AppendLinks(content, project.links);
      AppendAssoc(before, name + description + technologies + appStore, LinksBlock(project.links));
      content := content + EntryTail();
      AppendAssoc(before, name + description + technologies + appStore + LinksBlock(project.links), EntryTail());
      EachStep(ProjectsHead(), resume.personalProjects, i, ProjectText);
      i := i + 1;
    }
    assert resume.personalProjects[..i] == resume.personalProjects;
  }

  /** A link counts as a pull request when its title mentions "PR" or its URL holds "/pull/". */
  predicate IsPullRequest(link: Link) {
    Contains(link.title, "PR") || Contains(link.url, "/pull/")
  }

  function ContributionLinkLine(link: Link): string {
    "    • " + (if IsPullRequest(link) then "🔀" else "🔗") + " " + link.title + ": " + link.url + "\n"
  }

  /** Every link, marked as a pull request or not, when the list is present and non-empty. */
  function ContributionLinksBlock(links: Option<seq<Link>>): string {
    if links.Some? && links.value != [] then "  🔗 Links:\n" + Each(links.value, ContributionLinkLine) else ""
  }

  method AppendContributionLinks(content0: string, links: Option<seq<Link>>) returns (content: string)
    ensures content == content0 + ContributionLinksBlock(links)
  {
    content := content0;
    if links.Some? && links.value != [] {
      var all := links.value;
      content := content + "  🔗 Links:\n";
      ghost var beforeLinks := content;
      var j := 0;
      while j < |all|
        invariant 0 <= j <= |all|
        invariant content == beforeLinks + Each(all[..j], ContributionLinkLine)
      {
        var isPR := Contains(all[j].title, "PR") || Contains(all[j].url, "/pull/");
        content := content + ("    • " + (if isPR then "🔀" else "🔗") + " " + all[j].title + ": " + all[j].url + "\n");
        EachStep(beforeLinks, all, j, ContributionLinkLine);
        j := j + 1;
      }
      assert all[..j] == all;
      AppendAssoc(content0, "  🔗 Links:\n", Each(all, ContributionLinkLine));
    }
  }

  function ContributionText(c: Project): string {
    NameLine(c.name) + DescriptionText(c.description) + ContributionLinksBlock(c.links) + EntryTail()
  }

  function ContributionsHead(): string {
    "\n  OPEN SOURCE CONTRIBUTIONS\n" + RuleBlock()
  }

  /** What `formatContributionsTab(resume:)` returns. */
  function ContributionsText(resume: Resume): string {
    ContributionsHead() + Each(resume.openSourceContributions, ContributionText)
  }

  method FormatContributionsTab(resume: Resume) returns (content: string)
    ensures content == ContributionsText(resume)
  {
    content := "\n  OPEN SOURCE CONTRIBUTIONS\n";
    content := content + RuleBlock();
    var i := 0;
    while i < |resume.openSourceContributions|
      invariant 0 <= i <= |resume.openSourceContributions|
      invariant content == ContributionsHead() + Each(resume.openSourceContributions[..i], ContributionText)
    {
      var contribution := resume.openSourceContributions[i];
      ghost var before := content;
      ghost var name, description := NameLine(contribution.name), DescriptionText(contribution.description);
      ghost var links := ContributionLinksBlock(contribution.links);
      content := content + NameLine(contribution.name);
      content := AppendDescription(content, contribution.description);
      AppendAssoc(before, name, description);
      content := AppendContributionLinks(content, contribution.links);
      AppendAssoc(before, name + description, links);
      content := content + EntryTail();
      AppendAssoc(before, name + description + links, EntryTail());
      EachStep(ContributionsHead(), resume.openSourceContributions, i, ContributionText);
      i := i + 1;
    }
    assert resume.openSourceContributions[..i] == resume.openSourceContributions;
  }

  /** A link whose URL is a GitHub pull request is marked as one. */
  lemma PullUrlMarked(link: Link, prefix: string, rest: string)
    requires link.url == prefix + "/pull/" + rest
    ensures IsPullRequest(link)
    ensures ContributionLinkLine(link)[6] == '🔀'
  {
    ContainsSelf("/pull/");
    ContainsConcatRight(prefix, "/pull/", "/pull/");
    ContainsConcatLeft(prefix + "/pull/", rest, "/pull/");
  }

  // ---------------------------------------------------------------------------
  // getCurrentTabContent
  // ---------------------------------------------------------------------------

  /** The number of tabs: Overview, Experience, Skills, Projects, Open Source. */
  const TabCount := 5

  /** What the Skills page needs to be drawn when tab `tab` is shown. */
  predicate Drawable(resume: Resume, tab: int) {
    tab == 2 ==> SkillRatingsOk(resume)
  }

  /**
   * `getCurrentTabContent(resume:tabIndex:)`: the page of tab `tab`, or ""
   * for an index that names no tab. Every page starts with a newline.
   */
  function TabContent(resume: Resume, tab: int): (r: string)
    requires Drawable(resume, tab)
    ensures r != [] <==> 0 <= tab < TabCount
    ensures r != [] ==> r[0] == '\n'
  {
    if tab == 0 then OverviewText(resume)
    else if tab == 1 then ExperienceText(resume)
    else if tab == 2 then SkillsText(resume)
    else if tab == 3 then ProjectsText(resume)
    else if tab == 4 then ContributionsText(resume)
    else ""
  }
}

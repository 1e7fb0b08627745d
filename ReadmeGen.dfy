/**
 * The text-producing parts of the README generator (`generate_markdown`):
 * the obfuscated contact block, the experience date range, the skills
 * section with its star ratings, and the links line of a personal project.
 * Each part is a specification function over the YAML values; the loops
 * that append to the Markdown line list are methods proved equal to them.
 */
module ReadmeGen {
  import opened Wrappers
  import opened Strings
  import opened PyValues
  import opened ResumeModels
  import opened SkillOrder

  // ---------------------------------------------------------------------------
  // Contact information
  // ---------------------------------------------------------------------------

  const AtMask := " [at] "
  const DotMask := " [dot] "

  /** The address with every '@' and then every '.' spelled out. */
  function ObfuscateEmail(email: string): string {
    ReplaceAll(ReplaceAll(email, "@", AtMask), ".", DotMask)
  }

  /** Reference definition: what each character of the address becomes. */
  function MaskChar(c: char): string {
    if c == '@' then AtMask else if c == '.' then DotMask else [c]
  }

  /** Two passes of a one-character replacement, the second on the result of the first. */
  lemma {:induction false} TwoPasses(e: string)
    ensures ReplaceCharEach(ReplaceCharEach(e, '@', AtMask), '.', DotMask) == Each(e, MaskChar)
    decreases |e|
  {
    if e != [] {
      var init := e[..|e| - 1];
      var last := e[|e| - 1];
      assert e == init + [last];
      TwoPasses(init);
      ReplaceCharEachAppend(init, [last], '@', AtMask);
      var first := ReplaceCharEach([last], '@', AtMask);
      assert first == (if last == '@' then AtMask else [last]) + ReplaceCharEach([], '@', AtMask);
      ReplaceCharEachAppend(ReplaceCharEach(init, '@', AtMask), first, '.', DotMask);
      assert Each(e, MaskChar) == Each(init, MaskChar) + MaskChar(last);
      if last == '@' {
        assert first == AtMask;
        assert !HasChar(AtMask, '.') by {
          assert AtMask == " [at] ";
        }
        ReplaceCharEachAbsent(AtMask, '.', DotMask);
      } else {
        assert first == [last];
        assert ReplaceCharEach([last], '.', DotMask) == (if last == '.' then DotMask else [last]) + ReplaceCharEach([], '.', DotMask);
      }
    }
  }

  /** The two `str.replace` calls rewrite the address character by character. */
  lemma EmailPerChar(email: string)
    ensures ObfuscateEmail(email) == Each(email, MaskChar)
  {
    assert "@" == ['@'] && "." == ['.'];
    ReplaceSingleChar(email, '@', AtMask);
    ReplaceSingleChar(ReplaceCharEach(email, '@', AtMask), '.', DotMask);
    TwoPasses(email);
  }

  /** No '@' and no '.' survive the obfuscation. */
  lemma EmailHidden(email: string)
    ensures !HasChar(ObfuscateEmail(email), '@')
    ensures !HasChar(ObfuscateEmail(email), '.')
  {
    EmailPerChar(email);
    forall k | 0 <= k < |email|
      ensures !HasChar(MaskChar(email[k]), '@') && !HasChar(MaskChar(email[k]), '.')
    {
      assert AtMask == " [at] " && DotMask == " [dot] ";
    }
    EachLacks(email, MaskChar, '@');
    EachLacks(email, MaskChar, '.');
  }

  /** An address without '@' or '.' is shown as it is. */
  lemma EmailKeptWhenPlain(email: string)
    requires !HasChar(email, '@') && !HasChar(email, '.')
    ensures ObfuscateEmail(email) == email
  {
    assert "@" == ['@'] && "." == ['.'];
    ReplaceSingleChar(email, '@', AtMask);
    ReplaceCharEachAbsent(email, '@', AtMask);
    ReplaceSingleChar(email, '.', DotMask);
    ReplaceCharEachAbsent(email, '.', DotMask);
  }

  const CountryMask := " xxx-xxx-xxxx"
  const ShortMask := "-xxx-xxxx"
  const LocalMask := "xxx-xxx-"

  /** Python's `s[:n]`. */
  function Take(s: string, n: nat): string {
    if |s| <= n then s else s[..n]
  }

  /** Python's `s[-n:]` for `n > 0`. */
  function LastN(s: string, n: nat): string {
    if |s| <= n then s else s[|s| - n..]
  }

  /**
   * An international number keeps its country code (the text before the
   * first space), or its first three characters when it has no space; any
   * other number keeps only its last four characters.
   */
  function ObfuscatePhone(phone: string): string {
    if StartsWith(phone, "+") then
      var cut := FirstSep(phone, {' '});
      if cut < |phone| then phone[..cut] + CountryMask else Take(phone, 3) + ShortMask
    else LocalMask + LastN(phone, 4)
  }

  /** A number with a country code and a space keeps exactly the code. */
  lemma PhoneWithCountryCode(phone: string)
    requires StartsWith(phone, "+") && HasChar(phone, ' ')
    ensures var r := ObfuscatePhone(phone);
      EndsWith(r, CountryMask) &&
      var code := r[..|r| - |CountryMask|];
      StartsWith(phone, code + " ") && code != [] && code[0] == '+' && !HasChar(code, ' ')
  {
    var cut := FirstSep(phone, {' '});
    CodeBeforeSpace(phone);
    var r := ObfuscatePhone(phone);
    var code := phone[..cut];
    assert r == code + CountryMask;
    EndsWithAppend(code, CountryMask);
    assert r[..|r| - |CountryMask|] == code;
  }

  /** The text before the first space of an international number. */
  lemma CodeBeforeSpace(phone: string)
    requires StartsWith(phone, "+") && HasChar(phone, ' ')
    ensures var cut := FirstSep(phone, {' '});
      0 < cut < |phone| && var code := phone[..cut];
      StartsWith(phone, code + " ") && code[0] == '+' && !HasChar(code, ' ')
  {
    var i :| 0 <= i < |phone| && phone[i] == ' ';
    var cut := FirstSep(phone, {' '});
    assert phone[i] in {' '};
    assert cut <= i;
    assert phone[cut] == ' ';
    assert phone[0] == "+"[0];
    assert cut > 0;
    var code := phone[..cut];
    assert !HasChar(code, ' ') by {
      forall j | 0 <= j < |code|
        ensures code[j] != ' '
      {
        assert phone[j] !in {' '};
      }
    }
    assert " " == [phone[cut]];
    PrefixThenNext(phone, cut);
  }

  /** A number with a country code but no space keeps its first three characters. */
  lemma PhoneWithoutSpace(phone: string)
    requires StartsWith(phone, "+") && !HasChar(phone, ' ')
    ensures var r := ObfuscatePhone(phone);
      EndsWith(r, ShortMask) &&
      var kept := r[..|r| - |ShortMask|];
      StartsWith(phone, kept) && |kept| == (if |phone| < 3 then |phone| else 3)
  {
    var r := ObfuscatePhone(phone);
    var kept := Take(phone, 3);
    assert FirstSep(phone, {' '}) == |phone|;
    assert r == kept + ShortMask;
    EndsWithAppend(kept, ShortMask);
    assert r[..|r| - |ShortMask|] == kept;
  }

  /** Any other number keeps at most its last four characters. */
  lemma PhoneLocal(phone: string)
    requires !StartsWith(phone, "+")
    ensures var r := ObfuscatePhone(phone);
      StartsWith(r, LocalMask) &&
      var kept := r[|LocalMask|..];
      EndsWith(phone, kept) && |kept| == (if |phone| < 4 then |phone| else 4)
  {
    var r := ObfuscatePhone(phone);
    assert r == LocalMask + LastN(phone, 4);
    assert r[..|LocalMask|] == LocalMask;
    assert r[|LocalMask|..] == LastN(phone, 4);
  }

  /** `value.split('/')[-1]`: the handle shown for a profile address. */
  function Handle(value: string): string {
    AfterLast(value, '/')
  }

  /** The handle of `base/handle` is `handle` when the handle holds no '/'. */
  lemma {:induction false} HandleOfProfile(base: string, handle: string)
    requires !HasChar(handle, '/')
    ensures Handle(base + "/" + handle) == handle
    decreases |handle|
  {
    var s := base + "/" + handle;
    if handle == [] {
      assert s[|s| - 1] == '/';
    } else {
      var init := handle[..|handle| - 1];
      assert !HasChar(init, '/') by {
        forall i | 0 <= i < |init| ensures init[i] != '/' {
          assert init[i] == handle[i];
        }
      }
      HandleOfProfile(base, init);
      assert s[..|s| - 1] == base + "/" + init;
      assert s[|s| - 1] == handle[|handle| - 1];
      assert handle == init + [handle[|handle| - 1]];
    }
  }

  /** `contact.get(key)` is truthy: present and not empty. */
  predicate Given(value: Option<string>) {
    value.Some? && value.value != []
  }

  const EmailLabel := "\U{1F4E7} Email: "
  const PhoneLabel := "\U{1F4F1} Phone: "
  const WebsiteLabel := "\U{1F310} Website: "
  const LinkedInLabel := "\U{1F454} LinkedIn: "
  const GitHubLabel := "\U{1F4BB} GitHub: "

  /** A Markdown link `[text](url)`. */
  function MarkdownLink(text: string, url: string): string {
    "[" + text + "](" + url + ")"
  }

  /** The line for one contact field, or nothing when the field is not given. */
  function ContactLine(value: Option<string>, line: string -> string): seq<string> {
    if Given(value) then [line(value.value)] else []
  }

  function EmailLine(email: string): string { EmailLabel + ObfuscateEmail(email) }
  function PhoneLine(phone: string): string { PhoneLabel + ObfuscatePhone(phone) }
  function WebsiteLine(url: string): string { WebsiteLabel + MarkdownLink(url, url) }
  function LinkedInLine(url: string): string { LinkedInLabel + MarkdownLink(Handle(url), url) }
  function GitHubLine(url: string): string { GitHubLabel + MarkdownLink(Handle(url), url) }

  /** The contact lines in the order the generator writes them. */
  function ContactLines(c: Contact): seq<string> {
    ContactLine(c.email, EmailLine) + ContactLine(c.phone, PhoneLine) + ContactLine(c.website, WebsiteLine)
    + ContactLine(c.linkedin, LinkedInLine) + ContactLine(c.github, GitHubLine)
  }

  function Count(b: bool): nat { if b then 1 else 0 }

  /** One line per given field, e-mail first. */
  lemma ContactLinesCount(c: Contact)
    ensures |ContactLines(c)| ==
      Count(Given(c.email)) + Count(Given(c.phone)) + Count(Given(c.website)) + Count(Given(c.linkedin)) + Count(Given(c.github))
    ensures Given(c.email) ==> ContactLines(c)[0] == EmailLabel + ObfuscateEmail(c.email.value)
  {
  }

  /** The e-mail line shows the address with no '@' or '.' left in it. */
  lemma EmailLineHidden(c: Contact)
    requires Given(c.email)
    ensures StartsWith(ContactLines(c)[0], EmailLabel)
    ensures !HasChar(ContactLines(c)[0][|EmailLabel|..], '@')
    ensures !HasChar(ContactLines(c)[0][|EmailLabel|..], '.')
  {
    var line := EmailLine(c.email.value);
    assert ContactLines(c)[0] == line;
    assert line[|EmailLabel|..] == ObfuscateEmail(c.email.value);
    EmailHidden(c.email.value);
  }

  /**
   * The contact block: the lines joined by newlines after one newline.
   * Mirrors the appends to `contact_md`. The script reads the YAML
   * `contact` dictionary; it is stood for here by the viewer's decoded
   * `Contact` record, whose fields are optional strings.
   */
  method ContactBlock(c: Contact) returns (block: string)
    ensures block == "\n" + Join(ContactLines(c), "\n")
  {
    var lines: seq<string> := [];
    if Given(c.email) {
      lines := lines + [EmailLine(c.email.value)];
    }
    ghost var done := ContactLine(c.email, EmailLine);
    assert lines == done;
    if Given(c.phone) {
      lines := lines + [PhoneLine(c.phone.value)];
    }
    done := done + ContactLine(c.phone, PhoneLine);
    assert lines == done;
    if Given(c.website) {
      lines := lines + [WebsiteLine(c.website.value)];
    }
    done := done + ContactLine(c.website, WebsiteLine);
    assert lines == done;
    if Given(c.linkedin) {
      lines := lines + [LinkedInLine(c.linkedin.value)];
    }
    done := done + ContactLine(c.linkedin, LinkedInLine);
    assert lines == done;
    if Given(c.github) {
      lines := lines + [GitHubLine(c.github.value)];
    }
    done := done + ContactLine(c.github, GitHubLine);
    assert lines == done;
    block := "\n" + Join(lines, "\n");
  }

  // ---------------------------------------------------------------------------
  // Experience dates
  // ---------------------------------------------------------------------------

  /** `job.get('end_date', 'Present')` as text: `end` is `None` when the key is absent. */
  function EndText(end: Option<PyValue>): string {
    match end
    case None => "Present"
    case Some(v) => Str(v)
  }

  /** `*{start} - {end}*`. */
  function DateRange(start: PyValue, end: Option<PyValue>): string {
    "*" + Str(start) + " - " + EndText(end) + "*"
  }

  /** The two ends of an emphasised range `*a - b*`. */
  lemma RangeEnds(a: string, b: string)
    ensures StartsWith("*" + a + " - " + b + "*", "*" + a + " - ")
    ensures EndsWith("*" + a + " - " + b + "*", " - " + b + "*")
  {
    var head := "*" + a;
    var tail := " - " + b + "*";
    assert "*" + a + " - " + b + "*" == head + tail;
    EndsWithAppend(head, tail);
    assert (head + tail)[..|head + " - "|] == head + " - ";
  }

  /** "Present" is written for a missing key; a key that is there, even null, is written with `str`. */
  lemma DateRangeEnd(start: PyValue, end: Option<PyValue>)
    ensures StartsWith(DateRange(start, end), "*" + Str(start) + " - ")
    ensures end.None? ==> EndsWith(DateRange(start, end), " - Present*")
    ensures end.Some? ==> EndsWith(DateRange(start, end), " - " + Str(end.value) + "*")
    ensures end == Some(PyNone) ==> EndsWith(DateRange(start, end), " - None*")
  {
    RangeEnds(Str(start), EndText(end));
  }

  // ---------------------------------------------------------------------------
  // Skills
  // ---------------------------------------------------------------------------

  /**
   * One entry of a skill category's list: a dictionary with a `name` (and
   * maybe an integer `rating`), or anything else, kept as the text `str`
   * gives it.
   */
  datatype SkillEntry =
    | NamedSkill(name: string, rating: Option<int>)
    | OtherEntry(text: string)

  /** One `skills` key with its list, in the dictionary's order. */
  datatype SkillGroup = SkillGroup(category: string, entries: seq<SkillEntry>)

  const SkillsHeading := "\n## \U{1F6E0}\U{FE0F} Skills"
  const TableHeader := "\n| Skill | Proficiency |"
  const TableRule := "| --- | --- |"
  const Star := '\U{2B50}'

  /** `"\n### " + category.replace('_', ' ').title()`. */
  function GroupHeading(category: string): string {
    "\n### " + Title(ReplaceAll(category, "_", " "))
  }

  /** The heading keeps the category's length and has no underscore left. */
  lemma GroupHeadingShape(category: string)
    ensures var h := GroupHeading(category);
      StartsWith(h, "\n### ") && |h| == 5 + |category| && !HasChar(h[5..], '_')
  {
    assert "_" == ['_'] && " " == [' '];
    ReplaceSingleChar(category, '_', " ");
    ReplaceCharEachOne(category, '_', ' ');
    var spaced := ReplaceAll(category, "_", " ");
    TitleFromShape(spaced, false);
    var h := GroupHeading(category);
    assert h[5..] == Title(spaced);
    assert h[..5] == "\n### ";
    forall i | 0 <= i < |spaced| ensures Title(spaced)[i] != '_' {
      assert spaced[i] != '_';
    }
  }

  /** A table is drawn when the list's first entry is a dictionary with a name. */
  predicate IsTable(entries: seq<SkillEntry>) {
    entries != [] && entries[0].NamedSkill?
  }

  /** The sort key `(-x.get('rating', 0), x['name'])`, as rating descending then name. */
  function EntryKey(x: SkillEntry): SortKey {
    match x
    case NamedSkill(name, rating) => SortKey(rating.GetOr(0), name)
    case OtherEntry(_) => SortKey(0, [])
  }

  /** `"⭐" * rating`: nothing for a rating of zero or less. */
  function Stars(rating: int): (r: string)
    ensures |r| == if rating > 0 then rating else 0
    ensures forall i :: 0 <= i < |r| ==> r[i] == Star
  {
    if rating <= 0 then [] else Repeat(Star, rating)
  }

  function TableRow(x: SkillEntry): seq<string> {
    match x
    case NamedSkill(name, rating) => ["| " + name + " | " + Stars(rating.GetOr(0)) + " |"]
    case OtherEntry(text) => ["| " + text + " |  |"]
  }

  function ListRow(x: SkillEntry): seq<string> {
    match x
    case NamedSkill(name, _) => ["- " + name]
    case OtherEntry(text) => ["- " + text]
  }

  /** The lines of one category: its heading, then a sorted table or a plain list. */
  function GroupLines(g: SkillGroup): seq<string> {
    [GroupHeading(g.category)] +
    if IsTable(g.entries) then [TableHeader, TableRule] + Each(SortBy(g.entries, EntryKey), TableRow)
    else Each(g.entries, ListRow)
  }

  /**
   * The sort reads `x['name']` of every entry of a table, which raises
   * unless each is a dictionary with a name.
   */
  predicate Sortable(groups: seq<SkillGroup>) {
    forall k, j :: 0 <= k < |groups| && IsTable(groups[k].entries) && 0 <= j < |groups[k].entries| ==>
      groups[k].entries[j].NamedSkill?
  }

  /** The skills section; an empty dictionary writes nothing. */
  function SkillsLines(groups: seq<SkillGroup>): seq<string>
    requires Sortable(groups)
  {
    if groups == [] then [] else [SkillsHeading] + Each(groups, GroupLines)
  }

  /** The section, appended line by line as the generator does. */
  method SkillsSection(groups: seq<SkillGroup>) returns (md: seq<string>)
    requires Sortable(groups)
    ensures md == SkillsLines(groups)
  {
    md := [];
    if groups == [] {
      return;
    }
    md := md + [SkillsHeading];
    for i := 0 to |groups|
      invariant md == [SkillsHeading] + Each(groups[..i], GroupLines)
    {
      var g := groups[i];
      ghost var before := md;
      md := md + [GroupHeading(g.category)];
      if IsTable(g.entries) {
        var sorted := SortBy(g.entries, EntryKey);
        md := md + [TableHeader, TableRule];
        ghost var head := md;
        for j := 0 to |sorted|
          invariant md == head + Each(sorted[..j], TableRow)
        {
          EachStep(head, sorted, j, TableRow);
          md := md + TableRow(sorted[j]);
        }
        assert sorted[..|sorted|] == sorted;
        AppendAssoc(before, [GroupHeading(g.category)], [TableHeader, TableRule]);
        AppendAssoc(before, [GroupHeading(g.category)] + [TableHeader, TableRule], Each(sorted, TableRow));
        AppendAssoc([GroupHeading(g.category)], [TableHeader, TableRule], Each(sorted, TableRow));
      } else {
        ghost var head := md;
        for j := 0 to |g.entries|
          invariant md == head + Each(g.entries[..j], ListRow)
        {
          EachStep(head, g.entries, j, ListRow);
          md := md + ListRow(g.entries[j]);
        }
        assert g.entries[..|g.entries|] == g.entries;
        AppendAssoc(before, [GroupHeading(g.category)], Each(g.entries, ListRow));
      }
      assert md == before + GroupLines(g);
      EachStep([SkillsHeading], groups, i, GroupLines);
      AppendAssoc([SkillsHeading], Each(groups[..i], GroupLines), GroupLines(g));
    }
    assert groups[..|groups|] == groups;
  }

  /** A table has its two header lines and one row per entry; a list has one line per entry. */
  lemma GroupLinesCount(g: SkillGroup)
    ensures |GroupLines(g)| == 1 + if IsTable(g.entries) then 2 + |g.entries| else |g.entries|
    ensures GroupLines(g)[0] == GroupHeading(g.category)
  {
    if IsTable(g.entries) {
      SortByCorrect(g.entries, EntryKey);
      EachSingles(SortBy(g.entries, EntryKey), TableRow);
    } else {
      EachSingles(g.entries, ListRow);
    }
  }

  /**
   * A table lists the category's skills once each, best rated first and
   * alphabetically among equal ratings.
   */
  lemma TableOrdered(entries: seq<SkillEntry>)
    requires forall j :: 0 <= j < |entries| ==> entries[j].NamedSkill?
    ensures var sorted := SortBy(entries, EntryKey);
      multiset(sorted) == multiset(entries) && |sorted| == |entries| &&
      (forall k :: 0 <= k < |sorted| ==> sorted[k].NamedSkill?) &&
      (forall i, j :: 0 <= i < j < |sorted| ==>
        sorted[i].rating.GetOr(0) > sorted[j].rating.GetOr(0) ||
        (sorted[i].rating.GetOr(0) == sorted[j].rating.GetOr(0) && LexLe(sorted[i].name, sorted[j].name)))
  {
    var sorted := SortBy(entries, EntryKey);
    SortByCorrect(entries, EntryKey);
    forall k | 0 <= k < |sorted| ensures sorted[k].NamedSkill? {
      assert sorted[k] in multiset(entries);
      var j :| 0 <= j < |entries| && entries[j] == sorted[k];
    }
    forall i, j | 0 <= i < j < |sorted|
      ensures sorted[i].rating.GetOr(0) > sorted[j].rating.GetOr(0) ||
        (sorted[i].rating.GetOr(0) == sorted[j].rating.GetOr(0) && LexLe(sorted[i].name, sorted[j].name))
    {
      assert KeyLe(EntryKey(sorted[i]), EntryKey(sorted[j]));
    }
  }

  /** Row `k` of a table shows the `k`-th sorted skill with as many stars as its rating. */
  lemma TableRows(g: SkillGroup)
    requires IsTable(g.entries)
    requires forall j :: 0 <= j < |g.entries| ==> g.entries[j].NamedSkill?
    ensures var sorted := SortBy(g.entries, EntryKey);
      |GroupLines(g)| == 3 + |sorted| &&
      forall k :: 0 <= k < |sorted| ==> (sorted[k].NamedSkill? &&
        GroupLines(g)[3 + k] == "| " + sorted[k].name + " | " + Stars(sorted[k].rating.GetOr(0)) + " |")
  {
    var sorted := SortBy(g.entries, EntryKey);
    TableOrdered(g.entries);
    EachSingles(sorted, TableRow);
    var rows := Each(sorted, TableRow);
    var lines := GroupLines(g);
    assert lines == [GroupHeading(g.category)] + [TableHeader, TableRule] + rows;
    forall k | 0 <= k < |sorted|
      ensures lines[3 + k] == "| " + sorted[k].name + " | " + Stars(sorted[k].rating.GetOr(0)) + " |"
    {
      assert lines[3 + k] == rows[k] == TableRow(sorted[k])[0];
    }
  }

  // ---------------------------------------------------------------------------
  // Personal project links
  // ---------------------------------------------------------------------------

  const LinksLabel := "\n**Links:** "
  const LinkSeparator := " | "

  function AppStoreLink(url: string): string {
    MarkdownLink("App Store", url)
  }

  function LinkPart(l: Link): seq<string> {
    [MarkdownLink(l.title, l.url)]
  }

  /** The App Store link when one is given, then each listed link. */
  function LinkParts(p: Project): seq<string> {
    (if Given(p.appStoreLink) then [AppStoreLink(p.appStoreLink.value)] else [])
    + (if p.links.Some? then Each(p.links.value, LinkPart) else [])
  }

  /** The links line, or nothing when the project has no link at all. */
  function LinksLine(p: Project): Option<string> {
    var parts := LinkParts(p);
    if parts == [] then None else Some(LinksLabel + Join(parts, LinkSeparator))
  }

  /** Builds the `links` list and the line as the generator does. */
  method ProjectLinks(p: Project) returns (line: Option<string>)
    ensures line == LinksLine(p)
  {
    var links: seq<string> := [];
    if Given(p.appStoreLink) {
      links := links + [AppStoreLink(p.appStoreLink.value)];
    }
    ghost var head := links;
    if p.links.Some? && p.links.value != [] {
      var given := p.links.value;
      for i := 0 to |given|
        invariant links == head + Each(given[..i], LinkPart)
      {
        EachStep(head, given, i, LinkPart);
        links := links + LinkPart(given[i]);
      }
      assert given[..|given|] == given;
    } else {
      assert links == LinkParts(p);
    }
    assert links == LinkParts(p);
    if links != [] {
      line := Some(LinksLabel + Join(links, LinkSeparator));
    } else {
      line := None;
    }
  }

  /** The number of link parts, and which part each one is. */
  lemma LinkPartsOrder(p: Project)
    ensures var n := if p.links.Some? then |p.links.value| else 0;
      var off := Count(Given(p.appStoreLink));
      |LinkParts(p)| == off + n &&
      (Given(p.appStoreLink) ==> LinkParts(p)[0] == AppStoreLink(p.appStoreLink.value)) &&
      (forall k :: 0 <= k < n ==> LinkParts(p)[off + k] == MarkdownLink(p.links.value[k].title, p.links.value[k].url))
  {
    if p.links.Some? {
      EachSingles(p.links.value, LinkPart);
    }
  }

  /** The line is left out exactly when there is no App Store link and no other link. */
  lemma LinksLineOmitted(p: Project)
    ensures LinksLine(p).None? <==> !Given(p.appStoreLink) && (p.links.None? || p.links.value == [])
  {
    LinkPartsOrder(p);
  }

  /** When given, the App Store link comes first on the line. */
  lemma AppStoreFirst(p: Project)
    requires Given(p.appStoreLink)
    ensures LinksLine(p).Some?
    ensures StartsWith(LinksLine(p).value, LinksLabel + AppStoreLink(p.appStoreLink.value))
  {
    LinkPartsOrder(p);
    var parts := LinkParts(p);
    JoinStartsWith(parts, LinkSeparator);
    var j := Join(parts, LinkSeparator);
    var first := AppStoreLink(p.appStoreLink.value);
    assert (LinksLabel + j)[..|LinksLabel + first|] == LinksLabel + j[..|first|];
  }
}

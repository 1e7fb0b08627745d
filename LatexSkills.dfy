/**
 * The Skills section of the LaTeX resume (`add_skills_section_updated` in
 * generate_resume.py): the YAML categories are grouped under display
 * titles, each group is sorted by rating and name, the groups are listed
 * in title order, and every group becomes a header row, a small gap and
 * one table row per skill.
 */
module LatexSkills {
  import opened Wrappers
  import opened Strings
  import opened PyValues
  import opened SkillOrder
  import opened LatexText

  // ---------------------------------------------------------------------------
  // Input and the grouped skills
  // ---------------------------------------------------------------------------

  /** One element of a category's list: a dictionary with optional `name` and `rating`, or something else. */
  datatype SkillItem = NotADict | SkillDict(name: Option<PyValue>, rating: Option<PyValue>)

  /** The value under a category key: a list of items, or something else. */
  datatype CategoryValue = NotAList | SkillList(items: seq<SkillItem>)

  /** One `key: value` pair of the `skills` dictionary, in the dictionary's order. */
  datatype Category = Category(key: string, value: CategoryValue)

  /** A kept skill: its name (never falsy) and its rating (`None` when missing). */
  datatype Entry = Entry(name: PyValue, rating: PyValue)

  /** `organized_skills`: the titles in insertion order and the entries under each. */
  datatype Organized = Organized(order: seq<string>, lists: map<string, seq<Entry>>)

  /** The dictionary's own shape: each title listed once, exactly the keys listed. */
  ghost predicate Valid(o: Organized) {
    (forall i, j :: 0 <= i < j < |o.order| ==> o.order[i] != o.order[j])
    && (forall t :: t in o.lists <==> t in o.order)
  }

  const SdksKey := "sdks_apis"
  const SdksTitle := "SDKs & APIs"

  /** The display title of a category key: underscores become spaces, then title case; one key is special. */
  function CategoryTitle(key: string): string {
    if key == SdksKey then SdksTitle else Title(ReplaceAll(key, "_", " "))
  }

  /**
   * Apart from the special key, a title is as long as its key, has a space
   * wherever the key has an underscore, and has no underscore at all.
   */
  lemma CategoryTitleShape(key: string)
    ensures key == SdksKey ==> CategoryTitle(key) == SdksTitle
    ensures key != SdksKey ==> var t := CategoryTitle(key);
      |t| == |key| && forall i :: 0 <= i < |t| ==> t[i] != '_' && (key[i] == '_' ==> t[i] == ' ')
  {
    if key != SdksKey {
      var spaced := ReplaceAll(key, "_", " ");
      ReplaceSingleChar(key, '_', " ");
      ReplaceCharEachOne(key, '_', ' ');
      TitleFromShape(spaced, false);
      forall i | 0 <= i < |key|
        ensures CategoryTitle(key)[i] != '_' && (key[i] == '_' ==> CategoryTitle(key)[i] == ' ')
      {
        assert spaced[i] != '_';
        assert !IsCased('_') && !IsCased(' ');
      }
    }
  }

  /** The entry an item contributes: only a dictionary whose name is truthy. */
  function KeptEntry(item: SkillItem): seq<Entry> {
    if item.SkillDict? && Truthy(item.name.GetOr(PyNone)) then
      [Entry(item.name.GetOr(PyNone), item.rating.GetOr(PyNone))]
    else []
  }

  function KeptEntries(items: seq<SkillItem>): seq<Entry> {
    Each(items, KeptEntry)
  }

  /** Every kept entry has a truthy name. */
  predicate AllNamed(entries: seq<Entry>) {
    forall k :: 0 <= k < |entries| ==> Truthy(entries[k].name)
  }

  lemma {:induction false} KeptEntriesNamed(items: seq<SkillItem>)
    ensures AllNamed(KeptEntries(items))
    decreases |items|
  {
    if items != [] {
      KeptEntriesNamed(items[..|items| - 1]);
    }
  }

  /** One pass of the loop over the dictionary: make the title's list if new, then append the kept items. */
  function AddCategory(o: Organized, c: Category): Organized {
    var t := CategoryTitle(c.key);
    var o1 := if t in o.lists then o else Organized(o.order + [t], o.lists[t := []]);
    match c.value
    case NotAList => o1
    case SkillList(items) => Organized(o1.order, o1.lists[t := o1.lists[t] + KeptEntries(items)])
  }

  /** `organized_skills` after the loop over the first categories. */
  function Organize(cats: seq<Category>): Organized {
    if cats == [] then Organized([], map[]) else AddCategory(Organize(cats[..|cats| - 1]), cats[|cats| - 1])
  }

  /** What one category contributes to title `t`: its kept items when it has that title and a list. */
  function EntriesOf(t: string, c: Category): seq<Entry> {
    if CategoryTitle(c.key) == t && c.value.SkillList? then KeptEntries(c.value.items) else []
  }

  /** Some category of `cats` has title `t`. */
  predicate HasTitle(cats: seq<Category>, t: string) {
    exists i :: 0 <= i < |cats| && CategoryTitle(cats[i].key) == t
  }

  /** The grouping is a dictionary: each title listed once, and exactly the keys listed. */
  lemma {:induction false} OrganizeValid(cats: seq<Category>)
    ensures Valid(Organize(cats))
    decreases |cats|
  {
    if cats != [] {
      OrganizeValid(cats[..|cats| - 1]);
    }
  }

  /** The grouping holds a title exactly when some category has it, even one whose value is not a list. */
  lemma {:induction false} OrganizeTitles(cats: seq<Category>)
    ensures forall t :: t in Organize(cats).lists <==> HasTitle(cats, t)
    decreases |cats|
  {
    if cats != [] {
      var n := |cats| - 1;
      var init := cats[..n];
      OrganizeTitles(init);
      var t := CategoryTitle(cats[n].key);
      forall u
        ensures u in Organize(cats).lists <==> HasTitle(cats, u)
      {
        if HasTitle(init, u) {
          var i :| 0 <= i < |init| && CategoryTitle(init[i].key) == u;
          assert cats[i] == init[i];
        }
        if HasTitle(cats, u) && u != t {
          var i :| 0 <= i < |cats| && CategoryTitle(cats[i].key) == u;
          assert i < n;
          assert init[i] == cats[i];
        }
      }
    }
  }

  /**
   * Under each title the grouping holds the kept items of all categories
   * with that title, in dictionary order; a title no category contributes
   * to has nothing.
   */
  lemma {:induction false} OrganizeLists(cats: seq<Category>)
    ensures forall t :: t in Organize(cats).lists ==> Organize(cats).lists[t] == EachIn(t, cats, EntriesOf)
    ensures forall t :: t !in Organize(cats).lists ==> EachIn(t, cats, EntriesOf) == []
    decreases |cats|
  {
    if cats != [] {
      var n := |cats| - 1;
      var init := cats[..n];
      var c := cats[n];
      OrganizeLists(init);
      var o := Organize(init);
      var r := Organize(cats);
      assert r == AddCategory(o, c);
      forall u
        ensures u in r.lists ==> r.lists[u] == EachIn(u, cats, EntriesOf)
        ensures u !in r.lists ==> EachIn(u, cats, EntriesOf) == []
      {
        assert EachIn(u, cats, EntriesOf) == EachIn(u, init, EntriesOf) + EntriesOf(u, c);
      }
    }
  }

  /** Every entry of the grouping has a truthy name. */
  lemma {:induction false} OrganizeNamed(cats: seq<Category>)
    ensures forall t :: t in Organize(cats).lists ==> AllNamed(Organize(cats).lists[t])
    decreases |cats|
  {
    if cats != [] {
      OrganizeNamed(cats[..|cats| - 1]);
      var c := cats[|cats| - 1];
      if c.value.SkillList? {
        KeptEntriesNamed(c.value.items);
      }
    }
  }

  /** Builds `organized_skills` with the source's two nested loops. */
  method OrganizeSkills(cats: seq<Category>) returns (o: Organized)
    ensures o == Organize(cats)
  {
    o := Organized([], map[]);
    for n := 0 to |cats|
      invariant o == Organize(cats[..n])
    {
      assert cats[..n + 1][..n] == cats[..n];
      var c := cats[n];
      var t := CategoryTitle(c.key);
      if t !in o.lists {
        o := Organized(o.order + [t], o.lists[t := []]);
      }
      if c.value.SkillList? {
        o := AddItems(o, t, c.value.items);
      }
    }
    assert cats[..|cats|] == cats;
  }

  /** The inner loop: appends each kept item of one category to the list of title `t`. */
  method AddItems(o: Organized, t: string, items: seq<SkillItem>) returns (out: Organized)
    requires t in o.lists
    ensures out == Organized(o.order, o.lists[t := o.lists[t] + KeptEntries(items)])
  {
    out := o;
    assert KeptEntries(items[..0]) == [] by {
      assert items[..0] == [];
    }
    assert o.lists[t] + [] == o.lists[t];
    assert o.lists[t := o.lists[t]] == o.lists;
    for k := 0 to |items|
      invariant out == Organized(o.order, o.lists[t := o.lists[t] + KeptEntries(items[..k])])
    {
      var item := items[k];
      EachStep(o.lists[t], items, k, KeptEntry);
      assert o.lists[t] + KeptEntries(items[..k + 1]) == out.lists[t] + KeptEntry(item);
      if item.SkillDict? && Truthy(item.name.GetOr(PyNone)) {
        out := Organized(out.order, out.lists[t := out.lists[t] + [Entry(item.name.GetOr(PyNone), item.rating.GetOr(PyNone))]]);
      } else {
        assert out.lists[t] + KeptEntry(item) == out.lists[t];
      }
    }
    assert items[..|items|] == items;
  }

  // ---------------------------------------------------------------------------
  // Sorting
  // ---------------------------------------------------------------------------

  /** The sort key of an entry: an integer rating (a bool counts) descending, else 0; then `str(name)`. */
  function EntryKey(e: Entry): SortKey {
    SortKey(AsInt(e.rating).GetOr(0), Str(e.name))
  }

  /** Every list sorted in place with `EntryKey`. */
  function SortLists(o: Organized): Organized {
    Organized(o.order, map t | t in o.lists :: SortBy(o.lists[t], EntryKey))
  }

  /** Sorting keeps the titles, and leaves each list ordered and a permutation of what it was. */
  lemma SortListsSpec(o: Organized)
    ensures SortLists(o).order == o.order && SortLists(o).lists.Keys == o.lists.Keys
    ensures forall t :: t in o.lists ==>
      SortedBy(SortLists(o).lists[t], EntryKey) && multiset(SortLists(o).lists[t]) == multiset(o.lists[t])
  {
    forall t | t in o.lists
      ensures SortedBy(SortLists(o).lists[t], EntryKey) && multiset(SortLists(o).lists[t]) == multiset(o.lists[t])
    {
      SortByCorrect(o.lists[t], EntryKey);
    }
  }

  /** The loop sorting each category's list, in the dictionary's order. */
  method SortEachList(o: Organized) returns (s: Organized)
    requires Valid(o)
    ensures s == SortLists(o)
  {
    s := o;
    for i := 0 to |o.order|
      invariant s.order == o.order && SortedUpTo(o, s.lists, i)
    {
      var t := o.order[i];
      SortStep(o, s.lists, i);
      s := Organized(s.order, s.lists[t := SortBy(s.lists[t], EntryKey)]);
    }
    SortedAll(o, s.lists);
  }

  /** The lists of the first `i` titles are sorted and the others are as they were. */
  ghost predicate SortedUpTo(o: Organized, lists: map<string, seq<Entry>>, i: nat)
    requires i <= |o.order|
  {
    lists.Keys == o.lists.Keys &&
    forall t :: t in lists ==> lists[t] == if t in o.order[..i] then SortBy(o.lists[t], EntryKey) else o.lists[t]
  }

  lemma SortStep(o: Organized, lists: map<string, seq<Entry>>, i: nat)
    requires Valid(o) && i < |o.order| && SortedUpTo(o, lists, i)
    ensures o.order[i] in lists
    ensures SortedUpTo(o, lists[o.order[i] := SortBy(lists[o.order[i]], EntryKey)], i + 1)
  {
    var t := o.order[i];
    assert t !in o.order[..i];
    var next := lists[t := SortBy(lists[t], EntryKey)];
    forall u | u in next
      ensures next[u] == if u in o.order[..i + 1] then SortBy(o.lists[u], EntryKey) else o.lists[u]
    {
      PrefixGrows(o.order, i, u);
    }
  }

  lemma SortedAll(o: Organized, lists: map<string, seq<Entry>>)
    requires Valid(o) && SortedUpTo(o, lists, |o.order|)
    ensures lists == SortLists(o).lists
  {
    assert o.order[..|o.order|] == o.order;
    forall t | t in lists
      ensures lists[t] == SortLists(o).lists[t]
    {
      assert t in o.order;
    }
  }

  /** The key `sorted` orders the titles by. */
  function TitleKey(t: string): SortKey {
    SortKey(0, t)
  }

  /** `sorted(organized_skills.keys())`. */
  function CategoryOrder(o: Organized): seq<string> {
    SortBy(o.order, TitleKey)
  }

  /** The titles listed are exactly the grouping's titles. */
  lemma CategoryOrderKeys(o: Organized)
    requires Valid(o)
    ensures multiset(CategoryOrder(o)) == multiset(o.order)
    ensures forall t :: t in CategoryOrder(o) <==> t in o.lists
  {
    var r := CategoryOrder(o);
    SortByCorrect(o.order, TitleKey);
    forall t
      ensures t in r <==> t in o.order
    {
      assert t in r <==> t in multiset(r);
      assert t in o.order <==> t in multiset(o.order);
    }
  }

  /** The titles come in strictly ascending order. */
  lemma CategoryOrderAscending(o: Organized)
    requires Valid(o)
    ensures forall i, j :: 0 <= i < j < |CategoryOrder(o)| ==>
      LexLe(CategoryOrder(o)[i], CategoryOrder(o)[j]) && CategoryOrder(o)[i] != CategoryOrder(o)[j]
  {
    var r := CategoryOrder(o);
    SortByCorrect(o.order, TitleKey);
    forall i, j | 0 <= i < j < |r|
      ensures LexLe(r[i], r[j]) && r[i] != r[j]
    {
      assert KeyLe(TitleKey(r[i]), TitleKey(r[j]));
      if r[i] == r[j] {
        TwiceInList(r, i, j);
        DistinctCount(o.order, r[i]);
        assert false;
      }
    }
  }

  /** An element at two positions occurs at least twice. */
  lemma TwiceInList(r: seq<string>, i: int, j: int)
    requires 0 <= i < j < |r| && r[i] == r[j]
    ensures multiset(r)[r[i]] >= 2
  {
    assert r == r[..j] + r[j..];
    assert multiset(r) == multiset(r[..j]) + multiset(r[j..]);
    assert r[i] == r[..j][i];
    assert r[j] == r[j..][0];
  }

  /** In a list without repetitions every element occurs at most once. */
  lemma {:induction false} DistinctCount(s: seq<string>, x: string)
    requires forall i, j :: 0 <= i < j < |s| ==> s[i] != s[j]
    ensures multiset(s)[x] <= 1
    decreases |s|
  {
    if s != [] {
      var n := |s| - 1;
      DistinctCount(s[..n], x);
      assert s == s[..n] + [s[n]];
      if s[n] == x {
        assert x !in s[..n];
      }
    }
  }

  // ---------------------------------------------------------------------------
  // Table rows
  // ---------------------------------------------------------------------------

  const CategoryGap := "\\noalign{\\vspace{0.6em}}"
  const TitleGap := "\\noalign{\\vspace{0.2em}}"
  const SectionSpace := "\\vspace{-1.5em}"
  const TabularBegin := "\\begin{tabular}{@{}>{\\RaggedRight}p{3.5cm}@{}>{\\RaggedLeft}p{3cm}@{}}"
  const TabularEnd := "\\end{tabular}"

  /** A group's header row spanning both columns, with the LaTeX row break. */
  function HeaderRow(title: string): string {
    HeaderOpen + Escape(title) + HeaderClose
  }

  const HeaderOpen := "\\multicolumn{2}{@{}l@{}}{\\textbf{"
  const HeaderClose := "}} \\\\ "

  /** A skill row as written: the f-string's `\\` is a single backslash. */
  function SkillRowAsWritten(e: Entry): string {
    Escape(Str(e.name)) + " & " + RatingDotsAsWritten(e.rating, 5) + " \\"
  }

  /** A skill row ending with the row break `\\`, over the dots without their trailing spacing. */
  function SkillRow(e: Entry): string {
    Escape(Str(e.name)) + " & " + RatingDots(e.rating, 5) + " \\\\"
  }

  /**
   * Which skill row a table is built with: the row line 491 writes, or the
   * row with the LaTeX row break and without the dots' trailing spacing.
   */
  datatype RowForm = AsWritten | Corrected

  /** The skill row of the given form. */
  function SkillRowIn(form: RowForm, e: Entry): string {
    match form
    case AsWritten => SkillRowAsWritten(e)
    case Corrected => SkillRow(e)
  }

  /** The rows of one skill; a falsy name is skipped. */
  function EntryRows(form: RowForm, e: Entry): seq<string> {
    if Truthy(e.name) then [SkillRowIn(form, e)] else []
  }

  /** A shown group: a gap unless it is the first shown, the header, the small gap, one row per skill. */
  function GroupRows(form: RowForm, title: string, entries: seq<Entry>, gap: bool): seq<string> {
    (if gap then [CategoryGap] else []) + [HeaderRow(title), TitleGap] + EachIn(form, entries, EntryRows)
  }

  /** The list under a title (every title listed is a key). */
  function ListOf(lists: map<string, seq<Entry>>, t: string): seq<Entry> {
    if t in lists then lists[t] else []
  }

  /** Some title among `titles` has skills: `first_category_processed` after them. */
  function AnyShown(titles: seq<string>, lists: map<string, seq<Entry>>): (b: bool)
    ensures b <==> exists i :: 0 <= i < |titles| && ListOf(lists, titles[i]) != []
    decreases |titles|
  {
    if titles == [] then false
    else
      var n := |titles| - 1;
      assert forall i :: 0 <= i < n ==> titles[..n][i] == titles[i];
      AnyShown(titles[..n], lists) || ListOf(lists, titles[n]) != []
  }

  /** `table_content_tex` after the loop over `titles`. */
  function TableRows(form: RowForm, titles: seq<string>, lists: map<string, seq<Entry>>): seq<string>
    decreases |titles|
  {
    if titles == [] then []
    else
      var n := |titles| - 1;
      var t := titles[n];
      TableRows(form, titles[..n], lists)
      + (if ListOf(lists, t) == [] then [] else GroupRows(form, t, ListOf(lists, t), AnyShown(titles[..n], lists)))
  }

  /** One more title extends the rows by that title's group, if it has skills. */
  lemma TableRowsStep(form: RowForm, titles: seq<string>, lists: map<string, seq<Entry>>, n: nat)
    requires n < |titles|
    ensures TableRows(form, titles[..n + 1], lists) == TableRows(form, titles[..n], lists)
      + (if ListOf(lists, titles[n]) == [] then [] else GroupRows(form, titles[n], ListOf(lists, titles[n]), AnyShown(titles[..n], lists)))
    ensures AnyShown(titles[..n + 1], lists) == (AnyShown(titles[..n], lists) || ListOf(lists, titles[n]) != [])
  {
    assert titles[..n + 1][..n] == titles[..n];
  }

  /** Builds the table rows with the source's loop and its `first_category_processed` flag. */
  method BuildTable(form: RowForm, titles: seq<string>, lists: map<string, seq<Entry>>) returns (rows: seq<string>)
    ensures rows == TableRows(form, titles, lists)
  {
    rows := [];
    var processed := false;
    for n := 0 to |titles|
      invariant rows == TableRows(form, titles[..n], lists)
      invariant processed == AnyShown(titles[..n], lists)
    {
      var t := titles[n];
      var entries := ListOf(lists, t);
      TableRowsStep(form, titles, lists, n);
      if entries != [] {
        rows := AppendGroup(form, rows, t, entries, processed);
        processed := true;
      } else {
        assert rows + [] == rows;
      }
    }
    assert titles[..|titles|] == titles;
  }

  /** One shown category of the loop: the gap, the header, the small gap, then a row per named skill. */
  method AppendGroup(form: RowForm, rows: seq<string>, t: string, entries: seq<Entry>, processed: bool)
    returns (out: seq<string>)
    ensures out == rows + GroupRows(form, t, entries, processed)
  {
    ghost var gap: seq<string> := if processed then [CategoryGap] else [];
    out := rows;
    if processed {
      out := out + [CategoryGap];
    } else {
      assert out == rows + gap;
    }
    out := out + [HeaderRow(t), TitleGap];
    ghost var head := out;
    AppendAssoc(rows, gap, [HeaderRow(t), TitleGap]);
    for k := 0 to |entries|
      invariant out == head + EachIn(form, entries[..k], EntryRows)
    {
      EachInStep(head, form, entries, k, EntryRows);
      if Truthy(entries[k].name) {
        var row := SkillRowIn(form, entries[k]);
        assert EntryRows(form, entries[k]) == [row];
        out := out + [row];
      } else {
        assert EntryRows(form, entries[k]) == [];
        assert out + [] == out;
      }
    }
    assert entries[..|entries|] == entries;
    AppendAssoc(rows, gap + [HeaderRow(t), TitleGap], EachIn(form, entries, EntryRows));
  }

  /** Each skill with a truthy name gives exactly one row, in order. */
  lemma EntryRowsCount(form: RowForm, entries: seq<Entry>)
    requires AllNamed(entries)
    ensures |EachIn(form, entries, EntryRows)| == |entries|
    ensures forall k :: 0 <= k < |entries| ==> EachIn(form, entries, EntryRows)[k] == SkillRowIn(form, entries[k])
  {
    forall k | 0 <= k < |entries|
      ensures EntryRows(form, entries[k]) == [SkillRowIn(form, entries[k])]
    {
    }
    EachInSingles(form, entries, EntryRows);
  }

  /** The first row of a non-empty table is a header: no gap comes before the first shown group. */
  lemma {:induction false} TableStartsWithHeader(form: RowForm, titles: seq<string>, lists: map<string, seq<Entry>>)
    ensures TableRows(form, titles, lists) != [] <==> AnyShown(titles, lists)
    ensures AnyShown(titles, lists) ==> exists t :: TableRows(form, titles, lists)[0] == HeaderRow(t)
    decreases |titles|
  {
    if titles != [] {
      var n := |titles| - 1;
      TableStartsWithHeader(form, titles[..n], lists);
      var t := titles[n];
      if !AnyShown(titles[..n], lists) && ListOf(lists, t) != [] {
        assert TableRows(form, titles, lists)[0] == HeaderRow(t);
      }
    }
  }

  // ---------------------------------------------------------------------------
  // The section
  // ---------------------------------------------------------------------------

  /**
   * What the Skills section appends to the document: nothing (no section)
   * for missing or empty skills, else the negative space and, when some
   * group has skills, the tabular with its rows joined by newlines. The
   * program writes the `AsWritten` form.
   */
  function SkillsSection(form: RowForm, data: Option<seq<Category>>): Option<seq<string>> {
    if data.None? || data.value == [] then None
    else
      var o := SortLists(Organize(data.value));
      var rows := TableRows(form, CategoryOrder(o), o.lists);
      Some([SectionSpace] + (if rows == [] then [] else [TabularBegin, Join(rows, "\n"), TabularEnd]))
  }

  /** `add_skills_section_updated`: organise, sort each list, then build the table. */
  method AddSkillsSection(form: RowForm, data: Option<seq<Category>>) returns (appended: Option<seq<string>>)
    ensures appended == SkillsSection(form, data)
  {
    if data.None? || data.value == [] {
      return None;
    }
    var organized := OrganizeSkills(data.value);
    OrganizeValid(data.value);
    var sorted := SortEachList(organized);
    var rows := BuildTable(form, SortBy(sorted.order, TitleKey), sorted.lists);
    assert sorted == SortLists(Organize(data.value));
    var doc := [SectionSpace];
    if rows != [] {
      doc := doc + [TabularBegin, Join(rows, "\n"), TabularEnd];
    } else {
      assert doc == [SectionSpace] + [];
    }
    appended := Some(doc);
  }

  /** Sorting a list keeps it empty or non-empty. */
  lemma SortKeepsEmpty(o: Organized, t: string)
    ensures ListOf(SortLists(o).lists, t) == [] <==> ListOf(o.lists, t) == []
  {
    if t in o.lists {
      SortByCorrect(o.lists[t], EntryKey);
    }
  }

  /** A group has skills after sorting exactly when it had skills before. */
  lemma ShownAfterSort(o: Organized)
    requires Valid(o)
    ensures AnyShown(CategoryOrder(SortLists(o)), SortLists(o).lists) <==> exists t :: t in o.lists && o.lists[t] != []
  {
    var s := SortLists(o);
    var order := CategoryOrder(s);
    CategoryOrderKeys(s);
    if exists t :: t in o.lists && o.lists[t] != [] {
      var t :| t in o.lists && o.lists[t] != [];
      SortKeepsEmpty(o, t);
      assert t in order;
      var i :| 0 <= i < |order| && order[i] == t;
      assert ListOf(s.lists, order[i]) != [];
    }
    if AnyShown(order, s.lists) {
      var i :| 0 <= i < |order| && ListOf(s.lists, order[i]) != [];
      var t := order[i];
      SortKeepsEmpty(o, t);
      assert t in o.lists && o.lists[t] != [];
    }
  }

  /** After grouping, sorting and ordering, the table has rows exactly when some category kept a skill. */
  lemma TableNonEmpty(form: RowForm, cats: seq<Category>)
    ensures var s := SortLists(Organize(cats));
      TableRows(form, CategoryOrder(s), s.lists) != [] <==> exists t :: t in Organize(cats).lists && Organize(cats).lists[t] != []
  {
    var o := Organize(cats);
    var s := SortLists(o);
    OrganizeValid(cats);
    ShownAfterSort(o);
    TableStartsWithHeader(form, CategoryOrder(s), s.lists);
  }

  /**
   * The section is left out exactly for missing or empty skills; when it
   * is there, the tabular follows the space exactly when some category
   * kept a skill.
   */
  lemma SkillsSectionShape(form: RowForm, data: Option<seq<Category>>)
    ensures SkillsSection(form, data).None? <==> data.None? || data.value == []
    ensures SkillsSection(form, data).Some? ==>
      var o := Organize(data.value);
      SkillsSection(form, data).value[0] == SectionSpace
      && (|SkillsSection(form, data).value| == 4 <==> exists t :: t in o.lists && o.lists[t] != [])
      && (|SkillsSection(form, data).value| == 1 <==> forall t :: t in o.lists ==> o.lists[t] == [])
  {
    if data.Some? && data.value != [] {
      TableNonEmpty(form, data.value);
    }
  }

  // ---------------------------------------------------------------------------
  // The row break
  // ---------------------------------------------------------------------------

  /** As written, a skill row ends with a space and one backslash, so not with the row break `\\`. */
  lemma SkillRowAsWrittenLacksBreak(e: Entry)
    ensures EndsWith(SkillRowAsWritten(e), " \\")
    ensures !EndsWith(SkillRowAsWritten(e), "\\\\")
  {
    var head := Escape(Str(e.name)) + " & " + RatingDotsAsWritten(e.rating, 5);
    EndsWithAppend(head, " \\");
    var r := SkillRowAsWritten(e);
    assert r[|r| - 2] == ' ';
  }

  /** Every skill row ends with the row break `\\`. */
  lemma SkillRowEndsWithBreak(e: Entry)
    ensures EndsWith(SkillRow(e), " \\\\")
  {
    EndsWithAppend(Escape(Str(e.name)) + " & " + RatingDots(e.rating, 5), " \\\\");
  }

  /**
   * Two tables agree row for row, except where one has a skill row as
   * written and the other the corrected row of the same skill.
   */
  ghost predicate RowsAlign(a: seq<string>, b: seq<string>) {
    |a| == |b| &&
    forall k :: 0 <= k < |a| ==> a[k] == b[k] || exists e :: a[k] == SkillRowAsWritten(e) && b[k] == SkillRow(e)
  }

  lemma AlignAppend(a1: seq<string>, b1: seq<string>, a2: seq<string>, b2: seq<string>)
    requires RowsAlign(a1, b1) && RowsAlign(a2, b2)
    ensures RowsAlign(a1 + a2, b1 + b2)
  {
    var a, b := a1 + a2, b1 + b2;
    forall k | 0 <= k < |a|
      ensures a[k] == b[k] || exists e :: a[k] == SkillRowAsWritten(e) && b[k] == SkillRow(e)
    {
      if k < |a1| {
        assert a[k] == a1[k] && b[k] == b1[k];
      } else {
        assert a[k] == a2[k - |a1|] && b[k] == b2[k - |a1|];
      }
    }
  }

  lemma {:induction false} EntryRowsAlign(entries: seq<Entry>)
    ensures RowsAlign(EachIn(AsWritten, entries, EntryRows), EachIn(Corrected, entries, EntryRows))
    decreases |entries|
  {
    if entries != [] {
      var n := |entries| - 1;
      EntryRowsAlign(entries[..n]);
      var e := entries[n];
      if Truthy(e.name) {
        assert RowsAlign([SkillRowAsWritten(e)], [SkillRow(e)]);
      }
      AlignAppend(EachIn(AsWritten, entries[..n], EntryRows), EachIn(Corrected, entries[..n], EntryRows),
        EntryRows(AsWritten, e), EntryRows(Corrected, e));
    }
  }

  /**
   * The table the program writes and the corrected table have the same
   * rows in the same places; they differ only in skill rows, where the
   * program's row of a skill stands for the corrected row of that skill.
   */
  lemma {:induction false} TableFormsAlign(titles: seq<string>, lists: map<string, seq<Entry>>)
    ensures RowsAlign(TableRows(AsWritten, titles, lists), TableRows(Corrected, titles, lists))
    decreases |titles|
  {
    if titles != [] {
      var n := |titles| - 1;
      TableFormsAlign(titles[..n], lists);
      var t := titles[n];
      var entries := ListOf(lists, t);
      if entries != [] {
        var head := (if AnyShown(titles[..n], lists) then [CategoryGap] else []) + [HeaderRow(t), TitleGap];
        assert RowsAlign(head, head);
        EntryRowsAlign(entries);
        AlignAppend(head, head, EachIn(AsWritten, entries, EntryRows), EachIn(Corrected, entries, EntryRows));
        AlignAppend(TableRows(AsWritten, titles[..n], lists), TableRows(Corrected, titles[..n], lists),
          GroupRows(AsWritten, t, entries, AnyShown(titles[..n], lists)),
          GroupRows(Corrected, t, entries, AnyShown(titles[..n], lists)));
      } else {
        assert TableRows(AsWritten, titles, lists) == TableRows(AsWritten, titles[..n], lists) + [];
        assert TableRows(Corrected, titles, lists) == TableRows(Corrected, titles[..n], lists) + [];
      }
    }
  }

  /** Every header row ends with the closing braces and the row break `\\`. */
  lemma HeaderRowEndsWithBreak(title: string)
    ensures EndsWith(HeaderRow(title), HeaderClose)
  {
    EndsWithAppend(HeaderOpen + Escape(title), HeaderClose);
  }
}

# Resume viewer and generators — a Dafny model

This project models the text-layout layer of Joseph Mattiello's interactive
resume, together with the string logic of the two Python generators that
build the same resume in other formats.

- **Terminal viewer** (`main.swift`). `wrapText` is a greedy word wrapper.
  `createSkillBar` draws a bar of filled and empty cells. The five
  `format*Tab` functions build each page as one string, and
  `getCurrentTabContent` picks a page by tab index. The key loop of
  `runResumeTUI` keeps a tab index and a scroll position and changes them on
  TAB, LEFT, RIGHT, UP, DOWN and `q`/`Q`. `displayContent` splits the page
  into display lines and gives each visible line a style.
- **Attributed formatters** (the `ResumeTUI+*.swift` extensions). Each builds
  its page as a list of `(text, attribute)` segments:
  - Overview: contact fields, wrapped profile, education, and the top five
    languages and SDKs with stars;
  - Experience: jobs with their period and wrapped responsibilities;
  - Skills: two columns from width 80, one column below it;
  - Projects and Open Source: name, technologies, wrapped description and the
    first link.
- **`generate_resume.py`**:
  - `sanitize_latex_text`, the eight-entry LaTeX escaper;
  - `get_rating_dots`;
  - the `http` prefixing of LinkedIn, GitHub and website values;
  - the "Present" default for a job's end date;
  - `add_skills_section_updated`: grouping by category, the in-place sort of
    each group, sorted category titles, and the table rows.
- **`generate_readme.py`**:
  - e-mail and phone obfuscation and the profile handle of contact links;
  - the skills section: headings, the sorted table with star strings, plain
    lists;
  - the job date range;
  - the personal-project links line.

Modules, one per file:

| module | models |
|---|---|
| `Wrappers` | `Option` |
| `Strings` | sequence and string helpers |
| `PyValues` | Python values, `str`, truth, `str.title`, `str.strip` |
| `ResumeModels` | the resume records |
| `SkillOrder` | the stable sort used by every skill ordering |
| `TextWrap` | `wrapText` |
| `Segments` | the segment and terminal types |
| `OverviewTab`, `ExperienceTab`, `SkillsTab`, `ProjectsTab` | the attributed formatters |
| `PlainTabs` | the string formatters, `createSkillBar`, `getCurrentTabContent` |
| `Viewer` | navigation, the line classifier, a `ResumeViewer` class |
| `LatexText`, `LatexSkills` | `generate_resume.py` |
| `ReadmeGen` | `generate_readme.py` |

**Method and function pairs.** Where the source builds its result step by
step, the model has a method with the same loop. That method is proved equal
to a function that states the result as a whole, such as
`ExperienceTab.FormatExperienceTab` and `ExperienceSegments`. The lemmas
state their properties about that function.

**Terminal layer.** `Segments.Terminal` is a datatype parameter holding:

- the window width, or `None` when there is no content window;
- the attributes `A_BOLD` and `A_UNDERLINE`;
- `COLOR_PAIR`;
- `drawProgressBar`.

Attributes are `bv32` values combined with `|`.

## Model

| member | source | states |
|---|---|---|
| Segments.TitleRule | Sources/joseph.mattiello.resume/ResumeTUI+Skills.swift:27 | the rule under a title of `n` rule characters is `n + 2` characters long, its two leading spaces included |
| Segments.EntryLayoutOf | Sources/joseph.mattiello.resume/ResumeTUI+Experience.swift:9-29 | entries wrap at `getmaxx - 10` and end with a rule of `getmaxx - 14` dots (`contentWidth - 4`) |
| TextWrap.Words | Sources/joseph.mattiello.resume/main.swift:469 | the words of `text.split(separator: " ")` are non-empty and hold no space |
| TextWrap.Lines | Sources/joseph.mattiello.resume/main.swift:471-485 | every output line holds at least one word |
| TextWrap.RenderLines | Sources/joseph.mattiello.resume/main.swift:467-480 | each output line is the indentation followed by its words joined by single spaces |
| TextWrap.PackGreedy | Sources/joseph.mattiello.resume/main.swift:471-481 | the word-by-word packing is greedy: a line of two or more words fits, and a line is closed only when the next word does not fit |
| TextWrap.FlushedThenLine | Sources/joseph.mattiello.resume/main.swift:478-485 | the flushed lines followed by the current line are the rendered lines joined by newlines |
| TextWrap.WrapText | Sources/joseph.mattiello.resume/main.swift:464-488 | the loop over the words returns exactly the greedy wrapping `Wrap(text, indent, width)` |
| TextWrap.LinesKeepWords | Sources/joseph.mattiello.resume/main.swift:469-481 | the lines hold every word of the input, in order, and nothing else |
| TextWrap.LinesFit | Sources/joseph.mattiello.resume/main.swift:475-476 | every line holding two or more words is at most `width` long; a lone long word is never split |
| TextWrap.LinesGreedy | Sources/joseph.mattiello.resume/main.swift:475-479 | every line but the last was closed only because the next line's first word would have made it longer than `width` |
| TextWrap.SplitRendered | Sources/joseph.mattiello.resume/main.swift:476-484 | rendered lines joined by newlines split on spaces and newlines back into all their words |
| TextWrap.WrapKeepsWords | Sources/joseph.mattiello.resume/main.swift:469-487 | splitting the output on spaces and newlines gives the input's words in order |
| TextWrap.WrapEmptyIffNoWords | Sources/joseph.mattiello.resume/main.swift:465-487 | the output is empty exactly when the input has no words |
| TextWrap.WrapNoTrailingNewline | Sources/joseph.mattiello.resume/main.swift:478-487 | a non-empty output never ends with a newline when the input has none |
| TextWrap.WrapEndsWithLastWord | Sources/joseph.mattiello.resume/main.swift:483-487 | a non-empty output ends with the last character of the last word |
| PlainTabs.FilledCells | Sources/joseph.mattiello.resume/main.swift:452-453 | the filled count is `rating * maxWidth / 5` truncated: at most `maxWidth`, and full exactly at rating 5 |
| PlainTabs.FilledCellsMonotone | Sources/joseph.mattiello.resume/main.swift:452 | a higher rating never fills fewer cells |
| PlainTabs.CreateSkillBar | Sources/joseph.mattiello.resume/main.swift:451-461 | two spaces, the name padded or cut to 20, ` [`, `maxWidth` cells (filled first, then empty), `] (r/5)` |
| PlainTabs.SortedDrawable | Sources/joseph.mattiello.resume/main.swift:343-354 | sorting keeps every rating within 0..5, so every sorted skill can be drawn as a bar |
| PlainTabs.AppendOptField | Sources/joseph.mattiello.resume/main.swift:255-269 | a contact line is appended only for a present field |
| PlainTabs.AppendNonEmptyField | Sources/joseph.mattiello.resume/main.swift:307-309 | a line is appended only for a present, non-empty value |
| PlainTabs.AppendContact | Sources/joseph.mattiello.resume/main.swift:255-269 | the contact lines of present fields, in the order email, phone, website, LinkedIn, GitHub |
| PlainTabs.AppendEducation | Sources/joseph.mattiello.resume/main.swift:280-292 | degree, institution with the year in brackets when known, details when present, then a blank line |
| PlainTabs.FormatOverviewTab | Sources/joseph.mattiello.resume/main.swift:248-295 | the page built by appends equals the Overview text: name, contacts, wrapped profile, education entries in order |
| PlainTabs.InstitutionInEntry | Sources/joseph.mattiello.resume/main.swift:282-286 | an education entry's text holds its institution line, with the year in brackets when known |
| PlainTabs.EducationListed | Sources/joseph.mattiello.resume/main.swift:280-292 | every education entry's institution is on the Overview page, followed by ` (year)` exactly when the year is known |
| PlainTabs.AppendMedia | Sources/joseph.mattiello.resume/main.swift:312-318 | the media block appears only for a present, non-empty list, with one bullet line per URL |
| PlainTabs.AppendResponsibilities | Sources/joseph.mattiello.resume/main.swift:322-325 | one wrapped bullet line per responsibility, in order |
| PlainTabs.AppendJob | Sources/joseph.mattiello.resume/main.swift:303-327 | a job's title line, period, links, responsibilities and closing rule |
| PlainTabs.FormatExperienceTab | Sources/joseph.mattiello.resume/main.swift:298-331 | the page built by appends equals the Experience text, jobs in input order |
| PlainTabs.PresentWithoutEndDate | Sources/joseph.mattiello.resume/main.swift:304 | a job without an end date shows "Present" in its period line |
| PlainTabs.PeriodLineInJob | Sources/joseph.mattiello.resume/main.swift:303-304 | the period line is the second line of the job's text |
| PlainTabs.CurrentJobShowsPresent | Sources/joseph.mattiello.resume/main.swift:302-304 | every job without an end date appears on the Experience page as running to "Present" |
| PlainTabs.AppendSkillBars | Sources/joseph.mattiello.resume/main.swift:351-354 | one 30-cell bar per skill, each on its own line, in list order |
| PlainTabs.FormatSkillsTab | Sources/joseph.mattiello.resume/main.swift:334-377 | the page built by appends equals the Skills text |
| PlainTabs.AppendDescription | Sources/joseph.mattiello.resume/main.swift:388-391 | a present description is wrapped with indent 2 at width 80 |
| PlainTabs.AppendTechnologies | Sources/joseph.mattiello.resume/main.swift:394-397 | technologies appear only when present and non-empty, joined by ", " |
| PlainTabs.AppendLinks | Sources/joseph.mattiello.resume/main.swift:405-410 | every link, one bullet line each, when the list is present and non-empty |
| PlainTabs.FormatProjectsTab | Sources/joseph.mattiello.resume/main.swift:380-416 | the page built by appends equals the Projects text, projects in input order |
| PlainTabs.AppendContributionLinks | Sources/joseph.mattiello.resume/main.swift:433-440 | every link, marked as a pull request or not, when the list is present and non-empty |
| PlainTabs.FormatContributionsTab | Sources/joseph.mattiello.resume/main.swift:419-446 | the page built by appends equals the Open Source text, contributions in input order |
| PlainTabs.PullUrlMarked | Sources/joseph.mattiello.resume/main.swift:437-438 | a link whose URL holds "/pull/" counts as a pull request and gets the pull-request glyph |
| PlainTabs.TabContent | Sources/joseph.mattiello.resume/main.swift:234-243 | the page is non-empty exactly for tabs 0 to 4, and every page starts with a newline |
| Viewer.DisplayLines | Sources/joseph.mattiello.resume/main.swift:135 | the split keeping empty pieces gives at least one line, and no line holds a newline |
| Viewer.DisplayLinesJoin | Sources/joseph.mattiello.resume/main.swift:135 | joining the display lines with newlines gives the page back |
| Viewer.CountedAtMostDisplayed | Sources/joseph.mattiello.resume/main.swift:209 | the DOWN key's count, which drops empty pieces, never exceeds the display line count |
| Viewer.CountedBelowDisplayed | Sources/joseph.mattiello.resume/main.swift:209 | for a page starting with a newline, the DOWN key's count is strictly below the display line count |
| Viewer.ScrollLineCount | Sources/joseph.mattiello.resume/main.swift:135 | the corrected scroll limit counts every display line, at least one |
| Viewer.MaxScroll | Sources/joseph.mattiello.resume/main.swift:211 | the farthest DOWN can scroll is `max(0, linesCount - height)` |
| Viewer.EveryLineReachable | Sources/joseph.mattiello.resume/main.swift:209-211 | with the limit taken from the display lines, every line is visible at some reachable scroll position |
| Viewer.LastLineHiddenAsWritten | Sources/joseph.mattiello.resume/main.swift:209-211 | as written, a page taller than the window whose count drops a line never shows its last line |
| Viewer.PagesLoseLastLineAsWritten | Sources/joseph.mattiello.resume/main.swift:208-243 | as written, every page taller than the window loses its last line |
| Viewer.TabKeysCycle | Sources/joseph.mattiello.resume/main.swift:194-226 | TAB and RIGHT go to the next tab and LEFT to the previous, cyclically in 0..4; a tab change scrolls to the top; other keys keep the tab |
| Viewer.ScrollKeys | Sources/joseph.mattiello.resume/main.swift:200-214 | UP moves up exactly when not at the top; DOWN moves down exactly when below the limit, otherwise nothing changes |
| Viewer.QuitKeys | Sources/joseph.mattiello.resume/main.swift:192-193 | the loop stops exactly on 'q' or 'Q' |
| Viewer.NextStateInBounds | Sources/joseph.mattiello.resume/main.swift:191-229 | every key keeps the tab in 0..4 and the scroll between 0 and the limit of the page shown |
| Viewer.NextStateBounded | Sources/joseph.mattiello.resume/main.swift:191-229 | one key keeps the scroll within the page's limit, or resets it to 0 on a tab change |
| Viewer.ReplayInBounds | Sources/joseph.mattiello.resume/main.swift:188-230 | a whole session stays in bounds, whatever keys are pressed |
| Viewer.QuitStops | Sources/joseph.mattiello.resume/main.swift:188-193 | a session ending with 'q' has stopped, whatever came before |
| Viewer.TabKeysInverse | Sources/joseph.mattiello.resume/main.swift:196-223 | LEFT undoes RIGHT, RIGHT undoes LEFT, and five TABs come back to the start |
| Viewer.SectionTitlesAreHeadings | Sources/joseph.mattiello.resume/main.swift:146-157 | every section title is drawn in the heading style |
| Viewer.BulletLinesHighlighted | Sources/joseph.mattiello.resume/main.swift:146-167 | a line with a bullet is never drawn plain or as a skill bar |
| Viewer.SkillBarsHighlighted | Sources/joseph.mattiello.resume/main.swift:168-172 | the bar of a skill rated 1 to 5 is never drawn plain |
| Viewer.Window | Sources/joseph.mattiello.resume/main.swift:137-175 | at most `height` lines are drawn: the lines from the scroll position on, each with its classified style |
| Viewer.ResumeViewer.constructor | Sources/joseph.mattiello.resume/main.swift:75-76 | the viewer opens on the Overview tab, scrolled to the top, running |
| Viewer.ResumeViewer.Screen | Sources/joseph.mattiello.resume/main.swift:114-180 | the drawn window never has more lines than the window height |
| Viewer.ResumeViewer.HandleKey | Sources/joseph.mattiello.resume/main.swift:189-229 | one key updates tab, scroll and running flag as the navigation function says, keeping them in bounds |
| Viewer.ResumeViewer.Run | Sources/joseph.mattiello.resume/main.swift:188-230 | the loop replays the keys until one quits; the state is the replay's, and it stops early only on quit |
| OverviewTab.Stars | Sources/joseph.mattiello.resume/ResumeTUI+Overview.swift:62-71 | a star string is five glyphs long |
| OverviewTab.StarsShape | Sources/joseph.mattiello.resume/ResumeTUI+Overview.swift:62-71 | `rating` full stars, then `5 - rating` empty ones |
| OverviewTab.AppendLabeled | Sources/joseph.mattiello.resume/ResumeTUI+Overview.swift:15-33 | a caption and a highlighted value, appended only for a present field |
| OverviewTab.AppendPhone | Sources/joseph.mattiello.resume/ResumeTUI+Overview.swift:19-21 | the phone is one plain segment, only when present |
| OverviewTab.AppendContact | Sources/joseph.mattiello.resume/ResumeTUI+Overview.swift:15-33 | the contact segments, in the order email, phone, website, LinkedIn, GitHub |
| OverviewTab.AppendEducation | Sources/joseph.mattiello.resume/ResumeTUI+Overview.swift:46-50 | three segments per education entry, in order |
| OverviewTab.AppendTopSkills | Sources/joseph.mattiello.resume/ResumeTUI+Overview.swift:60-72 | two segments per top skill, in order |
| OverviewTab.AppendSummary | Sources/joseph.mattiello.resume/ResumeTUI+Overview.swift:37-40 | the summary heading, its rule, the wrapped profile and a blank line |
| OverviewTab.FormatOverviewTab | Sources/joseph.mattiello.resume/ResumeTUI+Overview.swift:6-76 | the segments built by appends equal the Overview page |
| OverviewTab.NameFirst | Sources/joseph.mattiello.resume/ResumeTUI+Overview.swift:11 | the first segment is the name, bold only |
| OverviewTab.ContactShown | Sources/joseph.mattiello.resume/ResumeTUI+Overview.swift:15-33 | only present fields give segments (two each, one for the phone); LinkedIn and GitHub carry their URL prefixes; the email caption appears exactly when there is an email |
| OverviewTab.NoEmailCaption | Sources/joseph.mattiello.resume/ResumeTUI+Overview.swift:19-33 | no segment after the email's is the email caption |
| OverviewTab.OverviewPrefix | Sources/joseph.mattiello.resume/ResumeTUI+Overview.swift:11-44 | the page begins with the segments up to the education heading |
| OverviewTab.ProfileWrapped | Sources/joseph.mattiello.resume/ResumeTUI+Overview.swift:9-39 | the profile segment, after the header, contacts and summary headings, is the profile wrapped with indent 2 at `getmaxx - 6` |
| OverviewTab.EducationCount | Sources/joseph.mattiello.resume/ResumeTUI+Overview.swift:46-50 | each education entry gives exactly three segments; a missing year shows "N/A" |
| OverviewTab.TopSkillCount | Sources/joseph.mattiello.resume/ResumeTUI+Overview.swift:60-63 | two segments per top skill |
| OverviewTab.TopSkillsAtEnd | Sources/joseph.mattiello.resume/ResumeTUI+Overview.swift:53-75 | the page ends with two top-skill lists of at most five skills, the SDK title between them, and a closing blank line |
| SkillOrder.LexLeTotal | Sources/joseph.mattiello.resume/ResumeTUI+Skills.swift:15 | the name order compares any two names |
| SkillOrder.LexLeTrans | Sources/joseph.mattiello.resume/ResumeTUI+Skills.swift:15 | the name order is transitive |
| SkillOrder.LexLeAntisym | Sources/joseph.mattiello.resume/ResumeTUI+Skills.swift:15 | the name order is antisymmetric |
| SkillOrder.KeyLeTotal | Sources/joseph.mattiello.resume/ResumeTUI+Skills.swift:15 | rating-then-name keys are totally ordered |
| SkillOrder.KeyLeTrans | Sources/joseph.mattiello.resume/ResumeTUI+Skills.swift:15 | the key order is transitive |
| SkillOrder.Insert | Sources/joseph.mattiello.resume/ResumeTUI+Skills.swift:14-17 | one insertion step of the sort adds exactly one element |
| SkillOrder.InsertSorted | Sources/joseph.mattiello.resume/ResumeTUI+Skills.swift:14-17 | insertion into a sorted list keeps it sorted and adds exactly the element |
| SkillOrder.SortBy | Sources/joseph.mattiello.resume/ResumeTUI+Skills.swift:14-17 | the sort keeps the list's length |
| SkillOrder.SortByCorrect | Sources/joseph.mattiello.resume/ResumeTUI+Skills.swift:14-17 | the sorted list is ordered by the key and is a permutation of the input |
| SkillOrder.SortSkillsOrdered | Sources/joseph.mattiello.resume/ResumeTUI+Skills.swift:14-17 | skills come out as a permutation of the input, rating descending, ties by name ascending |
| SkillOrder.TopFive | Sources/joseph.mattiello.resume/ResumeTUI+Overview.swift:58-67 | the top list holds `min(5, count)` skills |
| SkillOrder.TopFiveSelectsHighest | Sources/joseph.mattiello.resume/ResumeTUI+Overview.swift:58-67 | the top list is a sub-multiset of the input in non-increasing rating order, and no skill left out rates higher than one kept |
| SkillOrder.RatingPrefix | Sources/joseph.mattiello.resume/ResumeTUI+Overview.swift:58-67 | a prefix of a rating-sorted list holds its highest ratings, in order |
| SkillOrder.PrefixDominates | Sources/joseph.mattiello.resume/ResumeTUI+Overview.swift:58-67 | in a sorted list, each element of a prefix may precede each element after it |
| SkillsTab.ColumnsAsWritten | Sources/joseph.mattiello.resume/ResumeTUI+Skills.swift:31-33 | the column and name widths as written; a cell is then one character wider than its column |
| SkillsTab.ColumnsCorrected | Sources/joseph.mattiello.resume/ResumeTUI+Skills.swift:31-33 | the corrected name width: a cell is exactly one column wide |
| SkillsTab.ColumnsFor | Sources/joseph.mattiello.resume/ResumeTUI+Skills.swift:29-33 | from width 80 either variant leaves room for the column titles |
| SkillsTab.MaxRows | Sources/joseph.mattiello.resume/ResumeTUI+Skills.swift:58 | the row count is the larger of the two list lengths |
| SkillsTab.AppendRows | Sources/joseph.mattiello.resume/ResumeTUI+Skills.swift:58-96 | the loop appends rows 0 to `maxRows - 1`, in order |
| SkillsTab.BuildSide | Sources/joseph.mattiello.resume/ResumeTUI+Skills.swift:61-88 | one column of a row: the skill's three segments, or one blank cell once the list has ended |
| SkillsTab.AppendSingleEntries | Sources/joseph.mattiello.resume/ResumeTUI+Skills.swift:104-119 | three segments per skill, in list order |
| SkillsTab.FormatSkillsTab | Sources/joseph.mattiello.resume/ResumeTUI+Skills.swift:6-123 | the segments built by appends equal the Skills page of the given variant: `AsWritten` gives the name width of line 33 as the source draws it, `Corrected` the width that aligns the columns |
| SkillsTab.HeadShape | Sources/joseph.mattiello.resume/ResumeTUI+Skills.swift:26-27 | the title and a rule as wide as the window less one |
| SkillsTab.TwoColumnStart | Sources/joseph.mattiello.resume/ResumeTUI+Skills.swift:26-121 | the two-column page opens with the title, its rule and the column titles, and ends with a newline |
| SkillsTab.TitleRowWidth | Sources/joseph.mattiello.resume/ResumeTUI+Skills.swift:41-47 | the column-title row spans both titles and the gutter |
| SkillsTab.SingleColumnStart | Sources/joseph.mattiello.resume/ResumeTUI+Skills.swift:98-121 | the one-column page opens with the title, its rule and the languages title, and ends with a newline |
| SkillsTab.PageFrame | Sources/joseph.mattiello.resume/ResumeTUI+Skills.swift:26-122 | every page opens with the bold title and its rule and ends with a newline |
| SkillsTab.LayoutChoice | Sources/joseph.mattiello.resume/ResumeTUI+Skills.swift:20-29 | the one-column layout is used exactly when the window is narrower than 80 |
| SkillsTab.CellWidth | Sources/joseph.mattiello.resume/ResumeTUI+Skills.swift:67-71 | a skill cell is the name width plus 24 characters |
| SkillsTab.RowText | Sources/joseph.mattiello.resume/ResumeTUI+Skills.swift:91-95 | a row's text is padding, the language side, the gutter, the SDK side and a newline |
| SkillsTab.LeftSideWidth | Sources/joseph.mattiello.resume/ResumeTUI+Skills.swift:65-75 | the language side is a skill cell or one column of blanks |
| SkillsTab.PipeColumn | Sources/joseph.mattiello.resume/ResumeTUI+Skills.swift:21-93 | a row's '\|' comes right after the padding, the language side and four spaces |
| SkillsTab.ColumnsAligned | Sources/joseph.mattiello.resume/ResumeTUI+Skills.swift:31-95 | with the corrected name width, every row's '\|' is in the same column |
| SkillsTab.GutterShiftsAsWritten | Sources/joseph.mattiello.resume/ResumeTUI+Skills.swift:33-95 | with the name width as written, a row with a language has its '\|' one column right of a row without one |
| SkillsTab.RowInPlace | Sources/joseph.mattiello.resume/ResumeTUI+Skills.swift:60-96 | row `k` sits right after rows 0 to `k - 1` |
| SkillsTab.RowShape | Sources/joseph.mattiello.resume/ResumeTUI+Skills.swift:60-95 | a side shows the `i`th skill in three segments while its list lasts and one blank segment after |
| SkillsTab.SideColours | Sources/joseph.mattiello.resume/ResumeTUI+Skills.swift:69-87 | names and ratings are in colour pair 3 and bars in pair 5; a blank cell is `columnWidth` spaces |
| SkillsTab.SingleEntriesCount | Sources/joseph.mattiello.resume/ResumeTUI+Skills.swift:104-109 | three segments per skill in the one-column layout |
| SkillsTab.SingleColumnOrder | Sources/joseph.mattiello.resume/ResumeTUI+Skills.swift:100-120 | the one-column page has 8 segments plus 3 per skill: the languages heading third, the SDK heading right after the languages' entries |
| ExperienceTab.AppendResponsibilities | Sources/joseph.mattiello.resume/ResumeTUI+Experience.swift:21-27 | the responsibilities block, only when there are some |
| ExperienceTab.AppendJob | Sources/joseph.mattiello.resume/ResumeTUI+Experience.swift:15-29 | a job's title, period, responsibilities and closing rule |
| ExperienceTab.FormatExperienceTab | Sources/joseph.mattiello.resume/ResumeTUI+Experience.swift:6-33 | the segments built by appends equal the Experience page |
| ExperienceTab.ResponsibilityCount | Sources/joseph.mattiello.resume/ResumeTUI+Experience.swift:23-25 | one segment per responsibility |
| ExperienceTab.JobSegmentCount | Sources/joseph.mattiello.resume/ResumeTUI+Experience.swift:15-29 | a job gives 3 segments, plus `n + 2` when it has `n > 0` responsibilities |
| ExperienceTab.JobsSegmentCount | Sources/joseph.mattiello.resume/ResumeTUI+Experience.swift:14-30 | the jobs give the sum of their counts |
| ExperienceTab.ExperienceCount | Sources/joseph.mattiello.resume/ResumeTUI+Experience.swift:11-30 | with a window the page has 2 + Σ(3 + (n > 0 ? n + 2 : 0)) segments |
| ExperienceTab.JobsInOrder | Sources/joseph.mattiello.resume/ResumeTUI+Experience.swift:11-15 | the page opens with the bold title and the 30-character divider, and job `k`'s segments follow those of the jobs before it |
| ExperienceTab.JobInPlace | Sources/joseph.mattiello.resume/ResumeTUI+Experience.swift:14-30 | job `k`'s segments sit right after those of jobs 0 to `k - 1` |
| ExperienceTab.PeriodShowsEnd | Sources/joseph.mattiello.resume/ResumeTUI+Experience.swift:16-17 | the period line shows "Present" without an end date, and the end date otherwise |
| ExperienceTab.ResponsibilitiesShown | Sources/joseph.mattiello.resume/ResumeTUI+Experience.swift:15-29 | title, period, then, only when there are responsibilities, the header, one wrapped segment each in order and a blank line; the rule last |
| ExperienceTab.ResponsibilityItems | Sources/joseph.mattiello.resume/ResumeTUI+Experience.swift:9-24 | responsibility `i` is `"- " + resp` wrapped with indent 6 at `getmaxx - 10`, then a newline |
| ProjectsTab.AppendTechnologies | Sources/joseph.mattiello.resume/ResumeTUI+Projects.swift:19-21 | the technologies segment, only for a present, non-empty list |
| ProjectsTab.AppendDescription | Sources/joseph.mattiello.resume/ResumeTUI+Projects.swift:22-24 | the wrapped description, only when present |
| ProjectsTab.AppendFirstLink | Sources/joseph.mattiello.resume/ResumeTUI+Projects.swift:26-30 | the caption and URL of the first link, only when there is one |
| ProjectsTab.AppendEntry | Sources/joseph.mattiello.resume/ResumeTUI+Projects.swift:15-31 | an entry's name, technologies, description, link and rule |
| ProjectsTab.FormatEntries | Sources/joseph.mattiello.resume/ResumeTUI+Projects.swift:6-34 | the segments built by appends equal the page of entries |
| ProjectsTab.FormatProjectsTab | Sources/joseph.mattiello.resume/ResumeTUI+Projects.swift:6-34 | the Projects page is the entries page of the personal projects |
| ProjectsTab.FormatContributionsTab | Sources/joseph.mattiello.resume/ResumeTUI+Contributions.swift:6-31 | the Open Source page is the entries page of the contributions |
| ProjectsTab.EntryFrame | Sources/joseph.mattiello.resume/ResumeTUI+Projects.swift:15-31 | an entry opens with its bold name, ends with the rule, and has one segment per present part (two for a link) |
| ProjectsTab.EntryTechnologies | Sources/joseph.mattiello.resume/ResumeTUI+Projects.swift:19-21 | the technologies line follows the name and joins the list with ", " |
| ProjectsTab.EntryDescription | Sources/joseph.mattiello.resume/ResumeTUI+Projects.swift:22-24 | a present description is wrapped with indent 4 and sits just before the link, or before the rule |
| ProjectsTab.EntryLink | Sources/joseph.mattiello.resume/ResumeTUI+Projects.swift:26-30 | the link shows as "    URL: " and the first URL underlined in pair 4, just before the rule |
| ProjectsTab.OnlyFirstLink | Sources/joseph.mattiello.resume/ResumeTUI+Contributions.swift:23-27 | dropping every link but the first leaves the entry unchanged |
| ProjectsTab.EntriesSegmentCount | Sources/joseph.mattiello.resume/ResumeTUI+Contributions.swift:14-29 | the entries give the sum of their segment counts |
| ProjectsTab.EntriesInOrder | Sources/joseph.mattiello.resume/ResumeTUI+Contributions.swift:11-15 | the page opens with the bold title and the divider, and entry `k`'s segments follow those of the entries before it |
| ProjectsTab.PageHead | Sources/joseph.mattiello.resume/ResumeTUI+Projects.swift:11-14 | the page is the title, the divider and the entries' segments |
| ProjectsTab.EntryInPlace | Sources/joseph.mattiello.resume/ResumeTUI+Projects.swift:14-32 | entry `k`'s segments sit right after those of entries 0 to `k - 1` |
| PyValues.AsInt | generate_resume.py:33 | a value passes `isinstance(value, int)` exactly when it is an int or a bool |
| PyValues.StrOfString | generate_resume.py:9-10 | `str` keeps a string, and "" comes only from a falsy value or one whose text is empty |
| PyValues.TitleFrom | generate_resume.py:430 | title-casing keeps the text's length |
| PyValues.Title | generate_resume.py:430 | `str.title` keeps the text's length |
| PyValues.TitleFromShape | generate_resume.py:430 | each word's first cased letter is upper-cased and the rest lower-cased; other characters are kept |
| PyValues.TitleIdempotent | generate_resume.py:430 | title-casing twice is title-casing once |
| PyValues.StripEndShape | generate_resume.py:46 | stripping the end keeps a prefix and drops only trailing white space |
| PyValues.StripStartShape | generate_resume.py:46 | stripping the start keeps a suffix and drops only leading white space |
| PyValues.StripShape | generate_resume.py:46 | `strip` keeps a slice with no white space at either end, and everything cut away is white space |
| PyValues.StripUnchanged | generate_resume.py:46 | a text with no white space at either end is its own strip |
| LatexText.KeyIndex | generate_resume.py:14-22 | the position of a character among the replacement keys |
| LatexText.ReplacementSafe | generate_resume.py:12-27 | no key occurs in the replacement of a later key, so no pass rewrites what an earlier pass introduced |
| LatexText.EscapeFirstStep | generate_resume.py:26-27 | pass `j` turns one character's output after `j` passes into its output after `j + 1` |
| LatexText.SanitizeStep | generate_resume.py:26-27 | one `str.replace` pass turns the text after `j` passes into the text after `j + 1` |
| LatexText.AllPassesDone | generate_resume.py:26-28 | after all passes, every character has been escaped on its own |
| LatexText.SanitizeLatexText | generate_resume.py:8-28 | the replacement loop over `str(value)` gives each character's escape, in order |
| LatexText.EscapeGuards | generate_resume.py:14-22 | in the output every & % $ # _ comes right after a backslash, and no `~` is left |
| LatexText.EscapeClean | generate_resume.py:23-28 | a text without the eight special characters comes back unchanged; backslash and `^` are kept |
| LatexText.DotIconShape | generate_resume.py:37-44 | an icon opens with `{\color{<colour>`, and ends with a brace and the spacing |
| LatexText.DotFacts | generate_resume.py:43-44 | the solid and regular icons differ at the front and both end with a brace and the spacing |
| LatexText.LeadingCopiesPair | generate_resume.py:43-46 | `n` solid icons followed by regular ones read back as exactly `n` leading solid icons |
| LatexText.DotsWithShape | generate_resume.py:33-46 | an invalid rating gives ""; a valid one gives `rating` solid icons then `total - rating` regular ones |
| LatexText.DotsWithCount | generate_resume.py:43-46 | the number of leading solid icons is the rating |
| LatexText.RatingDotsShape | generate_resume.py:31-46 | `get_rating_dots`: "" for a non-int or out-of-range rating, else exactly `rating` solid circles then `total - rating` regular ones |
| LatexText.DotsTail | generate_resume.py:40-46 | as written, the dots of a valid rating end with `}` and the spacing |
| LatexText.TrailingSpacingAsWritten | generate_resume.py:46 | as written, `strip` leaves the `\hspace` after the last dot |
| LatexText.RatingDotsEndWithCircle | generate_resume.py:46 | with the trailing spacing dropped, the dots end with the last circle's closing brace |
| LatexText.LinkUrl | generate_resume.py:90-103 | the link address always starts with "http"; a value without it gets the prefix, one with it is kept |
| LatexText.LinkUrlIdempotent | generate_resume.py:92-103 | prefixing an address already built changes nothing |
| LatexText.HandleOrAddress | generate_resume.py:90-104 | a bare handle and the full address give the same link and the same link text |
| LatexText.EndDateDefault | generate_resume.py:140 | a missing or falsy end date renders as "Present"; a non-empty string renders escaped |
| LatexSkills.CategoryTitleShape | generate_resume.py:430-433 | "sdks_apis" becomes "SDKs & APIs"; any other title keeps the key's length, with spaces for underscores and no underscore left |
| LatexSkills.KeptEntriesNamed | generate_resume.py:445-453 | only dictionaries with a truthy name are kept |
| LatexSkills.OrganizeValid | generate_resume.py:425-438 | the grouping lists each title once, and exactly its keys |
| LatexSkills.OrganizeTitles | generate_resume.py:428-443 | a title is present exactly when some category has it, even one whose value is not a list |
| LatexSkills.OrganizeLists | generate_resume.py:428-453 | a title's list is the kept items of every category with that title, in dictionary order |
| LatexSkills.OrganizeNamed | generate_resume.py:445-453 | every grouped entry has a truthy name |
| LatexSkills.OrganizeSkills | generate_resume.py:425-453 | the two nested loops build exactly the grouping |
| LatexSkills.AddItems | generate_resume.py:445-453 | the inner loop appends the kept items to its title's list and changes nothing else |
| LatexSkills.SortListsSpec | generate_resume.py:455-458 | sorting keeps the titles, and leaves each list ordered by the key and a permutation of itself |
| LatexSkills.SortEachList | generate_resume.py:456-458 | the loop sorting each list in place gives exactly the sorted grouping |
| LatexSkills.CategoryOrderKeys | generate_resume.py:465 | the listed titles are exactly the grouping's titles |
| LatexSkills.CategoryOrderAscending | generate_resume.py:465 | the titles come in strictly ascending order |
| LatexSkills.AnyShown | generate_resume.py:468-493 | `first_category_processed` holds exactly when some earlier title has skills |
| LatexSkills.TableRowsStep | generate_resume.py:469-493 | one more title adds its group, with a gap before it unless it is the first shown |
| LatexSkills.BuildTable | generate_resume.py:467-493 | the loop with its `first_category_processed` flag builds exactly the table rows of the given row form (`AsWritten`: line 491's rows; `Corrected`: rows with the row break) |
| LatexSkills.AppendGroup | generate_resume.py:474-491 | a shown group: the gap unless first, the header, the small gap, a row of the given form per named skill |
| LatexSkills.EntryRowsCount | generate_resume.py:485-491 | each skill gives exactly one row, in order, and row `k` is skill `k`'s row in the given form (line 491's row for `AsWritten`) |
| LatexSkills.TableStartsWithHeader | generate_resume.py:468-493 | the table has rows exactly when some group has skills, and then it opens with a header, never a gap |
| LatexSkills.AddSkillsSection | generate_resume.py:420-499 | the method builds the section of the given row form: group, sort, order, table; the `AsWritten` form is what the program appends, single backslash and trailing dot spacing included |
| LatexSkills.SortKeepsEmpty | generate_resume.py:458-471 | sorting keeps a list empty or non-empty |
| LatexSkills.ShownAfterSort | generate_resume.py:455-472 | a group has skills after sorting exactly when it had some before |
| LatexSkills.TableFormsAlign | generate_resume.py:467-493 | the program's table and the corrected table have the same length and the same rows, except that a skill's row as written stands where the corrected table has that skill's row with the break |
| LatexSkills.TableNonEmpty | generate_resume.py:425-495 | the table has rows exactly when some category kept a skill |
| LatexSkills.SkillsSectionShape | generate_resume.py:420-499 | nothing for missing or empty skills; otherwise the space, then the tabular exactly when some category kept a skill |
| LatexSkills.SkillRowAsWrittenLacksBreak | generate_resume.py:491 | as written, a skill row ends with a space and one backslash, not with the row break `\\` |
| LatexSkills.SkillRowEndsWithBreak | generate_resume.py:491 | the corrected skill row ends with the row break `\\` |
| LatexSkills.HeaderRowEndsWithBreak | generate_resume.py:481 | a header row ends with the closing braces and the row break |
| ReadmeGen.TwoPasses | generate_readme.py:44 | the two `replace` calls equal a per-character rewrite |
| ReadmeGen.EmailPerChar | generate_readme.py:43-44 | obfuscation rewrites the address character by character |
| ReadmeGen.EmailHidden | generate_readme.py:44 | no '@' and no '.' is left |
| ReadmeGen.EmailKeptWhenPlain | generate_readme.py:44 | an address with neither character is shown unchanged |
| ReadmeGen.PhoneWithCountryCode | generate_readme.py:50-57 | a number with '+' and a space shows exactly its country code, then " xxx-xxx-xxxx" |
| ReadmeGen.CodeBeforeSpace | generate_readme.py:52-54 | the text before the first space of such a number starts with '+' and holds no space |
| ReadmeGen.PhoneWithoutSpace | generate_readme.py:58-61 | a number with '+' and no space keeps its first three characters, then "-xxx-xxxx" |
| ReadmeGen.PhoneLocal | generate_readme.py:62-65 | any other number shows "xxx-xxx-" and at most its last four characters |
| ReadmeGen.HandleOfProfile | generate_readme.py:69-71 | the display text of `base/handle` is the handle |
| ReadmeGen.ContactLinesCount | generate_readme.py:41-73 | one line per given field, and a given email makes the first line its label and the hidden address |
| ReadmeGen.EmailLineHidden | generate_readme.py:41-45 | the email line comes first, and no '@' or '.' follows its label |
| ReadmeGen.ContactBlock | generate_readme.py:39-73 | the block is a newline, then the given fields' lines joined by newlines |
| ReadmeGen.RangeEnds | generate_readme.py:94 | the range `*a - b*` starts with `*a - ` and ends with ` - b*` |
| ReadmeGen.DateRangeEnd | generate_readme.py:94 | "Present" only when the key is absent; a present key, even null, is written with `str` |
| ReadmeGen.GroupHeadingShape | generate_readme.py:108 | a heading is `"\n### "` and the title, as long as the category, with no underscore |
| ReadmeGen.Stars | generate_readme.py:122 | `rating` stars, and none for a rating of zero or less |
| ReadmeGen.SkillsSection | generate_readme.py:104-130 | the line-by-line appends give exactly the skills lines |
| ReadmeGen.GroupLinesCount | generate_readme.py:108-130 | a table has its heading, two header lines and a row per entry; a list has one line per entry |
| ReadmeGen.TableOrdered | generate_readme.py:113 | a table lists a permutation of the skills, rating descending (missing is 0), ties by name |
| ReadmeGen.TableRows | generate_readme.py:116-123 | row `k` shows the `k`th sorted skill and as many stars as its rating |
| ReadmeGen.ProjectLinks | generate_readme.py:174-183 | building the `links` list and the line gives exactly the links line |
| ReadmeGen.LinkPartsOrder | generate_readme.py:174-180 | the App Store link first when given, then each listed link in order |
| ReadmeGen.LinksLineOmitted | generate_readme.py:182-183 | the line is left out exactly when there is no App Store link and no other link |
| ReadmeGen.AppStoreFirst | generate_readme.py:175-183 | a given App Store link opens the line |

## Left out

- I/O is not modelled: ncurses window set-up and drawing calls, `getch`, `initscr` and the process exit. The window width and height are parameters. Attributes, colour pairs and `drawProgressBar` are opaque fields of `Segments.Terminal`.
- `YAMLParser.swift` (file probing, Yams decoding, persistence) is not part of this model. `ResumeModels.LoadResult` stands for its outcome.
- `ResumeTUI+MatrixBootScreen.swift` is not part of this model: a random animation.
- `generate_html_resume.py`, `Package.swift`, `Sources/main.swift` and `shim.h` are not part of this model.
- PyLaTeX document construction and PDF output in `generate_resume.py` are left out. So are the other sections of that script (contact block layout, profile, experience, projects, education, contributions) beyond the pieces named above.
- `generate_readme.py` pieces left out:
  - the fixed install text, name, profile, experience headings, education and open-source sections;
  - the footer with `datetime.now()`;
  - writing the file.
- Characters are Unicode scalar values. Swift counts grapheme clusters and `padding(toLength:)` counts UTF-16 units, so widths can differ for emoji and combining marks.
- `str.title`, `str.isspace` and the name comparisons handle ASCII letters and Latin-1 white space only.
- Integers are unbounded. The Swift `Int32` conversions of widths and attributes are not modelled, and neither is `Int` overflow.
- PlainTabs.FilledCells: the source computes the filled count with `Double`. The model uses the exact integer `rating * maxWidth / 5`, which agrees for ratings in 0..5 and small widths.
- Sorting ties:
  - The source's Swift sorts are not stable and its Python sorts are. The model uses one stable insertion sort everywhere, so equal keys keep their input order.
  - SkillOrder.TopFiveSelectsHighest states nothing about the order of equal ratings, which the source leaves unspecified.
- Both Python sorts, and the title-case sort of category names, are modelled on values. The model does not capture in-place list mutation or aliasing.
- OverviewTab.Stars: the star count is clamped to 0..5 so the function is total. The page is only drawn when every top skill rates 0..5, where the clamp is the identity. Swift traps outside that range.
- Swift traps (a negative repeat count or padding length) become preconditions (`Drawable`, `RuleFits`, `RatingsDrawable`) rather than modelled crashes.
- `PyValues.PyOther` keeps only the text `str` gives a value and its truth value. Lists and dictionaries inside skill data are reduced to what the code reads of them.
- ReadmeGen.ContactBlock: contact values are optional strings. The script calls `replace`, `startswith` and `split` on whatever the YAML holds, so a value such as an unquoted number raises an error there; non-string contact values and that error are not modelled.
- ReadmeGen.SkillsSection: the source's sort raises on a table entry without a name or with a non-integer rating. The model requires the entries of a table to be named skills (`Sortable`) instead of modelling the exception.
- ReadmeGen.ContactLinesCount: it states the number of contact lines and the first line, not the position of each later line.
- OverviewTab.ProfileWrapped: it states the profile segment's position within `UpToEducation`. `OverviewPrefix` carries that over to the whole page.
- SkillsTab.ColumnsAligned and SkillsTab.GutterShiftsAsWritten: they take the widths as a relation on the cell style, the relation that `ColumnsCorrected` and `ColumnsAsWritten` ensure. They are not stated over the page directly.
- Viewer.ResumeViewer.HandleKey:
  - The model redraws nothing. `Screen` states what `displayContent` would draw for the current state.
  - The DOWN key uses the corrected line count (see Findings).
- Keys other than the six handled ones change nothing and are not read from a terminal. `Run` takes them as a sequence.

## Findings

| source | as written | input that shows it | evidently intended | confidence | as-written member | corrected member |
|---|---|---|---|---|---|---|
| Sources/joseph.mattiello.resume/main.swift:209-211 | DOWN limits scrolling by `split(separator: "\n").count`, which drops empty lines, while the display splits keeping them | any page taller than the window; each page starts with "\n", so at least one empty piece is dropped and the last display line is never shown | the limit counts the display lines, so every line can be scrolled into view | not executed | Viewer.LastLineHiddenAsWritten, Viewer.PagesLoseLastLineAsWritten | Viewer.ScrollLineCount, Viewer.EveryLineReachable |
| generate_resume.py:491 | the f-string `" \\"` holds one backslash, so a skill row ends with ` \` | any skill row, e.g. name "Swift", rating 5 | each row ends with the LaTeX row break `\\`, like the header rows at line 481 | not executed | LatexSkills.SkillRowAsWrittenLacksBreak | LatexSkills.SkillRowEndsWithBreak |
| Sources/joseph.mattiello.resume/ResumeTUI+Skills.swift:33 | the name width subtracts one space, but a cell holds two (after the name and after the bar), so a cell is one column plus one character | width 80, two languages and one SDK: row 0's '\|' is one column right of row 1's | `columnWidth - 15 - 7 - 2`, so that cells and blank cells are one column wide and the gutters line up | not executed | SkillsTab.ColumnsAsWritten, SkillsTab.GutterShiftsAsWritten | SkillsTab.ColumnsCorrected, SkillsTab.ColumnsAligned |
| generate_resume.py:46 | `strip()` removes white space only, so the trailing `\hspace{0.1em}` after the last dot stays | any valid rating with 5 dots, e.g. rating 3 | the comment says the strip removes the trailing spacing: the dots end with the last circle | not executed | LatexText.TrailingSpacingAsWritten | LatexText.RatingDotsEndWithCircle |

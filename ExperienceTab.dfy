/**
 * `ResumeTUI.formatExperienceTab`: the Experience page as attributed
 * segments. Every job gives its title line, its period line, its
 * responsibilities (when it has any) and a closing rule, in input order.
 */
module ExperienceTab {
  import opened Wrappers
  import opened Strings
  import opened ResumeModels
  import opened TextWrap
  import opened Segments

  function Title(t: Terminal): Segment {
    Segment("\n  WORK EXPERIENCE\n", t.bold | t.colorPair(3))
  }

  /** `"  {title} at {company}\n"`, bold. */
  function JobTitle(lay: EntryLayout, job: Experience): Segment {
    Segment("  " + job.title + " at " + job.company + "\n", lay.term.bold | lay.term.colorPair(3))
  }

  /** `"    {start} - {end or Present} | {location}\n"`. */
  function JobPeriod(lay: EntryLayout, job: Experience): Segment {
    Segment("    " + job.startDate + " - " + job.endDate.GetOr("Present") + " | " + job.location + "\n",
      lay.term.colorPair(3))
  }

  function ResponsibilitiesHeader(lay: EntryLayout): Segment {
    Segment("    Key Responsibilities:\n", lay.term.bold | lay.term.colorPair(3))
  }

  /** One responsibility, wrapped at the layout's width with a hanging indent of 6. */
  function Responsibility(lay: EntryLayout, resp: string): seq<Segment> {
    [Segment(Wrap("- " + resp, 6, lay.wrapWidth) + "\n", lay.term.colorPair(3))]
  }

  function Responsibilities(lay: EntryLayout, resps: seq<string>): seq<Segment> {
    if resps == [] then []
    else [ResponsibilitiesHeader(lay)] + EachIn(lay, resps, Responsibility) + [Segment("\n", lay.term.colorPair(3))]
  }

  function JobSegments(lay: EntryLayout, job: Experience): seq<Segment> {
    [JobTitle(lay, job)] + [JobPeriod(lay, job)] + Responsibilities(lay, job.responsibilities) + [EntryRule(lay)]
  }

  /** What the page needs to be drawn without a trap: room for the closing rules. */
  predicate Drawable(resume: Resume, t: Terminal) {
    t.windowWidth.Some? ==> RuleFits(t.windowWidth.value, |resume.experience|)
  }

  function ExperienceSegments(resume: Resume, t: Terminal): seq<Segment>
    requires Drawable(resume, t)
  {
    match t.windowWidth
    case None => []
    case Some(w) => [Title(t)] + [Divider(t)] + EachIn(EntryLayoutOf(t, w), resume.experience, JobSegments)
  }

  // ---------------------------------------------------------------------------
  // The formatter
  // ---------------------------------------------------------------------------

  method AppendResponsibilities(content0: seq<Segment>, lay: EntryLayout, resps: seq<string>)
    returns (content: seq<Segment>)
    ensures content == content0 + Responsibilities(lay, resps)
  {
    content := content0;
    if resps != [] {
      content := content + [ResponsibilitiesHeader(lay)];
      var i := 0;
      while i < |resps|
        invariant 0 <= i <= |resps|
        invariant content == content0 + [ResponsibilitiesHeader(lay)] + EachIn(lay, resps[..i], Responsibility)
      {
        EachInStep(content0 + [ResponsibilitiesHeader(lay)], lay, resps, i, Responsibility);
        var wrapped := WrapText("- " + resps[i], 6, lay.wrapWidth);
        content := content + [Segment(wrapped + "\n", lay.term.colorPair(3))];
        i := i + 1;
      }
      assert resps[..i] == resps;
      AppendAssoc(content0, [ResponsibilitiesHeader(lay)], EachIn(lay, resps, Responsibility));
      AppendAssoc(content0, [ResponsibilitiesHeader(lay)] + EachIn(lay, resps, Responsibility),
        [Segment("\n", lay.term.colorPair(3))]);
      content := content + [Segment("\n", lay.term.colorPair(3))];
    }
  }

  method AppendJob(content0: seq<Segment>, lay: EntryLayout, job: Experience) returns (content: seq<Segment>)
    ensures content == content0 + JobSegments(lay, job)
  {
    content := content0 + [JobTitle(lay, job)];
    var period := job.startDate + " - " + job.endDate.GetOr("Present");
    assert "    " + period == "    " + job.startDate + " - " + job.endDate.GetOr("Present") by {
      AppendAssoc("    ", job.startDate, " - ");
      AppendAssoc("    ", job.startDate + " - ", job.endDate.GetOr("Present"));
    }
    content := content + [Segment("    " + period + " | " + job.location + "\n", lay.term.colorPair(3))];
    content := AppendResponsibilities(content, lay, job.responsibilities);
    content := content + [EntryRule(lay)];
    ghost var resps := Responsibilities(lay, job.responsibilities);
    AppendAssoc(content0, [JobTitle(lay, job)], [JobPeriod(lay, job)]);
    AppendAssoc(content0, [JobTitle(lay, job)] + [JobPeriod(lay, job)], resps);
    AppendAssoc(content0, [JobTitle(lay, job)] + [JobPeriod(lay, job)] + resps, [EntryRule(lay)]);
  }

  /** Builds the page segment by segment, as the viewer does. */
  method FormatExperienceTab(resume: Resume, t: Terminal) returns (content: seq<Segment>)
    requires Drawable(resume, t)
    ensures content == ExperienceSegments(resume, t)
  {
    if t.windowWidth.None? {
      return [];
    }
    var lay := EntryLayoutOf(t, t.windowWidth.value);
    var head := [Title(t)] + [Divider(t)];
    content := head;
    var i := 0;
    while i < |resume.experience|
      invariant 0 <= i <= |resume.experience|
      invariant content == head + EachIn(lay, resume.experience[..i], JobSegments)
    {
      EachInStep(head, lay, resume.experience, i, JobSegments);
      content := AppendJob(content, lay, resume.experience[i]);
      i := i + 1;
    }
    assert resume.experience[..i] == resume.experience;
  }

  // ---------------------------------------------------------------------------
  // Properties
  // ---------------------------------------------------------------------------

  /** The number of segments a job gives: title, period, rule, and header, items and blank line when it has responsibilities. */
  function JobCount(job: Experience): nat {
    3 + if |job.responsibilities| > 0 then |job.responsibilities| + 2 else 0
  }

  function JobsCount(jobs: seq<Experience>): nat {
    if jobs == [] then 0 else JobsCount(jobs[..|jobs| - 1]) + JobCount(jobs[|jobs| - 1])
  }

  lemma {:induction false} ResponsibilityCount(lay: EntryLayout, resps: seq<string>)
    ensures |EachIn(lay, resps, Responsibility)| == |resps|
    decreases |resps|
  {
    if resps != [] {
      ResponsibilityCount(lay, resps[..|resps| - 1]);
    }
  }

  lemma JobSegmentCount(lay: EntryLayout, job: Experience)
    ensures |JobSegments(lay, job)| == JobCount(job)
  {
    ResponsibilityCount(lay, job.responsibilities);
  }

  lemma {:induction false} JobsSegmentCount(lay: EntryLayout, jobs: seq<Experience>)
    ensures |EachIn(lay, jobs, JobSegments)| == JobsCount(jobs)
    decreases |jobs|
  {
    if jobs != [] {
      JobsSegmentCount(lay, jobs[..|jobs| - 1]);
      JobSegmentCount(lay, jobs[|jobs| - 1]);
    }
  }

  /** With a window the page has 2 + Σ (3 + (n > 0 ? n + 2 : 0)) segments, n a job's responsibility count. */
  lemma ExperienceCount(resume: Resume, t: Terminal)
    requires Drawable(resume, t) && t.windowWidth.Some?
    ensures |ExperienceSegments(resume, t)| == 2 + JobsCount(resume.experience)
  {
    JobsSegmentCount(EntryLayoutOf(t, t.windowWidth.value), resume.experience);
  }

  /**
   * The page opens with its bold title and the divider, and job `k`'s
   * segments follow those of the jobs before it: jobs appear in input order.
   */
  lemma JobsInOrder(resume: Resume, t: Terminal, k: nat)
    requires Drawable(resume, t) && t.windowWidth.Some? && k < |resume.experience|
    ensures var r := ExperienceSegments(resume, t);
      var at := 2 + JobsCount(resume.experience[..k]);
      var job := resume.experience[k];
      var lay := EntryLayoutOf(t, t.windowWidth.value);
      r[0].text == "\n  WORK EXPERIENCE\n" && r[0].attr == t.bold | t.colorPair(3) &&
      r[1].text == "  " + Repeat('─', 30) + "\n\n" &&
      at + JobCount(job) <= |r| && r[at..at + JobCount(job)] == JobSegments(lay, job)
  {
    JobInPlace(resume, t, k);
  }

  lemma JobInPlace(resume: Resume, t: Terminal, k: nat)
    requires Drawable(resume, t) && t.windowWidth.Some? && k < |resume.experience|
    ensures var r := ExperienceSegments(resume, t);
      var at := 2 + JobsCount(resume.experience[..k]);
      var job := resume.experience[k];
      at + JobCount(job) <= |r| && r[at..at + JobCount(job)] == JobSegments(EntryLayoutOf(t, t.windowWidth.value), job)
  {
    var lay := EntryLayoutOf(t, t.windowWidth.value);
    var jobs := resume.experience;
    EachInAt(lay, jobs, k, JobSegments);
    JobsSegmentCount(lay, jobs[..k]);
    JobSegmentCount(lay, jobs[k]);
    var head := [Title(t)] + [Divider(t)];
    var before := EachIn(lay, jobs[..k], JobSegments);
    var after := EachIn(lay, jobs[k + 1..], JobSegments);
    AppendAssoc(head, before + JobSegments(lay, jobs[k]), after);
    AppendAssoc(head, before, JobSegments(lay, jobs[k]));
    assert ExperienceSegments(resume, t) == head + before + JobSegments(lay, jobs[k]) + after;
  }

  /** A job without an end date runs to "Present"; one with an end date shows it. */
  lemma PeriodShowsEnd(lay: EntryLayout, job: Experience)
    ensures job.endDate.None? ==>
      JobPeriod(lay, job).text == "    " + job.startDate + " - Present | " + job.location + "\n"
    ensures job.endDate.Some? ==>
      JobPeriod(lay, job).text == "    " + job.startDate + " - " + job.endDate.value + " | " + job.location + "\n"
  {
    if job.endDate.None? {
      var a := "    " + job.startDate;
      var b := job.location + "\n";
      assert " - " + "Present" + " | " == " - Present | ";
      calc {
        JobPeriod(lay, job).text;
        a + " - " + "Present" + " | " + b;
        { AppendAssoc(a, " - ", "Present"); AppendAssoc(a, " - " + "Present", " | "); }
        a + (" - " + "Present" + " | ") + b;
      }
    }
  }

  /**
   * A job's responsibilities appear only when it has some: then a bold
   * header, one wrapped segment per responsibility in order, and a blank line.
   */
  lemma ResponsibilitiesShown(lay: EntryLayout, job: Experience)
    ensures var r := JobSegments(lay, job);
      var n := |job.responsibilities|;
      |r| == JobCount(job) && r[0] == JobTitle(lay, job) && r[1] == JobPeriod(lay, job) && r[|r| - 1] == EntryRule(lay) &&
      (n == 0 ==> |r| == 3) &&
      (n > 0 ==> (r[2] == ResponsibilitiesHeader(lay) && r[n + 3].text == "\n" &&
        forall i :: 0 <= i < n ==>
          r[3 + i].text == Wrap("- " + job.responsibilities[i], 6, lay.wrapWidth) + "\n"))
  {
    JobSegmentCount(lay, job);
    var resps := job.responsibilities;
    if resps != [] {
      var items := EachIn(lay, resps, Responsibility);
      ResponsibilityItems(lay, resps);
      var blank := Segment("\n", lay.term.colorPair(3));
      assert Responsibilities(lay, resps) == [ResponsibilitiesHeader(lay)] + items + [blank];
      Framed(JobTitle(lay, job), JobPeriod(lay, job), ResponsibilitiesHeader(lay), items, blank, EntryRule(lay));
    }
  }

  /** Where the pieces of a job with responsibilities sit among its segments. */
  lemma Framed<U>(a: U, b: U, c: U, items: seq<U>, d: U, e: U)
    ensures var r := [a] + [b] + ([c] + items + [d]) + [e];
      |r| == |items| + 5 && r[0] == a && r[1] == b && r[2] == c && r[|items| + 3] == d && r[|r| - 1] == e &&
      forall i :: 0 <= i < |items| ==> r[3 + i] == items[i]
  {
  }

  lemma {:induction false} ResponsibilityItems(lay: EntryLayout, resps: seq<string>)
    ensures |EachIn(lay, resps, Responsibility)| == |resps|
    ensures forall i :: 0 <= i < |resps| ==>
      EachIn(lay, resps, Responsibility)[i].text == Wrap("- " + resps[i], 6, lay.wrapWidth) + "\n"
    decreases |resps|
  {
    if resps != [] {
      var n := |resps|;
      var init := resps[..n - 1];
      var front := EachIn(lay, init, Responsibility);
      ResponsibilityItems(lay, init);
      assert EachIn(lay, resps, Responsibility) == front + Responsibility(lay, resps[n - 1]);
      forall i | 0 <= i < n
        ensures EachIn(lay, resps, Responsibility)[i].text == Wrap("- " + resps[i], 6, lay.wrapWidth) + "\n"
      {
        if i < n - 1 {
          assert init[i] == resps[i];
          IndexInFront(front, Responsibility(lay, resps[n - 1]), i);
        } else {
          IndexInBack(front, Responsibility(lay, resps[n - 1]), 0);
        }
      }
    }
  }
}

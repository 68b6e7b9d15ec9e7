/** `process_courses` (app.py:69-153): log in, list the courses, visit them three at a time, and
    return every record gathered; any failure outside a single course ends the run. */
module Orchestrator {
  import opened Outcomes
  import opened TableExtractor
  import opened CourseLocator
  import opened CourseWorker
  import opened Batching
  import opened Text

  /** The status line the run last wrote (app.py:82, 96, 123, 145). */
  datatype Phase = LoggingIn | ListingCourses | ProcessingCourses | Finalizing

  /** What the portal does before any course is visited: whether logging in succeeds, and the
      "View" links of the course list, or a failure to open or read that list. */
  datatype Session = Session(loginSucceeds: bool, links: Read<seq<Link>>)

  /** What a run leaves behind: the records returned as the result table, the errors shown, the
      progress shown after each batch, and the last status line. */
  datatype RunOutcome = RunOutcome(records: seq<DateRecord>, errors: seq<Report>,
                                   progress: seq<Progress>, phase: Phase)

  /** What a run yields. */
  function RunSpec(session: Session, portal: Portal): (r: RunOutcome)
    ensures r.phase != Finalizing <==> FatalError in r.errors
  {
    if !session.loginSucceeds then RunOutcome([], [FatalError], [], LoggingIn)
    else if session.links.Fail? then RunOutcome([], [FatalError], [], ListingCourses)
    else
      var listing := Listed(session.links.value);
      var visits := Visits(listing.courses, portal);
      NoFatalErrorInVisits(listing.courses, portal);
      NoFatalErrorInListing(session.links.value);
      RunOutcome(visits.records, listing.errors + visits.errors, BatchProgress(|listing.courses|), Finalizing)
  }

  /** The state `process_courses` builds up: the shared result list, the errors shown, the
      progress shown and the status line. */
  class Run {
    var records: seq<DateRecord>
    var errors: seq<Report>
    var progress: seq<Progress>
    var phase: Phase

    constructor()
      ensures records == [] && errors == [] && progress == [] && phase == LoggingIn
    {
      records, errors, progress, phase := [], [], [], LoggingIn;
    }

    /** `process_single_course`: visits one course and appends its records to the shared list. */
    method ProcessSingleCourse(course: CourseRef, portal: Portal)
      modifies this
      ensures records == old(records) + Visit(course, portal(course.url)).records
      ensures errors == old(errors) + Visit(course, portal(course.url)).errors
      ensures progress == old(progress) && phase == old(phase)
    {
      var page := portal(course.url);
      match page {
        case NavigationFails =>
          errors := errors + [NavigationError(course.url)];
        case Loaded(table) =>
          var dates, reported := ExtractCourseDates(table);
          errors := errors + reported;
          AppendRecords(course.name, dates);
        case _ =>
          errors := errors + [CourseError(course.name)];
      }
    }

    /** Appends one record per extracted entry, tagged with the course name. */
    method AppendRecords(name: string, dates: seq<DateRow>)
      modifies this
      ensures records == old(records) + Tag(name, dates)
      ensures errors == old(errors) && progress == old(progress) && phase == old(phase)
    {
      var k := 0;
      while k < |dates|
        invariant k <= |dates|
        invariant records == old(records) + Tag(name, dates[..k])
        invariant errors == old(errors) && progress == old(progress) && phase == old(phase)
      {
        var d := dates[k];
        records := records + [DateRecord(name, d.date, d.location, d.language)];
        TagOneMore(name, dates, k);
        k := k + 1;
      }
      assert dates[..k] == dates;
    }

    /** `asyncio.gather` over one batch, modelled as visiting its courses in order. */
    method ProcessBatch(batch: seq<CourseRef>, portal: Portal)
      modifies this
      ensures records == old(records) + Visits(batch, portal).records
      ensures errors == old(errors) + Visits(batch, portal).errors
      ensures progress == old(progress) && phase == old(phase)
    {
      var k := 0;
      while k < |batch|
        invariant k <= |batch|
        invariant records == old(records) + Visits(batch[..k], portal).records
        invariant errors == old(errors) + Visits(batch[..k], portal).errors
        invariant progress == old(progress) && phase == old(phase)
      {
        ghost var prev := Visits(batch[..k], portal);
        ProcessSingleCourse(batch[k], portal);
        ghost var o := Visit(batch[k], portal(batch[k].url));
        VisitsOneMore(batch, k, portal);
        Associative(old(records), prev.records, o.records);
        Associative(old(errors), prev.errors, o.errors);
        k := k + 1;
      }
      assert batch[..k] == batch;
    }

    /** The batch loop: awaits the courses three at a time, in order, and records the progress
        after each batch. The batches it awaits are returned as `awaited`. */
    method ProcessBatches(courses: seq<CourseRef>, portal: Portal) returns (ghost awaited: seq<seq<CourseRef>>)
      modifies this
      ensures awaited == Batches(courses)
      ensures records == old(records) + Visits(courses, portal).records
      ensures errors == old(errors) + Visits(courses, portal).errors
      ensures progress == old(progress) + BatchProgress(|courses|)
      ensures phase == old(phase)
    {
      var total := |courses|;
      awaited := [];
      var i := 0;
      while i < NumBatches(total)
        invariant i <= NumBatches(total)
        invariant awaited == Batches(courses)[..i]
        invariant records == old(records) + Visits(courses[..Min(i * 3, total)], portal).records
        invariant errors == old(errors) + Visits(courses[..Min(i * 3, total)], portal).errors
        invariant progress == old(progress) + BatchProgress(total)[..i]
        invariant phase == old(phase)
      {
        BatchStep(courses, i);
        VisitsSplit(courses, i * 3, Min(i * 3 + 3, total), portal);
        ghost var done := Visits(courses[..i * 3], portal);
        ghost var shown := BatchProgress(total)[..i];
        var batch := RunBatch(courses, i, portal);
        Associative(old(records), done.records, Visits(batch, portal).records);
        Associative(old(errors), done.errors, Visits(batch, portal).errors);
        Associative(old(progress), shown, [ProgressAt(total, i)]);
        awaited := awaited + [batch];
        i := i + 1;
      }
      assert courses[..Min(i * 3, total)] == courses;
      assert Batches(courses)[..i] == Batches(courses);
      assert BatchProgress(total)[..i] == BatchProgress(total);
    }

    /** One pass of the batch loop: batch `i` is the slice `tasks[3i : 3i + 3]`; it is awaited and
        the progress after it is shown. */
    method RunBatch(courses: seq<CourseRef>, i: nat, portal: Portal) returns (batch: seq<CourseRef>)
      requires i < NumBatches(|courses|)
      modifies this
      ensures batch == Batches(courses)[i]
      ensures records == old(records) + Visits(batch, portal).records
      ensures errors == old(errors) + Visits(batch, portal).errors
      ensures progress == old(progress) + [ProgressAt(|courses|, i)]
      ensures phase == old(phase)
    {
      var total := |courses|;
      BatchAt(courses, i);
      var start := i * 3;
      var end := Min(start + 3, total);
      batch := courses[start..end];
      assert Progress(start + |batch|, start + 1, end, total) == ProgressAt(total, i);
      ProcessBatch(batch, portal);
      progress := progress + [Progress(start + |batch|, start + 1, end, total)];
    }
  }

  /** The whole run: the login and the course list are inputs; the links are read, the courses
      visited in batches, and the phase advanced; a failure before the courses are listed is fatal. */
  method ProcessCourses(session: Session, portal: Portal) returns (outcome: RunOutcome)
    ensures outcome == RunSpec(session, portal)
  {
    var run := new Run();
    if !session.loginSucceeds {
      run.errors := run.errors + [FatalError];
      return RunOutcome(run.records, run.errors, run.progress, run.phase);
    }
    run.phase := ListingCourses;
    if session.links.Fail? {
      run.errors := run.errors + [FatalError];
      return RunOutcome(run.records, run.errors, run.progress, run.phase);
    }
    var courses, listErrors := ListCourses(session.links.value);
    assert run.errors + listErrors == listErrors;
    run.errors := run.errors + listErrors;
    run.phase := ProcessingCourses;
    var _ := run.ProcessBatches(courses, portal);
    run.phase := Finalizing;
    outcome := RunOutcome(run.records, run.errors, run.progress, run.phase);
  }

  /** One more batch: where it starts and ends, and how the awaited batches and the shown
      progress grow with it. */
  lemma BatchStep(courses: seq<CourseRef>, i: nat)
    requires i < NumBatches(|courses|)
    ensures var start, end := i * 3, Min(i * 3 + 3, |courses|);
            start < |courses| && Min(start, |courses|) == start &&
            end == Min((i + 1) * 3, |courses|) &&
            Batches(courses)[i] == courses[start..end] &&
            Batches(courses)[..i + 1] == Batches(courses)[..i] + [Batches(courses)[i]] &&
            BatchProgress(|courses|)[..i + 1] == BatchProgress(|courses|)[..i] + [ProgressAt(|courses|, i)]
  {
    BatchAt(courses, i);
    TakeOneMore(Batches(courses), i);
    TakeOneMore(BatchProgress(|courses|), i);
  }

  /** Visiting a prefix of the courses is visiting its two halves in turn. */
  lemma VisitsSplit(courses: seq<CourseRef>, start: nat, end: nat, portal: Portal)
    requires start <= end <= |courses|
    ensures Visits(courses[..end], portal) ==
              CourseWorker.Join(Visits(courses[..start], portal), Visits(courses[start..end], portal))
  {
    assert courses[..end] == courses[..start] + courses[start..end];
    VisitsAppend(courses[..start], courses[start..end], portal);
  }

  lemma Associative<T>(a: seq<T>, b: seq<T>, c: seq<T>)
    ensures a + b + c == a + (b + c)
  {
  }

  lemma TagOneMore(name: string, dates: seq<DateRow>, k: nat)
    requires k < |dates|
    ensures Tag(name, dates[..k + 1]) ==
            Tag(name, dates[..k]) + [DateRecord(name, dates[k].date, dates[k].location, dates[k].language)]
  {
    assert dates[..k + 1][..k] == dates[..k];
  }

  lemma VisitsOneMore(courses: seq<CourseRef>, k: nat, portal: Portal)
    requires k < |courses|
    ensures Visits(courses[..k + 1], portal) == CourseWorker.Join(Visits(courses[..k], portal), Visit(courses[k], portal(courses[k].url)))
  {
    var os := VisitEach(courses[..k + 1], VisitOn(portal));
    assert os[..k] == VisitEach(courses[..k], VisitOn(portal));
  }

  /** Courses report only per-course errors. */
  lemma NoFatalErrorInVisits(courses: seq<CourseRef>, portal: Portal)
    ensures FatalError !in Visits(courses, portal).errors
  {
    var os := VisitEach(courses, VisitOn(portal));
    if FatalError in Gather(os).errors {
      var j := ErrorFrom(os, FatalError);
      var page := portal(courses[j].url);
      if page.Loaded? {
        ExtractedReportsOnlyTableErrors(page.table);
      }
    }
  }

  /** Reading the links reports only link errors. */
  lemma NoFatalErrorInListing(links: seq<Link>)
    ensures FatalError !in Listed(links).errors
  {
    ListedReportsOnlyLinkErrors(links);
  }

  /** The index of the first course whose `browser.new_context()` raises, or the number of
      courses when none does. */
  function FirstContextFailure(courses: seq<CourseRef>, portal: Portal): (j: nat)
    ensures j <= |courses|
    ensures forall k :: 0 <= k < j ==> !portal(courses[k].url).ContextFails?
    ensures j < |courses| ==> portal(courses[j].url).ContextFails?
  {
    if courses == [] || portal(courses[0].url).ContextFails? then 0
    else 1 + FirstContextFailure(courses[1..], portal)
  }

  /** The course visits as written (app.py:35, 64-67): when `new_context()` raises, the handler
      reports the course, but `context` is unbound in the `finally` clause, so `context.close()`
      raises out of the task, `gather` re-raises it and the run's handler reports a fatal error.
      Nothing after that course is visited. */
  function VisitsAsWritten(courses: seq<CourseRef>, portal: Portal): (o: Outcome)
    ensures FatalError in o.errors <==> FirstContextFailure(courses, portal) < |courses|
  {
    var j := FirstContextFailure(courses, portal);
    var done := Visits(courses[..j], portal);
    NoFatalErrorInVisits(courses[..j], portal);
    if j == |courses| then done
    else Outcome(done.records, done.errors + [CourseError(courses[j].name), FatalError])
  }

  /** A course dates table with a header and one session. */
  function OneSessionTable(date: string, location: string, language: string): TablePage {
    Table([Row(Ok([])), Row(Ok([Ok(date), Ok(location), Ok(language)]))])
  }

  /** The portal of the counterexample: the course at "https://d" has the given dates page, and no
      other course can get a browser context. */
  function ContextFailurePortal(table: TablePage): Portal {
    (url: string) => if url == "https://d" then Loaded(table) else ContextFails
  }

  /** The session row emits the stripped texts of its cells. */
  lemma SessionRowEmitted(date: string, location: string, language: string)
    requires !IsBlank(date)
    ensures RowStepOf(Row(Ok([Ok(date), Ok(location), Ok(language)]))) ==
            Emit(DateRow(Strip(date), Strip(location), Strip(language)))
  {
    var cells := [Ok(date), Ok(location), Ok(language)];
    ReadableRowStep(cells, []);
    assert cells + [] == cells;
  }

  /** The session of the table is extracted, as the stripped texts of its cells. */
  lemma OneSessionExtracted(date: string, location: string, language: string)
    requires !IsBlank(date)
    ensures DateRow(Strip(date), Strip(location), Strip(language)) in
              Extracted(OneSessionTable(date, location, language)).dates
  {
    var rows := OneSessionTable(date, location, language).rows;
    SessionRowEmitted(date, location, language);
    EmittedRowExtracted(rows[0], rows[1], DateRow(Strip(date), Strip(location), Strip(language)));
    assert [rows[0], rows[1]] == rows;
  }

  /** A record of the last course visited is a record of the run. */
  lemma LastCourseRecordKept(courses: seq<CourseRef>, portal: Portal, r: DateRecord)
    requires courses != []
    requires r in Visit(courses[|courses| - 1], portal(courses[|courses| - 1].url)).records
    ensures r in Visits(courses, portal).records
  {
    VisitsOneMore(courses, |courses| - 1, portal);
    assert courses[..|courses|] == courses;
  }

  /** As written, a first course that cannot get a browser context ends the run before any
      record is appended. */
  lemma FirstContextFailureEndsRun(courses: seq<CourseRef>, portal: Portal)
    requires courses != [] && portal(courses[0].url).ContextFails?
    ensures VisitsAsWritten(courses, portal).records == []
    ensures FatalError in VisitsAsWritten(courses, portal).errors
  {
    assert FirstContextFailure(courses, portal) == 0;
    assert VisitEach(courses[..0], VisitOn(portal)) == [];
  }

  /** Where the counterexample portal fails and where it loads. */
  lemma ContextFailurePortalPages(table: TablePage)
    ensures ContextFailurePortal(table)("https://a") == ContextFails
    ensures ContextFailurePortal(table)("https://d") == Loaded(table)
  {
    assert "https://a"[8] != "https://d"[8];
  }

  /** Four courses, the first of which cannot get a browser context, and a fourth (in the second
      batch) whose table lists one session with a non-blank date: as written, that session is
      lost; the model keeps it. */
  lemma ContextFailureLosesLaterCourses(date: string, location: string, language: string)
    requires !IsBlank(date)
    ensures var courses := [CourseRef("A", "https://a"), CourseRef("B", "https://b"),
                            CourseRef("C", "https://c"), CourseRef("D", "https://d")];
            var portal := ContextFailurePortal(OneSessionTable(date, location, language));
            var r := DateRecord("D", Strip(date), Strip(location), Strip(language));
            r in Visits(courses, portal).records && r !in VisitsAsWritten(courses, portal).records
  {
    var courses := [CourseRef("A", "https://a"), CourseRef("B", "https://b"),
                    CourseRef("C", "https://c"), CourseRef("D", "https://d")];
    var table := OneSessionTable(date, location, language);
    var portal := ContextFailurePortal(table);
    var d := DateRow(Strip(date), Strip(location), Strip(language));
    ContextFailurePortalPages(table);
    OneSessionExtracted(date, location, language);
    var dates := Extracted(table).dates;
    var i :| 0 <= i < |dates| && dates[i] == d;
    LoadedCourseRecords(courses[3], table);
    LastCourseRecordKept(courses, portal, DateRecord("D", d.date, d.location, d.language));
    FirstContextFailureEndsRun(courses, portal);
  }
}

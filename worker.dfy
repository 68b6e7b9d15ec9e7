/** `process_single_course` (app.py:32-67): one course page is opened, filtered to partner 29 and
    its schedule extracted; every entry becomes a record tagged with the course name. */
module CourseWorker {
  import opened Outcomes
  import opened TableExtractor
  import opened CourseLocator
  import opened Text

  /** What the browser makes of a course's dates page: which step raised, or the schedule table
      that was there once the page had settled. */
  datatype CoursePage =
    | ContextFails     // `browser.new_context()` raised
    | PageFails        // `context.new_page()` raised
    | NavigationFails  // `goto` or the wait for the network to go idle raised
    | FilterFails      // selecting partner 29, or the wait after it, raised
    | Loaded(table: TablePage)

  /** The portal as the scraper sees it: the page found at each URL. */
  type Portal = string -> CoursePage

  /** One row of the result table: Course Name, Date, Location, Language. */
  datatype DateRecord = DateRecord(courseName: string, date: string, location: string, language: string)

  /** The records appended to the shared result list and the errors reported, in order. */
  datatype Outcome = Outcome(records: seq<DateRecord>, errors: seq<Report>)

  /** Each entry tagged with the course name, in order. */
  function Tag(name: string, dates: seq<DateRow>): (records: seq<DateRecord>)
    ensures |records| == |dates|
    ensures forall j :: 0 <= j < |dates| ==>
              records[j] == DateRecord(name, dates[j].date, dates[j].location, dates[j].language)
  {
    if dates == [] then []
    else
      var d := dates[|dates| - 1];
      Tag(name, dates[..|dates| - 1]) + [DateRecord(name, d.date, d.location, d.language)]
  }

  /** What one course contributes. */
  function Visit(course: CourseRef, page: CoursePage): (o: Outcome)
    ensures forall r :: r in o.records ==> r.courseName == course.name
    ensures !page.Loaded? ==> o.records == [] && |o.errors| == 1
  {
    match page
    case NavigationFails => Outcome([], [NavigationError(course.url)])
    case Loaded(table) =>
      var e := Extracted(table);
      Outcome(Tag(course.name, e.dates), e.errors)
    case _ => Outcome([], [CourseError(course.name)])
  }

  function Join(a: Outcome, b: Outcome): Outcome {
    Outcome(a.records + b.records, a.errors + b.errors)
  }

  /** Visiting a course on the portal, as a function of the course alone. */
  function VisitOn(portal: Portal): CourseRef -> Outcome {
    (c: CourseRef) => Visit(c, portal(c.url))
  }

  /** The outcome of every course, in list order. */
  function VisitEach(courses: seq<CourseRef>, visit: CourseRef -> Outcome): (os: seq<Outcome>)
    ensures |os| == |courses|
    ensures forall j :: 0 <= j < |courses| ==> os[j] == visit(courses[j])
  {
    seq(|courses|, j requires 0 <= j < |courses| => visit(courses[j]))
  }

  lemma VisitEachAppend(a: seq<CourseRef>, b: seq<CourseRef>, visit: CourseRef -> Outcome)
    ensures VisitEach(a + b, visit) == VisitEach(a, visit) + VisitEach(b, visit)
  {
  }

  /** Outcomes laid end to end. */
  function Gather(os: seq<Outcome>): (o: Outcome)
  {
    if os == [] then Outcome([], [])
    else Join(Gather(os[..|os| - 1]), os[|os| - 1])
  }

  /** What all courses contribute when each is visited in list order. */
  function Visits(courses: seq<CourseRef>, portal: Portal): Outcome {
    Gather(VisitEach(courses, VisitOn(portal)))
  }

  /** A course whose page loaded yields exactly one record per extracted entry, carrying the
      course's name and the entry's fields, in table order. */
  lemma LoadedCourseRecords(course: CourseRef, table: TablePage)
    ensures var o := Visit(course, Loaded(table));
            var dates := Extracted(table).dates;
            |o.records| == |dates| &&
            forall j :: 0 <= j < |dates| ==>
              o.records[j] == DateRecord(course.name, dates[j].date, dates[j].location, dates[j].language)
  {
  }

  /** A navigation failure appends nothing and reports the URL that could not be opened. */
  lemma NavigationFailureReported(course: CourseRef)
    ensures Visit(course, NavigationFails) == Outcome([], [NavigationError(course.url)])
  {
  }

  /** Gathering is compositional. */
  lemma {:induction false} GatherAppend(a: seq<Outcome>, b: seq<Outcome>)
    ensures Gather(a + b) == Join(Gather(a), Gather(b))
  {
    if b == [] {
      assert a + b == a;
    } else {
      var b' := b[..|b| - 1];
      assert (a + b)[..|a + b| - 1] == a + b';
      GatherAppend(a, b');
    }
  }

  /** Visiting is compositional: the outcome of a course list is that of its first part followed
      by that of the rest, so records keep course order. */
  lemma VisitsAppend(a: seq<CourseRef>, b: seq<CourseRef>, portal: Portal)
    ensures Visits(a + b, portal) == Join(Visits(a, portal), Visits(b, portal))
  {
    VisitEachAppend(a, b, VisitOn(portal));
    GatherAppend(VisitEach(a, VisitOn(portal)), VisitEach(b, VisitOn(portal)));
  }

  /** An outcome without records changes only the error log. */
  lemma GatherSkip(a: seq<Outcome>, o: Outcome, b: seq<Outcome>)
    requires o.records == []
    ensures Gather(a + [o] + b).records == Gather(a + b).records
    ensures Gather(a + [o] + b).errors == Gather(a).errors + o.errors + Gather(b).errors
  {
    assert Gather([o]) == Join(Outcome([], []), o) by {
      assert [o][..0] == [];
    }
    GatherAppend(a, [o]);
    GatherAppend(a + [o], b);
    GatherAppend(a, b);
  }

  /** A course that fails contributes nothing but its one error report: the other courses' records
      are exactly what they would be without it. */
  lemma FailureIsolated(a: seq<CourseRef>, c: CourseRef, b: seq<CourseRef>, portal: Portal)
    requires !portal(c.url).Loaded?
    ensures Visits(a + [c] + b, portal).records == Visits(a + b, portal).records
    ensures Visits(a + [c] + b, portal).errors ==
              Visits(a, portal).errors + Visit(c, portal(c.url)).errors + Visits(b, portal).errors
    ensures |Visits(a + [c] + b, portal).errors| == |Visits(a + b, portal).errors| + 1
  {
    var visit := VisitOn(portal);
    var before, after := VisitEach(a, visit), VisitEach(b, visit);
    VisitEachAppend(a, [c], visit);
    VisitEachAppend(a + [c], b, visit);
    VisitEachAppend(a, b, visit);
    assert VisitEach([c], visit) == [visit(c)];
    assert VisitEach(a + [c] + b, visit) == before + [visit(c)] + after;
    assert visit(c) == Visit(c, portal(c.url));
    GatherSkip(before, visit(c), after);
    GatherAppend(before, after);
  }

  /** Every record names one of the courses visited. */
  lemma RecordsNameVisitedCourses(courses: seq<CourseRef>, portal: Portal)
    ensures forall r :: r in Visits(courses, portal).records ==>
              exists j :: 0 <= j < |courses| && courses[j].name == r.courseName
  {
    var os := VisitEach(courses, VisitOn(portal));
    forall r | r in Gather(os).records
      ensures exists j :: 0 <= j < |courses| && courses[j].name == r.courseName
    {
      var j := GatheredFrom(os, r);
      assert os[j] == Visit(courses[j], portal(courses[j].url));
    }
  }

  /** A record is well formed when the entry it was tagged from is. */
  predicate RecordWellFormed(r: DateRecord) {
    WellFormed(DateRow(r.date, r.location, r.language))
  }

  /** Every record a course contributes is well formed. */
  lemma VisitRecordsWellFormed(course: CourseRef, page: CoursePage)
    ensures forall r :: r in Visit(course, page).records ==> RecordWellFormed(r)
  {
    if page.Loaded? {
      var dates := Extracted(page.table).dates;
      ExtractedWellFormed(page.table);
      forall r | r in Tag(course.name, dates) ensures RecordWellFormed(r) {
        var i :| 0 <= i < |dates| && Tag(course.name, dates)[i] == r;
        assert dates[i] in dates;
      }
    }
  }

  /** Every record of a run is well formed: the date is never blank (app.py:23). */
  lemma RecordsWellFormed(courses: seq<CourseRef>, portal: Portal)
    ensures forall r :: r in Visits(courses, portal).records ==> RecordWellFormed(r)
  {
    var os := VisitEach(courses, VisitOn(portal));
    forall r | r in Gather(os).records ensures RecordWellFormed(r) {
      var j := GatheredFrom(os, r);
      assert os[j] == Visit(courses[j], portal(courses[j].url));
      VisitRecordsWellFormed(courses[j], portal(courses[j].url));
    }
  }

  /** A gathered record comes from one of the outcomes. */
  lemma {:induction false} GatheredFrom(os: seq<Outcome>, r: DateRecord) returns (j: nat)
    requires r in Gather(os).records
    ensures j < |os| && r in os[j].records
  {
    var n := |os| - 1;
    if r in Gather(os[..n]).records {
      j := GatheredFrom(os[..n], r);
      assert os[..n][j] == os[j];
    } else {
      j := n;
    }
  }

  /** A gathered error comes from one of the outcomes. */
  lemma {:induction false} ErrorFrom(os: seq<Outcome>, e: Report) returns (j: nat)
    requires e in Gather(os).errors
    ensures j < |os| && e in os[j].errors
  {
    var n := |os| - 1;
    if e in Gather(os[..n]).errors {
      j := ErrorFrom(os[..n], e);
      assert os[..n][j] == os[j];
    } else {
      j := n;
    }
  }
}

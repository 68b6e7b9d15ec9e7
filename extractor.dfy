/** `extract_course_dates` (app.py:9-30): the schedule table of a course page becomes a list of
    (date, location, language) entries. */
module TableExtractor {
  import opened Text
  import opened Outcomes

  /** One schedule entry: the stripped texts of a row's first three cells. */
  datatype DateRow = DateRow(date: string, location: string, language: string)

  /** A `table tr` element: the list of its `td` cells, each of whose text read may fail in turn,
      or a failure to list the cells at all. */
  datatype Row = Row(cells: Read<seq<Read<string>>>)

  /** The page once the partner filter has settled: the table appeared within the 5-second wait and
      its rows (header first) were listed, or one of those two steps raised. */
  datatype TablePage = NoTable | Table(rows: seq<Row>)

  /** The entries extracted and the errors reported on the way, in order. */
  datatype Extraction = Extraction(dates: seq<DateRow>, errors: seq<Report>)

  /** What one body row contributes. */
  datatype RowStep =
    | Emit(entry: DateRow)  // appended to the result
    | Skip                  // fewer than 3 cells, or a blank date: left out silently
    | Drop                  // a cell text read raised: left out and reported, extraction goes on
    | Abort                 // listing the cells raised: extraction stops with what it has

  /** An emitted entry has a non-empty date and no whitespace around any field. */
  predicate WellFormed(d: DateRow) {
    d.date != [] && IsStripped(d.date) && IsStripped(d.location) && IsStripped(d.language)
  }

  function RowStepOf(row: Row): (step: RowStep)
    ensures step.Emit? ==> WellFormed(step.entry)
    ensures step.Abort? <==> row.cells.Fail?
  {
    match row.cells
    case Fail => Abort
    case Ok(cells) =>
      if |cells| < 3 then Skip
      else if cells[0].Fail? || cells[1].Fail? || cells[2].Fail? then Drop
      else
        var date := Strip(cells[0].value);
        if date == [] then Skip
        else Emit(DateRow(date, Strip(cells[1].value), Strip(cells[2].value)))
  }

  /** The step of every row, in table order. */
  function Steps(rows: seq<Row>): (steps: seq<RowStep>)
    ensures |steps| == |rows|
    ensures forall j :: 0 <= j < |rows| ==> steps[j] == RowStepOf(rows[j])
  {
    seq(|rows|, j requires 0 <= j < |rows| => RowStepOf(rows[j]))
  }

  /** What one step adds to the result: its entry, or its error report, or nothing. */
  function Contribution(step: RowStep): (e: Extraction)
    ensures |e.dates| <= 1
  {
    match step
    case Emit(d) => Extraction([d], [])
    case Drop => Extraction([], [RowError])
    case _ => Extraction([], [])
  }

  function Join(a: Extraction, b: Extraction): Extraction {
    Extraction(a.dates + b.dates, a.errors + b.errors)
  }

  /** The entries and row errors of a run of steps, in order. */
  function ScanSteps(steps: seq<RowStep>): (e: Extraction)
    ensures |e.dates| <= |steps|
  {
    if steps == [] then Extraction([], [])
    else Join(ScanSteps(steps[..|steps| - 1]), Contribution(steps[|steps| - 1]))
  }

  /** The index of the first row whose cells cannot be listed, or `|rows|` if there is none. */
  function Cutoff(rows: seq<Row>): (k: nat)
    ensures k <= |rows|
    ensures forall j :: 0 <= j < k ==> rows[j].cells.Ok?
    ensures k < |rows| ==> rows[k].cells.Fail?
  {
    if rows == [] then 0
    else if rows[0].cells.Fail? then 0
    else 1 + Cutoff(rows[1..])
  }

  /** The rows after the header (Python's `rows[1:]`). */
  function Body(rows: seq<Row>): (body: seq<Row>)
    ensures |body| == if rows == [] then 0 else |rows| - 1
  {
    if rows == [] then [] else rows[1..]
  }

  /** What extraction yields for a page: the body rows up to the first one whose cells cannot be
      listed, and one more error report if there is such a row or no table at all. */
  function Extracted(page: TablePage): (e: Extraction)
  {
    match page
    case NoTable => Extraction([], [DatesError])
    case Table(rows) =>
      var body := Body(rows);
      var k := Cutoff(body);
      var e := ScanSteps(Steps(body)[..k]);
      if k < |body| then Extraction(e.dates, e.errors + [DatesError]) else e
  }

  /** The loop of `extract_course_dates`: reads each body row's cells and appends the stripped
      texts of the first three, for rows with a non-blank date. */
  method ExtractCourseDates(page: TablePage) returns (dates: seq<DateRow>, errors: seq<Report>)
    ensures Extraction(dates, errors) == Extracted(page)
  {
    dates, errors := [], [];
    if page.NoTable? {
      errors := [DatesError];
      return;
    }
    var body := Body(page.rows);
    ghost var k := Cutoff(body);
    var i := 0;
    while i < |body|
      invariant i <= k
      invariant Extraction(dates, errors) == ScanSteps(Steps(body)[..i])
    {
      if body[i].cells.Fail? {
        assert k == i;
        errors := errors + [DatesError];
        return;
      }
      var found, reported := ReadRow(body[i].cells.value);
      ScanOneMore(body, i);
      dates, errors := dates + found, errors + reported;
      i := i + 1;
    }
    assert k == i;
  }

  /** The inner `try` of the loop: reads the first three cells of a row whose cells could be listed
      and yields what that row adds to the result. */
  method ReadRow(cells: seq<Read<string>>) returns (dates: seq<DateRow>, errors: seq<Report>)
    ensures Extraction(dates, errors) == Contribution(RowStepOf(Row(Ok(cells))))
  {
    dates, errors := [], [];
    if |cells| >= 3 {
      var date, location, language := cells[0], cells[1], cells[2];
      if date.Fail? || location.Fail? || language.Fail? {
        errors := [RowError];
      } else {
        var d := Strip(date.value);
        if d != [] {
          dates := [DateRow(d, Strip(location.value), Strip(language.value))];
        }
      }
    }
  }

  /** Scanning one more listable row adds that row's contribution. */
  lemma ScanOneMore(rows: seq<Row>, i: nat)
    requires i < |rows| && rows[i].cells.Ok?
    ensures ScanSteps(Steps(rows)[..i + 1]) ==
            Join(ScanSteps(Steps(rows)[..i]), Contribution(RowStepOf(Row(Ok(rows[i].cells.value)))))
  {
    assert Steps(rows)[..i + 1][..i] == Steps(rows)[..i];
  }

  /** Scanning is compositional: the result for a run of rows is the result for its first part
      followed by the result for the rest, so table order is kept. */
  lemma {:induction false} ScanStepsAppend(a: seq<RowStep>, b: seq<RowStep>)
    ensures ScanSteps(a + b) == Join(ScanSteps(a), ScanSteps(b))
  {
    if b == [] {
      assert a + b == a;
    } else {
      var b' := b[..|b| - 1];
      assert (a + b)[..|a + b| - 1] == a + b';
      ScanStepsAppend(a, b');
    }
  }

  /** A row whose cell text cannot be read is reported and leaves no entry; the rows around it are
      extracted exactly as if it were not there. */
  lemma DroppedRowIsIsolated(a: seq<RowStep>, b: seq<RowStep>)
    ensures ScanSteps(a + [Drop] + b).dates == ScanSteps(a + b).dates
    ensures ScanSteps(a + [Drop] + b).errors == ScanSteps(a).errors + [RowError] + ScanSteps(b).errors
  {
    assert ScanSteps([Drop]) == Extraction([], [RowError]) by {
      assert [Drop][..0] == [];
    }
    ScanStepsAppend(a, [Drop]);
    ScanStepsAppend(a + [Drop], b);
    ScanStepsAppend(a, b);
  }

  /** An entry is extracted exactly when some step emits it. */
  lemma {:induction false} ScanStepsMembership(steps: seq<RowStep>, d: DateRow)
    ensures d in ScanSteps(steps).dates <==> Emit(d) in steps
  {
    if steps != [] {
      var n := |steps| - 1;
      ScanStepsMembership(steps[..n], d);
      assert steps == steps[..n] + [steps[n]];
    }
  }

  /** An emitting step's entry sits right after the entries of the steps before it. */
  lemma EmitPosition(steps: seq<RowStep>, j: nat)
    requires j < |steps| && steps[j].Emit?
    ensures |ScanSteps(steps[..j]).dates| < |ScanSteps(steps).dates|
    ensures ScanSteps(steps).dates[|ScanSteps(steps[..j]).dates|] == steps[j].entry
  {
    assert steps == steps[..j] + [steps[j]] + steps[j + 1..];
    ScanStepsAppend(steps[..j] + [steps[j]], steps[j + 1..]);
    ScanStepsAppend(steps[..j], [steps[j]]);
    assert [steps[j]][..0] == [];
  }

  /** Entries are only ever emitted entries. */
  lemma {:induction false} ScanStepsWellFormed(steps: seq<RowStep>)
    requires forall j :: 0 <= j < |steps| && steps[j].Emit? ==> WellFormed(steps[j].entry)
    ensures forall d :: d in ScanSteps(steps).dates ==> WellFormed(d)
  {
    if steps != [] {
      ScanStepsWellFormed(steps[..|steps| - 1]);
    }
  }

  /** A row with at least three readable cells is emitted exactly when its date is not blank, and
      then as the stripped texts of its first three cells; further cells are never looked at. */
  lemma ReadableRowStep(cells: seq<Read<string>>, extra: seq<Read<string>>)
    requires |cells| == 3 && cells[0].Ok? && cells[1].Ok? && cells[2].Ok?
    ensures var step := RowStepOf(Row(Ok(cells + extra)));
            (step.Emit? <==> !IsBlank(cells[0].value)) &&
            (step.Emit? ==> step.entry == DateRow(Strip(cells[0].value), Strip(cells[1].value), Strip(cells[2].value))) &&
            (!step.Emit? ==> step.Skip?)
  {
    var all := cells + extra;
    assert |all| >= 3 && all[0] == cells[0] && all[1] == cells[1] && all[2] == cells[2];
    StripEmptyIffBlank(cells[0].value);
    if IsBlank(cells[0].value) {
      assert RowStepOf(Row(Ok(all))) == Skip;
    } else {
      assert RowStepOf(Row(Ok(all))) ==
             Emit(DateRow(Strip(cells[0].value), Strip(cells[1].value), Strip(cells[2].value)));
    }
  }

  /** The four outcomes of a listed row, each with its exact condition: a row with a failed read
      among its first three cells is dropped, a row with fewer than three cells or a blank date is
      skipped, every other row is emitted; listing succeeded, so nothing aborts. */
  lemma RowStepCases(cells: seq<Read<string>>)
    ensures var step := RowStepOf(Row(Ok(cells)));
            var readable := |cells| >= 3 && cells[0].Ok? && cells[1].Ok? && cells[2].Ok?;
            (step.Drop? <==> |cells| >= 3 && !readable) &&
            (step.Emit? <==> readable && !IsBlank(cells[0].value)) &&
            (step.Skip? <==> |cells| < 3 || (readable && IsBlank(cells[0].value))) &&
            !step.Abort?
  {
    if |cells| >= 3 && cells[0].Ok? && cells[1].Ok? && cells[2].Ok? {
      StripEmptyIffBlank(cells[0].value);
    }
  }

  /** The header row never contributes: at most one entry per body row, and whatever the first
      row holds, the result is the same. */
  lemma HeaderNeverContributes(header: Row, other: Row, body: seq<Row>)
    ensures |Extracted(Table([header] + body)).dates| <= |body|
    ensures Extracted(Table([header] + body)) == Extracted(Table([other] + body))
  {
    assert Body([header] + body) == body == Body([other] + body);
  }

  /** Every extracted entry has a non-empty date and stripped fields. */
  lemma ExtractedWellFormed(page: TablePage)
    ensures forall d :: d in Extracted(page).dates ==> WellFormed(d)
  {
    if page.Table? {
      var body := Body(page.rows);
      ScanStepsWellFormed(Steps(body)[..Cutoff(body)]);
    }
  }

  /** An entry is extracted from a table exactly when a body row above the first unlistable one
      emits it. */
  lemma ExtractedMembership(rows: seq<Row>, d: DateRow)
    ensures d in Extracted(Table(rows)).dates <==>
            exists j :: 0 <= j < Cutoff(Body(rows)) && RowStepOf(Body(rows)[j]) == Emit(d)
  {
    var body := Body(rows);
    var k := Cutoff(body);
    var steps := Steps(body)[..k];
    ScanStepsMembership(steps, d);
    assert Extracted(Table(rows)).dates == ScanSteps(steps).dates;
    assert forall j :: 0 <= j < k ==> steps[j] == RowStepOf(body[j]);
  }

  /** The row under the header of a two-row table is extracted when it emits an entry. */
  lemma EmittedRowExtracted(header: Row, row: Row, d: DateRow)
    requires RowStepOf(row) == Emit(d)
    ensures d in Extracted(Table([header, row])).dates
  {
    var rows := [header, row];
    assert Body(rows) == [row];
    ExtractedMembership(rows, d);
  }

  /** Scanning reports only row errors. */
  lemma {:induction false} ScanStepsReportsRowErrors(steps: seq<RowStep>)
    ensures forall e :: e in ScanSteps(steps).errors ==> e == RowError
  {
    if steps != [] {
      ScanStepsReportsRowErrors(steps[..|steps| - 1]);
    }
  }

  /** Extraction reports only its own two kinds of error. */
  lemma ExtractedReportsOnlyTableErrors(page: TablePage)
    ensures forall e :: e in Extracted(page).errors ==> e == RowError || e == DatesError
  {
    if page.Table? {
      var body := Body(page.rows);
      var k := Cutoff(body);
      var e := ScanSteps(Steps(body)[..k]);
      ScanStepsReportsRowErrors(Steps(body)[..k]);
      assert Extracted(page).errors == if k < |body| then e.errors + [DatesError] else e.errors;
    }
  }

  /** A table that never appears yields no entries and one error report, not a crash. */
  lemma NoTableYieldsNothing()
    ensures Extracted(NoTable).dates == [] && Extracted(NoTable).errors == [DatesError]
  {
  }
}

# EPIC Learning Network course-date scraper, modelled in Dafny

`app.py` logs into the EPIC Learning Network portal with a headless browser. It is meant to read
the course list, open every course's dates page filtered to partner 29 and collect one record per
scheduled session (course name, date, location, language), visiting the courses three at a time.
A failure inside one row, one link or one course page is meant to be reported and skipped; a
failure at login or in reading the course list ends the run.

The code as written does less (see "## Findings"). Reading a course's name from its link
(app.py:108) raises for every link, so each link is reported, the course list is always empty, no
course page is opened and the result table stays empty. Were that read corrected, a course whose
browser context cannot be created would still end the run. The model's main definitions
(`CourseLocator.Listed`, `CourseWorker.Visits`, `Orchestrator.RunSpec`) describe the program with
both defects corrected; `CourseLocator.ListedAsWritten` and `Orchestrator.VisitsAsWritten` model
the code as written.

This project models that core:

- `text.dfy` (module `Text`): Python's `str.strip()`, with `str.isspace()` as its set of
  whitespace characters.
- `outcomes.dfy` (module `Outcomes`): what a browser call hands back (`Read`: a value or a
  raised exception) and the error reports the app shows.
- `extractor.dfy` (module `TableExtractor`): `extract_course_dates`. It is a loop over the table
  rows, proved against the function `Extracted`.
- `locator.dfy` (module `CourseLocator`): the loop over the "View" links that builds the list of
  courses and their absolute URLs.
- `worker.dfy` (module `CourseWorker`): `process_single_course`, as the outcome of visiting one
  course page.
- `batching.dfy` (module `Batching`): the slicing of the task list into batches of three and the
  progress shown after each batch.
- `orchestrator.dfy` (module `Orchestrator`): `process_courses`. The shared result list, the
  error log, the progress and the status phase are the fields of the class `Run`. Its methods
  are proved against the function `RunSpec`.

The browser is not modelled; what it returns is an input:

- `Session` holds whether logging in succeeded and the links of the course list (or a failure
  to read them).
- `Portal` maps a URL to what happens on that course page: which browser step raised, or the
  table that was found.
- `TablePage`/`Row` give the table rows and, for each cell, its text or a failure to read it.

Only the `https://` prefix is recognised as an absolute URL; an `http://` href gets the origin
put in front of it (app.py:112-113, `CourseLocator.HttpHrefPrefixed`).

## Model

| member | source | states |
|---|---|---|
| Text.TrimStart | app.py:23-24 | `lstrip`: the result is the longest suffix of the input that does not start with whitespace |
| Text.TrimStartRemovesBlank | app.py:23-24 | everything `lstrip` removes is whitespace |
| Text.TrimStartOfBlank | app.py:23 | `lstrip` of an all-whitespace text is empty |
| Text.TrimEnd | app.py:23-24 | `rstrip`: the result is the longest prefix that does not end with whitespace |
| Text.TrimEndRemovesBlank | app.py:23-24 | everything `rstrip` removes is whitespace |
| Text.Strip | app.py:23-24 | `strip()` leaves no whitespace at either end and never lengthens the text |
| Text.StripKeepsMiddle | app.py:23-24 | `strip()` keeps a slice of the text and removes only whitespace before and after it |
| Text.StripEmptyIffBlank | app.py:23 | `date and date.strip()` is false exactly when the date is empty or all whitespace |
| Text.StrippedIsFixpoint | app.py:24 | a text without whitespace at its ends is left unchanged |
| Text.StripIdempotent | app.py:24 | stripping twice is the same as stripping once |
| TableExtractor.RowStepOf | app.py:17-27 | a row's outcome: it aborts the extraction exactly when its cells cannot be listed, and an emitted entry has a non-empty date and stripped fields |
| TableExtractor.Body | app.py:16 | `rows[1:]`: the header row is dropped |
| TableExtractor.Cutoff | app.py:15-29 | the first row whose cells cannot be listed; every row before it can be listed |
| TableExtractor.Contribution | app.py:23-27 | a row adds at most one entry |
| TableExtractor.ScanSteps | app.py:16-27 | at most one entry per row |
| TableExtractor.ExtractCourseDates | app.py:9-30 | the loop returns exactly `Extracted(page)`: the entries and errors of the body rows before the cutoff, plus the table-level error when the table is missing or a row's cells cannot be listed |
| TableExtractor.ReadRow | app.py:17-27 | the loop body adds exactly the row's contribution: nothing for fewer than three cells or a blank date, a row error when a cell text read raises, and otherwise the three stripped texts |
| TableExtractor.ScanStepsAppend | app.py:16-24 | extraction is compositional, so entries keep table order |
| TableExtractor.DroppedRowIsIsolated | app.py:25-27 | an unreadable row is reported once, and the entries of the rows around it are as if it were absent |
| TableExtractor.ScanStepsMembership | app.py:23-24 | an entry is extracted exactly when some row emits it |
| TableExtractor.EmitPosition | app.py:24 | an emitted entry sits right after the entries of the rows before it |
| TableExtractor.ScanStepsWellFormed | app.py:23-24 | only emitted entries are extracted |
| TableExtractor.RowStepCases | app.py:18-27 | a listed row is dropped exactly when one of its first three cells cannot be read, skipped exactly when it has fewer than three cells or a blank date, and emitted otherwise |
| TableExtractor.ReadableRowStep | app.py:18-24 | a row with three readable cells is emitted exactly when its date is not blank, as the stripped texts of its first three cells; extra cells are ignored |
| TableExtractor.HeaderNeverContributes | app.py:16 | the header row never affects the result, and there is at most one entry per body row |
| TableExtractor.ExtractedWellFormed | app.py:23-24 | every extracted entry has a non-empty date and stripped fields |
| TableExtractor.ExtractedMembership | app.py:15-29 | an entry is extracted exactly when a body row before the cutoff emits it |
| TableExtractor.ScanStepsReportsRowErrors | app.py:25-27 | the row loop reports only row errors |
| TableExtractor.ExtractedReportsOnlyTableErrors | app.py:25-29 | extraction reports only row errors and the table-level error |
| TableExtractor.NoTableYieldsNothing | app.py:11-30 | a table that never appears gives no entries and one error report, not a crash |
| CourseLocator.Resolve | app.py:110-114 | the URL starts with `https://`, ends with the href, and is either the href itself or the origin followed by the href |
| CourseLocator.LinkStepOf | app.py:106-117 | a link is reported exactly when its name or href read raises; a listed course has a stripped name and an `https://` URL |
| CourseLocator.Collect | app.py:105-117 | each link adds at most one course or one error |
| CourseLocator.ListCourses | app.py:102-117 | the loop over the links returns exactly `Listed(links)` |
| CourseLocator.ReadLink | app.py:106-117 | the loop body adds exactly that link's contribution |
| CourseLocator.SecureHrefKept | app.py:112 | an `https://` href is used as it is |
| CourseLocator.OtherHrefPrefixed | app.py:112-113 | any other href gets the portal origin put in front of it, verbatim |
| CourseLocator.ResolveIdempotent | app.py:110-114 | resolving a resolved URL changes nothing |
| CourseLocator.HttpHrefPrefixed | app.py:112-113 | an `http://` href is prefixed too |
| CourseLocator.MissingHrefSkipped | app.py:111 | a link without an href, or with an empty one, adds no course and no error |
| CourseLocator.CollectAppend | app.py:105-114 | collection is compositional, so courses keep link order |
| CourseLocator.ListedAppend | app.py:105-114 | the courses of links `a + b` are those of `a` followed by those of `b` |
| CourseLocator.CollectMembership | app.py:114 | a course is collected exactly when some link yields it |
| CourseLocator.ListedMembership | app.py:105-114 | a course is listed exactly when one of the links yields it |
| CourseLocator.ListedWellFormed | app.py:109-114 | every listed course has a stripped name and an `https://` URL |
| CourseLocator.CollectReportsLinkErrors | app.py:115-117 | collection reports only link errors |
| CourseLocator.ListedReportsOnlyLinkErrors | app.py:115-117 | the link loop reports nothing but unreadable links |
| CourseLocator.ListedAsWritten | app.py:108 | as written (the name read always raises), at most one course or error per link |
| CourseLocator.ListedAsWrittenFindsNothing | app.py:105-117 | as written, the course list is always empty and every link is reported |
| CourseLocator.ListedAsWrittenMissesCourse | app.py:105-117 | one readable link: the corrected loop lists its course, the loop as written does not |
| Batching.NumBatches | app.py:135 | `range(0, n, 3)` has no values exactly when `n == 0`, and it covers all `n` tasks with nothing to spare |
| Batching.Batches | app.py:135-136 | there is one batch per value of `range(0, len(tasks), 3)` |
| Batching.BatchAt | app.py:135-136 | batch `i` is the slice `tasks[3i : 3i + 3]`, cut short at the end |
| Batching.BatchesPartition | app.py:135-137 | the batches laid end to end give back the task list: every task is awaited exactly once, in order |
| Batching.BatchSizes | app.py:136 | every batch holds one to three tasks, and all but the last hold three |
| Batching.ProgressAt | app.py:140-142 | after batch `i`, the completed count equals the label's upper bound, the label range has one to three courses within `1..total`, and the count reaches `total` exactly at the last batch |
| Batching.ProgressIsMonotone | app.py:140-146 | the completed count strictly grows and ends at the total; with no courses there is no update, so the division by `total_courses` is never reached |
| CourseWorker.Tag | app.py:56-62 | one record per entry, in order, tagged with the course name |
| CourseWorker.Visit | app.py:32-67 | every record carries the course's name; a course whose page did not load adds no record and exactly one error (a context that cannot be created included: the intended behaviour, see Findings) |
| CourseWorker.LoadedCourseRecords | app.py:53-62 | a loaded page yields one record per extracted entry, in table order |
| CourseWorker.NavigationFailureReported | app.py:39-45 | a navigation failure adds nothing and reports the URL |
| CourseWorker.GatherAppend | app.py:57 | appending to the shared list is compositional |
| CourseWorker.VisitsAppend | app.py:130-137 | visiting `a + b` gives the outcome of `a` followed by that of `b` |
| CourseWorker.FailureIsolated | app.py:64-65 | a course that fails adds its own error between the errors of the courses before and after it, and the other courses' records are exactly as if it were absent |
| CourseWorker.RecordsNameVisitedCourses | app.py:57-58 | every record names one of the courses visited |
| CourseWorker.VisitRecordsWellFormed | app.py:56-62 | a course's records have non-blank dates and stripped fields |
| CourseWorker.RecordsWellFormed | app.py:56-62 | every record of a run has a non-blank date and stripped fields |
| Orchestrator.RunSpec | app.py:69-153 | the run ends in the final phase exactly when no fatal error is reported; a course without a browser context is skipped, as intended (see Findings) |
| Orchestrator.Run.constructor | app.py:70-83 | the run starts with no records, no errors and no progress, in the login phase |
| Orchestrator.Run.ProcessSingleCourse | app.py:32-67 | appends that course's records to the shared list and its errors to the log; nothing else changes (a context that cannot be created is reported, as intended; see Findings) |
| Orchestrator.Run.AppendRecords | app.py:56-62 | appends one tagged record per entry, in order |
| Orchestrator.Run.ProcessBatch | app.py:137 | awaiting a batch appends the batch's records and errors, course by course |
| Orchestrator.Run.ProcessBatches | app.py:134-142 | awaits exactly the batches of the task list; appends all courses' records and errors in course order and one progress update per batch; keeps the phase |
| Orchestrator.Run.RunBatch | app.py:135-142 | one pass of the loop: awaits batch `i`, then shows the progress after batch `i` |
| Orchestrator.ProcessCourses | app.py:69-153 | the run yields exactly `RunSpec(session, portal)`, the corrected run (see Findings) |
| Orchestrator.BatchStep | app.py:135-142 | one more batch extends the awaited batches and the progress updates by one, and covers the next slice of courses |
| Orchestrator.VisitsSplit | app.py:130-137 | visiting a prefix of the courses means visiting its two parts in turn |
| Orchestrator.NoFatalErrorInVisits | app.py:64-65 | no course reports a fatal error |
| Orchestrator.NoFatalErrorInListing | app.py:115-117 | reading the links never reports a fatal error |
| Orchestrator.FirstContextFailure | app.py:35 | the first course whose browser context cannot be created; every course before it gets one |
| Orchestrator.VisitsAsWritten | app.py:32-67 | as written, a fatal error is reported exactly when some course cannot get a browser context |
| Orchestrator.FirstContextFailureEndsRun | app.py:32-67 | as written, a first course without a browser context ends the run with a fatal error before any record is appended |
| Orchestrator.ContextFailureLosesLaterCourses | app.py:32-67 | four courses, the first without a browser context: the fourth course's session is kept by the model and lost as written |

## Left out

- The browser itself is not modelled: launching it, page loads, the 5-second table wait, the
  network-idle waits, clicks, form filling and the partner-29 selection. Each call appears only
  through its outcome, as an input (`Session`, `Portal`, `TablePage`, `Row`, `Link`).
- Logging in is the boolean `Session.loginSucceeds`, meaning that none of the login steps
  raised. The app never checks that the credentials were accepted, and neither does the model.
- Concurrency: the semaphore of three and `asyncio.gather` are modelled as visiting each batch's
  courses one after another in list order. Within a batch, the source's order of records (and of
  error reports) depends on scheduling.
- Orchestrator.VisitsAsWritten: follows the same in-order reading. It stops at the first course
  without a browser context. In the source, the other tasks of that batch may still be running
  when `gather` raises, so whether their records arrive depends on timing. Later batches are never
  started either way.
- Progress is modelled as the completed count and the label range of each batch. The
  floating-point fractions (0.05, 0.1, 0.2, `0.2 + 0.7 * done / total`, 1.0) and the status texts
  are not modelled, apart from the phase they announce.
- CourseWorker.Visit: a course whose browser context cannot be created is reported with a course
  error and skipped, which is the intended behaviour. The code as written raises at the close in
  app.py:67 and ends the run; only `Orchestrator.VisitsAsWritten` models that (see "## Findings").
- CourseLocator.ListCourses: together with `CourseLocator.LinkStepOf` and `CourseLocator.ReadLink`,
  it takes the course-name read of app.py:108 as an input that may succeed, which is the intended
  behaviour. As written that read raises for every link, so every link is reported and nothing is
  listed; only `CourseLocator.ListedAsWritten` models that (see "## Findings").
- Orchestrator.RunSpec: lists the courses through `CourseLocator.ListCourses` and visits them with
  `CourseWorker.Visit`, so it describes the run with both corrections: courses are listed, and a
  course without a browser context does not end the run. As written, the course list is always
  empty and the run visits no course. The same holds for `Orchestrator.Run.ProcessSingleCourse`
  and `Orchestrator.ProcessCourses`, which are proved against it.
- Apart from the close at app.py:67 when `context` is unbound (because `new_context()` raised),
  closing browser contexts and the browser (app.py:44, 67, 120, 151) is assumed never to raise.
  The second close after a navigation failure (app.py:44 and again at 67) is not modelled.
- Error reports carry no exception text. Reports are kept in the order they are shown.
- The Streamlit page (`main`, the login form, the results table, the CSV download) and
  `streamlit_app.py` are not part of this model.

## Findings

| source | as written | input that shows it | evidently intended | confidence | as-written member | corrected member |
|---|---|---|---|---|---|---|
| app.py:108 | `await (await course_row.locator("td").first).inner_text()` applies `await` to `Locator.first`, which is a property holding a locator and cannot be awaited. The read raises for every link, so the course list is always empty | one "View" link whose row's first cell reads "Intro" and whose href is "/a" | read the first cell's text and list the course `("Intro", origin + "/a")` | not executed; high | CourseLocator.ListedAsWrittenMissesCourse | CourseLocator.ListedMembership |
| app.py:35-67 | when `browser.new_context()` raises, `context` is unbound in the `finally` clause. `context.close()` then raises out of the task, `gather` re-raises it, and the run ends with "Fatal error"; no later batch is awaited. The defect is reached only once app.py:108 is corrected: as written no course is ever listed or visited, so the input in the next column arises only in that corrected program | four courses; the first cannot get a browser context; the fourth (second batch) has a table with one session whose date is not blank | report the course and go on with the others | not executed; high | Orchestrator.ContextFailureLosesLaterCourses | CourseWorker.FailureIsolated |

/** What the browser hands back to the scraper, and what the scraper reports to the user. */
module Outcomes {

  datatype Option<+T> = None | Some(value: T)

  /** The outcome of one call into the browser: the value it produced, or an exception. */
  datatype Read<+T> = Ok(value: T) | Fail

  /** The errors the app shows with `st.error`, one constructor per place that reports one. */
  datatype Report =
    | RowError                      // a row's cell text could not be read (app.py:25-27)
    | DatesError                    // the table or its row list could not be read (app.py:28-29)
    | NavigationError(url: string)  // a course page could not be opened (app.py:42-45)
    | CourseError(name: string)     // any other failure while processing a course (app.py:64-65)
    | CourseInfoError               // a course link could not be read (app.py:115-117)
    | FatalError                    // login or course listing failed (app.py:148-149)
}

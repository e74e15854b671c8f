# Academic-records store

A model of a small web service that keeps academic records in three tables:
courses, students and enrollments. Each table has an integer primary key
that the store assigns. Each resource offers two operations:

- create (`POST /courses`, `POST /students`, `POST /enrollments`): checks the
  request fields in a fixed order, answers with an error code and status, or
  inserts exactly one row and answers 201 with the new key;
- lookup by key (`GET /courses/<id>`, …): answers with the stored row, or 404
  with "Course not found", "Student not found" or "Enrollment not found".

Files:

- `wrappers.dfy` (`Wrappers`): `Option`, for a request field whose key is absent.
- `records.dfy` (`Records`): the three row shapes and the closed table of error
  codes with their messages.
- `handlers.dfy` (`Handlers`): the six handlers as functions over a value `Db`
  holding the three tables as maps from key to row. A create takes the key the
  insert receives as a parameter that only has to be unused in its table. The
  functions' contracts state the order of the checks, that a failed request
  leaves every table as it was, that a successful one adds one row to its own
  table only, and the field defaults. Lemmas state the create→lookup round
  trips, that a (student, course) pair may be enrolled twice, and that every
  create preserves `Consistent`. `Consistent` means every row sits under its
  own key, course names and codes, roll numbers and first names are
  non-empty, course codes and roll numbers are unique, and every enrollment
  refers to an existing course and student.
- `store.dfy` (`Server`): the class `Store`, whose fields are the three tables
  and the next key of each. Its create methods update the tables in place.
  Each method's contract ties the new tables and the answer to the `Handlers`
  function of the old tables, with the table's next key as the new key.
- `history.dfy` (`History`): any sequence of requests served one after the
  other, each insert receiving the largest key in use plus one, or 1 if that
  is not positive. Lemmas show by
  induction that `Consistent` holds after any sequence and that no stored row
  ever changes or disappears.

A request body is the parsed JSON object. Its string fields are
`Option<string>` and its enrollment keys `Option<int>`. The check
`not data.get(key)` is read as "absent or the empty string" (`Present`). The
enrollment checks look the given key up, so an absent key matches no row.

The unique constraints on `course_code` and `roll_number` are enforced only
by the database when the new row is committed. The handlers do not catch that
failure. It is modelled as the answer `ServerError` with status 500 and no
row stored. It comes after both field checks, because the commit is the last
step of a create.

## Model

| member | source | states |
|---|---|---|
| `Records.CodeIdentifiesError` | app.py:29-35 | the six error codes have distinct `code` strings, so the code alone identifies the error |
| `Handlers.GetCourse` | app.py:40-47 | status 200 exactly when the key is stored, with the stored row (whose `courseId` is the key); otherwise 404 with "Course not found" |
| `Handlers.GetStudent` | app.py:96-103 | status 200 exactly when the key is stored, with the stored row (whose `studentId` is the key); otherwise 404 with "Student not found" |
| `Handlers.GetEnrollment` | app.py:65-72 | status 200 exactly when the key is stored, with the stored row, whose course and student exist when the tables are consistent; otherwise 404 with "Enrollment not found" |
| `Handlers.PostCourse` | app.py:48-62 | a missing or empty name gives COURSE001/400 whatever the code; then a missing or empty code gives COURSE002/400; then a code already in use gives an unhandled fault (500). Status 201 exactly when none of these applies. Every failure leaves all tables unchanged. A success adds exactly the row (new key, name, code, description or "") to the course table and changes nothing else |
| `Handlers.PostStudent` | app.py:105-119 | the roll number is checked first (STUDENT001/400), then the first name (STUDENT002/400), then roll-number uniqueness (500). Status 201 exactly when all pass. Failures change nothing. A success adds exactly the row (last name defaulting to "") to the student table only |
| `Handlers.PostEnrollment` | app.py:74-93 | a key matching no course gives ENROLLMENT001/404 whatever the student key; with the course found, a key matching no student gives ENROLLMENT002/404. Status 201 exactly when both exist, whatever enrollments already exist. Failures change nothing. A success adds one row with the given keys to the enrollment table only, which grows by exactly one |
| `Handlers.CourseRoundTrip` | app.py:42-62 | after a successful course create, looking up the returned key gives 200 with the submitted name and code and the description or ""; every other lookup answers as before |
| `Handlers.StudentRoundTrip` | app.py:98-119 | after a successful student create, looking up the returned key gives the submitted roll number and first name and the last name or ""; every other lookup answers as before |
| `Handlers.EnrollmentRoundTrip` | app.py:67-93 | after a successful enrollment create, looking up the returned key gives the submitted student and course keys; every other lookup answers as before |
| `Handlers.DuplicateEnrollmentAccepted` | app.py:86-93 | posting the same enrollment twice succeeds twice, under two distinct keys, and both rows hold the same student and course |
| `Handlers.PostCoursePreservesConsistent` | app.py:11-15 | a course create keeps every row under its own key, every course name and code non-empty, codes unique and every enrollment's references valid |
| `Handlers.PostStudentPreservesConsistent` | app.py:17-21 | a student create keeps every row under its own key, every roll number and first name non-empty, roll numbers unique and every enrollment's references valid |
| `Handlers.PostEnrollmentPreservesConsistent` | app.py:23-26 | an enrollment create only stores an enrollment whose course and student exist, so the foreign keys stay valid |
| `Server.Store.constructor` | app.py:8 | an empty store whose tables satisfy the store invariant |
| `Server.Store.GetCourse` | app.py:40-47 | the lookup changes nothing and answers as `Handlers.GetCourse` on the current tables |
| `Server.Store.GetStudent` | app.py:96-103 | the lookup changes nothing and answers as `Handlers.GetStudent` on the current tables |
| `Server.Store.GetEnrollment` | app.py:65-72 | the lookup changes nothing and answers as `Handlers.GetEnrollment` on the current tables |
| `Server.Store.CreateCourse` | app.py:48-62 | the next course key is unused; the new tables and the answer are those of `Handlers.PostCourse` with that key; the store invariant is kept |
| `Server.Store.CreateStudent` | app.py:105-119 | the next student key is unused; the new tables and the answer are those of `Handlers.PostStudent` with that key; the store invariant is kept |
| `Server.Store.CreateEnrollment` | app.py:74-93 | the next enrollment key is unused; the new tables and the answer are those of `Handlers.PostEnrollment` with that key; the store invariant is kept |
| `Server.EnrollTwice` | app.py:86-93 | with the course and the student stored, the same enrollment request sent twice succeeds twice, under two different keys, each holding that student and course |
| `History.NextKey` | app.py:12 | the key an insert receives is positive, unused, and larger than every key in use |
| `History.ServePreservesConsistent` | app.py:121-123 | serving any one request of the six routes keeps the tables consistent |
| `History.RunPreservesConsistent` | app.py:23-26 | after any sequence of requests from consistent tables, every enrollment still refers to an existing course and student, codes and roll numbers are unique, and no stored course name, code, roll number or first name is empty |
| `History.RunKeepsRows` | app.py:121-123 | no sequence of requests changes or removes a stored row, since the routes only insert and read |
| `History.RunKeepsLookups` | app.py:42-47 | a lookup that succeeds keeps answering the same after any further requests |

## Left out

- The web framework and the database library: routing, `request.get_json`, the
  session, commit and the connection string. Requests are parsed values and the
  tables are maps.
- A request body that is missing, not JSON, or a JSON value other than an
  object. The request fails before any check: `request.get_json()` rejects a
  missing body (400, or 415 on recent versions of the framework), and a JSON
  value that is not an object makes `data.get` raise (500).
- Field values that are not strings (a number or `false` as a course name), and
  enrollment keys that are not integers. Python's truthiness and the database's
  type coercion for them are not modelled.
- An explicit JSON `null` for `course_description` or `last_name` is stored as
  NULL. The model does not tell it apart from an absent key and stores "".
- `GET /enrollments` without a key. The route allows it, but what happens then
  is not defined.
- The key chosen by the database. `Handlers` accepts any unused key, `Store`
  counts up from 1 and `History` takes the largest key in use plus one (or 1). These
  agree because no row is ever deleted.
- The page the framework sends for an unhandled exception. `ServerError` carries
  only the status 500.
- Keys outside the signed 64-bit range of the database's INTEGER columns. Keys
  are unbounded `int`. A path key or enrollment body key of 2^63 or more makes
  the database driver raise an overflow error, which nothing catches, so the
  service answers 500. `Handlers.GetCourse`, `Handlers.GetStudent`,
  `Handlers.GetEnrollment` and `Handlers.PostEnrollment` answer 404 for such a
  key instead.
- Negative path keys (`/courses/-1`). The route's `int` converter takes only
  unsigned digits, so the framework answers 404 with its own message before any
  handler runs. The lookup functions accept any `int` and answer "not found".
- Concurrent requests and the debug server entry point.

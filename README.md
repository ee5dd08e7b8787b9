# Student management server: request decisions and records

`app.py` is a small HTTP back end for a school office. It keeps four SQLite
tables and answers JSON requests:

- `students`, with `name`, `class_name`, `parent_phone` and `created_at`;
- `grades`, `attendance` and `payments`, each row tied to a student by `student_id`.

POST requests add rows.

- `POST /api/students` reads `name`, `class_name` and `parent_phone` with
  `payload.get(key, "")`, strips them, and refuses with 400 unless name and
  class are both non-empty. It has no key check, no numeric conversion and no
  lookup.
- The grade, attendance and payment endpoints check their payload in a fixed
  order: required keys, then numeric conversion, then, for attendance, the
  status. Only after all of these do they look up the student, and an unknown
  student is refused with 404.

Every refusal is a JSON error with status 400 or 404; a write that goes
through answers 201.
GET requests read:

- the student list, newest first;
- a dashboard of totals;
- one student's report: grades newest first, attendance and payments by date
  descending, and a summary that counts attendance entries and absences.

The project states this behaviour in Dafny and proves properties of it. It has
seven modules:

- `Wrappers`: `Option`.
- `Json`: decoded JSON values, plus Python's `str()`, `strip()`, `int()` and
  `payload.get(key, "")` on them.
- `Schema`: the rows, the status enumeration and the database value `Db`. `Db`
  holds the four tables in insertion order, each with its AUTOINCREMENT
  counter. The module also states the invariant `WellFormed`: ids ascend
  within every table, and every row points at an existing student.
- `Http`: the responses, meaning a JSON body with a status code, a static
  file, or a bare 404 page.
- `Validation`: each POST endpoint's checks as a `Decision`, either
  `Rejected(code, message)` or `Accepted(fields)`.
- `Queries`: the GET side. It covers taking the report id from the path, the
  lookups and orderings, and the counts; `Get` is the whole of `do_GET`.
- `Handler`: the POST side. It has two parts:
  - `PostStep` says what a request answers and what the database becomes.
  - Class `Store` holds the tables as fields and runs the handler's early-return
    checks one by one. Each of its methods is proved to do exactly what
    `PostStep` says.

Three things the handler depends on become parameters:

- The body's decoding comes in as `Option<Payload>`. `None` is what
  `_parse_body` returns when the body is not valid JSON, and also when it is
  the JSON literal `null`.
- The conversions the model does not spell out come in as a `Coercion`:
  - `int()` of a string;
  - `float()` of any value;
  - `str()` of floats, lists and objects.
- The clock (`now_iso()`) comes in as a `now` string.

## Model

| member | source | states |
|---|---|---|
| Json.Strip | app.py:188-190 | `str.strip()`: the result is empty exactly when the text is all whitespace, and otherwise starts and ends with a non-whitespace character |
| Json.StripSlice | app.py:188-190 | the stripped text is a contiguous piece of the original, with only whitespace cut from either end |
| Json.StripIdempotent | app.py:188-190 | stripping an already stripped field changes nothing |
| Json.DecimalString | app.py:188-190 | `str()` of a non-negative integer is a non-empty digit string without a leading zero |
| Json.DecimalRoundTrip | app.py:132-135 | reading back the decimal text of `n` with `int()` gives `n` |
| Json.LeadingZeros | app.py:133-135 | a leading `0` does not change the id that `int(student_id)` reads |
| Json.Truncate | app.py:207 | `int()` of a float truncates toward zero: the result is within one of the value and never farther from zero |
| Json.Text | app.py:188-190 | `str(payload.get(key, ""))`: a missing key reads as the empty string, a string value as itself |
| Json.StrippedField | app.py:188-190 | a missing key reads as `""`; a string value reads as that string stripped; the result is empty exactly when the text is all whitespace, and otherwise has non-whitespace ends |
| Schema.ParseStatus | app.py:231-233 | a status is accepted exactly when it is `present`, `late` or `absent`, and then names that status |
| Schema.StatusRoundTrip | app.py:49 | every stored status reads back as itself, matching the table's CHECK constraint |
| Schema.EmptyWellFormed | app.py:21-65 | the freshly created empty database satisfies the invariant |
| Schema.AppendKeepsAscending | app.py:28 | an AUTOINCREMENT insert keeps ids ascending, and the new id exceeds every earlier one |
| Schema.InsertStudentWellFormed | app.py:193-199 | adding a student keeps the database well formed |
| Schema.InsertGradeWellFormed | app.py:212-220 | a grade for an existing student keeps every id ascending and every reference valid |
| Schema.InsertAttendanceWellFormed | app.py:234-242 | likewise for an attendance row |
| Schema.InsertPaymentWellFormed | app.py:254-262 | likewise for a payment |
| Validation.CheckStudent | app.py:187-192 | the only refusal is 400 "name and class_name are required"; a request goes through exactly when both stripped fields are non-empty; a missing name or class is refused; the accepted fields are the stripped `name`, `class_name` and `parent_phone` of the input; a missing parent_phone becomes `""` |
| Validation.CheckGrade | app.py:202-220 | missing keys give 400 with the keys message; a failed `int`/`float` gives 400 with the numeric message; a 400 comes only from one of those two checks; the only other refusal is 404 "Student not found"; once the keys and conversions pass, the request is accepted exactly when the student exists and is otherwise refused 404; an accepted grade carries the converted id and score, and `subject` and `term` as the stripped input |
| Validation.CheckAttendance | app.py:223-242 | the same order, with the stripped status checked after `int(student_id)` and before the lookup: a 400 comes only from the keys, the id or the status; once those pass, accepted exactly when the student exists, else 404; an accepted row's status names the stripped input and its date is the stripped input |
| Validation.CheckPayment | app.py:245-262 | the same as for grades, with `amount` in place of `score`, and `term` and `paid_on` as the stripped input |
| Validation.FormatErrorsIgnoreStudents | app.py:202-257 | a 400 from a write endpoint is the same whatever students exist: format checks come before the lookup |
| Validation.ExcusedForUnknownStudent | app.py:231-237 | an unknown status for an unknown student is answered 400, not 404 |
| Queries.LastSegment | app.py:132 | `path.rsplit("/", 1)[-1]`: a suffix of the path with no slash in it, preceded by a slash whenever it is not the whole path |
| Queries.LastSegmentAfterSlash | app.py:132 | for any path ending `/seg` with `seg` slash-free, the last segment is `seg` |
| Queries.ReportIdFromLastSegment | app.py:131-135 | the report id exists exactly when the last segment is a non-empty run of ASCII digits, whatever precedes it, and is then their decimal value |
| Queries.ReportIdRoundTrip | app.py:131-135 | a report path built from the decimal text of an id reads back as that id |
| Queries.ReportPathPlain | app.py:131-135 | `/api/reports/student/2` asks for student 2 |
| Queries.ReportPathNested | app.py:131-135 | `/api/reports/student/1/2` also asks for student 2 |
| Queries.ReportPathNotNumber | app.py:132-134 | `/api/reports/student/abc` gives no id, so the report answers 400 |
| Queries.ReportPathTrailingSlash | app.py:132-134 | a trailing slash leaves an empty segment, which gives no id |
| Queries.FindStudent | app.py:137-141 | `SELECT ... WHERE id=?`: a found row has that id and is in the table, and nothing is found exactly when no row has that id |
| Queries.Reverse | app.py:112 | position `i` of the result holds position `n - 1 - i` of the input, for every `i`, with the length unchanged |
| Queries.ReverseReverse | app.py:112 | reversing twice gives back the original rows |
| Queries.ReverseMembers | app.py:112 | a row is listed after reversing exactly when it was listed before |
| Queries.ReversePermutation | app.py:112 | reversing keeps every row exactly as often as it occurs |
| Queries.ReverseAppend | app.py:112 | a row appended last to the table comes first in the reversed list, followed by the old reversed list |
| Queries.ReverseDescending | app.py:112 | reversing rows whose ids ascend gives rows whose ids descend |
| Queries.StudentListNewestFirst | app.py:109-114 | the list holds exactly the students (same count, each in both), with ids strictly decreasing |
| Queries.Owned | app.py:143-160 | `WHERE student_id=?`: every selected row is in the table and belongs to the student, and every row of the student is selected |
| Queries.OwnedCount | app.py:143-160 | `WHERE student_id=?` keeps each of the student's rows exactly as many times as the table holds it, and no row of any other student |
| Queries.OwnedAscending | app.py:146 | selecting one student's rows keeps their ids ascending |
| Queries.LexTotal | app.py:152 | text comparison orders any two dates (or paid-on strings) one way or the other |
| Queries.InsertDesc | app.py:152 | inserting into a list sorted by descending key keeps it sorted and adds exactly that row |
| Queries.SortDesc | app.py:149-160 | `ORDER BY ... DESC` on text: the result is sorted by descending key and is a permutation of the input |
| Queries.CountAbsent | app.py:163 | the absence count never exceeds the number of entries |
| Queries.CountAbsentConcat | app.py:120 | counting absences over two lists joined is the sum of the two counts |
| Queries.CountAbsentPermutation | app.py:163 | reordering the rows does not change the absence count |
| Queries.ProjectPermutation | app.py:162-171 | reordering rows does not change the multiset of a column's values, so neither the order of the report's grades nor that of its payments affects what is averaged or summed |
| Queries.ReportSummaryCounts | app.py:162-172 | the report's `attendance_entries` is the number of the student's attendance rows, its `absent_count` the number among them with status absent, and the second never exceeds the first |
| Queries.ReportTotals | app.py:143-171 | the scores the report averages and the amounts it sums are, as multisets, those of the student's own grade and payment rows |
| Queries.ReportGradesNewestFirst | app.py:143-148 | the report's grades are exactly the student's grades, with ids strictly decreasing |
| Queries.ReportDatesDescending | app.py:149-160 | the report's attendance and payments are permutations of the student's rows, sorted by date and paid-on, descending |
| Queries.ReportOutcome | app.py:131-141 | a report path with no valid id answers 400 "Invalid student id" before any lookup; an unknown id answers 404 "Student not found"; otherwise 200 with the report built for the student the lookup finds, whose id is the one in the path |
| Handler.PostPreservesWellFormed | app.py:181-265 | every POST, refused or not, keeps ids ascending and every grade, attendance and payment row pointing at an existing student |
| Handler.PostOutcome | app.py:181-265 | a body that is not JSON is refused with 400 on every path; an unknown path gets the bare 404 page; JSON answers are 201, 400 or 404; a refused request changes nothing; a write that goes through keeps every existing row and adds exactly one |
| Handler.CreatedStudentIsNewest | app.py:193-200 | a new student answers 201 with id one past the counter; that id exceeds every existing id; looking it up finds the new row; the student list becomes that row followed by the old list |
| Handler.CreateTwiceListsNewestFirst | app.py:109-114 | after adding A and then B, the list starts with B then A, and B's id is larger |
| Handler.RecordedAttendanceCounts | app.py:238-243 | a recorded attendance row adds one entry to that student's report; the report's and the dashboard's absent counts rise by exactly one for `absent` and not at all otherwise |
| Handler.RecordedPaymentInReport | app.py:258-263 | a recorded payment appears in that student's report payments, which grow by exactly one |
| Handler.RecordedGradeHeadsReport | app.py:216-221 | a recorded grade comes first in that student's report grades, followed by the grades as they were |
| Handler.Store.constructor | app.py:21-65 | the store starts as the empty, well-formed database |
| Handler.Store.AddStudent | app.py:193-199 | the INSERT appends the row with the next id, answers that id and keeps the invariant |
| Handler.Store.AddGrade | app.py:216-220 | the INSERT of a grade for an existing student appends exactly that row and keeps the invariant |
| Handler.Store.AddAttendance | app.py:238-242 | likewise for attendance |
| Handler.Store.AddPayment | app.py:258-262 | likewise for payments |
| Handler.Store.CreateStudent | app.py:187-200 | the early-return handler answers and updates the tables exactly as `CheckStudent` decides, keeping the invariant |
| Handler.Store.RecordGrade | app.py:202-221 | the handler's checks, run in sequence, answer and update exactly as `CheckGrade` decides |
| Handler.Store.RecordAttendance | app.py:223-243 | likewise with `CheckAttendance` |
| Handler.Store.RecordPayment | app.py:245-263 | likewise with `CheckPayment` |
| Handler.Store.Post | app.py:181-265 | `do_POST`: the response and the new tables are those of `PostStep` on the old tables, and the invariant holds |

## Left out

- The SQLite engine itself is not modelled. Tables are sequences in insertion order, and each SELECT is a function over them. The SQL text, transactions, `commit` and the foreign-key clauses (which SQLite leaves unenforced) are not part of the model.
- The HTTP server, threads, headers and `Content-Length` are not modelled, nor is writing responses to the socket. `_send_json` and `send_error` are `Response` values.
- `_send_file` is a `File` response. Whether the static file exists (200 or 404) is a file-system question and is left open.
- `urlparse`: paths are taken already parsed, so query strings and fragments are not modelled.
- `_parse_body`: the model receives the decoded body. An empty body counts as an empty object.
- JSON bodies that decode to an array, a string, a number or a boolean are not modelled: the decoded body is always an object (`Payload`). In `app.py` such bodies take several exits:
  - On `/api/students`, `payload.get` raises AttributeError (app.py:188). It is not caught, so no JSON answer is sent.
  - On the other three write paths, a number or boolean makes `k not in payload` raise TypeError (app.py:204, 225, 247). It is not caught either.
  - There a list is searched by element and a string by substring. A missing key gives the 400 "... are required" answer. A body that has every key makes `payload["student_id"]` raise TypeError, which is caught and answered with the path's 400 numeric message (app.py:206-210, 227-230, 249-253).
  - On any other path the answer is the bare 404 page, whatever the body.
- Python's `json` decodes `Infinity`, `NaN` and out-of-range literals such as `1e400` to infinite or NaN floats. `Json.Value` holds floats as exact reals, so it has no such values. In `app.py`, `int()` of an infinite float (app.py:207, 228, 250) and `float()` of an integer beyond about 1.8e308 (app.py:208, 251) raise OverflowError. The handler does not catch it, so no answer is sent. The model has no outcome without an answer. `Coercion.floatOf` returning `None` always stands for the caught TypeError or ValueError.
- `int()` of a string, `float()` of any value, and `str()` of floats, lists and objects come from the `Coercion` parameter. This also covers which strings `float()` reads as finite numbers and the 4300-digit limit of `int()`, a ValueError that becomes the 400 numeric answer. `Coercion.floatOf` yields a `real`, so it has no value for the strings `"nan"`, `"inf"` and `"infinity"` that `float()` accepts.
- Validation.CheckGrade: a `score` that `float()` reads as NaN (the string `"nan"`, or the JSON literal `NaN`) passes every check in `app.py` (app.py:208). SQLite stores the bound NaN as NULL, which breaks `score REAL NOT NULL` (app.py:39). The resulting `sqlite3.IntegrityError` at app.py:216 is not caught: no answer is sent and no row is kept. The model has no NaN and no outcome without an answer, so it does not capture this exit. An infinite score is stored in `app.py`, but the model cannot represent it either.
- Validation.CheckPayment: the same holds for an `amount` read as NaN (app.py:251), which breaks `amount REAL NOT NULL` (app.py:57) at the INSERT at app.py:258, and likewise for an infinite amount.
- The dashboard fields `average_grade` and `paid_total` are floating-point results. The report's average and payments total are too. The model carries the scores and amounts they are computed from (`Queries.Scores`, `Queries.Amounts`), not the rounded numbers.
- `now_iso()` is a parameter.
- `isdigit()` accepts non-ASCII digits. `int()` then rejects some of them, for example `²`, and the request fails with an uncaught error. The model accepts only ASCII digit strings as report ids.
- Ids larger than SQLite's 64-bit integers make parameter binding raise. The model's ids are unbounded integers.
- `ORDER BY date DESC` and `ORDER BY paid_on DESC` leave the order of rows with equal keys to SQLite. `Queries.SortDesc` fixes one order. The proved properties are that the result is sorted and is a permutation, and nothing else about ties.
- The `with get_conn()` connection handling, `init_db` on an existing file, `run`, and the environment variables for host and port are not modelled.

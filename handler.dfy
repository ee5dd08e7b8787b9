/**
 * The write side of the handler (do_POST). `PostStep` says what a request does
 * to the database and what it answers; class `Store` holds the tables and runs
 * each endpoint's checks one by one with early return, as the handler does.
 */
module Handler {
  import opened Wrappers
  import opened Json
  import opened Schema
  import opened Http
  import opened Validation
  import opened Queries

  const GradesPath := "/api/grades"
  const AttendancePath := "/api/attendance"
  const PaymentsPath := "/api/payments"
  const InvalidJson := "Invalid JSON"
  const StudentAdded := "Student added"
  const GradeRecorded := "Grade recorded"
  const AttendanceRecorded := "Attendance recorded"
  const PaymentRecorded := "Payment recorded"

  /** A response together with the database after the request. */
  datatype Step = Step(resp: Response, db: Db)

  /** What a refused write answers: its status code and message; the database is untouched. */
  function Refused(db: Db, code: int, error: string): Step
  {
    Step(JsonResponse(code, Error(error)), db)
  }

  /** POST /api/students once it is decided: add the row and answer its id, or refuse. */
  function StudentOutcome(db: Db, d: Decision<StudentFields>, now: string): Step
  {
    match d
    case Rejected(code, error) => Refused(db, code, error)
    case Accepted(f) =>
      Step(JsonResponse(CREATED, Added(db.studentSeq + 1, StudentAdded)),
           InsertStudent(db, f.name, f.className, f.parentPhone, now))
  }

  function GradeOutcome(db: Db, d: Decision<GradeFields>, now: string): Step
  {
    match d
    case Rejected(code, error) => Refused(db, code, error)
    case Accepted(f) =>
      Step(JsonResponse(CREATED, Recorded(GradeRecorded)), InsertGrade(db, f.studentId, f.subject, f.score, f.term, now))
  }

  function AttendanceOutcome(db: Db, d: Decision<AttendanceFields>, now: string): Step
  {
    match d
    case Rejected(code, error) => Refused(db, code, error)
    case Accepted(f) =>
      Step(JsonResponse(CREATED, Recorded(AttendanceRecorded)), InsertAttendance(db, f.studentId, f.date, f.status, now))
  }

  function PaymentOutcome(db: Db, d: Decision<PaymentFields>, now: string): Step
  {
    match d
    case Rejected(code, error) => Refused(db, code, error)
    case Accepted(f) =>
      Step(JsonResponse(CREATED, Recorded(PaymentRecorded)), InsertPayment(db, f.studentId, f.amount, f.term, f.paidOn, now))
  }

  function CreateStudentStep(db: Db, p: Payload, conv: Coercion, now: string): Step
  {
    StudentOutcome(db, CheckStudent(p, conv), now)
  }

  function RecordGradeStep(db: Db, p: Payload, conv: Coercion, now: string): Step
  {
    GradeOutcome(db, CheckGrade(p, conv, db.students), now)
  }

  function RecordAttendanceStep(db: Db, p: Payload, conv: Coercion, now: string): Step
  {
    AttendanceOutcome(db, CheckAttendance(p, conv, db.students), now)
  }

  function RecordPaymentStep(db: Db, p: Payload, conv: Coercion, now: string): Step
  {
    PaymentOutcome(db, CheckPayment(p, conv, db.students), now)
  }

  /**
   * A POST request for `path` whose body decoded to `body` (`None`: not valid
   * JSON), handled at time `now`.
   */
  function PostStep(db: Db, path: string, body: Option<Payload>, conv: Coercion, now: string): Step
  {
    match body
    case None => Step(JsonResponse(BAD_REQUEST, Error(InvalidJson)), db)
    case Some(p) =>
      if path == StudentsPath then CreateStudentStep(db, p, conv, now)
      else if path == GradesPath then RecordGradeStep(db, p, conv, now)
      else if path == AttendancePath then RecordAttendanceStep(db, p, conv, now)
      else if path == PaymentsPath then RecordPaymentStep(db, p, conv, now)
      else Step(SendError(NOT_FOUND), db)
  }

  function TotalRows(db: Db): nat
  {
    |db.students| + |db.grades| + |db.attendance| + |db.payments|
  }

  /** Every table of `db'` starts with the rows of the same table in `db`. */
  predicate Extends(db: Db, db': Db)
  {
    db.students <= db'.students && db.grades <= db'.grades
    && db.attendance <= db'.attendance && db.payments <= db'.payments
  }

  /** Every write keeps the database well formed: ids ascending and referential integrity. */
  lemma PostPreservesWellFormed(db: Db, path: string, body: Option<Payload>, conv: Coercion, now: string)
    requires WellFormed(db)
    ensures WellFormed(PostStep(db, path, body, conv, now).db)
  {
    if body.Some? {
      var p := body.value;
      if path == StudentsPath {
        var d := CheckStudent(p, conv);
        if d.Accepted? { InsertStudentWellFormed(db, d.fields.name, d.fields.className, d.fields.parentPhone, now); }
      } else if path == GradesPath {
        var d := CheckGrade(p, conv, db.students);
        if d.Accepted? { InsertGradeWellFormed(db, d.fields.studentId, d.fields.subject, d.fields.score, d.fields.term, now); }
      } else if path == AttendancePath {
        var d := CheckAttendance(p, conv, db.students);
        if d.Accepted? { InsertAttendanceWellFormed(db, d.fields.studentId, d.fields.date, d.fields.status, now); }
      } else if path == PaymentsPath {
        var d := CheckPayment(p, conv, db.students);
        if d.Accepted? { InsertPaymentWellFormed(db, d.fields.studentId, d.fields.amount, d.fields.term, d.fields.paidOn, now); }
      }
    }
  }

  /**
   * Invalid JSON is refused with 400 on every path; an unknown path gets the bare
   * 404 page; a refused request changes nothing; a request that goes through
   * appends exactly one row to exactly one table and keeps every existing row.
   */
  lemma PostOutcome(db: Db, path: string, body: Option<Payload>, conv: Coercion, now: string)
    ensures var s := PostStep(db, path, body, conv, now);
      && (body.None? ==> s.resp == JsonResponse(BAD_REQUEST, Error(InvalidJson)))
      && (body.Some? && path !in {StudentsPath, GradesPath, AttendancePath, PaymentsPath} ==>
            s.resp == SendError(NOT_FOUND))
      && (s.resp.JsonResponse? ==> s.resp.code == CREATED || s.resp.code == BAD_REQUEST || s.resp.code == NOT_FOUND)
      && (!IsCreated(s.resp) ==> s.db == db)
      && (IsCreated(s.resp) ==> Extends(db, s.db) && TotalRows(s.db) == TotalRows(db) + 1)
  {
  }

  /**
   * A student created through POST /api/students gets an id larger than every
   * existing one, can be looked up by it, and heads the student list, followed
   * by the list as it was.
   */
  lemma CreatedStudentIsNewest(db: Db, d: Decision<StudentFields>, now: string)
    requires IdsAscending(db.students, StudentId, db.studentSeq)
    requires d.Accepted?
    ensures var s := StudentOutcome(db, d, now);
      && s.resp == JsonResponse(CREATED, Added(db.studentSeq + 1, StudentAdded))
      && (forall i :: 0 <= i < |db.students| ==> db.students[i].id < db.studentSeq + 1)
      && FindStudent(s.db.students, db.studentSeq + 1) == Some(Student(db.studentSeq + 1, d.fields.name, d.fields.className, d.fields.parentPhone, now))
      && ListStudents(s.db) == [Student(db.studentSeq + 1, d.fields.name, d.fields.className, d.fields.parentPhone, now)] + ListStudents(db)
  {
    var row := Student(db.studentSeq + 1, d.fields.name, d.fields.className, d.fields.parentPhone, now);
    var s := StudentOutcome(db, d, now);
    assert s.db.students == db.students + [row];
    FindAfterAppend(db.students, row);
    assert ListStudents(s.db) == [row] + ListStudents(db);
  }

  /** Looking up the id of a row appended after rows with smaller ids finds that row. */
  lemma {:induction false} FindAfterAppend(students: seq<Student>, row: Student)
    requires forall i :: 0 <= i < |students| ==> students[i].id < row.id
    ensures FindStudent(students + [row], row.id) == Some(row)
  {
    if students != [] {
      assert (students + [row])[1..] == students[1..] + [row];
      FindAfterAppend(students[1..], row);
    }
  }

  /** Creating A and then B lists B before A. */
  lemma CreateTwiceListsNewestFirst(db: Db, a: Decision<StudentFields>, b: Decision<StudentFields>, t1: string, t2: string)
    requires WellFormed(db)
    requires a.Accepted? && b.Accepted?
    ensures var s1 := StudentOutcome(db, a, t1);
      var s2 := StudentOutcome(s1.db, b, t2);
      && ListStudents(s2.db)[0].id == s2.resp.body.id
      && ListStudents(s2.db)[1].id == s1.resp.body.id
      && s1.resp.body.id < s2.resp.body.id
  {
    var s1 := StudentOutcome(db, a, t1);
    CreatedStudentIsNewest(db, a, t1);
    InsertStudentWellFormed(db, a.fields.name, a.fields.className, a.fields.parentPhone, t1);
    CreatedStudentIsNewest(s1.db, b, t2);
  }

  lemma {:induction false} OwnedAppend<T>(rows: seq<T>, owner: T -> int, sid: int, x: T)
    ensures Owned(rows + [x], owner, sid) == Owned(rows, owner, sid) + (if owner(x) == sid then [x] else [])
  {
    assert (rows + [x])[..|rows|] == rows;
  }

  /**
   * Recording attendance adds one entry to that student's report; when the status
   * is `absent` it raises both the report's and the dashboard's absent count by
   * exactly one, and otherwise leaves them as they were.
   */
  lemma RecordedAttendanceCounts(db: Db, d: Decision<AttendanceFields>, now: string, st: Student)
    requires d.Accepted? && st.id == d.fields.studentId
    ensures var db', bump := AttendanceOutcome(db, d, now).db, if d.fields.status == Absent then 1 else 0;
      && DashboardOf(db').absentCount == DashboardOf(db).absentCount + bump
      && BuildReport(db', st).summary.attendanceEntries == BuildReport(db, st).summary.attendanceEntries + 1
      && BuildReport(db', st).summary.absentCount == BuildReport(db, st).summary.absentCount + bump
  {
    var f := d.fields;
    var db' := AttendanceOutcome(db, d, now).db;
    var row := Attendance(db.attendanceSeq + 1, f.studentId, f.date, f.status, now);
    assert db'.attendance == db.attendance + [row];
    AbsentCountAppend(db.attendance, row);
    var mine := Owned(db.attendance, AttendanceOwner, st.id);
    OwnedAppend(db.attendance, AttendanceOwner, st.id, row);
    assert Owned(db'.attendance, AttendanceOwner, st.id) == mine + [row];
    AbsentCountAppend(mine, row);
    ReportSummaryCounts(db, st);
    ReportSummaryCounts(db', st);
  }

  lemma AbsentCountAppend(rows: seq<Attendance>, row: Attendance)
    ensures |rows + [row]| == |rows| + 1
    ensures CountAbsent(rows + [row]) == CountAbsent(rows) + if row.status == Absent then 1 else 0
  {
    CountAbsentConcat(rows, [row]);
  }

  /** A recorded payment shows up among that student's report payments. */
  lemma RecordedPaymentInReport(db: Db, d: Decision<PaymentFields>, now: string)
    requires d.Accepted?
    ensures var f, db' := d.fields, PaymentOutcome(db, d, now).db;
      && |PaymentsOf(db', f.studentId)| == |PaymentsOf(db, f.studentId)| + 1
      && Payment(db.paymentSeq + 1, f.studentId, f.amount, f.term, f.paidOn, now) in PaymentsOf(db', f.studentId)
  {
    var f := d.fields;
    var db' := PaymentOutcome(db, d, now).db;
    var row := Payment(db.paymentSeq + 1, f.studentId, f.amount, f.term, f.paidOn, now);
    assert db'.payments == db.payments + [row];
    OwnedAppend(db.payments, PaymentOwner, f.studentId, row);
    var mine := Owned(db'.payments, PaymentOwner, f.studentId);
    var sorted := PaymentsOf(db', f.studentId);
    assert row in multiset(mine);
    assert |sorted| == |multiset(sorted)| == |multiset(mine)| == |mine|;
    var mineBefore := Owned(db.payments, PaymentOwner, f.studentId);
    var before := PaymentsOf(db, f.studentId);
    assert |before| == |multiset(before)| == |multiset(mineBefore)| == |mineBefore|;
  }

  /** A recorded grade heads that student's report grades (newest first). */
  lemma RecordedGradeHeadsReport(db: Db, d: Decision<GradeFields>, now: string)
    requires d.Accepted?
    ensures var f, db' := d.fields, GradeOutcome(db, d, now).db;
      GradesOf(db', f.studentId) == [Grade(db.gradeSeq + 1, f.studentId, f.subject, f.score, f.term, now)] + GradesOf(db, f.studentId)
  {
    var f := d.fields;
    var row := Grade(db.gradeSeq + 1, f.studentId, f.subject, f.score, f.term, now);
    assert GradeOutcome(db, d, now).db.grades == db.grades + [row];
    OwnedAppend(db.grades, GradeOwner, f.studentId, row);
    ReverseAppend(Owned(db.grades, GradeOwner, f.studentId), row);
  }

  /** CheckStudent in terms of the three stripped fields the handler reads. */
  lemma CheckStudentFields(p: Payload, conv: Coercion)
    ensures var name, className := StrippedField(conv, p, "name"), StrippedField(conv, p, "class_name");
      CheckStudent(p, conv) ==
        if name == [] || className == [] then Rejected(BAD_REQUEST, StudentRequired)
        else Accepted(StudentFields(name, className, StrippedField(conv, p, "parent_phone")))
  {
  }

  lemma StudentRefused(db: Db, code: int, error: string, now: string)
    ensures StudentOutcome(db, Rejected(code, error), now) == Step(JsonResponse(code, Error(error)), db)
  {
  }

  lemma StudentAccepted(db: Db, f: StudentFields, now: string)
    ensures StudentOutcome(db, Accepted(f), now) ==
      Step(JsonResponse(CREATED, Added(db.studentSeq + 1, StudentAdded)), InsertStudent(db, f.name, f.className, f.parentPhone, now))
  {
  }

  /** The tables, held in memory, and the handler's write endpoints. */
  class Store {
    var students: seq<Student>
    var grades: seq<Grade>
    var attendance: seq<Attendance>
    var payments: seq<Payment>
    var studentSeq: nat
    var gradeSeq: nat
    var attendanceSeq: nat
    var paymentSeq: nat

    function State(): Db
      reads this
    {
      Db(students, grades, attendance, payments, studentSeq, gradeSeq, attendanceSeq, paymentSeq)
    }

    predicate Valid()
      reads this
    {
      WellFormed(State())
    }

    /** init_db on a fresh database file: four empty tables. */
    constructor ()
      ensures Valid() && State() == EmptyDb
    {
      students, grades, attendance, payments := [], [], [], [];
      studentSeq, gradeSeq, attendanceSeq, paymentSeq := 0, 0, 0, 0;
    }

    /** The INSERT into students; answers the new row's id (`cur.lastrowid`). */
    method AddStudent(name: string, className: string, parentPhone: string, now: string) returns (id: int)
      requires Valid()
      modifies this
      ensures Valid()
      ensures id == old(studentSeq) + 1
      ensures State() == InsertStudent(old(State()), name, className, parentPhone, now)
    {
      InsertStudentWellFormed(State(), name, className, parentPhone, now);
      id := studentSeq + 1;
      students := students + [Student(id, name, className, parentPhone, now)];
      studentSeq := id;
    }

    method AddGrade(sid: int, subject: string, score: real, term: string, now: string)
      requires Valid() && HasStudent(students, sid)
      modifies this
      ensures Valid()
      ensures State() == InsertGrade(old(State()), sid, subject, score, term, now)
    {
      InsertGradeWellFormed(State(), sid, subject, score, term, now);
      grades := grades + [Grade(gradeSeq + 1, sid, subject, score, term, now)];
      gradeSeq := gradeSeq + 1;
    }

    method AddAttendance(sid: int, date: string, status: Status, now: string)
      requires Valid() && HasStudent(students, sid)
      modifies this
      ensures Valid()
      ensures State() == InsertAttendance(old(State()), sid, date, status, now)
    {
      InsertAttendanceWellFormed(State(), sid, date, status, now);
      attendance := attendance + [Attendance(attendanceSeq + 1, sid, date, status, now)];
      attendanceSeq := attendanceSeq + 1;
    }

    method AddPayment(sid: int, amount: real, term: string, paidOn: string, now: string)
      requires Valid() && HasStudent(students, sid)
      modifies this
      ensures Valid()
      ensures State() == InsertPayment(old(State()), sid, amount, term, paidOn, now)
    {
      InsertPaymentWellFormed(State(), sid, amount, term, paidOn, now);
      payments := payments + [Payment(paymentSeq + 1, sid, amount, term, paidOn, now)];
      paymentSeq := paymentSeq + 1;
    }

    method CreateStudent(p: Payload, conv: Coercion, now: string) returns (resp: Response)
      requires Valid()
      modifies this
      ensures Valid()
      ensures Step(resp, State()) == CreateStudentStep(old(State()), p, conv, now)
    {
      var name := StrippedField(conv, p, "name");
      var className := StrippedField(conv, p, "class_name");
      var parentPhone := StrippedField(conv, p, "parent_phone");
      CheckStudentFields(p, conv);
      if name == [] || className == [] {
        assert CheckStudent(p, conv) == Rejected(BAD_REQUEST, StudentRequired);
        StudentRefused(State(), BAD_REQUEST, StudentRequired, now);
        return JsonResponse(BAD_REQUEST, Error(StudentRequired));
      }
      assert CheckStudent(p, conv) == Accepted(StudentFields(name, className, parentPhone));
      ghost var before := State();
      var id := AddStudent(name, className, parentPhone, now);
      resp := JsonResponse(CREATED, Added(id, StudentAdded));
      StudentAccepted(before, StudentFields(name, className, parentPhone), now);
      assert id == before.studentSeq + 1;
      assert resp == JsonResponse(CREATED, Added(before.studentSeq + 1, StudentAdded));
      assert State() == InsertStudent(before, name, className, parentPhone, now);
    }

    method RecordGrade(p: Payload, conv: Coercion, now: string) returns (resp: Response)
      requires Valid()
      modifies this
      ensures Valid()
      ensures Step(resp, State()) == RecordGradeStep(old(State()), p, conv, now)
    {
      if !HasKeys(p, GradeKeys) {
        return JsonResponse(BAD_REQUEST, Error(GradeRequired));
      }
      var sid := ToInt(conv, p["student_id"]);
      if sid.None? {
        return JsonResponse(BAD_REQUEST, Error(GradeNumeric));
      }
      var score := conv.floatOf(p["score"]);
      if score.None? {
        return JsonResponse(BAD_REQUEST, Error(GradeNumeric));
      }
      if FindStudent(students, sid.value).None? {
        return JsonResponse(NOT_FOUND, Error(StudentNotFound));
      }
      var subject := StrippedField(conv, p, "subject");
      var term := StrippedField(conv, p, "term");
      AddGrade(sid.value, subject, score.value, term, now);
      resp := JsonResponse(CREATED, Recorded(GradeRecorded));
    }

    method RecordAttendance(p: Payload, conv: Coercion, now: string) returns (resp: Response)
      requires Valid()
      modifies this
      ensures Valid()
      ensures Step(resp, State()) == RecordAttendanceStep(old(State()), p, conv, now)
    {
      if !HasKeys(p, AttendanceKeys) {
        return JsonResponse(BAD_REQUEST, Error(AttendanceRequired));
      }
      var sid := ToInt(conv, p["student_id"]);
      if sid.None? {
        return JsonResponse(BAD_REQUEST, Error(AttendanceNumeric));
      }
      var status := ParseStatus(StrippedField(conv, p, "status"));
      if status.None? {
        return JsonResponse(BAD_REQUEST, Error(StatusInvalid));
      }
      if FindStudent(students, sid.value).None? {
        return JsonResponse(NOT_FOUND, Error(StudentNotFound));
      }
      var date := StrippedField(conv, p, "date");
      AddAttendance(sid.value, date, status.value, now);
      resp := JsonResponse(CREATED, Recorded(AttendanceRecorded));
    }

    method RecordPayment(p: Payload, conv: Coercion, now: string) returns (resp: Response)
      requires Valid()
      modifies this
      ensures Valid()
      ensures Step(resp, State()) == RecordPaymentStep(old(State()), p, conv, now)
    {
      if !HasKeys(p, PaymentKeys) {
        return JsonResponse(BAD_REQUEST, Error(PaymentRequired));
      }
      var sid := ToInt(conv, p["student_id"]);
      if sid.None? {
        return JsonResponse(BAD_REQUEST, Error(PaymentNumeric));
      }
      var amount := conv.floatOf(p["amount"]);
      if amount.None? {
        return JsonResponse(BAD_REQUEST, Error(PaymentNumeric));
      }
      if FindStudent(students, sid.value).None? {
        return JsonResponse(NOT_FOUND, Error(StudentNotFound));
      }
      var term := StrippedField(conv, p, "term");
      var paidOn := StrippedField(conv, p, "paid_on");
      AddPayment(sid.value, amount.value, term, paidOn, now);
      resp := JsonResponse(CREATED, Recorded(PaymentRecorded));
    }

    /** do_POST: reject a body that is not JSON, then dispatch on the path. */
    method Post(path: string, body: Option<Payload>, conv: Coercion, now: string) returns (resp: Response)
      requires Valid()
      modifies this
      ensures Valid()
      ensures Step(resp, State()) == PostStep(old(State()), path, body, conv, now)
    {
      if body.None? {
        return JsonResponse(BAD_REQUEST, Error(InvalidJson));
      }
      var p := body.value;
      if path == StudentsPath {
        resp := CreateStudent(p, conv, now);
      } else if path == GradesPath {
        resp := RecordGrade(p, conv, now);
      } else if path == AttendancePath {
        resp := RecordAttendance(p, conv, now);
      } else if path == PaymentsPath {
        resp := RecordPayment(p, conv, now);
      } else {
        resp := SendError(NOT_FOUND);
      }
    }
  }
}

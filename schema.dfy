/**
 * The four tables created by init_db, held in memory: rows in insertion order,
 * plus the per-table counter that SQLite's AUTOINCREMENT keeps (the largest id
 * handed out so far).
 */
module Schema {
  import opened Wrappers

  /** The values the attendance table's CHECK constraint admits. */
  datatype Status = Present | Late | Absent

  /** The text stored in the `status` column. */
  function StatusName(st: Status): string
  {
    match st
    case Present => "present"
    case Late => "late"
    case Absent => "absent"
  }

  /** Membership in {"present", "late", "absent"}, as the status that text names. */
  function ParseStatus(t: string): (r: Option<Status>)
    ensures r.Some? <==> t in {"present", "late", "absent"}
    ensures r.Some? ==> StatusName(r.value) == t
  {
    if t == "present" then Some(Present)
    else if t == "late" then Some(Late)
    else if t == "absent" then Some(Absent)
    else None
  }

  /** Every status reads back from the text it is stored as. */
  lemma StatusRoundTrip(st: Status)
    ensures ParseStatus(StatusName(st)) == Some(st)
  {
  }

  datatype Student = Student(id: int, name: string, className: string, parentPhone: string, createdAt: string)
  datatype Grade = Grade(id: int, studentId: int, subject: string, score: real, term: string, createdAt: string)
  datatype Attendance = Attendance(id: int, studentId: int, date: string, status: Status, createdAt: string)
  datatype Payment = Payment(id: int, studentId: int, amount: real, term: string, paidOn: string, createdAt: string)

  /** A snapshot of the database: each table's rows in insertion order and its AUTOINCREMENT counter. */
  datatype Db = Db(
    students: seq<Student>,
    grades: seq<Grade>,
    attendance: seq<Attendance>,
    payments: seq<Payment>,
    studentSeq: nat,
    gradeSeq: nat,
    attendanceSeq: nat,
    paymentSeq: nat)

  /** The database init_db creates on a fresh file. */
  const EmptyDb: Db := Db([], [], [], [], 0, 0, 0, 0)

  function GradeOwner(g: Grade): int { g.studentId }
  function AttendanceOwner(a: Attendance): int { a.studentId }
  function PaymentOwner(p: Payment): int { p.studentId }

  function StudentId(s: Student): int { s.id }
  function GradeId(g: Grade): int { g.id }
  function AttendanceId(a: Attendance): int { a.id }
  function PaymentId(p: Payment): int { p.id }

  /** Keys strictly increase along `s`. */
  predicate KeysAscending<T>(s: seq<T>, key: T -> int)
  {
    forall i, j :: 0 <= i < j < |s| ==> key(s[i]) < key(s[j])
  }

  /**
   * AUTOINCREMENT ids of one table: each between 1 and the counter, strictly
   * increasing in insertion order (so no id is ever used twice).
   */
  predicate IdsAscending<T>(rows: seq<T>, id: T -> int, last: nat)
  {
    && (forall i :: 0 <= i < |rows| ==> 1 <= id(rows[i]) <= last)
    && KeysAscending(rows, id)
  }

  /** `SELECT id FROM students WHERE id=?` finds a row. */
  predicate HasStudent(students: seq<Student>, id: int)
  {
    exists i :: 0 <= i < |students| && students[i].id == id
  }

  /** Referential integrity: every grade, attendance and payment row names an existing student. */
  predicate Integrity(db: Db)
  {
    && (forall g :: g in db.grades ==> HasStudent(db.students, g.studentId))
    && (forall a :: a in db.attendance ==> HasStudent(db.students, a.studentId))
    && (forall p :: p in db.payments ==> HasStudent(db.students, p.studentId))
  }

  /** The invariant every reachable database satisfies. */
  predicate WellFormed(db: Db)
  {
    && IdsAscending(db.students, StudentId, db.studentSeq)
    && IdsAscending(db.grades, GradeId, db.gradeSeq)
    && IdsAscending(db.attendance, AttendanceId, db.attendanceSeq)
    && IdsAscending(db.payments, PaymentId, db.paymentSeq)
    && Integrity(db)
  }

  /** The empty database is well formed. */
  lemma EmptyWellFormed()
    ensures WellFormed(EmptyDb)
  {
  }

  /** Appending a row whose id is one past the counter keeps the ids ascending. */
  lemma {:induction false} AppendKeepsAscending<T>(rows: seq<T>, id: T -> int, last: nat, x: T)
    requires IdsAscending(rows, id, last)
    requires id(x) == last + 1
    ensures IdsAscending(rows + [x], id, last + 1)
    ensures forall i :: 0 <= i < |rows| ==> id(rows[i]) < id(x)
  {
    var r := rows + [x];
    forall i, j | 0 <= i < j < |r| ensures id(r[i]) < id(r[j]) {
      if j < |rows| { assert r[i] == rows[i] && r[j] == rows[j]; }
      else { assert r[i] == rows[i]; }
    }
  }

  /** The INSERT into students: the new row gets the next AUTOINCREMENT id. */
  function InsertStudent(db: Db, name: string, className: string, parentPhone: string, now: string): Db
  {
    db.(students := db.students + [Student(db.studentSeq + 1, name, className, parentPhone, now)],
        studentSeq := db.studentSeq + 1)
  }

  function InsertGrade(db: Db, studentId: int, subject: string, score: real, term: string, now: string): Db
  {
    db.(grades := db.grades + [Grade(db.gradeSeq + 1, studentId, subject, score, term, now)],
        gradeSeq := db.gradeSeq + 1)
  }

  function InsertAttendance(db: Db, studentId: int, date: string, status: Status, now: string): Db
  {
    db.(attendance := db.attendance + [Attendance(db.attendanceSeq + 1, studentId, date, status, now)],
        attendanceSeq := db.attendanceSeq + 1)
  }

  function InsertPayment(db: Db, studentId: int, amount: real, term: string, paidOn: string, now: string): Db
  {
    db.(payments := db.payments + [Payment(db.paymentSeq + 1, studentId, amount, term, paidOn, now)],
        paymentSeq := db.paymentSeq + 1)
  }

  /** A new student keeps the database well formed. */
  lemma InsertStudentWellFormed(db: Db, name: string, className: string, parentPhone: string, now: string)
    requires WellFormed(db)
    ensures WellFormed(InsertStudent(db, name, className, parentPhone, now))
  {
    var db' := InsertStudent(db, name, className, parentPhone, now);
    AppendKeepsAscending(db.students, StudentId, db.studentSeq, db'.students[|db.students|]);
    assert forall id :: HasStudent(db.students, id) ==> HasStudent(db'.students, id) by {
      forall id | HasStudent(db.students, id) ensures HasStudent(db'.students, id) {
        var i :| 0 <= i < |db.students| && db.students[i].id == id;
        assert db'.students[i] == db.students[i];
      }
    }
  }

  /** A grade for an existing student keeps the database well formed. */
  lemma InsertGradeWellFormed(db: Db, studentId: int, subject: string, score: real, term: string, now: string)
    requires WellFormed(db) && HasStudent(db.students, studentId)
    ensures WellFormed(InsertGrade(db, studentId, subject, score, term, now))
  {
    var db' := InsertGrade(db, studentId, subject, score, term, now);
    AppendKeepsAscending(db.grades, GradeId, db.gradeSeq, db'.grades[|db.grades|]);
  }

  /** An attendance row for an existing student keeps the database well formed. */
  lemma InsertAttendanceWellFormed(db: Db, studentId: int, date: string, status: Status, now: string)
    requires WellFormed(db) && HasStudent(db.students, studentId)
    ensures WellFormed(InsertAttendance(db, studentId, date, status, now))
  {
    var db' := InsertAttendance(db, studentId, date, status, now);
    AppendKeepsAscending(db.attendance, AttendanceId, db.attendanceSeq, db'.attendance[|db.attendance|]);
  }

  /** A payment for an existing student keeps the database well formed. */
  lemma InsertPaymentWellFormed(db: Db, studentId: int, amount: real, term: string, paidOn: string, now: string)
    requires WellFormed(db) && HasStudent(db.students, studentId)
    ensures WellFormed(InsertPayment(db, studentId, amount, term, paidOn, now))
  {
    var db' := InsertPayment(db, studentId, amount, term, paidOn, now);
    AppendKeepsAscending(db.payments, PaymentId, db.paymentSeq, db'.payments[|db.payments|]);
  }
}

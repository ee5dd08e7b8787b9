/**
 * The checks each POST endpoint runs on a decoded JSON object before it writes,
 * as a decision: reject with a status code and message, or accept the fields of
 * the row to insert. Checks run in a fixed order and the first failure decides.
 */
module Validation {
  import opened Wrappers
  import opened Json
  import opened Schema
  import opened Http

  datatype Decision<T> = Rejected(code: int, error: string) | Accepted(fields: T)

  datatype StudentFields = StudentFields(name: string, className: string, parentPhone: string)
  datatype GradeFields = GradeFields(studentId: int, subject: string, score: real, term: string)
  datatype AttendanceFields = AttendanceFields(studentId: int, date: string, status: Status)
  datatype PaymentFields = PaymentFields(studentId: int, amount: real, term: string, paidOn: string)

  const StudentRequired := "name and class_name are required"
  const GradeKeys: seq<string> := ["student_id", "subject", "score", "term"]
  const GradeRequired := "student_id, subject, score, term are required"
  const GradeNumeric := "student_id and score must be numeric"
  const AttendanceKeys: seq<string> := ["student_id", "date", "status"]
  const AttendanceRequired := "student_id, date, status are required"
  const AttendanceNumeric := "student_id must be numeric"
  const StatusInvalid := "status must be present|late|absent"
  const PaymentKeys: seq<string> := ["student_id", "amount", "term", "paid_on"]
  const PaymentRequired := "student_id, amount, term, paid_on are required"
  const PaymentNumeric := "student_id and amount must be numeric"
  const StudentNotFound := "Student not found"

  /** `not any(k not in payload for k in keys)`. */
  predicate HasKeys(p: Payload, keys: seq<string>)
  {
    forall k :: k in keys ==> k in p
  }

  /** Text with no whitespace at either end, as `strip()` leaves it. */
  predicate Trimmed(s: string)
  {
    s == [] || (!IsSpace(s[0]) && !IsSpace(s[|s| - 1]))
  }

  /** POST /api/students: `name` and `class_name` must be non-empty once stripped. */
  function CheckStudent(p: Payload, conv: Coercion): (d: Decision<StudentFields>)
    ensures d.Rejected? ==> d == Rejected(BAD_REQUEST, StudentRequired)
    ensures d.Accepted? <==> !Blank(Text(conv, p, "name")) && !Blank(Text(conv, p, "class_name"))
    ensures "name" !in p || "class_name" !in p ==> d.Rejected?
    ensures d.Accepted? ==>
      && d.fields.name != [] && Trimmed(d.fields.name)
      && d.fields.className != [] && Trimmed(d.fields.className)
      && Trimmed(d.fields.parentPhone)
    ensures d.Accepted? && "parent_phone" !in p ==> d.fields.parentPhone == ""
    ensures d.Accepted? ==>
      d.fields == StudentFields(StrippedField(conv, p, "name"), StrippedField(conv, p, "class_name"),
                                StrippedField(conv, p, "parent_phone"))
  {
    var name := StrippedField(conv, p, "name");
    var className := StrippedField(conv, p, "class_name");
    var parentPhone := StrippedField(conv, p, "parent_phone");
    if name == [] || className == [] then Rejected(BAD_REQUEST, StudentRequired)
    else Accepted(StudentFields(name, className, parentPhone))
  }

  /**
   * POST /api/grades: all four keys, then `int(student_id)` and `float(score)`,
   * then the student's existence. A 404 is only ever given to a request that
   * passed every format check.
   */
  function CheckGrade(p: Payload, conv: Coercion, students: seq<Student>): (d: Decision<GradeFields>)
    ensures !HasKeys(p, GradeKeys) ==> d == Rejected(BAD_REQUEST, GradeRequired)
    ensures HasKeys(p, GradeKeys) && (ToInt(conv, p["student_id"]).None? || conv.floatOf(p["score"]).None?) ==>
      d == Rejected(BAD_REQUEST, GradeNumeric)
    ensures d.Rejected? ==> d.code == BAD_REQUEST || d == Rejected(NOT_FOUND, StudentNotFound)
    ensures d.Rejected? && d.code == BAD_REQUEST ==>
      !HasKeys(p, GradeKeys) || ToInt(conv, p["student_id"]).None? || conv.floatOf(p["score"]).None?
    ensures HasKeys(p, GradeKeys) && ToInt(conv, p["student_id"]).Some? && conv.floatOf(p["score"]).Some? ==>
      && (d.Accepted? <==> HasStudent(students, ToInt(conv, p["student_id"]).value))
      && (!HasStudent(students, ToInt(conv, p["student_id"]).value) ==> d == Rejected(NOT_FOUND, StudentNotFound))
    ensures d.Rejected? && d.code == NOT_FOUND ==>
      && HasKeys(p, GradeKeys)
      && ToInt(conv, p["student_id"]).Some? && conv.floatOf(p["score"]).Some?
      && !HasStudent(students, ToInt(conv, p["student_id"]).value)
    ensures d.Accepted? ==>
      && HasKeys(p, GradeKeys)
      && ToInt(conv, p["student_id"]) == Some(d.fields.studentId)
      && conv.floatOf(p["score"]) == Some(d.fields.score)
      && HasStudent(students, d.fields.studentId)
      && d.fields.subject == StrippedField(conv, p, "subject") && Trimmed(d.fields.subject)
      && d.fields.term == StrippedField(conv, p, "term") && Trimmed(d.fields.term)
  {
    if !HasKeys(p, GradeKeys) then Rejected(BAD_REQUEST, GradeRequired)
    else
      match (ToInt(conv, p["student_id"]), conv.floatOf(p["score"]))
      case (Some(sid), Some(score)) =>
        if !HasStudent(students, sid) then Rejected(NOT_FOUND, StudentNotFound)
        else Accepted(GradeFields(sid, StrippedField(conv, p, "subject"), score, StrippedField(conv, p, "term")))
      case _ => Rejected(BAD_REQUEST, GradeNumeric)
  }

  /**
   * POST /api/attendance: the three keys, then `int(student_id)`, then the stripped
   * status, and only then the student's existence.
   */
  function CheckAttendance(p: Payload, conv: Coercion, students: seq<Student>): (d: Decision<AttendanceFields>)
    ensures !HasKeys(p, AttendanceKeys) ==> d == Rejected(BAD_REQUEST, AttendanceRequired)
    ensures HasKeys(p, AttendanceKeys) && ToInt(conv, p["student_id"]).None? ==>
      d == Rejected(BAD_REQUEST, AttendanceNumeric)
    ensures (HasKeys(p, AttendanceKeys) && ToInt(conv, p["student_id"]).Some? &&
             ParseStatus(StrippedField(conv, p, "status")).None?) ==>
      d == Rejected(BAD_REQUEST, StatusInvalid)
    ensures d.Rejected? ==> d.code == BAD_REQUEST || d == Rejected(NOT_FOUND, StudentNotFound)
    ensures d.Rejected? && d.code == BAD_REQUEST ==>
      (!HasKeys(p, AttendanceKeys) || ToInt(conv, p["student_id"]).None? ||
       ParseStatus(StrippedField(conv, p, "status")).None?)
    ensures (HasKeys(p, AttendanceKeys) && ToInt(conv, p["student_id"]).Some? &&
             ParseStatus(StrippedField(conv, p, "status")).Some?) ==>
      && (d.Accepted? <==> HasStudent(students, ToInt(conv, p["student_id"]).value))
      && (!HasStudent(students, ToInt(conv, p["student_id"]).value) ==> d == Rejected(NOT_FOUND, StudentNotFound))
    ensures d.Rejected? && d.code == NOT_FOUND ==>
      && HasKeys(p, AttendanceKeys)
      && ToInt(conv, p["student_id"]).Some?
      && ParseStatus(StrippedField(conv, p, "status")).Some?
      && !HasStudent(students, ToInt(conv, p["student_id"]).value)
    ensures d.Accepted? ==>
      && HasKeys(p, AttendanceKeys)
      && ToInt(conv, p["student_id"]) == Some(d.fields.studentId)
      && StatusName(d.fields.status) == StrippedField(conv, p, "status")
      && HasStudent(students, d.fields.studentId)
      && d.fields.date == StrippedField(conv, p, "date") && Trimmed(d.fields.date)
  {
    if !HasKeys(p, AttendanceKeys) then Rejected(BAD_REQUEST, AttendanceRequired)
    else
      match ToInt(conv, p["student_id"])
      case None => Rejected(BAD_REQUEST, AttendanceNumeric)
      case Some(sid) =>
        match ParseStatus(StrippedField(conv, p, "status"))
        case None => Rejected(BAD_REQUEST, StatusInvalid)
        case Some(status) =>
          if !HasStudent(students, sid) then Rejected(NOT_FOUND, StudentNotFound)
          else Accepted(AttendanceFields(sid, StrippedField(conv, p, "date"), status))
  }

  /** POST /api/payments: the four keys, then `int(student_id)` and `float(amount)`, then the student's existence. */
  function CheckPayment(p: Payload, conv: Coercion, students: seq<Student>): (d: Decision<PaymentFields>)
    ensures !HasKeys(p, PaymentKeys) ==> d == Rejected(BAD_REQUEST, PaymentRequired)
    ensures HasKeys(p, PaymentKeys) && (ToInt(conv, p["student_id"]).None? || conv.floatOf(p["amount"]).None?) ==>
      d == Rejected(BAD_REQUEST, PaymentNumeric)
    ensures d.Rejected? ==> d.code == BAD_REQUEST || d == Rejected(NOT_FOUND, StudentNotFound)
    ensures d.Rejected? && d.code == BAD_REQUEST ==>
      !HasKeys(p, PaymentKeys) || ToInt(conv, p["student_id"]).None? || conv.floatOf(p["amount"]).None?
    ensures HasKeys(p, PaymentKeys) && ToInt(conv, p["student_id"]).Some? && conv.floatOf(p["amount"]).Some? ==>
      && (d.Accepted? <==> HasStudent(students, ToInt(conv, p["student_id"]).value))
      && (!HasStudent(students, ToInt(conv, p["student_id"]).value) ==> d == Rejected(NOT_FOUND, StudentNotFound))
    ensures d.Rejected? && d.code == NOT_FOUND ==>
      && HasKeys(p, PaymentKeys)
      && ToInt(conv, p["student_id"]).Some? && conv.floatOf(p["amount"]).Some?
      && !HasStudent(students, ToInt(conv, p["student_id"]).value)
    ensures d.Accepted? ==>
      && HasKeys(p, PaymentKeys)
      && ToInt(conv, p["student_id"]) == Some(d.fields.studentId)
      && conv.floatOf(p["amount"]) == Some(d.fields.amount)
      && HasStudent(students, d.fields.studentId)
      && d.fields.term == StrippedField(conv, p, "term") && Trimmed(d.fields.term)
      && d.fields.paidOn == StrippedField(conv, p, "paid_on") && Trimmed(d.fields.paidOn)
  {
    if !HasKeys(p, PaymentKeys) then Rejected(BAD_REQUEST, PaymentRequired)
    else
      match (ToInt(conv, p["student_id"]), conv.floatOf(p["amount"]))
      case (Some(sid), Some(amount)) =>
        if !HasStudent(students, sid) then Rejected(NOT_FOUND, StudentNotFound)
        else Accepted(PaymentFields(sid, amount, StrippedField(conv, p, "term"), StrippedField(conv, p, "paid_on")))
      case _ => Rejected(BAD_REQUEST, PaymentNumeric)
  }

  /**
   * Format errors are found before the students table is consulted: a 400 from
   * any write endpoint is the same whatever students exist.
   */
  lemma FormatErrorsIgnoreStudents(p: Payload, conv: Coercion, s1: seq<Student>, s2: seq<Student>)
    ensures CheckGrade(p, conv, s1).Rejected? && CheckGrade(p, conv, s1).code == BAD_REQUEST ==>
      CheckGrade(p, conv, s2) == CheckGrade(p, conv, s1)
    ensures CheckAttendance(p, conv, s1).Rejected? && CheckAttendance(p, conv, s1).code == BAD_REQUEST ==>
      CheckAttendance(p, conv, s2) == CheckAttendance(p, conv, s1)
    ensures CheckPayment(p, conv, s1).Rejected? && CheckPayment(p, conv, s1).code == BAD_REQUEST ==>
      CheckPayment(p, conv, s2) == CheckPayment(p, conv, s1)
  {
  }

  /**
   * An attendance record with an unknown status for a student who does not
   * exist is refused with 400, not 404: the status is checked first.
   */
  lemma ExcusedForUnknownStudent(conv: Coercion, students: seq<Student>, sid: int)
    requires !HasStudent(students, sid)
    ensures CheckAttendance(
      map["student_id" := JInt(sid), "date" := JString("2024-01-01"), "status" := JString(" excused ")],
      conv, students) == Rejected(BAD_REQUEST, StatusInvalid)
  {
    var p := map["student_id" := JInt(sid), "date" := JString("2024-01-01"), "status" := JString(" excused ")];
    assert HasKeys(p, AttendanceKeys);
    assert ToInt(conv, p["student_id"]) == Some(sid);
    StripExcused();
    assert StrippedField(conv, p, "status") == "excused";
  }

  lemma StripExcused()
    ensures Strip(" excused ") == "excused"
  {
    var s := " excused ";
    assert SkipSpaces(s, 1) == 1;
    assert SkipSpacesBack(s, 1, 8) == 8;
  }
}

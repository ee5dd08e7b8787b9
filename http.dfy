/** What the handler sends back: a JSON document with a status code, a static file, or a bare error page. */
module Http {
  import opened Schema

  const OK := 200
  const CREATED := 201
  const BAD_REQUEST := 400
  const NOT_FOUND := 404

  /** The columns of the student row that a report shows (it leaves out created_at). */
  datatype StudentView = StudentView(id: int, name: string, className: string, parentPhone: string)
  datatype GradeView = GradeView(subject: string, score: real, term: string, createdAt: string)
  datatype AttendanceView = AttendanceView(date: string, status: Status)
  datatype PaymentView = PaymentView(amount: real, term: string, paidOn: string)

  /**
   * A report's summary. The average grade and the payments total are floating-point
   * results (0 when there are no grades); the model carries the values they are
   * computed from, in the order they are summed, instead of the rounded numbers.
   */
  datatype Summary = Summary(
    gradeScores: seq<real>,
    attendanceEntries: nat,
    absentCount: nat,
    paymentAmounts: seq<real>)

  datatype Report = Report(
    student: StudentView,
    summary: Summary,
    grades: seq<GradeView>,
    attendance: seq<AttendanceView>,
    payments: seq<PaymentView>)

  /** The dashboard; `gradeScores` and `paymentAmounts` stand for `ROUND(AVG(score), 2)` and `ROUND(SUM(amount), 2)`. */
  datatype Dashboard = Dashboard(
    students: nat,
    gradeScores: seq<real>,
    absentCount: nat,
    paymentAmounts: seq<real>)

  datatype Body =
    | Error(error: string)
    | Added(id: int, message: string)
    | Recorded(message: string)
    | StudentList(rows: seq<Student>)
    | DashboardBody(dashboard: Dashboard)
    | ReportBody(report: Report)

  datatype Response =
    | JsonResponse(code: int, body: Body)      // _send_json(payload, code)
    | File(name: string, contentType: string)  // _send_file: 200 with the file, or 404 when it is missing
    | SendError(code: int)                     // send_error(404, "Not Found")

  /** The response of a write that went through. */
  predicate IsCreated(r: Response)
  {
    r.JsonResponse? && r.code == CREATED
  }
}

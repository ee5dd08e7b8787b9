/**
 * The read side of the handler (do_GET): which rows each query selects, in
 * which order, and the integer aggregates computed over them.
 */
module Queries {
  import opened Wrappers
  import opened Json
  import opened Schema
  import opened Http

  const StudentsPath := "/api/students"
  const DashboardPath := "/api/dashboard"
  const ReportPrefix := "/api/reports/student/"

  // ---------------------------------------------------------------------------
  // The student id of a report path
  // ---------------------------------------------------------------------------

  /** The start of the slash-free run of characters that ends at `e`. */
  function SegmentStart(path: string, e: nat): (k: nat)
    requires e <= |path|
    ensures k <= e
    ensures forall j :: k <= j < e ==> path[j] != '/'
    ensures k == 0 || path[k - 1] == '/'
    decreases e
  {
    if e > 0 && path[e - 1] != '/' then SegmentStart(path, e - 1) else e
  }

  /** `path.rsplit("/", 1)[-1]`: the longest suffix of `path` that holds no slash. */
  function LastSegment(path: string): (seg: string)
    ensures |seg| <= |path| && seg == path[|path| - |seg|..]
    ensures forall i :: 0 <= i < |seg| ==> seg[i] != '/'
    ensures |seg| < |path| ==> path[|path| - |seg| - 1] == '/'
  {
    path[SegmentStart(path, |path|)..]
  }

  lemma {:induction false} SegmentStartAt(path: string, k: nat, e: nat)
    requires 0 < k <= e <= |path| && path[k - 1] == '/'
    requires forall j :: k <= j < e ==> path[j] != '/'
    ensures SegmentStart(path, e) == k
    decreases e
  {
    if e > k {
      SegmentStartAt(path, k, e - 1);
    }
  }

  /** Whatever precedes the last slash is ignored. */
  lemma LastSegmentAfterSlash(prefix: string, seg: string)
    requires forall i :: 0 <= i < |seg| ==> seg[i] != '/'
    ensures LastSegment(prefix + "/" + seg) == seg
  {
    var path := prefix + "/" + seg;
    var k := |prefix| + 1;
    assert path[k - 1] == '/';
    assert forall j :: k <= j < |path| ==> path[j] == seg[j - k];
    SegmentStartAt(path, k, |path|);
    assert path[k..] == seg;
  }

  /** The report id: the last path segment when it is all ASCII digits, read as a decimal number. */
  function ParseReportId(path: string): Option<nat>
  {
    var seg := LastSegment(path);
    if IsDigits(seg) then Some(DigitsValue(seg)) else None
  }

  /**
   * Only the final segment decides: it yields an id exactly when it is a
   * non-empty run of digits, whatever comes before it.
   */
  lemma ReportIdFromLastSegment(prefix: string, seg: string)
    requires forall i :: 0 <= i < |seg| ==> seg[i] != '/'
    ensures ParseReportId(prefix + "/" + seg) == if IsDigits(seg) then Some(DigitsValue(seg)) else None
  {
    LastSegmentAfterSlash(prefix, seg);
  }

  /** The path built from an id reads back as that id. */
  lemma ReportIdRoundTrip(prefix: string, n: nat)
    ensures ParseReportId(prefix + "/" + DecimalString(n)) == Some(n)
  {
    ReportIdFromLastSegment(prefix, DecimalString(n));
    DecimalRoundTrip(n);
  }

  // ---------------------------------------------------------------------------
  // Lookups and orderings
  // ---------------------------------------------------------------------------

  /** `SELECT ... FROM students WHERE id=?`. */
  function FindStudent(students: seq<Student>, id: int): (r: Option<Student>)
    ensures r.Some? ==> r.value in students && r.value.id == id
    ensures r.None? <==> !HasStudent(students, id)
  {
    if students == [] then None
    else if students[0].id == id then Some(students[0])
    else
      var r := FindStudent(students[1..], id);
      assert HasStudent(students, id) ==> HasStudent(students[1..], id) by {
        if HasStudent(students, id) {
          var i :| 0 <= i < |students| && students[i].id == id;
          assert students[1..][i - 1] == students[i];
        }
      }
      assert HasStudent(students[1..], id) ==> HasStudent(students, id) by {
        if HasStudent(students[1..], id) {
          var i :| 0 <= i < |students[1..]| && students[1..][i].id == id;
          assert students[i + 1] == students[1..][i];
        }
      }
      r
  }

  /** The rows in the opposite order: the last row comes first. */
  function Reverse<T>(s: seq<T>): (r: seq<T>)
    ensures |r| == |s|
    ensures forall i :: 0 <= i < |s| ==> r[i] == s[|s| - 1 - i]
  {
    if s == [] then [] else [s[|s| - 1]] + Reverse(s[..|s| - 1])
  }

  /** Reversing twice gives back the original order. */
  lemma ReverseReverse<T>(s: seq<T>)
    ensures Reverse(Reverse(s)) == s
  {
  }

  /** A row is in the reversed sequence exactly when it is in the original. */
  lemma ReverseMembers<T>(s: seq<T>)
    ensures forall x :: x in Reverse(s) <==> x in s
  {
    ReversePermutation(s);
    assert forall x :: x in Reverse(s) <==> x in multiset(Reverse(s));
  }

  /** Reversing neither adds nor drops a row. */
  lemma {:induction false} ReversePermutation<T>(s: seq<T>)
    ensures multiset(Reverse(s)) == multiset(s)
  {
    if s != [] {
      assert s == s[..|s| - 1] + [s[|s| - 1]];
      ReversePermutation(s[..|s| - 1]);
    }
  }

  /** `SELECT ... FROM students ORDER BY id DESC` (rows are stored in ascending id order). */
  function ListStudents(db: Db): seq<Student>
  {
    Reverse(db.students)
  }

  /** A row appended at the end comes first once reversed. */
  lemma ReverseAppend<T>(s: seq<T>, x: T)
    ensures Reverse(s + [x]) == [x] + Reverse(s)
  {
    var l, r := Reverse(s + [x]), [x] + Reverse(s);
    forall i | 0 <= i < |l| ensures l[i] == r[i] {
      if i > 0 { assert r[i] == Reverse(s)[i - 1]; }
    }
  }

  /** Reversing a sequence whose keys ascend gives one whose keys descend. */
  lemma ReverseDescending<T>(s: seq<T>, key: T -> int)
    requires KeysAscending(s, key)
    ensures var r := Reverse(s); forall i, j :: 0 <= i < j < |r| ==> key(r[i]) > key(r[j])
  {
    var r := Reverse(s);
    forall i, j | 0 <= i < j < |r| ensures key(r[i]) > key(r[j]) {
      assert r[i] == s[|s| - 1 - i] && r[j] == s[|s| - 1 - j];
    }
  }

  /** The student list holds every student exactly once, newest (largest id) first. */
  lemma StudentListNewestFirst(db: Db)
    requires IdsAscending(db.students, StudentId, db.studentSeq)
    ensures var l := ListStudents(db);
      && |l| == |db.students|
      && (forall i :: 0 <= i < |l| ==> l[i] in db.students)
      && (forall i :: 0 <= i < |db.students| ==> db.students[i] in l)
      && (forall i, j :: 0 <= i < j < |l| ==> l[i].id > l[j].id)
  {
    var l := ListStudents(db);
    var n := |db.students|;
    forall i | 0 <= i < n ensures db.students[i] in l {
      assert l[n - 1 - i] == db.students[i];
    }
    ReverseDescending(db.students, StudentId);
  }

  /** `... WHERE student_id=?`: the rows of one student, in table order. */
  function Owned<T(==)>(rows: seq<T>, owner: T -> int, sid: int): (r: seq<T>)
    ensures |r| <= |rows|
    ensures forall i :: 0 <= i < |r| ==> r[i] in rows && owner(r[i]) == sid
    ensures forall i :: 0 <= i < |rows| && owner(rows[i]) == sid ==> rows[i] in r
  {
    if rows == [] then []
    else
      var last := rows[|rows| - 1];
      var init := rows[..|rows| - 1];
      assert rows == init + [last];
      Owned(init, owner, sid) + (if owner(last) == sid then [last] else [])
  }

  /** Selecting one student's rows keeps each of them exactly as often as the table holds it, and no other row. */
  lemma {:induction false} OwnedCount<T>(rows: seq<T>, owner: T -> int, sid: int, x: T)
    ensures multiset(Owned(rows, owner, sid))[x] == if owner(x) == sid then multiset(rows)[x] else 0
  {
    if rows != [] {
      var last := rows[|rows| - 1];
      var init := rows[..|rows| - 1];
      assert rows == init + [last];
      OwnedCount(init, owner, sid, x);
    }
  }

  /** Selecting one student's rows keeps them in ascending `key` order. */
  lemma {:induction false} OwnedAscending<T>(rows: seq<T>, owner: T -> int, sid: int, key: T -> int)
    requires KeysAscending(rows, key)
    ensures KeysAscending(Owned(rows, owner, sid), key)
  {
    if rows != [] {
      var last := rows[|rows| - 1];
      var init := rows[..|rows| - 1];
      assert forall i :: 0 <= i < |init| ==> init[i] == rows[i];
      OwnedAscending(init, owner, sid, key);
      var o := Owned(init, owner, sid);
      assert Owned(rows, owner, sid) == o + (if owner(last) == sid then [last] else []);
      if owner(last) == sid {
        forall i | 0 <= i < |o| ensures key(o[i]) < key(last) {
          var k :| 0 <= k < |init| && init[k] == o[i];
          assert rows[k] == o[i];
        }
        AscendingSnoc(o, last, key);
      } else {
        assert o + [] == o;
      }
    }
  }

  /** A row whose key exceeds every key of an ascending list may be appended to it. */
  lemma AscendingSnoc<T>(s: seq<T>, x: T, key: T -> int)
    requires KeysAscending(s, key)
    requires forall i :: 0 <= i < |s| ==> key(s[i]) < key(x)
    ensures KeysAscending(s + [x], key)
  {
    var r := s + [x];
    assert forall i :: 0 <= i < |s| ==> r[i] == s[i];
    assert r[|s|] == x;
  }

  /** SQLite's BINARY collation on text: code-point lexicographic order, a prefix first. */
  predicate LexLe(a: string, b: string)
  {
    a == [] || (b != [] && (a[0] < b[0] || (a[0] == b[0] && LexLe(a[1..], b[1..]))))
  }

  lemma {:induction false} LexTotal(a: string, b: string)
    ensures LexLe(a, b) || LexLe(b, a)
  {
    if a != [] && b != [] && a[0] == b[0] {
      LexTotal(a[1..], b[1..]);
    }
  }

  /** Each row's key is at most the key of the row before it. */
  predicate SortedDesc<T>(s: seq<T>, key: T -> string)
  {
    forall i :: 0 < i < |s| ==> LexLe(key(s[i]), key(s[i - 1]))
  }

  function InsertDesc<T>(x: T, s: seq<T>, key: T -> string): (r: seq<T>)
    requires SortedDesc(s, key)
    ensures SortedDesc(r, key)
    ensures multiset(r) == multiset(s) + multiset{x}
    ensures |r| == |s| + 1 && (r[0] == x || (s != [] && r[0] == s[0]))
  {
    if s == [] || LexLe(key(s[0]), key(x)) then [x] + s
    else
      LexTotal(key(s[0]), key(x));
      assert s == [s[0]] + s[1..];
      [s[0]] + InsertDesc(x, s[1..], key)
  }

  /** `ORDER BY key DESC`: the same rows, arranged so that keys never increase. */
  function SortDesc<T>(s: seq<T>, key: T -> string): (r: seq<T>)
    ensures SortedDesc(r, key)
    ensures multiset(r) == multiset(s)
  {
    if s == [] then []
    else
      assert s == s[..|s| - 1] + [s[|s| - 1]];
      InsertDesc(s[|s| - 1], SortDesc(s[..|s| - 1], key), key)
  }

  function AttendanceDate(a: Attendance): string { a.date }
  function PaymentPaidOn(p: Payment): string { p.paidOn }

  /** The report's grades: `WHERE student_id=? ORDER BY id DESC`. */
  function GradesOf(db: Db, sid: int): seq<Grade>
  {
    Reverse(Owned(db.grades, GradeOwner, sid))
  }

  /** The report's attendance: `WHERE student_id=? ORDER BY date DESC`. */
  function AttendanceOf(db: Db, sid: int): seq<Attendance>
  {
    SortDesc(Owned(db.attendance, AttendanceOwner, sid), AttendanceDate)
  }

  /** The report's payments: `WHERE student_id=? ORDER BY paid_on DESC`. */
  function PaymentsOf(db: Db, sid: int): seq<Payment>
  {
    SortDesc(Owned(db.payments, PaymentOwner, sid), PaymentPaidOn)
  }

  // ---------------------------------------------------------------------------
  // Counting absences
  // ---------------------------------------------------------------------------

  /** The number of rows whose status is `absent`. */
  function CountAbsent(rows: seq<Attendance>): (n: nat)
    ensures n <= |rows|
  {
    if rows == [] then 0
    else CountAbsent(rows[..|rows| - 1]) + (if rows[|rows| - 1].status == Absent then 1 else 0)
  }

  lemma {:induction false} CountAbsentConcat(u: seq<Attendance>, v: seq<Attendance>)
    ensures CountAbsent(u + v) == CountAbsent(u) + CountAbsent(v)
  {
    if v == [] {
      assert u + v == u;
    } else {
      assert (u + v)[..|u + v| - 1] == u + v[..|v| - 1];
      assert (u + v)[|u + v| - 1] == v[|v| - 1];
      CountAbsentConcat(u, v[..|v| - 1]);
    }
  }

  /** The count depends only on which rows there are, not on their order. */
  lemma {:induction false} CountAbsentPermutation(a: seq<Attendance>, b: seq<Attendance>)
    requires multiset(a) == multiset(b)
    ensures CountAbsent(a) == CountAbsent(b)
  {
    if a == [] {
      assert |b| == |multiset(b)| == 0;
    } else {
      var x := a[|a| - 1];
      var a' := a[..|a| - 1];
      assert a == a' + [x];
      assert x in multiset(b);
      var k :| 0 <= k < |b| && b[k] == x;
      var b' := b[..k] + b[k + 1..];
      assert b == b[..k] + [x] + b[k + 1..];
      assert multiset(b') == multiset(b) - multiset{x};
      assert multiset(a') == multiset(a) - multiset{x};
      CountAbsentPermutation(a', b');
      CountAbsentConcat(a', [x]);
      CountAbsentConcat(b[..k], [x]);
      CountAbsentConcat(b[..k] + [x], b[k + 1..]);
      CountAbsentConcat(b[..k], b[k + 1..]);
    }
  }

  // ---------------------------------------------------------------------------
  // Dashboard and report
  // ---------------------------------------------------------------------------

  /** One column of a list of rows. */
  function Project<A, B>(rows: seq<A>, f: A -> B): seq<B>
  {
    seq(|rows|, i requires 0 <= i < |rows| => f(rows[i]))
  }

  function GradeScore(g: Grade): real { g.score }
  function PaymentAmount(p: Payment): real { p.amount }

  /** The `score` column, averaged by `ROUND(AVG(score), 2)`. */
  function Scores(rows: seq<Grade>): seq<real>
  {
    Project(rows, GradeScore)
  }

  /** The `amount` column, summed by `ROUND(SUM(amount), 2)`. */
  function Amounts(rows: seq<Payment>): seq<real>
  {
    Project(rows, PaymentAmount)
  }

  lemma ProjectConcat<A, B>(u: seq<A>, v: seq<A>, f: A -> B)
    ensures Project(u + v, f) == Project(u, f) + Project(v, f)
  {
  }

  /** A column's values do not depend on the order of the rows. */
  lemma {:induction false} ProjectPermutation<A, B>(a: seq<A>, b: seq<A>, f: A -> B)
    requires multiset(a) == multiset(b)
    ensures multiset(Project(a, f)) == multiset(Project(b, f))
  {
    if a == [] {
      assert |b| == |multiset(b)| == 0;
    } else {
      var x := a[|a| - 1];
      var a' := a[..|a| - 1];
      assert a == a' + [x];
      assert x in multiset(b);
      var k :| 0 <= k < |b| && b[k] == x;
      var b' := b[..k] + b[k + 1..];
      assert b == b[..k] + [x] + b[k + 1..];
      assert multiset(b') == multiset(b) - multiset{x};
      assert multiset(a') == multiset(a) - multiset{x};
      ProjectPermutation(a', b', f);
      ProjectConcat(a', [x], f);
      ProjectConcat(b[..k], [x], f);
      ProjectConcat(b[..k] + [x], b[k + 1..], f);
      ProjectConcat(b[..k], b[k + 1..], f);
    }
  }

  function GradeViews(rows: seq<Grade>): seq<GradeView>
  {
    seq(|rows|, i requires 0 <= i < |rows| =>
      GradeView(rows[i].subject, rows[i].score, rows[i].term, rows[i].createdAt))
  }

  function AttendanceViews(rows: seq<Attendance>): seq<AttendanceView>
  {
    seq(|rows|, i requires 0 <= i < |rows| => AttendanceView(rows[i].date, rows[i].status))
  }

  function PaymentViews(rows: seq<Payment>): seq<PaymentView>
  {
    seq(|rows|, i requires 0 <= i < |rows| => PaymentView(rows[i].amount, rows[i].term, rows[i].paidOn))
  }

  /** GET /api/dashboard. */
  function DashboardOf(db: Db): Dashboard
  {
    Dashboard(|db.students|, Scores(db.grades), CountAbsent(db.attendance), Amounts(db.payments))
  }

  /** The body of GET /api/reports/student/{id} for a student that exists. */
  function BuildReport(db: Db, st: Student): Report
  {
    var grades := GradesOf(db, st.id);
    var attendance := AttendanceOf(db, st.id);
    var payments := PaymentsOf(db, st.id);
    Report(
      StudentView(st.id, st.name, st.className, st.parentPhone),
      Summary(Scores(grades), |attendance|, CountAbsent(attendance), Amounts(payments)),
      GradeViews(grades), AttendanceViews(attendance), PaymentViews(payments))
  }

  /**
   * The report summary counts that student's attendance rows and, among them,
   * the absences; the second never exceeds the first.
   */
  lemma ReportSummaryCounts(db: Db, st: Student)
    ensures var s, mine := BuildReport(db, st).summary, Owned(db.attendance, AttendanceOwner, st.id);
      && s.attendanceEntries == |mine|
      && s.absentCount == CountAbsent(mine)
      && s.absentCount <= s.attendanceEntries
  {
    var mine := Owned(db.attendance, AttendanceOwner, st.id);
    var sorted := AttendanceOf(db, st.id);
    assert |sorted| == |multiset(sorted)| == |multiset(mine)| == |mine|;
    CountAbsentPermutation(sorted, mine);
  }

  /**
   * The scores and amounts the report aggregates are those of the student's own
   * grade and payment rows, each as often as it occurs, whatever the listing order.
   */
  lemma ReportTotals(db: Db, st: Student)
    ensures var s := BuildReport(db, st).summary;
      && multiset(s.gradeScores) == multiset(Scores(Owned(db.grades, GradeOwner, st.id)))
      && multiset(s.paymentAmounts) == multiset(Amounts(Owned(db.payments, PaymentOwner, st.id)))
  {
    var grades := Owned(db.grades, GradeOwner, st.id);
    ReversePermutation(grades);
    ProjectPermutation(GradesOf(db, st.id), grades, GradeScore);
    ProjectPermutation(PaymentsOf(db, st.id), Owned(db.payments, PaymentOwner, st.id), PaymentAmount);
  }

  /** The report lists exactly the student's grades, newest (largest id) first. */
  lemma ReportGradesNewestFirst(db: Db, sid: int)
    requires IdsAscending(db.grades, GradeId, db.gradeSeq)
    ensures var g := GradesOf(db, sid);
      && (forall i :: 0 <= i < |g| ==> g[i] in db.grades && g[i].studentId == sid)
      && (forall i :: 0 <= i < |db.grades| && db.grades[i].studentId == sid ==> db.grades[i] in g)
      && (forall i, j :: 0 <= i < j < |g| ==> g[i].id > g[j].id)
  {
    var o := Owned(db.grades, GradeOwner, sid);
    ReverseMembers(o);
    forall i | 0 <= i < |db.grades| && db.grades[i].studentId == sid ensures db.grades[i] in o {
      assert GradeOwner(db.grades[i]) == sid;
    }
    OwnedAscending(db.grades, GradeOwner, sid, GradeId);
    ReverseDescending(o, GradeId);
  }

  /** The report's attendance and payments are the student's rows, with dates never increasing. */
  lemma ReportDatesDescending(db: Db, sid: int)
    ensures var a := AttendanceOf(db, sid);
      && multiset(a) == multiset(Owned(db.attendance, AttendanceOwner, sid))
      && SortedDesc(a, AttendanceDate)
    ensures var p := PaymentsOf(db, sid);
      && multiset(p) == multiset(Owned(db.payments, PaymentOwner, sid))
      && SortedDesc(p, PaymentPaidOn)
  {
  }

  // ---------------------------------------------------------------------------
  // do_GET
  // ---------------------------------------------------------------------------

  /** The response of a GET request for `path` (the path part of the URL). */
  function Get(db: Db, path: string): Response
  {
    if path == "/" then File("index.html", "text/html; charset=utf-8")
    else if path == "/static/styles.css" then File("styles.css", "text/css; charset=utf-8")
    else if path == "/static/app.js" then File("app.js", "application/javascript; charset=utf-8")
    else if path == StudentsPath then JsonResponse(OK, StudentList(ListStudents(db)))
    else if path == DashboardPath then JsonResponse(OK, DashboardBody(DashboardOf(db)))
    else if ReportPrefix <= path then
      match ParseReportId(path)
      case None => JsonResponse(BAD_REQUEST, Error("Invalid student id"))
      case Some(sid) =>
        match FindStudent(db.students, sid)
        case None => JsonResponse(NOT_FOUND, Error("Student not found"))
        case Some(st) => JsonResponse(OK, ReportBody(BuildReport(db, st)))
    else SendError(NOT_FOUND)
  }

  /**
   * A report path answers 400 when its last segment is not a digit string (before
   * any lookup, so whatever the database holds), 404 when no student has that id,
   * and otherwise that student's report.
   */
  lemma ReportOutcome(db: Db, path: string)
    requires ReportPrefix <= path
    ensures ParseReportId(path).None? ==> Get(db, path) == JsonResponse(BAD_REQUEST, Error("Invalid student id"))
    ensures ParseReportId(path).Some? && !HasStudent(db.students, ParseReportId(path).value) ==>
      Get(db, path) == JsonResponse(NOT_FOUND, Error("Student not found"))
    ensures ParseReportId(path).Some? && HasStudent(db.students, ParseReportId(path).value) ==>
      && Get(db, path).JsonResponse? && Get(db, path).code == OK && Get(db, path).body.ReportBody?
      && Get(db, path).body.report.student.id == ParseReportId(path).value
      && Get(db, path).body.report == BuildReport(db, FindStudent(db.students, ParseReportId(path).value).value)
  {
  }

  /** `/api/reports/student/2` asks for student 2. */
  lemma ReportPathPlain()
    ensures ParseReportId("/api/reports/student/2") == Some(2)
  {
    ReportIdFromLastSegment("/api/reports/student", "2");
    assert "/api/reports/student" + "/" + "2" == "/api/reports/student/2";
  }

  /** `/api/reports/student/1/2` asks for student 2 too: only the last segment counts. */
  lemma ReportPathNested()
    ensures ParseReportId("/api/reports/student/1/2") == Some(2)
  {
    ReportIdFromLastSegment("/api/reports/student/1", "2");
    assert "/api/reports/student/1" + "/" + "2" == "/api/reports/student/1/2";
  }

  /** A last segment that is not a number gives no id, so the report answers 400. */
  lemma ReportPathNotNumber()
    ensures ParseReportId("/api/reports/student/abc") == None
  {
    ReportIdFromLastSegment("/api/reports/student", "abc");
    assert "/api/reports/student" + "/" + "abc" == "/api/reports/student/abc";
    assert !IsDigit('a');
  }

  /** A trailing slash leaves an empty last segment, which gives no id either. */
  lemma ReportPathTrailingSlash()
    ensures ParseReportId("/api/reports/student/") == None
  {
    ReportIdFromLastSegment("/api/reports/student", "");
    assert "/api/reports/student" + "/" + "" == "/api/reports/student/";
  }
}

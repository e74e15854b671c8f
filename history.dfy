/**
 * The store over its lifetime: any sequence of requests, each create
 * receiving the next primary key of its table.
 */
module History {
  import opened Handlers

  /** One request to one of the six routes. */
  datatype Call =
    | CourseCreate(course: CourseRequest)
    | StudentCreate(student: StudentRequest)
    | EnrollmentCreate(enrollment: EnrollmentRequest)
    | CourseLookup(courseId: int)
    | StudentLookup(studentId: int)
    | EnrollmentLookup(enrollmentId: int)

  /**
   * The key an insert receives: the largest key in use plus one, or 1 if
   * that is not positive (an empty table). Any unused key would do for the
   * properties below.
   */
  ghost function NextKey(keys: set<int>): (id: int)
    ensures 1 <= id && id !in keys
    ensures forall k :: k in keys ==> k < id
    decreases keys
  {
    if exists k :: k in keys then
      var k :| k in keys;
      var rest := NextKey(keys - {k});
      assert keys == (keys - {k}) + {k};
      if k < rest then rest else k + 1
    else
      1
  }

  /** The tables after serving one request. */
  ghost function Serve(db: Db, call: Call): Db
  {
    match call
    case CourseCreate(req) => PostCourse(db, req, NextKey(db.courses.Keys)).db
    case StudentCreate(req) => PostStudent(db, req, NextKey(db.students.Keys)).db
    case EnrollmentCreate(req) => PostEnrollment(db, req, NextKey(db.enrollments.Keys)).db
    case CourseLookup(_) => db
    case StudentLookup(_) => db
    case EnrollmentLookup(_) => db
  }

  /** The tables after serving the requests in order. */
  ghost function Run(db: Db, calls: seq<Call>): Db
    decreases |calls|
  {
    if calls == [] then db else Run(Serve(db, calls[0]), calls[1..])
  }

  /** Every row of `before` is still in `after`, unchanged. */
  ghost predicate Keeps(before: Db, after: Db)
  {
    (forall k :: k in before.courses ==> k in after.courses && after.courses[k] == before.courses[k]) &&
    (forall k :: k in before.students ==> k in after.students && after.students[k] == before.students[k]) &&
    (forall k :: k in before.enrollments ==>
       k in after.enrollments && after.enrollments[k] == before.enrollments[k])
  }

  lemma ServePreservesConsistent(db: Db, call: Call)
    requires Consistent(db)
    ensures Consistent(Serve(db, call))
  {
    match call
    case CourseCreate(req) => PostCoursePreservesConsistent(db, req, NextKey(db.courses.Keys));
    case StudentCreate(req) => PostStudentPreservesConsistent(db, req, NextKey(db.students.Keys));
    case EnrollmentCreate(req) =>
      PostEnrollmentPreservesConsistent(db, req, NextKey(db.enrollments.Keys));
    case CourseLookup(_) =>
    case StudentLookup(_) =>
    case EnrollmentLookup(_) =>
  }

  /**
   * Whatever requests are served, every enrollment refers to an existing
   * course and student, and codes and roll numbers stay unique.
   */
  lemma {:induction false} RunPreservesConsistent(db: Db, calls: seq<Call>)
    requires Consistent(db)
    ensures Consistent(Run(db, calls))
    decreases |calls|
  {
    if calls != [] {
      ServePreservesConsistent(db, calls[0]);
      RunPreservesConsistent(Serve(db, calls[0]), calls[1..]);
    }
  }

  lemma ServeKeepsRows(db: Db, call: Call)
    ensures Keeps(db, Serve(db, call))
  {
  }

  lemma KeepsTransitive(a: Db, b: Db, c: Db)
    requires Keeps(a, b) && Keeps(b, c)
    ensures Keeps(a, c)
  {
  }

  /** No request changes or removes a stored row. */
  lemma {:induction false} RunKeepsRows(db: Db, calls: seq<Call>)
    ensures Keeps(db, Run(db, calls))
    decreases |calls|
  {
    if calls != [] {
      var next := Serve(db, calls[0]);
      ServeKeepsRows(db, calls[0]);
      RunKeepsRows(next, calls[1..]);
      KeepsTransitive(db, next, Run(next, calls[1..]));
    }
  }

  /** No request ever makes a lookup that succeeded fail or answer differently. */
  lemma RunKeepsLookups(db: Db, calls: seq<Call>, courseId: int, studentId: int, enrollmentId: int)
    ensures var after := Run(db, calls);
      (GetCourse(db, courseId).status == 200 ==> GetCourse(after, courseId) == GetCourse(db, courseId)) &&
      (GetStudent(db, studentId).status == 200 ==>
         GetStudent(after, studentId) == GetStudent(db, studentId)) &&
      (GetEnrollment(db, enrollmentId).status == 200 ==>
         GetEnrollment(after, enrollmentId) == GetEnrollment(db, enrollmentId))
  {
    RunKeepsRows(db, calls);
  }
}

/**
 * The create and lookup handlers of the course, student and enrollment
 * resources, as functions over an abstract value of the three tables.
 *
 * The relational store is replaced by three maps from primary key to row;
 * the key a successful insert receives is a parameter that only has to be
 * unused in its table. A request body is the parsed JSON object, with a
 * field `None` when its key is absent.
 */
module Handlers {
  import opened Wrappers
  import opened Records

  /** Body of `POST /courses`. */
  datatype CourseRequest = CourseRequest(
    courseName: Option<string>,
    courseCode: Option<string>,
    courseDescription: Option<string>)

  /** Body of `POST /students`. */
  datatype StudentRequest = StudentRequest(
    rollNumber: Option<string>,
    firstName: Option<string>,
    lastName: Option<string>)

  /** Body of `POST /enrollments`. */
  datatype EnrollmentRequest = EnrollmentRequest(
    studentId: Option<int>,
    courseId: Option<int>)

  /** The JSON object a handler answers with. */
  datatype Body<T> =
    | Found(record: T)                    // the row, field by field
    | Created(message: string, id: int)   // {"message": ..., "<entity>_id": id}
    | Rejected(error: ErrorCode)          // {"code": ..., "message": ...}
    | Missing(message: string)            // {"message": "<Entity> not found"}
    | ServerError                         // an exception the handler does not catch

  datatype Response<T> = Response(status: int, body: Body<T>)

  /** The three tables, keyed by primary key. */
  datatype Db = Db(
    courses: map<int, Course>,
    students: map<int, Student>,
    enrollments: map<int, Enrollment>)

  /** The tables after a request, and the answer to it. */
  datatype Step<T> = Step(db: Db, response: Response<T>)

  /**
   * The integrity the schema asks for: every row sits under its own key,
   * course names and codes, roll numbers and first names are non-empty,
   * course codes and roll numbers are unique, and every enrollment refers
   * to an existing course and an existing student.
   */
  ghost predicate Consistent(db: Db)
  {
    (forall k :: k in db.courses ==> db.courses[k].courseId == k) &&
    (forall k :: k in db.students ==> db.students[k].studentId == k) &&
    (forall k :: k in db.enrollments ==> db.enrollments[k].enrollmentId == k) &&
    (forall k :: k in db.courses ==>
       db.courses[k].courseName != "" && db.courses[k].courseCode != "") &&
    (forall k :: k in db.students ==>
       db.students[k].rollNumber != "" && db.students[k].firstName != "") &&
    (forall i, j ::
       i in db.courses && j in db.courses && db.courses[i].courseCode == db.courses[j].courseCode
       ==> i == j) &&
    (forall i, j ::
       i in db.students && j in db.students && db.students[i].rollNumber == db.students[j].rollNumber
       ==> i == j) &&
    (forall k :: k in db.enrollments ==>
       db.enrollments[k].courseId in db.courses && db.enrollments[k].studentId in db.students)
  }

  /** Python's truth value of `data.get(key)` for a string field: present and non-empty. */
  predicate Present(field: Option<string>)
  {
    field.Some? && field.value != ""
  }

  predicate CodeTaken(courses: map<int, Course>, code: string)
  {
    exists k | k in courses :: courses[k].courseCode == code
  }

  predicate RollNumberTaken(students: map<int, Student>, rollNumber: string)
  {
    exists k | k in students :: students[k].rollNumber == rollNumber
  }

  /** Whether `id` names a row of the table (a `None` key matches no row). */
  predicate Matches<T>(table: map<int, T>, id: Option<int>)
  {
    id.Some? && id.value in table
  }

  // ---------------------------------------------------------------- lookups

  /** `GET /courses/<course_id>`. */
  function GetCourse(db: Db, courseId: int): (r: Response<Course>)
    ensures r.status == 200 <==> courseId in db.courses
    ensures r.status == 200 ==> r.body == Found(db.courses[courseId])
    ensures r.status != 200 ==> r == Response(404, Missing("Course not found"))
    ensures Consistent(db) && r.body.Found? ==> r.body.record.courseId == courseId
  {
    if courseId in db.courses then Response(200, Found(db.courses[courseId]))
    else Response(404, Missing("Course not found"))
  }

  /** `GET /students/<student_id>`. */
  function GetStudent(db: Db, studentId: int): (r: Response<Student>)
    ensures r.status == 200 <==> studentId in db.students
    ensures r.status == 200 ==> r.body == Found(db.students[studentId])
    ensures r.status != 200 ==> r == Response(404, Missing("Student not found"))
    ensures Consistent(db) && r.body.Found? ==> r.body.record.studentId == studentId
  {
    if studentId in db.students then Response(200, Found(db.students[studentId]))
    else Response(404, Missing("Student not found"))
  }

  /** `GET /enrollments/<enrollment_id>`. */
  function GetEnrollment(db: Db, enrollmentId: int): (r: Response<Enrollment>)
    ensures r.status == 200 <==> enrollmentId in db.enrollments
    ensures r.status == 200 ==> r.body == Found(db.enrollments[enrollmentId])
    ensures r.status != 200 ==> r == Response(404, Missing("Enrollment not found"))
    ensures Consistent(db) && r.body.Found? ==>
      r.body.record.enrollmentId == enrollmentId &&
      r.body.record.courseId in db.courses && r.body.record.studentId in db.students
  {
    if enrollmentId in db.enrollments then Response(200, Found(db.enrollments[enrollmentId]))
    else Response(404, Missing("Enrollment not found"))
  }

  // ---------------------------------------------------------------- creates

  /**
   * `POST /courses`: the name is checked before the code; the unique
   * constraint on the code is only met when the row is committed.
   */
  function PostCourse(db: Db, req: CourseRequest, newId: int): (r: Step<Course>)
    requires newId !in db.courses
    ensures !Present(req.courseName) ==> r.response == Response(400, Rejected(COURSE001))
    ensures Present(req.courseName) && !Present(req.courseCode) ==>
      r.response == Response(400, Rejected(COURSE002))
    ensures Present(req.courseName) && Present(req.courseCode) &&
            CodeTaken(db.courses, req.courseCode.value)
            ==> r.response == Response(500, ServerError)
    ensures r.response.status == 201 <==>
      Present(req.courseName) && Present(req.courseCode) &&
      !CodeTaken(db.courses, req.courseCode.value)
    ensures r.response.status != 201 ==> r.db == db
    ensures r.response.status == 201 ==>
      r.response.body == Created("Course created successfully", newId) &&
      r.db.students == db.students && r.db.enrollments == db.enrollments &&
      r.db.courses.Keys == db.courses.Keys + {newId} &&
      (forall k :: k in db.courses ==> r.db.courses[k] == db.courses[k]) &&
      r.db.courses[newId] == Course(newId, req.courseName.value, req.courseCode.value,
                                    req.courseDescription.GetOr(""))
  {
    if !Present(req.courseName) then
      Step(db, Response(400, Rejected(COURSE001)))
    else if !Present(req.courseCode) then
      Step(db, Response(400, Rejected(COURSE002)))
    else if CodeTaken(db.courses, req.courseCode.value) then
      Step(db, Response(500, ServerError))
    else
      var course := Course(newId, req.courseName.value, req.courseCode.value,
                           req.courseDescription.GetOr(""));
      Step(db.(courses := db.courses[newId := course]),
           Response(201, Created("Course created successfully", newId)))
  }

  /**
   * `POST /students`: the roll number is checked before the first name;
   * the unique constraint on the roll number is only met at commit.
   */
  function PostStudent(db: Db, req: StudentRequest, newId: int): (r: Step<Student>)
    requires newId !in db.students
    ensures !Present(req.rollNumber) ==> r.response == Response(400, Rejected(STUDENT001))
    ensures Present(req.rollNumber) && !Present(req.firstName) ==>
      r.response == Response(400, Rejected(STUDENT002))
    ensures Present(req.rollNumber) && Present(req.firstName) &&
            RollNumberTaken(db.students, req.rollNumber.value)
            ==> r.response == Response(500, ServerError)
    ensures r.response.status == 201 <==>
      Present(req.rollNumber) && Present(req.firstName) &&
      !RollNumberTaken(db.students, req.rollNumber.value)
    ensures r.response.status != 201 ==> r.db == db
    ensures r.response.status == 201 ==>
      r.response.body == Created("Student created successfully", newId) &&
      r.db.courses == db.courses && r.db.enrollments == db.enrollments &&
      r.db.students.Keys == db.students.Keys + {newId} &&
      (forall k :: k in db.students ==> r.db.students[k] == db.students[k]) &&
      r.db.students[newId] == Student(newId, req.rollNumber.value, req.firstName.value,
                                      req.lastName.GetOr(""))
  {
    if !Present(req.rollNumber) then
      Step(db, Response(400, Rejected(STUDENT001)))
    else if !Present(req.firstName) then
      Step(db, Response(400, Rejected(STUDENT002)))
    else if RollNumberTaken(db.students, req.rollNumber.value) then
      Step(db, Response(500, ServerError))
    else
      var student := Student(newId, req.rollNumber.value, req.firstName.value,
                             req.lastName.GetOr(""));
      Step(db.(students := db.students[newId := student]),
           Response(201, Created("Student created successfully", newId)))
  }

  /**
   * `POST /enrollments`: the course must exist, then the student must
   * exist; nothing else is checked, so a pair may be enrolled twice.
   */
  function PostEnrollment(db: Db, req: EnrollmentRequest, newId: int): (r: Step<Enrollment>)
    requires newId !in db.enrollments
    ensures !Matches(db.courses, req.courseId) ==>
      r.response == Response(404, Rejected(ENROLLMENT001))
    ensures Matches(db.courses, req.courseId) && !Matches(db.students, req.studentId) ==>
      r.response == Response(404, Rejected(ENROLLMENT002))
    ensures r.response.status == 201 <==>
      Matches(db.courses, req.courseId) && Matches(db.students, req.studentId)
    ensures r.response.status != 201 ==> r.db == db
    ensures r.response.status == 201 ==>
      r.response.body == Created("Enrollment created successfully", newId) &&
      r.db.courses == db.courses && r.db.students == db.students &&
      r.db.enrollments.Keys == db.enrollments.Keys + {newId} &&
      |r.db.enrollments| == |db.enrollments| + 1 &&
      (forall k :: k in db.enrollments ==> r.db.enrollments[k] == db.enrollments[k]) &&
      r.db.enrollments[newId] == Enrollment(newId, req.studentId.value, req.courseId.value)
  {
    if !Matches(db.courses, req.courseId) then
      Step(db, Response(404, Rejected(ENROLLMENT001)))
    else if !Matches(db.students, req.studentId) then
      Step(db, Response(404, Rejected(ENROLLMENT002)))
    else
      var enrollment := Enrollment(newId, req.studentId.value, req.courseId.value);
      Step(db.(enrollments := db.enrollments[newId := enrollment]),
           Response(201, Created("Enrollment created successfully", newId)))
  }

  // ---------------------------------------------------------------- properties

  /** A created course is found under the returned id with the submitted fields; no other lookup changes. */
  lemma CourseRoundTrip(db: Db, req: CourseRequest, newId: int)
    requires newId !in db.courses
    ensures var s := PostCourse(db, req, newId);
      s.response.status == 201 ==>
        s.response.body.id == newId &&
        GetCourse(s.db, newId) == Response(200, Found(Course(newId, req.courseName.value,
          req.courseCode.value, req.courseDescription.GetOr("")))) &&
        (forall k :: k != newId ==> GetCourse(s.db, k) == GetCourse(db, k))
  {
  }

  /** A created student is found under the returned id with the submitted fields; no other lookup changes. */
  lemma StudentRoundTrip(db: Db, req: StudentRequest, newId: int)
    requires newId !in db.students
    ensures var s := PostStudent(db, req, newId);
      s.response.status == 201 ==>
        s.response.body.id == newId &&
        GetStudent(s.db, newId) == Response(200, Found(Student(newId, req.rollNumber.value,
          req.firstName.value, req.lastName.GetOr("")))) &&
        (forall k :: k != newId ==> GetStudent(s.db, k) == GetStudent(db, k))
  {
  }

  /** A created enrollment is found under the returned id with the submitted keys; no other lookup changes. */
  lemma EnrollmentRoundTrip(db: Db, req: EnrollmentRequest, newId: int)
    requires newId !in db.enrollments
    ensures var s := PostEnrollment(db, req, newId);
      s.response.status == 201 ==>
        s.response.body.id == newId &&
        GetEnrollment(s.db, newId) == Response(200, Found(Enrollment(newId,
          req.studentId.value, req.courseId.value))) &&
        (forall k :: k != newId ==> GetEnrollment(s.db, k) == GetEnrollment(db, k))
  {
  }

  /**
   * Posting the same enrollment twice succeeds both times, with two
   * distinct ids, and both rows record the same student and course.
   */
  lemma DuplicateEnrollmentAccepted(db: Db, req: EnrollmentRequest, firstId: int, secondId: int)
    requires firstId !in db.enrollments
    requires Matches(db.courses, req.courseId) && Matches(db.students, req.studentId)
    requires secondId !in PostEnrollment(db, req, firstId).db.enrollments
    ensures var first := PostEnrollment(db, req, firstId);
      var second := PostEnrollment(first.db, req, secondId);
      first.response.status == 201 && second.response.status == 201 &&
      firstId != secondId &&
      second.db.enrollments[firstId].studentId == second.db.enrollments[secondId].studentId &&
      second.db.enrollments[firstId].courseId == second.db.enrollments[secondId].courseId
  {
  }

  lemma PostCoursePreservesConsistent(db: Db, req: CourseRequest, newId: int)
    requires Consistent(db) && newId !in db.courses
    ensures Consistent(PostCourse(db, req, newId).db)
  {
  }

  lemma PostStudentPreservesConsistent(db: Db, req: StudentRequest, newId: int)
    requires Consistent(db) && newId !in db.students
    ensures Consistent(PostStudent(db, req, newId).db)
  {
  }

  lemma PostEnrollmentPreservesConsistent(db: Db, req: EnrollmentRequest, newId: int)
    requires Consistent(db) && newId !in db.enrollments
    ensures Consistent(PostEnrollment(db, req, newId).db)
  {
  }
}

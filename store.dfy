/**
 * The shared store the three resources work on: three tables that the
 * create handlers insert into in place, each with the next primary key
 * the table will hand out.
 */
module Server {
  import opened Wrappers
  import opened Records
  import opened Handlers

  class Store {
    var courses: map<int, Course>
    var students: map<int, Student>
    var enrollments: map<int, Enrollment>
    var nextCourseId: int
    var nextStudentId: int
    var nextEnrollmentId: int

    /** The tables as a value, for the specification in `Handlers`. */
    function Tables(): Db
      reads this
    {
      Db(courses, students, enrollments)
    }

    /** The tables are consistent and every key in use lies below its table's next key. */
    ghost predicate Valid()
      reads this
    {
      Consistent(Tables()) &&
      1 <= nextCourseId && 1 <= nextStudentId && 1 <= nextEnrollmentId &&
      (forall k :: k in courses ==> 1 <= k < nextCourseId) &&
      (forall k :: k in students ==> 1 <= k < nextStudentId) &&
      (forall k :: k in enrollments ==> 1 <= k < nextEnrollmentId)
    }

    /** An empty store; the first row of every table gets key 1. */
    constructor ()
      ensures Valid()
      ensures Tables() == Db(map[], map[], map[])
    {
      courses, students, enrollments := map[], map[], map[];
      nextCourseId, nextStudentId, nextEnrollmentId := 1, 1, 1;
    }

    method GetCourse(courseId: int) returns (r: Response<Course>)
      ensures r == Handlers.GetCourse(Tables(), courseId)
    {
      if courseId in courses {
        r := Response(200, Found(courses[courseId]));
      } else {
        r := Response(404, Missing("Course not found"));
      }
    }

    method GetStudent(studentId: int) returns (r: Response<Student>)
      ensures r == Handlers.GetStudent(Tables(), studentId)
    {
      if studentId in students {
        r := Response(200, Found(students[studentId]));
      } else {
        r := Response(404, Missing("Student not found"));
      }
    }

    method GetEnrollment(enrollmentId: int) returns (r: Response<Enrollment>)
      ensures r == Handlers.GetEnrollment(Tables(), enrollmentId)
    {
      if enrollmentId in enrollments {
        r := Response(200, Found(enrollments[enrollmentId]));
      } else {
        r := Response(404, Missing("Enrollment not found"));
      }
    }

    method CreateCourse(req: CourseRequest) returns (r: Response<Course>)
      requires Valid()
      modifies this
      ensures Valid()
      ensures old(nextCourseId) !in old(courses)
      ensures var s := PostCourse(old(Tables()), req, old(nextCourseId));
        Tables() == s.db && r == s.response
    {
      if !Present(req.courseName) {
        return Response(400, Rejected(COURSE001));
      }
      if !Present(req.courseCode) {
        return Response(400, Rejected(COURSE002));
      }
      var course := Course(nextCourseId, req.courseName.value, req.courseCode.value,
                           req.courseDescription.GetOr(""));
      if CodeTaken(courses, course.courseCode) {
        // the unique constraint fails the commit; nothing is stored
        return Response(500, ServerError);
      }
      courses := courses[nextCourseId := course];
      nextCourseId := nextCourseId + 1;
      r := Response(201, Created("Course created successfully", course.courseId));
    }

    method CreateStudent(req: StudentRequest) returns (r: Response<Student>)
      requires Valid()
      modifies this
      ensures Valid()
      ensures old(nextStudentId) !in old(students)
      ensures var s := PostStudent(old(Tables()), req, old(nextStudentId));
        Tables() == s.db && r == s.response
    {
      if !Present(req.rollNumber) {
        return Response(400, Rejected(STUDENT001));
      }
      if !Present(req.firstName) {
        return Response(400, Rejected(STUDENT002));
      }
      var student := Student(nextStudentId, req.rollNumber.value, req.firstName.value,
                             req.lastName.GetOr(""));
      if RollNumberTaken(students, student.rollNumber) {
        // the unique constraint fails the commit; nothing is stored
        return Response(500, ServerError);
      }
      students := students[nextStudentId := student];
      nextStudentId := nextStudentId + 1;
      r := Response(201, Created("Student created successfully", student.studentId));
    }

    method CreateEnrollment(req: EnrollmentRequest) returns (r: Response<Enrollment>)
      requires Valid()
      modifies this
      ensures Valid()
      ensures old(nextEnrollmentId) !in old(enrollments)
      ensures var s := PostEnrollment(old(Tables()), req, old(nextEnrollmentId));
        Tables() == s.db && r == s.response
    {
      if !Matches(courses, req.courseId) {
        return Response(404, Rejected(ENROLLMENT001));
      }
      if !Matches(students, req.studentId) {
        return Response(404, Rejected(ENROLLMENT002));
      }
      var enrollment := Enrollment(nextEnrollmentId, req.studentId.value, req.courseId.value);
      enrollments := enrollments[nextEnrollmentId := enrollment];
      nextEnrollmentId := nextEnrollmentId + 1;
      r := Response(201, Created("Enrollment created successfully", enrollment.enrollmentId));
    }
  }

  /**
   * A client of the store: with the course and the student stored, the same
   * enrollment is accepted twice, under two keys that both read back.
   */
  method EnrollTwice(store: Store, studentId: int, courseId: int)
    returns (first: Response<Enrollment>, second: Response<Enrollment>)
    requires store.Valid()
    requires courseId in store.courses && studentId in store.students
    modifies store
    ensures store.Valid()
    ensures first.status == 201 && second.status == 201
    ensures first.body.Created? && second.body.Created? && first.body.id != second.body.id
    ensures first.body.id in store.enrollments && store.enrollments[first.body.id] == Enrollment(first.body.id, studentId, courseId)
    ensures second.body.id in store.enrollments && store.enrollments[second.body.id] == Enrollment(second.body.id, studentId, courseId)
  {
    var req := EnrollmentRequest(Some(studentId), Some(courseId));
    first := store.CreateEnrollment(req);
    second := store.CreateEnrollment(req);
  }
}

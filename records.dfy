/**
 * The three tables of the academic-records store and the fixed table of
 * validation error codes.
 */
module Records {

  /** A row of the `course` table; `courseId` is the primary key. */
  datatype Course = Course(
    courseId: int,
    courseName: string,
    courseCode: string,
    courseDescription: string)

  /** A row of the `student` table; `studentId` is the primary key. */
  datatype Student = Student(
    studentId: int,
    rollNumber: string,
    firstName: string,
    lastName: string)

  /** A row of the `enrollment` table: a student enrolled in a course. */
  datatype Enrollment = Enrollment(
    enrollmentId: int,
    studentId: int,
    courseId: int)

  /** The closed set of validation errors a create request can be rejected with. */
  datatype ErrorCode =
    | COURSE001
    | COURSE002
    | STUDENT001
    | STUDENT002
    | ENROLLMENT001
    | ENROLLMENT002
  {
    /** The `code` field of the error object. */
    function Code(): string
    {
      match this
      case COURSE001 => "COURSE001"
      case COURSE002 => "COURSE002"
      case STUDENT001 => "STUDENT001"
      case STUDENT002 => "STUDENT002"
      case ENROLLMENT001 => "ENROLLMENT001"
      case ENROLLMENT002 => "ENROLLMENT002"
    }

    /** The `message` field of the error object. */
    function Message(): string
    {
      match this
      case COURSE001 => "Course Name is required"
      case COURSE002 => "Course Code is required"
      case STUDENT001 => "Roll Number required"
      case STUDENT002 => "First Name is required"
      case ENROLLMENT001 => "Course does not exist"
      case ENROLLMENT002 => "Student does not exist."
    }
  }

  /** A client can tell the errors apart by their `code` field alone. */
  lemma CodeIdentifiesError(a: ErrorCode, b: ErrorCode)
    ensures a.Code() == b.Code() ==> a == b
  {
  }
}

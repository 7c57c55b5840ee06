/** The course and enrollment records of lib/courses.ts, as the pages use them. */
module Records {
  import opened Wrappers

  /** A course. Optional fields the server may omit are `Option`s. */
  datatype Course = Course(
    id: int,
    title: string,
    description: string,
    instructorId: int,
    instructorName: string,
    category: string,
    level: string,
    thumbnail: Option<string>,
    isPublished: bool,
    isApproved: bool,
    createdAt: string,
    enrolledStudents: Option<int>)

  /** A student's enrollment, joined with its course's display fields.
      `progress` is `None` when the server sends no number. */
  datatype Enrollment = Enrollment(
    id: int,
    studentId: int,
    courseId: int,
    enrolledAt: string,
    completedAt: Option<string>,
    progress: Option<int>,
    title: string,
    level: string,
    instructorName: string,
    totalLessons: int,
    completedLessons: int)
}

/** The course-service record shapes. */
module Models {
  import opened Wrappers

  datatype Course = Course(
    id: int,
    title: string,
    description: string,
    durationWeeks: int,
    instructor: string,
    maxStudents: int)

  /** A new course as a client submits it: everything but the id. */
  datatype CourseCreate = CourseCreate(
    title: string,
    description: string,
    durationWeeks: int,
    instructor: string,
    maxStudents: int)

  /** A partial update: `None` marks a field the client did not set. */
  datatype CourseUpdate = CourseUpdate(
    title: Option<string>,
    description: Option<string>,
    durationWeeks: Option<int>,
    instructor: Option<string>,
    maxStudents: Option<int>)
}

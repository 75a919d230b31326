/** The ten protected route handlers: verify the bearer token, then forward to the student or
    course backend at its REST path, with a JSON body for create and update. */
module Routes {
  import opened Wrappers
  import opened JsonModel
  import opened Errors
  import opened Forwarding
  import opened Auth
  import Decimal

  /** A field of an update request: left out by the client, or given (possibly as null).
      Pydantic counts an explicit null as set, so it is forwarded. */
  datatype Field<T> = Unset | Set(value: T)

  datatype StudentCreate = StudentCreate(name: string, age: int, email: string, course: string)

  datatype StudentUpdate = StudentUpdate(
    name: Field<Option<string>>,
    age: Field<Option<int>>,
    email: Field<Option<string>>,
    course: Field<Option<string>>)

  datatype CourseCreate = CourseCreate(
    title: string,
    description: string,
    durationWeeks: int,
    instructor: string,
    maxStudents: int)

  datatype CourseUpdate = CourseUpdate(
    title: Field<Option<string>>,
    description: Field<Option<string>>,
    durationWeeks: Field<Option<int>>,
    instructor: Field<Option<string>>,
    maxStudents: Field<Option<int>>)

  function TextField(f: Field<Option<string>>): Field<Json> {
    match f
    case Unset => Unset
    case Set(None) => Set(JNull)
    case Set(Some(s)) => Set(JStr(s))
  }

  function NumberField(f: Field<Option<int>>): Field<Json> {
    match f
    case Unset => Unset
    case Set(None) => Set(JNull)
    case Set(Some(n)) => Set(JInt(n))
  }

  /** `model.dict(exclude_unset=True)`: the set fields, in declaration order, and nothing else. */
  function ExcludeUnset(fields: seq<(string, Field<Json>)>): (members: seq<(string, Json)>)
    ensures |members| <= |fields|
    ensures members == [] <==> forall k :: 0 <= k < |fields| ==> fields[k].1.Unset?
    ensures forall k :: 0 <= k < |fields| && fields[k].1.Set? ==> (fields[k].0, fields[k].1.value) in members
    ensures forall m :: m in members ==> exists k :: 0 <= k < |fields| && fields[k] == (m.0, Set(m.1))
    // a dict: with distinct field names, no name appears twice
    ensures (forall i, j :: 0 <= i < j < |fields| ==> fields[i].0 != fields[j].0) ==>
      forall i, j :: 0 <= i < j < |members| ==> members[i].0 != members[j].0
  {
    if |fields| == 0 then []
    else
      var rest := ExcludeUnset(fields[1..]);
      assert forall k :: 1 <= k < |fields| ==> fields[k] == fields[1..][k - 1];
      match fields[0].1
      case Unset => rest
      case Set(v) => [(fields[0].0, v)] + rest
  }

  function StudentCreateBody(s: StudentCreate): Json {
    JObject([("name", JStr(s.name)), ("age", JInt(s.age)), ("email", JStr(s.email)), ("course", JStr(s.course))])
  }

  function StudentUpdateFields(u: StudentUpdate): seq<(string, Field<Json>)> {
    [("name", TextField(u.name)), ("age", NumberField(u.age)), ("email", TextField(u.email)), ("course", TextField(u.course))]
  }

  function CourseCreateBody(c: CourseCreate): Json {
    JObject([
      ("title", JStr(c.title)),
      ("description", JStr(c.description)),
      ("duration_weeks", JInt(c.durationWeeks)),
      ("instructor", JStr(c.instructor)),
      ("max_students", JInt(c.maxStudents))])
  }

  function CourseUpdateFields(u: CourseUpdate): seq<(string, Field<Json>)> {
    [
      ("title", TextField(u.title)),
      ("description", TextField(u.description)),
      ("duration_weeks", NumberField(u.durationWeeks)),
      ("instructor", TextField(u.instructor)),
      ("max_students", NumberField(u.maxStudents))
    ]
  }

  function StudentPath(id: int): string {
    "/api/students/" + Decimal.IntToString(id)
  }

  function CoursePath(id: int): string {
    "/api/courses/" + Decimal.IntToString(id)
  }

  datatype Route =
    | GetAllStudents
    | GetStudent(studentId: int)
    | CreateStudent(student: StudentCreate)
    | UpdateStudent(studentId: int, studentUpdate: StudentUpdate)
    | DeleteStudent(studentId: int)
    | GetAllCourses
    | GetCourse(courseId: int)
    | CreateCourse(course: CourseCreate)
    | UpdateCourse(courseId: int, courseUpdate: CourseUpdate)
    | DeleteCourse(courseId: int)

  /** The arguments a handler passes to `forward_request`. */
  datatype Descriptor = Descriptor(service: string, path: string, verb: string, json: Option<Json>)

  function Describe(route: Route): (d: Descriptor)
    // every handler names a configured service and a supported method
    ensures d.service in ServiceNames(Services) && SupportedMethod(d.verb)
    // student routes go to the student backend, course routes to the course backend
    ensures d.service == "course" <==> route.GetAllCourses? || route.GetCourse? || route.CreateCourse? || route.UpdateCourse? || route.DeleteCourse?
    // lists and single reads are GETs, creates POSTs, updates PUTs, deletes DELETEs
    ensures d.verb == "GET" <==> route.GetAllStudents? || route.GetStudent? || route.GetAllCourses? || route.GetCourse?
    ensures d.verb == "POST" <==> route.CreateStudent? || route.CreateCourse?
    ensures d.verb == "PUT" <==> route.UpdateStudent? || route.UpdateCourse?
    ensures d.verb == "DELETE" <==> route.DeleteStudent? || route.DeleteCourse?
    // collection routes address the collection, the others the resource with their id
    ensures route.GetAllStudents? || route.CreateStudent? ==> d.path == "/api/students"
    ensures route.GetAllCourses? || route.CreateCourse? ==> d.path == "/api/courses"
    ensures route.GetStudent? || route.UpdateStudent? || route.DeleteStudent? ==> d.path == StudentPath(route.studentId)
    ensures route.GetCourse? || route.UpdateCourse? || route.DeleteCourse? ==> d.path == CoursePath(route.courseId)
    // only create and update send a body, so the client never refuses one
    ensures d.json.Some? <==> route.CreateStudent? || route.UpdateStudent? || route.CreateCourse? || route.UpdateCourse?
    ensures d.json.Some? ==> AcceptsBody(d.verb)
    // a create body is the whole record
    ensures route.CreateStudent? ==> d.json == Some(StudentCreateBody(route.student))
    ensures route.CreateCourse? ==> d.json == Some(CourseCreateBody(route.course))
    // an update body holds exactly the fields that were set
    ensures route.UpdateStudent? ==> d.verb == "PUT" && d.json == Some(JObject(ExcludeUnset(StudentUpdateFields(route.studentUpdate))))
    ensures route.UpdateCourse? ==> d.verb == "PUT" && d.json == Some(JObject(ExcludeUnset(CourseUpdateFields(route.courseUpdate))))
  {
    match route
    case GetAllStudents => Descriptor("student", "/api/students", "GET", None)
    case GetStudent(id) => Descriptor("student", StudentPath(id), "GET", None)
    case CreateStudent(s) => Descriptor("student", "/api/students", "POST", Some(StudentCreateBody(s)))
    case UpdateStudent(id, u) => Descriptor("student", StudentPath(id), "PUT", Some(JObject(ExcludeUnset(StudentUpdateFields(u)))))
    case DeleteStudent(id) => Descriptor("student", StudentPath(id), "DELETE", None)
    case GetAllCourses => Descriptor("course", "/api/courses", "GET", None)
    case GetCourse(id) => Descriptor("course", CoursePath(id), "GET", None)
    case CreateCourse(c) => Descriptor("course", "/api/courses", "POST", Some(CourseCreateBody(c)))
    case UpdateCourse(id, u) => Descriptor("course", CoursePath(id), "PUT", Some(JObject(ExcludeUnset(CourseUpdateFields(u)))))
    case DeleteCourse(id) => Descriptor("course", CoursePath(id), "DELETE", None)
  }

  /** A handler: the token dependency runs first; with a subject, the request is forwarded. */
  function Handle(token: DecodeOutcome, route: Route, backend: BackendOutcome): (x: Exchange)
    // a refused token stops the request before any backend call
    ensures VerifyToken(token).Failure? ==> x == Exchange(None, Err(VerifyToken(token).error))
    // an accepted token always sends the route's method, URL and body; the backend decides the result
    ensures VerifyToken(token).Success? ==>
      && x.sent.Some?
      && x.sent == Some(Outbound(
           Describe(route).verb,
           Lookup(Services, Describe(route).service).value + Describe(route).path,
           Describe(route).json))
      && x.result == Classify(Lookup(Services, Describe(route).service).value, Describe(route).path, backend)
    // so a handler never answers SERVICE_NOT_FOUND or METHOD_NOT_ALLOWED
    ensures x.result.Err? ==> x.result.error.code !in {ServiceNotFound, MethodNotAllowed}
  {
    match VerifyToken(token)
    case Failure(e) => Exchange(None, Err(e))
    case Success(_) =>
      var d := Describe(route);
      Forward(Services, d.service, d.path, d.verb, d.json, backend)
  }

  /** No authorisation beyond authentication: every accepted subject gets the same answer. */
  lemma SubjectIsNotConsulted(t1: DecodeOutcome, t2: DecodeOutcome, route: Route, backend: BackendOutcome)
    requires VerifyToken(t1).Success? && VerifyToken(t2).Success?
    ensures Handle(t1, route, backend) == Handle(t2, route, backend)
  {
  }

  /** Distinct ids address distinct backend resources. */
  lemma ResourcePathsDistinct(a: int, b: int)
    requires a != b
    ensures StudentPath(a) != StudentPath(b)
    ensures CoursePath(a) != CoursePath(b)
  {
    if StudentPath(a) == StudentPath(b) || CoursePath(a) == CoursePath(b) {
      assert StudentPath(a)[14..] == Decimal.IntToString(a) && StudentPath(b)[14..] == Decimal.IntToString(b);
      assert CoursePath(a)[13..] == Decimal.IntToString(a) && CoursePath(b)[13..] == Decimal.IntToString(b);
      Decimal.IntToStringInjective(a, b);
    }
  }

  /** An update with nothing set forwards an empty JSON object. */
  lemma EmptyUpdateSendsEmptyBody(studentId: int, courseId: int)
    ensures Describe(UpdateStudent(studentId, StudentUpdate(Unset, Unset, Unset, Unset))).json == Some(JObject([]))
    ensures Describe(UpdateCourse(courseId, CourseUpdate(Unset, Unset, Unset, Unset, Unset))).json == Some(JObject([]))
  {
  }

  /** Only the title of a course update is set: only the title is sent, an explicit null too. */
  lemma TitleOnlyUpdate(courseId: int, title: Option<string>)
    ensures Describe(UpdateCourse(courseId, CourseUpdate(Set(title), Unset, Unset, Unset, Unset))).json
      == Some(JObject([("title", if title.Some? then JStr(title.value) else JNull)]))
  {
    var fields := CourseUpdateFields(CourseUpdate(Set(title), Unset, Unset, Unset, Unset));
    assert ExcludeUnset(fields[1..]) == [];
    assert ExcludeUnset(fields) == [("title", fields[0].1.value)];
  }

  /** Listing courses with a valid token returns the course backend's list unchanged. */
  lemma ListCoursesPassesThrough(token: DecodeOutcome, list: Json)
    requires VerifyToken(token).Success?
    ensures Handle(token, GetAllCourses, Responded(200, JsonText(list)))
      == Exchange(Some(Outbound("GET", "http://localhost:8002/api/courses", None)), Ok(200, Some(list)))
  {
    ConfiguredServices();
    var d := Describe(GetAllCourses);
    assert d == Descriptor("course", "/api/courses", "GET", None);
    assert Lookup(Services, "course").value + d.path == "http://localhost:8002/api/courses";
    assert Handle(token, GetAllCourses, Responded(200, JsonText(list))) == Forward(Services, d.service, d.path, d.verb, d.json, Responded(200, JsonText(list)));
  }

  /** A course the backend does not have is reported as RESOURCE_NOT_FOUND with its path. */
  lemma MissingCourseIsNotFound(token: DecodeOutcome, body: BackendBody)
    requires VerifyToken(token).Success?
    ensures Handle(token, GetCourse(999), Responded(404, body)).result
      == Err(Envelope(ResourceNotFound, 404, RequestedPath("/api/courses/999")))
  {
    assert Decimal.NatToString(9) == "9";
    assert Decimal.NatToString(99) == "99";
    assert Decimal.IntToString(999) == "999";
    var d := Describe(GetCourse(999));
    assert d.path == "/api/courses/999";
  }
}

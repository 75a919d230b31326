/** `CourseMockDataService`: the course list in insertion order plus the id counter. Every
    operation returns the new store alongside what the Python method returns. */
module CourseStore {
  import opened Wrappers
  import opened Models

  datatype Store = Store(courses: seq<Course>, nextId: int)

  /** Ids strictly increase along the list (so insertion order is id order and ids are
      distinct), and all are below the counter, so the counter is always fresh. */
  predicate Valid(s: Store) {
    && (forall i, j :: 0 <= i < j < |s.courses| ==> s.courses[i].id < s.courses[j].id)
    && (forall i :: 0 <= i < |s.courses| ==> s.courses[i].id < s.nextId)
  }

  /** The store `__init__` builds. */
  function Init(): (s: Store)
    ensures Valid(s)
    ensures |s.courses| == 3 && s.courses[0].id == 1 && s.courses[1].id == 2 && s.courses[2].id == 3
    ensures s.nextId == 4
  {
    Store([
      Course(1, "Python Programming", "Learn Python from scratch", 8, "Dr. Smith", 30),
      Course(2, "Web Development", "HTML, CSS, JavaScript basics", 10, "Dr. Johnson", 25),
      Course(3, "Data Science", "Data analysis and machine learning", 12, "Dr. Williams", 20)
    ], 4)
  }

  /** `get_all_courses`: the courses in insertion order. The listing and the lookup by id agree:
      every listed course's id is found, and every course found by id is listed. In a valid
      store the listing is in increasing id order, that is in the order the courses were added,
      and each entry is exactly the course its id finds, so nothing is repeated or foreign. */
  function GetAll(s: Store): (r: seq<Course>)
    ensures forall k :: 0 <= k < |r| ==> GetById(s, r[k].id).Some?
    ensures forall id :: GetById(s, id).Some? ==> GetById(s, id).value in r
    ensures Valid(s) ==> |r| == |s.courses|
    ensures Valid(s) ==> forall i, j :: 0 <= i < j < |r| ==> r[i].id < r[j].id
    ensures Valid(s) ==> forall k :: 0 <= k < |r| ==> GetById(s, r[k].id) == Some(r[k])
  {
    ListedAreFound(s);
    s.courses
  }

  /** In a valid store every listed course is the one its id finds. */
  lemma ListedAreFound(s: Store)
    ensures Valid(s) ==> forall k :: 0 <= k < |s.courses| ==> GetById(s, s.courses[k].id) == Some(s.courses[k])
  {
    if Valid(s) {
      forall k | 0 <= k < |s.courses|
        ensures GetById(s, s.courses[k].id) == Some(s.courses[k])
      {
        GetByIdFindsEach(s, k);
      }
    }
  }

  /** The position of the first course with the given id, scanning from the front. */
  function FirstIndex(courses: seq<Course>, id: int): (r: Option<nat>)
    ensures r.None? <==> forall k :: 0 <= k < |courses| ==> courses[k].id != id
    ensures r.Some? ==> r.value < |courses| && courses[r.value].id == id
    ensures r.Some? ==> forall k :: 0 <= k < r.value ==> courses[k].id != id
  {
    if |courses| == 0 then None
    else if courses[0].id == id then Some(0)
    else match FirstIndex(courses[1..], id)
      case None => None
      case Some(k) => Some(k + 1)
  }

  /** `get_course_by_id`: the first course with the id, or `None`. */
  function GetById(s: Store, id: int): (r: Option<Course>)
    ensures r.None? <==> forall k :: 0 <= k < |s.courses| ==> s.courses[k].id != id
    ensures r.Some? ==> r.value.id == id
    ensures r.Some? ==>
      exists k :: 0 <= k < |s.courses| && s.courses[k] == r.value && forall j :: 0 <= j < k ==> s.courses[j].id != id
  {
    match FirstIndex(s.courses, id)
    case None => None
    case Some(k) => Some(s.courses[k])
  }

  /** In a valid store a course is found by its own id. */
  lemma GetByIdFindsEach(s: Store, k: int)
    requires Valid(s) && 0 <= k < |s.courses|
    ensures GetById(s, s.courses[k].id) == Some(s.courses[k])
  {
  }

  /** `add_course`: the new course takes the counter as its id and goes at the end. */
  function Add(s: Store, data: CourseCreate): (r: (Store, Course))
    ensures r.1 == Course(s.nextId, data.title, data.description, data.durationWeeks, data.instructor, data.maxStudents)
    ensures r.0.courses == s.courses + [r.1]
    ensures r.0.nextId == s.nextId + 1
  {
    var course := Course(s.nextId, data.title, data.description, data.durationWeeks, data.instructor, data.maxStudents);
    (Store(s.courses + [course], s.nextId + 1), course)
  }

  /** The listing after an add is the earlier listing with the new course at the end. */
  lemma AddListsAtEnd(s: Store, data: CourseCreate)
    ensures GetAll(Add(s, data).0) == GetAll(s) + [Add(s, data).1]
  {
  }

  /** Adding keeps a store valid, the new course is found by its id, and every other id is
      found exactly as before. */
  lemma AddKeepsValid(s: Store, data: CourseCreate)
    requires Valid(s)
    ensures var (s', course) := Add(s, data);
      && Valid(s')
      && GetById(s', course.id) == Some(course)
      && forall id :: id != course.id ==> GetById(s', id) == GetById(s, id)
  {
    var (s', course) := Add(s, data);
    AddAppendsInOrder(s, data);
    GetByIdFindsEach(s', |s.courses|);
    forall id | id != course.id
      ensures GetById(s', id) == GetById(s, id)
    {
      FirstIndexOfPrefix(s.courses, course, id);
    }
  }

  /** The new course's id exceeds every id already listed, so ids still increase. */
  lemma AddAppendsInOrder(s: Store, data: CourseCreate)
    requires Valid(s)
    ensures Valid(Add(s, data).0)
  {
    var (s', course) := Add(s, data);
    assert s'.courses == s.courses + [course];
    forall i, j | 0 <= i < j < |s'.courses|
      ensures s'.courses[i].id < s'.courses[j].id
    {
      if j == |s.courses| {
        assert s'.courses[i] == s.courses[i];
      } else {
        assert s'.courses[i] == s.courses[i] && s'.courses[j] == s.courses[j];
      }
    }
  }

  /** Appending a course with another id does not change where an id is first found. */
  lemma {:induction false} FirstIndexOfPrefix(courses: seq<Course>, c: Course, id: int)
    requires c.id != id
    ensures FirstIndex(courses + [c], id) == FirstIndex(courses, id)
    decreases |courses|
  {
    if |courses| > 0 && courses[0].id != id {
      assert (courses + [c])[1..] == courses[1..] + [c];
      FirstIndexOfPrefix(courses[1..], c, id);
    }
  }

  /** `setattr` of every field the update sets; the id cannot be changed. */
  function ApplyUpdate(c: Course, u: CourseUpdate): (r: Course)
    ensures r.id == c.id
    ensures r.title == (if u.title.Some? then u.title.value else c.title)
    ensures r.description == (if u.description.Some? then u.description.value else c.description)
    ensures r.durationWeeks == (if u.durationWeeks.Some? then u.durationWeeks.value else c.durationWeeks)
    ensures r.instructor == (if u.instructor.Some? then u.instructor.value else c.instructor)
    ensures r.maxStudents == (if u.maxStudents.Some? then u.maxStudents.value else c.maxStudents)
  {
    var c := if u.title.Some? then c.(title := u.title.value) else c;
    var c := if u.description.Some? then c.(description := u.description.value) else c;
    var c := if u.durationWeeks.Some? then c.(durationWeeks := u.durationWeeks.value) else c;
    var c := if u.instructor.Some? then c.(instructor := u.instructor.value) else c;
    if u.maxStudents.Some? then c.(maxStudents := u.maxStudents.value) else c
  }

  /** Applying the same update twice is applying it once; an update that sets nothing is no
      change. */
  lemma ApplyUpdateIdempotent(c: Course, u: CourseUpdate)
    ensures ApplyUpdate(ApplyUpdate(c, u), u) == ApplyUpdate(c, u)
    ensures ApplyUpdate(c, CourseUpdate(None, None, None, None, None)) == c
  {
  }

  /** `update_course`: the first course with the id is updated in place, or `None`. */
  function Update(s: Store, id: int, u: CourseUpdate): (r: (Store, Option<Course>))
    ensures r.1.None? <==> GetById(s, id).None?
    ensures r.1.None? ==> r.0 == s
    ensures r.1.Some? ==> r.1.value == ApplyUpdate(GetById(s, id).value, u)
    ensures r.1.Some? ==> r.0.courses == s.courses[FirstIndex(s.courses, id).value := r.1.value]
    ensures r.0.nextId == s.nextId && |r.0.courses| == |s.courses|
    ensures forall k :: 0 <= k < |s.courses| && s.courses[k].id != id ==> r.0.courses[k] == s.courses[k]
  {
    match FirstIndex(s.courses, id)
    case None => (s, None)
    case Some(k) =>
      var updated := ApplyUpdate(s.courses[k], u);
      (s.(courses := s.courses[k := updated]), Some(updated))
  }

  /** Updating keeps a store valid, and the id then finds the updated course. */
  lemma UpdateKeepsValid(s: Store, id: int, u: CourseUpdate)
    requires Valid(s)
    ensures Valid(Update(s, id, u).0)
    ensures GetById(Update(s, id, u).0, id) == Update(s, id, u).1
  {
    var k := FirstIndex(s.courses, id);
    if k.Some? {
      GetByIdFindsEach(Update(s, id, u).0, k.value);
    }
  }

  /** The position of the first course equal to `c`, as `list.remove` scans for it. */
  function FirstEqual(courses: seq<Course>, c: Course): (r: Option<nat>)
    ensures r.None? <==> c !in courses
    ensures r.Some? ==> r.value < |courses| && courses[r.value] == c && c !in courses[..r.value]
  {
    if |courses| == 0 then None
    else if courses[0] == c then Some(0)
    else match FirstEqual(courses[1..], c)
      case None => None
      case Some(k) =>
        assert courses[..k + 1] == [courses[0]] + courses[1..][..k];
        Some(k + 1)
  }

  /** Python's `list.remove(c)`: drops the first element equal to `c`, keeping the others in order. */
  function RemoveFirst(courses: seq<Course>, c: Course): (r: seq<Course>)
    ensures c in courses ==> |r| == |courses| - 1
    ensures c in courses ==>
      exists k :: 0 <= k < |courses| && courses[k] == c && c !in courses[..k] && r == courses[..k] + courses[k + 1..]
    ensures c !in courses ==> r == courses
  {
    match FirstEqual(courses, c)
    case None => courses
    case Some(k) => courses[..k] + courses[k + 1..]
  }

  /** Removing by equality the first course with a given id removes exactly its position: every
      earlier course has another id, so none of them is equal to it. */
  lemma RemoveFirstAt(courses: seq<Course>, k: nat)
    requires k < |courses|
    requires forall j :: 0 <= j < k ==> courses[j].id != courses[k].id
    ensures RemoveFirst(courses, courses[k]) == courses[..k] + courses[k + 1..]
  {
    var i := FirstEqual(courses, courses[k]);
    assert courses[k] !in courses[..i.value];
  }

  /** `delete_course`: removes the first course with the id and reports whether there was one. */
  function Delete(s: Store, id: int): (r: (Store, bool))
    ensures r.1 <==> GetById(s, id).Some?
    ensures !r.1 ==> r.0 == s
    ensures r.1 ==> var k := FirstIndex(s.courses, id).value;
      r.0.courses == s.courses[..k] + s.courses[k + 1..]
    ensures r.0.nextId == s.nextId
  {
    match GetById(s, id)
    case None => (s, false)
    case Some(course) =>
      RemoveFirstAt(s.courses, FirstIndex(s.courses, id).value);
      (s.(courses := RemoveFirst(s.courses, course)), true)
  }

  /** Deleting keeps a store valid and the deleted id is no longer found. */
  lemma DeleteKeepsValid(s: Store, id: int)
    requires Valid(s)
    ensures Valid(Delete(s, id).0)
    ensures GetById(Delete(s, id).0, id) == None
  {
    if GetById(s, id).Some? {
      RemoveAtKeepsValid(s, FirstIndex(s.courses, id).value);
    }
  }

  /** Dropping one position from a valid store keeps it valid and leaves no course with that id. */
  lemma RemoveAtKeepsValid(s: Store, k: nat)
    requires Valid(s) && k < |s.courses|
    ensures Valid(s.(courses := s.courses[..k] + s.courses[k + 1..]))
    ensures forall c :: c in s.courses[..k] + s.courses[k + 1..] ==> c.id != s.courses[k].id
  {
    var rest := s.courses[..k] + s.courses[k + 1..];
    assert forall j :: 0 <= j < |rest| ==> rest[j] == s.courses[if j < k then j else j + 1];
  }

  /** One call of the mutating API. */
  datatype Op = AddOp(data: CourseCreate) | UpdateOp(id: int, update: CourseUpdate) | DeleteOp(id: int)

  function Step(s: Store, op: Op): Store {
    match op
    case AddOp(data) => Add(s, data).0
    case UpdateOp(id, u) => Update(s, id, u).0
    case DeleteOp(id) => Delete(s, id).0
  }

  function Run(s: Store, ops: seq<Op>): Store
    decreases |ops|
  {
    if |ops| == 0 then s else Run(Step(s, ops[0]), ops[1..])
  }

  /** The ids `add_course` hands out along a sequence of calls, in order. */
  function AssignedIds(s: Store, ops: seq<Op>): seq<int>
    decreases |ops|
  {
    if |ops| == 0 then []
    else (if ops[0].AddOp? then [s.nextId] else []) + AssignedIds(Step(s, ops[0]), ops[1..])
  }

  /** Each call changes the counter only by the id it hands out. */
  lemma StepCounter(s: Store, op: Op)
    ensures Step(s, op).nextId == s.nextId + (if op.AddOp? then 1 else 0)
  {
  }

  /** Along any sequence of calls `add_course` hands out consecutive ids starting at the counter,
      and the counter ends just past the last of them. */
  lemma {:induction false} AssignedIdsConsecutive(s: Store, ops: seq<Op>)
    ensures Run(s, ops).nextId == s.nextId + |AssignedIds(s, ops)|
    ensures forall i :: 0 <= i < |AssignedIds(s, ops)| ==> AssignedIds(s, ops)[i] == s.nextId + i
    decreases |ops|
  {
    if |ops| > 0 {
      var s1 := Step(s, ops[0]);
      StepCounter(s, ops[0]);
      AssignedIdsConsecutive(s1, ops[1..]);
      var head := if ops[0].AddOp? then [s.nextId] else [];
      assert AssignedIds(s, ops) == head + AssignedIds(s1, ops[1..]);
    }
  }

  /** Every call keeps the store valid. */
  lemma StepKeepsValid(s: Store, op: Op)
    requires Valid(s)
    ensures Valid(Step(s, op))
  {
    match op
    case AddOp(data) => AddKeepsValid(s, data);
    case UpdateOp(id, u) => UpdateKeepsValid(s, id, u);
    case DeleteOp(id) => DeleteKeepsValid(s, id);
  }

  lemma {:induction false} RunKeepsValid(s: Store, ops: seq<Op>)
    requires Valid(s)
    ensures Valid(Run(s, ops))
    decreases |ops|
  {
    if |ops| > 0 {
      StepKeepsValid(s, ops[0]);
      RunKeepsValid(Step(s, ops[0]), ops[1..]);
    }
  }

  /** Ids are never reused: along any sequence of calls the ids handed out are distinct, none of
      them belongs to a course present at the start (nor, applying this from any intermediate
      store, to one deleted earlier), and the counter never goes down. */
  lemma IdsNeverReused(s: Store, ops: seq<Op>)
    requires Valid(s)
    ensures Run(s, ops).nextId >= s.nextId
    ensures forall i, j :: 0 <= i < j < |AssignedIds(s, ops)| ==> AssignedIds(s, ops)[i] != AssignedIds(s, ops)[j]
    ensures forall i, k :: 0 <= i < |AssignedIds(s, ops)| && 0 <= k < |s.courses| ==> AssignedIds(s, ops)[i] != s.courses[k].id
  {
    AssignedIdsConsecutive(s, ops);
  }
}

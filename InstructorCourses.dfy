/**
 * The instructor's course list, app/instructor/courses/page.tsx: loading the
 * instructor's courses, deleting one, and the four summary figures.
 */
module InstructorCourses {
  import opened Wrappers
  import opened Users
  import opened Api
  import opened Records
  import opened Seqs

  /** `courses.filter((c) => c.id !== courseId)`. */
  function RemoveById(courses: seq<Course>, courseId: int): (r: seq<Course>)
    ensures |r| <= |courses|
    ensures forall c :: c in r <==> c in courses && c.id != courseId
  {
    Filter(courses, (c: Course) => c.id != courseId)
  }

  /** The courses a delete of `courseId` takes away. */
  function WithId(courses: seq<Course>, courseId: int): (r: seq<Course>)
    ensures forall c :: c in r <==> c in courses && c.id == courseId
  {
    Filter(courses, (c: Course) => c.id == courseId)
  }

  /** Deleting keeps the surviving courses in their order: it acts on each
      part of a list separately. */
  lemma RemoveByIdKeepsOrder(a: seq<Course>, b: seq<Course>, courseId: int)
    ensures RemoveById(a + b, courseId) == RemoveById(a, courseId) + RemoveById(b, courseId)
  {
    FilterConcat(a, b, (c: Course) => c.id != courseId);
  }

  /** Deleting an id that no course has leaves the list as it was. */
  lemma {:induction false} RemoveAbsentId(courses: seq<Course>, courseId: int)
    requires forall c :: c in courses ==> c.id != courseId
    ensures RemoveById(courses, courseId) == courses
  {
    if courses != [] {
      assert courses == [courses[0]] + courses[1..];
      RemoveByIdKeepsOrder([courses[0]], courses[1..], courseId);
      RemoveAbsentId(courses[1..], courseId);
    }
  }

  /** `course.enrolled_students || 0`. */
  function StudentsOf(c: Course): (n: int) {
    c.enrolledStudents.GetOr(0)
  }

  /** `courses.reduce((acc, course) => acc + (course.enrolled_students || 0), 0)`. */
  function TotalStudents(courses: seq<Course>): (total: int)
    ensures (forall i :: 0 <= i < |courses| ==> StudentsOf(courses[i]) >= 0) ==> total >= 0
  {
    if courses == [] then 0 else StudentsOf(courses[0]) + TotalStudents(courses[1..])
  }

  lemma {:induction false} TotalStudentsConcat(a: seq<Course>, b: seq<Course>)
    ensures TotalStudents(a + b) == TotalStudents(a) + TotalStudents(b)
  {
    if a == [] {
      assert a + b == b;
    } else {
      assert (a + b)[1..] == a[1..] + b;
      TotalStudentsConcat(a[1..], b);
    }
  }

  /** A delete lowers the student total by exactly the students of the
      courses it removes. */
  lemma {:induction false} TotalStudentsAfterDelete(courses: seq<Course>, courseId: int)
    ensures TotalStudents(courses) == TotalStudents(RemoveById(courses, courseId)) + TotalStudents(WithId(courses, courseId))
  {
    if courses != [] {
      var head, tail := courses[0], courses[1..];
      assert courses == [head] + tail;
      RemoveByIdKeepsOrder([head], tail, courseId);
      FilterConcat([head], tail, (c: Course) => c.id == courseId);
      assert [head][1..] == [];
      TotalStudentsConcat(RemoveById([head], courseId), RemoveById(tail, courseId));
      TotalStudentsConcat(WithId([head], courseId), WithId(tail, courseId));
      TotalStudentsAfterDelete(tail, courseId);
    }
  }

  /** The four cards: total, published, students, approved. */
  datatype Stats = Stats(total: nat, published: nat, students: int, approved: nat)

  function StatsOf(courses: seq<Course>): (s: Stats)
    ensures s.total == |courses|
    ensures s.published == |Filter(courses, (c: Course) => c.isPublished)|
    ensures s.approved == |Filter(courses, (c: Course) => c.isApproved)|
    ensures s.published <= s.total && s.approved <= s.total
    ensures s.published == s.total <==> forall i :: 0 <= i < |courses| ==> courses[i].isPublished
    ensures s.approved == s.total <==> forall i :: 0 <= i < |courses| ==> courses[i].isApproved
    ensures s.students == TotalStudents(courses)
  {
    FilterKeepsAll(courses, (c: Course) => c.isPublished);
    FilterKeepsAll(courses, (c: Course) => c.isApproved);
    Stats(|courses|,
          |Filter(courses, (c: Course) => c.isPublished)|,
          TotalStudents(courses),
          |Filter(courses, (c: Course) => c.isApproved)|)
  }

  datatype CourseList = Skeleton | EmptyState | Cards(courses: seq<Course>)

  datatype InstructorScreen = AccessDenied | Overview(stats: Stats, list: CourseList)

  /** Everyone but an instructor is turned away; an instructor sees the
      stats and the list (a skeleton while loading). */
  function ScreenFor(user: Option<User>, loading: bool, courses: seq<Course>): (s: InstructorScreen)
    ensures s == AccessDenied <==> !(user.Some? && user.value.role == InstructorTag)
    ensures s.Overview? ==> s.stats == StatsOf(courses)
    ensures s.Overview? ==> (s.list == Skeleton <==> loading)
    ensures s.Overview? && !loading ==> (s.list == EmptyState <==> courses == [])
    ensures s.Overview? && s.list.Cards? ==> s.list.courses == courses
  {
    if !(user.Some? && user.value.role == InstructorTag) then AccessDenied
    else Overview(StatsOf(courses),
                  if loading then Skeleton else if courses == [] then EmptyState else Cards(courses))
  }

  /** `getCourses({ instructor_id: user?.id })`. */
  datatype InstructorQuery = InstructorQuery(instructorId: Option<int>)

  class InstructorCoursesPage {
    var courses: seq<Course>
    var loading: bool
    const api: ApiClient

    constructor (api: ApiClient)
      ensures courses == [] && loading && this.api == api
    {
      courses := [];
      loading := true;
      this.api := api;
    }

    /** The effect on `[user]`: loads only for an instructor. */
    method OnUserChange(user: Option<User>, response: Result<seq<Course>, ApiError>) returns (query: Option<InstructorQuery>)
      modifies this, api.store, api.location
      ensures query.Some? <==> user.Some? && user.value.role == InstructorTag
      ensures query.Some? ==> query.value == InstructorQuery(Some(user.value.id)) && !loading
      ensures query.Some? ==> courses == (if response.Ok? then response.value else old(courses))
      ensures query.Some? ==> api.store.items == StorageAfter(old(api.store.items), response)
      ensures query.Some? ==> api.location.href == HrefAfter(old(api.location.href), response)
      ensures query.None? ==>
        courses == old(courses) && loading == old(loading)
        && api.store.items == old(api.store.items) && api.location.href == old(api.location.href)
    {
      if user.Some? && user.value.role == InstructorTag {
        query := Some(InstructorQuery(Some(user.value.id)));
        var answer := api.OnResponse(response);
        if answer.Ok? {
          courses := answer.value;
        }
        loading := false;
      } else {
        query := None;
      }
    }

    /** `handleDeleteCourse`: nothing happens unless confirmed; a successful
        delete drops every course with that id; a failed one keeps the list. */
    method HandleDeleteCourse(courseId: int, confirmed: bool, response: Result<(), ApiError>) returns (called: bool)
      modifies this, api.store, api.location
      ensures called == confirmed && loading == old(loading)
      ensures called && response.Ok? ==> courses == RemoveById(old(courses), courseId)
      ensures !(called && response.Ok?) ==> courses == old(courses)
      ensures called ==>
        api.store.items == StorageAfter(old(api.store.items), response)
        && api.location.href == HrefAfter(old(api.location.href), response)
      ensures !called ==> api.store.items == old(api.store.items) && api.location.href == old(api.location.href)
    {
      if !confirmed {
        return false;
      }
      called := true;
      var answer := api.OnResponse(response);
      if answer.Ok? {
        courses := RemoveById(courses, courseId);
      }
    }
  }
}

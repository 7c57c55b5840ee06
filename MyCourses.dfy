/**
 * A student's enrolled courses, app/my-courses/page.tsx: when the
 * enrollments load, which screen shows, and each card's progress labels.
 */
module MyCourses {
  import opened Wrappers
  import opened Users
  import opened Auth
  import opened Api
  import opened Records

  const StartLabel := "Começar"
  const ContinueLabel := "Continuar"

  datatype MyCoursesScreen = AccessDenied | Skeleton | NoEnrollments | Cards(enrollments: seq<Enrollment>)

  /** The access check comes before the loading check. */
  function ScreenFor(user: Option<User>, loading: bool, enrollments: seq<Enrollment>): (s: MyCoursesScreen)
    ensures s == AccessDenied <==> user.None?
    ensures s == Skeleton <==> user.Some? && loading
    ensures s.Cards? ==> s.enrollments == enrollments && enrollments != []
    ensures s == NoEnrollments <==> user.Some? && !loading && enrollments == []
  {
    if user.None? then AccessDenied
    else if loading then Skeleton
    else if enrollments == [] then NoEnrollments
    else Cards(enrollments)
  }

  /** `enrollment.progress || 0`: a missing or zero progress shows as 0. */
  function ShownProgress(e: Enrollment): (p: int)
    ensures e.progress.Some? ==> p == e.progress.value
    ensures e.progress.None? ==> p == 0
  {
    e.progress.GetOr(0)
  }

  /** `enrollment.progress === 0 ? "Começar" : "Continuar"`. */
  function ButtonLabel(e: Enrollment): (text: string)
    ensures text == StartLabel <==> e.progress == Some(0)
    ensures text == ContinueLabel <==> e.progress != Some(0)
  {
    if e.progress == Some(0) then StartLabel else ContinueLabel
  }

  /** `enrollment.completed_at && …`: the "Concluído" badge shows when the
      completion date is present and not the empty string. */
  function ShowsCompleted(e: Enrollment): (shown: bool)
    ensures shown ==> e.completedAt.Some?
    ensures e.completedAt.Some? ==> (shown <==> e.completedAt.value != "")
  {
    Truthy(e.completedAt)
  }

  /** The two progress readings disagree when the server omits `progress`:
      the card shows 0% and still offers "Continuar". */
  lemma MissingProgressReadsAsZeroButContinues(e: Enrollment)
    requires e.progress.None?
    ensures ShownProgress(e) == 0 && ButtonLabel(e) == ContinueLabel
  {
  }

  /** "Começar" is offered only on cards that show 0%. */
  lemma StartImpliesZeroShown(e: Enrollment)
    requires ButtonLabel(e) == StartLabel
    ensures ShownProgress(e) == 0
  {
  }

  class MyCoursesPage {
    var enrollments: seq<Enrollment>
    var loading: bool
    const api: ApiClient

    constructor (api: ApiClient)
      ensures enrollments == [] && loading && this.api == api
    {
      enrollments := [];
      loading := true;
      this.api := api;
    }

    /** The effect on `[user]`: loads only when a user is present, and ends
        the loading state whether the load succeeds or fails. */
    method OnUserChange(user: Option<User>, response: Result<seq<Enrollment>, ApiError>) returns (requested: bool)
      modifies this, api.store, api.location
      ensures requested <==> user.Some?
      ensures requested ==> !loading
      ensures requested ==> enrollments == (if response.Ok? then response.value else old(enrollments))
      ensures requested ==>
        api.store.items == StorageAfter(old(api.store.items), response)
        && api.location.href == HrefAfter(old(api.location.href), response)
      ensures !requested ==>
        enrollments == old(enrollments) && loading == old(loading)
        && api.store.items == old(api.store.items) && api.location.href == old(api.location.href)
    {
      requested := user.Some?;
      if requested {
        var answer := api.OnResponse(response);
        if answer.Ok? {
          enrollments := answer.value;
        }
        loading := false;
      }
    }
  }
}

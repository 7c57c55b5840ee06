/**
 * The decisions of app/dashboard/page.tsx: the redirect effect, which
 * screen renders, and which dashboard variant a role gets.
 */
module Dashboard {
  import opened Wrappers
  import opened Users
  import opened Api

  datatype Variant = AdminDashboard | InstructorDashboard | StudentDashboard | NotRecognized

  datatype Screen = Skeleton | Blank | Panel(variant: Variant)

  /** The `switch (user.role)` of `getDashboardContent`. */
  function VariantFor(role: string): (v: Variant)
    ensures v == AdminDashboard <==> role == AdminTag
    ensures v == InstructorDashboard <==> role == InstructorTag
    ensures v == StudentDashboard <==> role == StudentTag
  {
    match RoleOf(role)
    case Admin => AdminDashboard
    case Instructor => InstructorDashboard
    case Student => StudentDashboard
    case Unrecognized => NotRecognized
  }

  /** The effect's condition: `!loading && !user`. */
  predicate ShouldRedirect(loading: bool, user: Option<User>) {
    !loading && user.None?
  }

  /** What the page renders: the skeleton while loading (whoever the user
      is), nothing once loading is over without a user, else the panel. */
  function DashboardScreen(loading: bool, user: Option<User>): (s: Screen)
    ensures loading ==> s == Skeleton
    ensures !loading && user.None? ==> s == Blank
    ensures !loading && user.Some? ==> s == Panel(VariantFor(user.value.role))
  {
    if loading then Skeleton
    else match user
      case None => Blank
      case Some(u) => Panel(VariantFor(u.role))
  }

  /** The redirect fires on exactly the renders that show nothing. */
  lemma RedirectIffBlank(loading: bool, user: Option<User>)
    ensures ShouldRedirect(loading, user) <==> DashboardScreen(loading, user) == Blank
  {
  }

  /** The mount/update effect: `router.push("/auth/login")` when it fires. */
  method RedirectEffect(loading: bool, user: Option<User>, router: Location)
    modifies router
    ensures router.href == if ShouldRedirect(loading, user) then LoginPath else old(router.href)
  {
    if !loading && user.None? {
      router.href := LoginPath;
    }
  }
}

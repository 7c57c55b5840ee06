/**
 * The navigation policy of components/layout/Header.tsx: which links,
 * buttons and menu items appear for the current user.
 */
module Header {
  import opened Wrappers
  import opened Users

  datatype NavItem =
    | CoursesLink            // "Cursos", /courses
    | InstructorCoursesLink  // "Meus Cursos", /instructor/courses
    | AdminLink              // "Admin", /admin/dashboard
    | CreateCourseButton     // "Criar Curso", /instructor/courses/new
    | AvatarMenu             // the dropdown trigger
    | ProfileItem            // "Perfil", /profile
    | MyCoursesItem          // "Meus Cursos", /my-courses
    | SettingsItem           // "Configurações", /settings
    | LogoutItem             // "Sair"
    | LoginLink              // "Entrar", /auth/login
    | RegisterLink           // "Cadastrar", /auth/register

  /** `user?.role === tag`. */
  predicate HasRole(user: Option<User>, tag: string) {
    user.Some? && user.value.role == tag
  }

  /** The `<nav>` links. */
  function NavLinks(user: Option<User>): (items: seq<NavItem>)
    ensures CoursesLink in items
    ensures InstructorCoursesLink in items <==> HasRole(user, InstructorTag)
    ensures AdminLink in items <==> HasRole(user, AdminTag)
    ensures forall x :: x in items ==> x in {CoursesLink, InstructorCoursesLink, AdminLink}
  {
    [CoursesLink]
    + (if HasRole(user, InstructorTag) then [InstructorCoursesLink] else [])
    + (if HasRole(user, AdminTag) then [AdminLink] else [])
  }

  /** The create button and the dropdown shown to a logged-in user. */
  function AccountMenu(u: User): (items: seq<NavItem>)
    ensures CreateCourseButton in items <==> u.role == InstructorTag
    ensures MyCoursesItem in items <==> u.role == StudentTag
    ensures AvatarMenu in items && ProfileItem in items && SettingsItem in items && LogoutItem in items
    ensures forall x :: x in items ==> x !in {CoursesLink, InstructorCoursesLink, AdminLink, LoginLink, RegisterLink}
  {
    (if u.role == InstructorTag then [CreateCourseButton] else [])
    + [AvatarMenu, ProfileItem]
    + (if u.role == StudentTag then [MyCoursesItem] else [])
    + [SettingsItem, LogoutItem]
  }

  /** The right-hand side of the header: the account menu, or the login and
      register links. */
  function AccountArea(user: Option<User>): (items: seq<NavItem>)
    ensures user.None? ==> items == [LoginLink, RegisterLink]
    ensures user.Some? ==> items == AccountMenu(user.value)
  {
    match user
    case None => [LoginLink, RegisterLink]
    case Some(u) => AccountMenu(u)
  }

  /** The header's items in rendering order. */
  function HeaderItems(user: Option<User>): (items: seq<NavItem>)
    ensures CoursesLink in items
    ensures InstructorCoursesLink in items <==> HasRole(user, InstructorTag)
    ensures AdminLink in items <==> HasRole(user, AdminTag)
    ensures CreateCourseButton in items <==> HasRole(user, InstructorTag)
    ensures MyCoursesItem in items <==> HasRole(user, StudentTag)
    ensures AvatarMenu in items <==> user.Some?
    ensures LogoutItem in items <==> user.Some?
    ensures ProfileItem in items <==> user.Some?
    ensures SettingsItem in items <==> user.Some?
    ensures LoginLink in items <==> user.None?
    ensures RegisterLink in items <==> user.None?
  {
    NavLinks(user) + AccountArea(user)
  }

  /** A logged-out visitor sees exactly the catalogue link and the two
      account links. */
  lemma LoggedOutItems()
    ensures HeaderItems(None) == [CoursesLink, LoginLink, RegisterLink]
  {
  }

  /** `toUpperCase` on one character; only ASCII letters are mapped. */
  function UpperAscii(c: char): (r: char)
    ensures 'a' <= c <= 'z' ==> 'A' <= r <= 'Z' && r as int - c as int == 'A' as int - 'a' as int
    ensures !('a' <= c <= 'z') ==> r == c
  {
    if 'a' <= c <= 'z' then (c as int - 'a' as int + 'A' as int) as char else c
  }

  /** `name.charAt(0).toUpperCase()`: the first character upper-cased, or
      the empty string for an empty name. */
  function AvatarInitial(name: string): (r: string)
    ensures name == [] <==> r == []
    ensures name != [] ==> r == [UpperAscii(name[0])]
  {
    if name == [] then [] else [UpperAscii(name[0])]
  }
}

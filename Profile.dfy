/**
 * The profile page, app/profile/page.tsx: the access gate, the role labels
 * and the update-profile submission.
 */
module Profile {
  import opened Wrappers
  import opened Users
  import opened Auth
  import opened Api
  import opened Session

  const SuccessText := "Perfil atualizado com sucesso"
  const FallbackError := "Erro ao atualizar perfil"

  /** The body of `PUT /auth/profile`: the name, and nothing else. */
  datatype ProfileUpdate = ProfileUpdate(name: string)

  datatype Toast = SuccessToast(description: string) | ErrorToast(description: string)

  datatype ProfileScreen = AccessDenied | ProfileView(user: User)

  /** Without a user the page shows the access-denied view. */
  function ScreenFor(user: Option<User>): (s: ProfileScreen)
    ensures s == AccessDenied <==> user.None?
    ensures user.Some? ==> s == ProfileView(user.value)
  {
    match user
    case None => AccessDenied
    case Some(u) => ProfileView(u)
  }

  const AdminLabel := "Administrador"
  const InstructorLabel := "Instrutor"
  const StudentLabel := "Aluno"

  /** `roleLabels[user.role]`: defined for the three roles, undefined for any
      other tag. */
  function RoleLabel(role: string): (shown: Option<string>)
    ensures shown.Some? <==> RoleOf(role) != Unrecognized
    ensures shown.Some? ==> shown.value != ""
    ensures RoleOf(role) == Admin ==> shown == Some(AdminLabel)
    ensures RoleOf(role) == Instructor ==> shown == Some(InstructorLabel)
    ensures RoleOf(role) == Student ==> shown == Some(StudentLabel)
  {
    match RoleOf(role)
    case Admin => Some(AdminLabel)
    case Instructor => Some(InstructorLabel)
    case Student => Some(StudentLabel)
    case Unrecognized => None
  }

  /** The three roles get three different labels. */
  lemma RoleLabelsDistinct(a: string, b: string)
    requires RoleLabel(a).Some? && RoleLabel(a) == RoleLabel(b)
    ensures a == b
  {
  }

  /** `error.response?.data?.error || fallback`: the server's message when
      it sent a non-empty one, the fixed text otherwise. */
  function ErrorDescription(e: ApiError): (text: string)
    ensures Truthy(e.serverError) ==> text == e.serverError.value
    ensures !Truthy(e.serverError) ==> text == FallbackError
    ensures text != ""
  {
    if Truthy(e.serverError) then e.serverError.value else FallbackError
  }

  class ProfilePage {
    var name: string
    var loading: bool
    var toast: Option<Toast>
    const session: AuthProvider

    /** The form starts from the session user's name, or "" without a user. */
    constructor (session: AuthProvider)
      ensures this.session == session && !loading && toast == None
      ensures name == if session.user.Some? then session.user.value.name else ""
    {
      this.session := session;
      name := if session.user.Some? then session.user.value.name else "";
      loading := false;
      toast := None;
    }

    /** `handleUpdateProfile`: sends the name; the returned user replaces the
        session user only on success; `loading` is set for the call and
        cleared on every path. The ghost `busyDuringCall` only records the
        flag at the moment the request goes out. */
    method HandleUpdateProfile(response: Result<User, ApiError>) returns (sent: ProfileUpdate, ghost busyDuringCall: bool)
      modifies this, session, session.api.store, session.api.location
      ensures sent == ProfileUpdate(old(name)) && name == old(name)
      ensures busyDuringCall && !loading
      ensures session.loading == old(session.loading)
      ensures response.Ok? ==>
        session.user == Some(response.value)
        && session.api.store.items == old(session.api.store.items)[UserKey := EncodeUser(response.value)]
        && session.api.location.href == old(session.api.location.href)
        && toast == Some(SuccessToast(SuccessText))
      ensures response.Err? ==>
        session.user == old(session.user)
        && session.api.store.items == StorageAfter(old(session.api.store.items), response)
        && session.api.location.href == HrefAfter(old(session.api.location.href), response)
        && toast == Some(ErrorToast(ErrorDescription(response.error)))
    {
      loading := true;
      sent := ProfileUpdate(name);
      busyDuringCall := loading;
      var answer := session.api.OnResponse(response);
      if answer.Ok? {
        session.UpdateUser(answer.value);
        toast := Some(SuccessToast(SuccessText));
      } else {
        toast := Some(ErrorToast(ErrorDescription(answer.error)));
      }
      loading := false;
    }
  }
}

# Session lifecycle of the EduPlatform course-marketplace client

This project is a Dafny model of the client-side session of the EduPlatform
Next.js frontend. It also models the views that depend on that session.

- **Credential store** (`Auth`, lib/auth.ts). The two storage keys `"token"` and
  `"user"` live in a `CredentialStore` class over a `map<string, string>`. The
  class has the source's set, get, logout and `isAuthenticated` operations.
  The user record is persisted through an encode/decode pair (`Users`). The
  round trip of that pair is proved.
- **API client** (`Api`, lib/api.ts):
  - The base URL and its default.
  - The request hook. It attaches `Authorization: Bearer <token>` (section 2.1
    of RFC 6750) only when the stored token is truthy.
  - The response hook. On 401 Unauthorized (section 15.5.2 of RFC 9110) it
    removes both keys and sends the browser to `/auth/login`. Every error is
    still passed on.
- **Session context** (`Session`, contexts/AuthContext.tsx). An `AuthProvider`
  class holds `user` and `loading`. Its methods are `InitAuth`, `Login`,
  `Register`, `Logout` and `UpdateUser`. Each backend call is a parameter
  holding its outcome, `Ok(value)` or `Err(ApiError(status, serverError))`.
  That outcome passes through the client's response hook, as the real call
  does.
- **Role-gated views** (`Header`, `Dashboard`, `Profile`, `MyCourses`,
  `InstructorCourses`). These cover navigation items, the dashboard variant and
  the redirect, the access gates, and the profile update. They also cover
  enrollment progress labels, course deletion and its statistics.
- **Catalogue** (`Catalog`, app/courses/page.tsx). This covers the query sent
  for the filters and page, the pagination record, and the rules for showing
  and enabling the pagination controls.

Shared pieces: `Wrappers` (Option, Result), `Records` (the course and
enrollment records of lib/courses.ts) and `Seqs` (`filter`).

Behaviours of the code that are easy to miss:

- **`getUser` does not fail soft.** Malformed persisted user data does not
  read as absent: `JSON.parse` throws on it (lib/auth.ts:58). `StoredUser` returns `Err(SyntaxError)` there. `initAuth`
  calls `getUser` before its `try` (contexts/AuthContext.tsx:30). So on that
  path the mount effect rejects and `loading` stays `true`. `InitAuth` states
  this.
- **`isAuthenticated` is false for an empty token.** It is `!!token`, so it is
  true only for a stored, non-empty token.
- **A failed login or register can change the store.** Login and register go
  through the same client. A 401 answer therefore clears the store and
  redirects, even though the context itself changes nothing.
- **The 401 hook leaves the in-memory user alone.** It clears storage but not
  the context's user. `Session.UnauthorizedDesynchronises` shows that the
  mirror invariant `Mirrors` is then broken.

## Model

| member | source | states |
|---|---|---|
| Users.RoleOf | lib/auth.ts:7 | a role tag is admin, instructor or student exactly when it equals that string; any other tag is unrecognized |
| Users.EncodeUser | lib/auth.ts:52-54 | the persisted text of a user is never empty, so `getUser`'s truthiness test always lets a stored user through |
| Users.DecodeUser | lib/auth.ts:58 | empty persisted text never decodes to a user; its round trip with `EncodeUser` is `DecodeEncode` |
| Users.DecodeEncode | lib/auth.ts:52-59 | decoding the persisted text of a user gives that user back |
| Users.EncodeInjective | lib/auth.ts:52-54 | two users with the same persisted text are equal |
| Auth.StoredUser | lib/auth.ts:56-59 | `getUser` is null exactly when the entry is missing or empty; it throws exactly when non-empty text does not decode; otherwise it is the decoded user |
| Auth.Cleared | lib/auth.ts:61-64 | after logout neither key is present and every other key keeps its value |
| Auth.CredentialStore.RemoveItem | lib/auth.ts:62-63 | removing a key deletes it and nothing else |
| Auth.CredentialStore.SetToken | lib/auth.ts:44-46 | the token entry becomes the given token and `getUser` reads as before |
| Auth.CredentialStore.GetToken | lib/auth.ts:48-50 | returns the stored token, or none exactly when no token entry exists |
| Auth.CredentialStore.SetUser | lib/auth.ts:52-54 | the user entry becomes the user's encoding, `getUser` then returns that user, and the token is unchanged |
| Auth.CredentialStore.GetUser | lib/auth.ts:56-59 | returns what `StoredUser` specifies for the current storage |
| Auth.CredentialStore.Logout | lib/auth.ts:61-64 | removes the token, then the user; afterwards both read back as null |
| Auth.CredentialStore.IsAuthenticated | lib/auth.ts:66-68 | true exactly when a token is stored and is not empty; the token is not otherwise checked |
| Auth.SetTokenThenRead | lib/auth.ts:44-50 | after writing a token it reads back, `getUser` is unchanged, and the store is authenticated exactly when the token is non-empty |
| Auth.SetUserThenRead | lib/auth.ts:52-59 | after writing a user, `getUser` returns it and the token reads as before |
| Auth.LogoutThenRead | lib/auth.ts:61-68 | after logout both getters return null, the store is not authenticated, and a second logout changes nothing |
| Api.ApiUrl | lib/api.ts:3 | the base URL is the configured value when it is set and non-empty, otherwise `http://localhost:3001/api` |
| Api.WithAuthorization | lib/api.ts:13-19 | with a truthy token the `Authorization` header is `Bearer ` followed by the token; otherwise the headers are unchanged; no other header is touched |
| Api.StorageAfter | lib/api.ts:24-30 | a 401 error removes exactly the token and user keys, leaving no token and no user; any other error, a missing response or a success leaves storage as it was |
| Api.HrefAfter | lib/api.ts:25-29 | a 401 error sets the navigation target to `/auth/login`; anything else leaves it |
| Api.ApiClient.constructor | lib/api.ts:5-10 | the client's base URL is `ApiUrl` of the environment setting |
| Api.ApiClient.InterceptRequest | lib/api.ts:13-19 | the request's headers become `WithAuthorization` of the stored token; its URL is unchanged |
| Api.ApiClient.OnResponse | lib/api.ts:22-32 | the response is passed on unchanged, success or error; storage and location change only as `StorageAfter` and `HrefAfter` say |
| Session.UseAuth | contexts/AuthContext.tsx:95-101 | inside a provider the context is returned; outside, it fails with the provider-missing error |
| Session.AuthProvider.constructor | contexts/AuthContext.tsx:24-25 | a new provider has no user and is loading |
| Session.AuthProvider.InitAuth | contexts/AuthContext.tsx:28-45 | malformed stored user: rejects and changes nothing, loading included; no truthy token or no saved user: no call, and store, user and location are unchanged; profile success: user and stored user become the server's user; profile failure: store emptied and user null; loading ends on every non-throwing path |
| Session.AuthProvider.Login | contexts/AuthContext.tsx:50-55 | on success the stored token is the response token, and the stored and in-memory user are the response user; on failure the error is rethrown, the user is unchanged, and storage changes only through the 401 hook |
| Session.AuthProvider.Register | contexts/AuthContext.tsx:57-67 | the same as login, for the register response |
| Session.AuthProvider.Logout | contexts/AuthContext.tsx:69-72 | both keys removed and user null; the session is consistent |
| Session.AuthProvider.UpdateUser | contexts/AuthContext.tsx:74-77 | in-memory and stored user become the new user and the token is unchanged |
| Session.UnauthorizedDesynchronises | lib/api.ts:25-29 | a user that the store backed is no longer backed once a 401 clears the store, because the hook leaves the in-memory user alone |
| Session.BearerUntilLogout | contexts/AuthContext.tsx:50-55 | after a login that returned token T1, requests carry `Authorization: Bearer T1`; after logout they carry none |
| Session.StartupWithRejectedToken | contexts/AuthContext.tsx:32-44 | a startup whose token the server rejects with 401 ends with no user, not loading, no stored token, and the browser at the login page |
| Header.NavLinks | components/layout/Header.tsx:27-41 | "Cursos" is always shown; the instructor link shows exactly for instructors and the admin link exactly for admins |
| Header.AccountMenu | components/layout/Header.tsx:46-98 | "Criar Curso" shows exactly for instructors and "Meus Cursos" exactly for students; profile, settings and logout are always in the menu |
| Header.AccountArea | components/layout/Header.tsx:44-109 | logged out: only the login and register links; logged in: the account menu |
| Header.HeaderItems | components/layout/Header.tsx:27-109 | each item appears exactly for the roles or login state that the source's conditions name, the settings item exactly when logged in |
| Header.LoggedOutItems | components/layout/Header.tsx:100-108 | a logged-out visitor sees exactly Cursos, Entrar and Cadastrar |
| Header.UpperAscii | components/layout/Header.tsx:60 | lower-case ASCII letters map to upper case; every other character is kept |
| Header.AvatarInitial | components/layout/Header.tsx:60 | the fallback is the upper-cased first character, or empty for an empty name |
| Dashboard.VariantFor | app/dashboard/page.tsx:40-51 | admin, instructor and student each get their own variant; any other tag is not recognized |
| Dashboard.DashboardScreen | app/dashboard/page.tsx:21-60 | loading shows the skeleton whoever the user is; not loading with no user renders nothing; otherwise the role's variant |
| Dashboard.RedirectIffBlank | app/dashboard/page.tsx:15-38 | the redirect fires exactly on the renders that show nothing |
| Dashboard.RedirectEffect | app/dashboard/page.tsx:15-19 | navigates to `/auth/login` exactly when not loading and there is no user |
| Profile.ScreenFor | app/profile/page.tsx:44-53 | access denied exactly when there is no user |
| Profile.RoleLabel | app/profile/page.tsx:55-59 | "Administrador" for admin, "Instrutor" for instructor, "Aluno" for student; none for any other tag |
| Profile.RoleLabelsDistinct | app/profile/page.tsx:55-59 | different roles get different labels |
| Profile.ErrorDescription | app/profile/page.tsx:33-39 | the failure message is the server's non-empty error text, or the fallback text |
| Profile.ProfilePage.constructor | app/profile/page.tsx:18-20 | the form starts from the session user's name, or empty, and is not loading |
| Profile.ProfilePage.HandleUpdateProfile | app/profile/page.tsx:22-42 | sends only the name; loading is set during the call and cleared after; on success the session and stored user become the server's user; on failure the session user is unchanged and the message is the error description |
| MyCourses.ScreenFor | app/my-courses/page.tsx:36-90 | access denied exactly without a user, which comes before loading; skeleton while loading; empty state exactly for no enrollments |
| MyCourses.ShownProgress | app/my-courses/page.tsx:120-122 | the displayed progress is the progress, or 0 when it is missing |
| MyCourses.ButtonLabel | app/my-courses/page.tsx:143 | "Começar" exactly when the progress is 0; "Continuar" otherwise |
| MyCourses.ShowsCompleted | app/my-courses/page.tsx:132-137 | the completed badge shows exactly when the completion date is present and non-empty |
| MyCourses.MissingProgressReadsAsZeroButContinues | app/my-courses/page.tsx:120-143 | with no progress from the server the card shows 0% and still reads "Continuar" |
| MyCourses.StartImpliesZeroShown | app/my-courses/page.tsx:120-143 | a card offering "Começar" shows 0% |
| MyCourses.MyCoursesPage.constructor | app/my-courses/page.tsx:15-16 | no enrollments, loading |
| MyCourses.MyCoursesPage.OnUserChange | app/my-courses/page.tsx:19-34 | loads exactly when a user is present; after a load, loading is over; enrollments are replaced only on success |
| Seqs.Filter | app/instructor/courses/page.tsx:47 | the kept elements are exactly those of the input that satisfy the predicate, and there are no more of them than inputs |
| Seqs.FilterConcat | app/instructor/courses/page.tsx:47 | filtering preserves order: it distributes over concatenation |
| Seqs.FilterKeepsAll | app/instructor/courses/page.tsx:106 | nothing is filtered out exactly when every element satisfies the predicate |
| InstructorCourses.RemoveById | app/instructor/courses/page.tsx:47 | the remaining courses are exactly those whose id differs from the deleted id |
| InstructorCourses.WithId | app/instructor/courses/page.tsx:47 | the courses a delete removes are exactly those with that id |
| InstructorCourses.RemoveByIdKeepsOrder | app/instructor/courses/page.tsx:47 | a delete keeps the other courses in their order |
| InstructorCourses.RemoveAbsentId | app/instructor/courses/page.tsx:47 | deleting an id that no course has leaves the list unchanged |
| InstructorCourses.TotalStudents | app/instructor/courses/page.tsx:117 | the student total is never negative when no course has a negative count |
| InstructorCourses.TotalStudentsConcat | app/instructor/courses/page.tsx:117 | the student total of a concatenation is the sum of the parts' totals |
| InstructorCourses.TotalStudentsAfterDelete | app/instructor/courses/page.tsx:47-117 | a delete lowers the student total by exactly the students of the removed courses |
| InstructorCourses.StatsOf | app/instructor/courses/page.tsx:96-128 | total is the list length; published and approved are the numbers of published and approved courses, at most the total and equal it exactly when every course qualifies; students sum with missing counts as 0 |
| InstructorCourses.ScreenFor | app/instructor/courses/page.tsx:61-152 | every non-instructor gets access denied; an instructor sees the stats and a skeleton while loading, then an empty state or the cards |
| InstructorCourses.InstructorCoursesPage.constructor | app/instructor/courses/page.tsx:14-15 | no courses, loading |
| InstructorCourses.InstructorCoursesPage.OnUserChange | app/instructor/courses/page.tsx:18-40 | loads exactly for an instructor, asking for that instructor's id; afterwards loading is over; courses are replaced only on success |
| InstructorCourses.InstructorCoursesPage.HandleDeleteCourse | app/instructor/courses/page.tsx:42-59 | declined: no call and nothing changes; success: courses become `RemoveById`; failure: the list is unchanged |
| Catalog.QueryIsDetermined | app/courses/page.tsx:43-49 | the query rule leaves no freedom: one query satisfies it |
| Catalog.BuildQuery | app/courses/page.tsx:43-49 | page and limit always; category exactly when it is not "all", and level likewise, with the selected values |
| Catalog.ControlsFor | app/courses/page.tsx:196-226 | controls shown exactly when there is more than one page; Previous disabled exactly on page 1, Next exactly on the last page; buttons numbered 1 to min(5, pages), the current one highlighted |
| Catalog.HighlightedButton | app/courses/page.tsx:206-217 | exactly one button is highlighted when the page is among the first min(5, pages), and none otherwise |
| Catalog.Press | app/courses/page.tsx:196-224 | no control acts unless there is more than one page; Previous leads to page - 1 exactly when not on page 1; Next leads to page + 1 exactly when not on the last page; button n leads to n exactly when it is one of the first min(5, pages) |
| Catalog.PressStaysInRange | app/courses/page.tsx:198-224 | from a page within 1..pages, every enabled control leads to a page within 1..pages |
| Catalog.NextPastLastPage | app/courses/page.tsx:219-223 | for every page past the last one (with more than one page), Next is still enabled and moves further out |
| Catalog.CoursesPage.constructor | app/courses/page.tsx:14-24 | page 1, limit 12, total and pages 0, both filters "all", empty search, loading |
| Catalog.CoursesPage.ApplySearchParams | app/courses/page.tsx:28-34 | a non-empty category or level in the URL selects that filter; nothing else changes |
| Catalog.CoursesPage.LoadCourses | app/courses/page.tsx:40-63 | the query follows the filters and page; on success courses, total and pages come from the response and page and limit are kept; on failure nothing changes; loading ends on every path |
| Catalog.CoursesPage.HandleSearch | app/courses/page.tsx:65-68 | reloads with the same query, the search term not sent; on success courses, total and pages come from the response; on failure nothing changes; filters and search term kept; storage and location follow the 401 hook |
| Catalog.CoursesPage.HandlePageChange | app/courses/page.tsx:70-72 | only the page changes |
| Catalog.CoursesPage.ClearFilters | app/courses/page.tsx:155-160 | both filters become "all", the search becomes empty and the page becomes 1; limit, total and pages are kept |

## Left out

- Users.EncodeUser: it is a self-delimiting stand-in for `JSON.stringify`, not JSON text. Only the round trip and non-emptiness are modelled. JSON parsing of arbitrary text is not.
- Header.AvatarInitial: the initial is upper-cased only for ASCII letters (the code gives "É" for "élio", the model "é"), and it is the whole first Unicode scalar, while `charAt(0)` takes one UTF-16 code unit, so a name starting with an emoji shows a lone surrogate in the code.
- Header.UpperAscii: it maps only ASCII letters. JavaScript's `toUpperCase` also maps other scripts and can yield two characters (`ß` becomes `SS`).
- The network, axios and the HTTP requests themselves. Each call's outcome is a parameter.
- The credentials and form data sent to `/auth/login` and `/auth/register`. They influence only the server's answer, which is a parameter.
- React effect scheduling, re-renders, and the interleaving of the 401 hook with context updates across event-loop turns. Each operation is modelled as one sequential step.
- `window.location` and `router.push` are reduced to the `Location.href` field. No page load follows the assignment.
- The `Content-Type` default header of the client. It is a constant that no rule depends on.
- JSX markup, styling, icons, toasts beyond their kind and text, `console.error`, and the `confirm` dialog. The dialog's answer is a parameter.
- Course prices (`toFixed`, `parseFloat`). They are floating point.
- `NaN` as a progress or student count. JavaScript treats it as falsy, and integers cannot hold it.
- Non-integer progress values. `progress` is a JavaScript number (lib/courses.ts:56), modelled as an integer; the `=== 0` label choice and the `|| 0` default depend only on whether it is zero or missing, so they are unaffected.
- Auth.StoredUser: only text produced by `setUser` is decoded. Other valid JSON is read as `Err(SyntaxError)`, while the code does not throw on it: `"null"` makes `getUser` return `null`, and `"{}"` is a truthy object, so `initAuth` goes on to call `getProfile`.
- The static pages and the remaining files: Footer, the root layout, the home page, the course detail and lesson pages, the new-course form, the database pool, the middleware and the Next.js configuration. The calls of lib/courses.ts appear only as outcomes of the page methods.

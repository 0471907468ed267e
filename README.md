# Access gate, auth forms and admin writes of a training-management web app

This Dafny project models the parts of a Next.js + Supabase application that decide
who may see what and what gets written to the backend:

- **The access gate.**
  - The request middleware, for the five matcher paths.
  - The static role → capability table and the `usePermissions` hook.
  - `RoleGuard`, and the home and dashboard pages, each redirecting by auth state and role.
  - The auth provider's `session` / `user` / `loading` state and its two update callbacks.
- **The auth forms.**
  - The login, self-registration and admin "edit user" forms.
  - For each: its schema, how it maps backend answers to notices, and where it navigates.
- **The exercise edit form.**
  - Add, remove and replace on its seven list fields, image upload and removal, the variant filter and the save request.
- **The admin backend writes.**
  - The exercise creation route: bearer token, ordered inserts, join rows.
  - The user creation route: create account → upsert profile → compensating delete.
  - The `update-admin` script: lookup → admin guard → metadata merge → update.

Every backend answer is a parameter of the model:

- the session lookup;
- sign-in and sign-up replies;
- fetch responses;
- upload results;
- which insert fails, and with which message;
- token → user resolution;
- the id given to a new row.

The backend's tables are a `Database` class whose fields the routes and the script update.
The React components that hold state (`AuthProvider`, each form's `loading` flag and its
effects, the exercise form's `formData`) are classes. The rest is pure functions.
Each stateful method is specified by a pure function of its inputs and old state, and the
lemmas state what the source promises about those functions.

JavaScript semantics are written out:

- `a || b` on strings treats `undefined` and `""` as falsy (`Common.OrElse`), and `list || []` keeps an empty list.
- `includes` is a substring search (`Common.Contains`).
- `split(' ')` splits on every single space (`Common.SplitSpace`).
- `filter`/`map` by index are recursive functions.
- An `undefined` lookup that is then indexed is a thrown `TypeError`, modelled as `None`.
- A missing array's `.length` throws, modelled as a 500 with the engine's message.

What the code does at its edges:

- A role claim is cast without a check. For a claim that is neither a role name nor a property every object inherits, the table lookup is `undefined` and `hasPermission` throws (`Permissions.UnknownClaimThrows`). An inherited name such as "constructor" finds a defined entry without capability keys, so every permission is denied (`Permissions.InheritedNameDenies`).
- Form lengths (`.min(n)`) count UTF-16 code units, as JavaScript's `length` does (`Common.Utf16Length`).
- The edit-user dialog renders no input fields, so every submission validates the default values taken from the user when the dialog was created, with no password (`EditUserModal.DefaultsSubmission`).
- No route or page answers 403.
- The middleware checks no role on `/admin`. Only the admin pages' `RoleGuard` does (`Landing.AdminCheckIsTheGuards`).
- The user-creation route checks no caller and copies any role, `admin` included (`UsersRoute.AnyRoleIsStored`).
- The compensating delete's result is ignored. Every account keeps a profile only when that delete works (`UsersRoute.FailedDeleteLeavesOrphan`).

## Model

| member | source | states |
|---|---|---|
| Common.OrElse | components/auth/LoginForm.tsx:61 | `message \|\| fallback`: a present non-empty string wins, otherwise the fallback |
| Common.ContainsIff | components/auth/LoginForm.tsx:39-41 | `includes` holds exactly when the needle occurs at some index of the haystack |
| Common.SplitJoinRoundTrip | app/api/admin/exercises/route.ts:13 | `split(' ')` yields space-free segments that rejoin with single spaces to the original string |
| Common.SplitWord | app/api/admin/exercises/route.ts:13 | a string without spaces splits into itself alone |
| Common.SplitAfterWord | app/api/admin/exercises/route.ts:13 | a word, a space and a tail split into the word followed by the tail's segments |
| Common.Utf16LengthOfChar | components/auth/RegisterForm.tsx:12-14 | a character counts one code unit, or two outside the Basic Multilingual Plane |
| Common.Utf16LengthAppend | components/auth/RegisterForm.tsx:12-14 | the code-unit length of a concatenation is the sum of the parts' lengths |
| Common.Utf16LengthWithoutAstral | components/auth/RegisterForm.tsx:12-14 | without astral characters the code-unit length is the character count |
| Roles.ParseRole | types/auth.ts:1 | exactly "athlete", "coach" and "admin" are roles, each parsing to the role whose name it is |
| Roles.RoleNameRoundTrip | types/auth.ts:1 | the role enumeration and its names are in bijection |
| Roles.TableIsTotal | types/auth.ts:13-34 | the permission table has an entry for every role |
| Roles.AdminHasEverything | types/auth.ts:14-21 | admin holds every capability |
| Roles.CoachEntry | types/auth.ts:22-27 | coach views and edits athletes, neither views nor edits coaches, and has no user or role management entry |
| Roles.AthleteEntry | types/auth.ts:28-33 | athlete is granted only `canViewCoaches` |
| Roles.MonotoneTowardAdmin | types/auth.ts:13-34 | whatever any role is granted, admin is granted |
| Roles.OnlyAdminEditsCoaches | types/auth.ts:13-34 | `canEditCoaches` is granted exactly to admin |
| Permissions.TableLookup | hooks/usePermissions.ts:7 | defined exactly for the three role names, with that role's entry, and for the names inherited from `Object.prototype`, with an entry holding no capability |
| Permissions.UsePermissions | hooks/usePermissions.ts:4-21 | role is the claim or "athlete" when it is missing or empty; permissions is its lookup; each flag holds iff the role is that name |
| Permissions.HasPermission | hooks/usePermissions.ts:9-11 | throws exactly when the lookup was undefined; otherwise true iff the flag is present and true |
| Permissions.MissingClaimDefaultsToAthlete | hooks/usePermissions.ts:6 | no user, no claim or an empty claim read as athlete with the athlete entry |
| Permissions.HasPermissionMatchesTable | hooks/usePermissions.ts:7-11 | for an enumerated role, `hasPermission` agrees with the table |
| Permissions.ExactlyOneFlag | hooks/usePermissions.ts:7-19 | exactly one of isAdmin/isCoach/isAthlete holds for an enumerated role; none for any other claim, whose lookup is undefined exactly when it is not an inherited name |
| Permissions.UnknownClaimThrows | hooks/usePermissions.ts:6-10 | a non-empty claim that is neither a role name nor an inherited name makes `hasPermission` throw instead of deny |
| Permissions.InheritedNameDenies | hooks/usePermissions.ts:6-19 | a claim such as "constructor" or "toString" denies every permission without throwing and sets no role flag |
| Middleware.Decide | middleware.ts:5-37 | protected page without session → /login; auth page with session → /admin or /dashboard by role; admin on /dashboard → /admin; /admin passes any session; redirects only to those three targets |
| Middleware.Gate | middleware.ts:39-41 | requests outside the matcher pass untouched |
| Middleware.MatcherIsExact | middleware.ts:40 | restricting the middleware to its matcher changes no decision, and exactly the five matcher paths can redirect |
| Middleware.PathSetsDisjoint | middleware.ts:12-19 | no path is both protected and an auth page |
| RoleGuard.Guard | components/auth/RoleGuard.tsx:12-23 | children render iff a user exists and their claim is listed; otherwise a denial notice and a push to "/"; both evaluations agree |
| RoleGuard.AuthorizedIffMember | components/auth/RoleGuard.tsx:13-19 | for a user holding an enumerated role and a list of roles, access is granted iff the role is in the list |
| RoleGuard.NoClaimDenied | components/auth/RoleGuard.tsx:19-21 | a user with no role claim is always denied and sent to "/" |
| HomePage.Home | app/page.tsx:11-35 | while loading, only the loading view; then admin → /admin, other users → /dashboard, no user → /login |
| DashboardPage.Dashboard | app/dashboard/page.tsx:12-29 | while loading, the loading view; no session → notice and /login; content iff session and user are both present |
| DashboardPage.NoRoleCheck | app/dashboard/page.tsx:27-29 | the dashboard renders the same for any user with a session: the page checks no role |
| AuthProvider.ReplayConsistent | providers/AuthProvider.tsx:30-51 | across any sequence of refreshes and auth changes, `user` is the session's user and no error is set |
| AuthProvider.ReplayLoading | providers/AuthProvider.tsx:26-50 | `loading` stays true exactly until the first auth-change callback; refreshes never end it |
| AuthProvider.ReplayLastSession | providers/AuthProvider.tsx:34-48 | the session is the one the last update delivered |
| AuthProvider.Provider.constructor | providers/AuthProvider.tsx:24-27 | starts with no session, no user, loading, no error |
| AuthProvider.Provider.RefreshSession | providers/AuthProvider.tsx:30-37 | stores the looked-up session and its user, returns it, leaves loading alone, keeps consistency |
| AuthProvider.Provider.OnAuthStateChange | providers/AuthProvider.tsx:45-51 | stores the new session and its user and ends loading |
| LoginForm.LoginErrors | components/auth/LoginForm.tsx:10-13 | email rejected iff invalid; password rejected iff empty |
| LoginForm.SubmitOutcome | components/auth/LoginForm.tsx:27-65 | unconfirmed email, then bad credentials, then the raw message or default; on success the notice and /admin or /dashboard by role; navigation iff signed in |
| LoginForm.UnconfirmedTakesPrecedence | components/auth/LoginForm.tsx:39-42 | a message naming both conditions is reported as an unconfirmed email |
| LoginForm.Form.constructor | components/auth/LoginForm.tsx:16 | starts not loading, with no field errors, notices, requests or navigation |
| LoginForm.Form.Submit | components/auth/LoginForm.tsx:27-65 | a rejected form changes nothing else; an accepted one issues one sign-in, one notice, the navigation on success, and ends not loading |
| RegisterForm.ParseRegisterRole | components/auth/RegisterForm.tsx:15 | missing role defaults to athlete; only athlete and coach parse; never admin |
| RegisterForm.ValidateRegister | components/auth/RegisterForm.tsx:11-16 | accepted iff the name has ≥ 3 and the password ≥ 6 UTF-16 code units, the email is valid and the role parses; otherwise exactly the failing fields |
| RegisterForm.AstralCharactersCountTwice | components/auth/RegisterForm.tsx:12-14 | two astral characters make a long-enough name and three a long-enough password |
| RegisterForm.SignUpMetadata | components/auth/RegisterForm.tsx:38-42 | sign-up metadata holds exactly `full_name` and `role` with the form's values |
| RegisterForm.SelfRegistrationIsNeverAdmin | components/auth/RegisterForm.tsx:11-42 | a self-registered user's role claim is athlete or coach |
| RegisterForm.ErrorText | components/auth/RegisterForm.tsx:67-78 | "already registered" → duplicate-email text; otherwise a non-empty message as is; otherwise the default; never empty |
| RegisterForm.NoUserMessageShownVerbatim | components/auth/RegisterForm.tsx:52-76 | the missing-user error reaches the user with its own message |
| RegisterForm.SubmitOutcome | components/auth/RegisterForm.tsx:47-78 | navigation to /login with the success notice iff a user was created; otherwise the mapped error notice |
| RegisterForm.Form.constructor | components/auth/RegisterForm.tsx:19 | starts not loading, with no field errors, notices, requests or navigation |
| RegisterForm.Form.Submit | components/auth/RegisterForm.tsx:30-82 | a rejected form changes nothing else; an accepted one issues one sign-up with the metadata, one notice, schedules /login only on success, ends not loading |
| EditUserModal.ParseEditRole | components/admin/EditUserModal.tsx:13 | only athlete and coach parse, with no default |
| EditUserModal.ValidateEditUser | components/admin/EditUserModal.tsx:10-15 | accepted iff the email is present and valid, the name present with ≥ 3 code units, the role athlete or coach, and any password ≥ 6 code units; otherwise exactly the failing fields, an undefined field failing as required |
| EditUserModal.DefaultValues | components/admin/EditUserModal.tsx:34-38 | defaults are the user's email, metadata name and role claim, all absent without a user |
| EditUserModal.AdminDefaultsRejected | components/admin/EditUserModal.tsx:13-38 | submitting an administrator's defaults is always rejected on the role field |
| EditUserModal.DefaultsSubmission | components/admin/EditUserModal.tsx:10-38 | submitting a user's defaults succeeds iff the email is valid, `full_name` is present with ≥ 3 code units and the role is athlete or coach; the accepted form is the user's own values, without password |
| EditUserModal.NoUserDefaultsRejected | components/admin/EditUserModal.tsx:34-38 | without a user every default is undefined, and a submission is rejected on email, name and role |
| EditUserModal.SubmitEvents | components/admin/EditUserModal.tsx:41-70 | no user → nothing; otherwise the PATCH to the user's path, then success toast, reset, onSuccess, onClose in order, or one error toast and no callbacks |
| EditUserModal.Modal.constructor | components/admin/EditUserModal.tsx:25-39 | keeps the defaults of the user it was created for; starts not loading, with no field errors and no events |
| EditUserModal.Modal.Submit | components/admin/EditUserModal.tsx:41-70 | validates the kept defaults: field errors on rejection; otherwise appends the submit events for the current user and ends not loading |
| ExerciseForm.InitialFormData | components/admin/exercises/EditExerciseForm.tsx:19-28 | every column copied; each absent list becomes [] and each present list is kept |
| ExerciseForm.RemovedAtSpec | components/admin/exercises/EditExerciseForm.tsx:99-104 | filtering out index i deletes exactly element i; an out-of-range i leaves the list unchanged |
| ExerciseForm.ReplacedAtSpec | components/admin/exercises/EditExerciseForm.tsx:106-111 | mapping index i to v replaces exactly element i; an out-of-range i leaves the list unchanged |
| ExerciseForm.ReplacedAtInRange | components/admin/exercises/EditExerciseForm.tsx:106-111 | for an index inside the list, the mapped list is the list with exactly that element set to the new value |
| ExerciseForm.ReplacedAtOutOfRange | components/admin/exercises/EditExerciseForm.tsx:106-111 | for an index outside the list (negative or past the end), no element matches and the list comes back unchanged |
| ExerciseForm.HandleArrayAdd | components/admin/exercises/EditExerciseForm.tsx:92-97 | appends exactly one "" with the prefix kept; every other field unchanged |
| ExerciseForm.HandleArrayRemove | components/admin/exercises/EditExerciseForm.tsx:99-104 | deletes only element i, or changes nothing when i is out of range; every other field unchanged |
| ExerciseForm.HandleArrayChange | components/admin/exercises/EditExerciseForm.tsx:106-111 | replaces only element i and keeps the length, or changes nothing when out of range; every other field unchanged |
| ExerciseForm.InlineReplace | components/admin/exercises/EditExerciseForm.tsx:279-285 | copying into an array and assigning one slot gives the same list as `map` by index |
| ExerciseForm.AddImage | components/admin/exercises/EditExerciseForm.tsx:137-140 | appends exactly the new URL to `images`; every other field unchanged |
| ExerciseForm.VariantOptions | components/admin/exercises/EditExerciseForm.tsx:522-523 | the choices are exactly the loaded exercises other than the one being edited |
| ExerciseForm.BearerHeader | components/admin/exercises/EditExerciseForm.tsx:162 | the header carries the session's token, or the text "undefined" without a session |
| ExerciseForm.SaveEffects | components/admin/exercises/EditExerciseForm.tsx:151-181 | one PUT of the whole form to the exercise's path, then success toast and the move to the list, or one error toast; navigation iff the save succeeded |
| ExerciseForm.Editor.constructor | components/admin/exercises/EditExerciseForm.tsx:15-28 | starts with the initial form data, not loading, no effects |
| ExerciseForm.Editor.ArrayAdd | components/admin/exercises/EditExerciseForm.tsx:317-321 | the form becomes `HandleArrayAdd` of the old form; nothing else changes |
| ExerciseForm.Editor.ArrayRemove | components/admin/exercises/EditExerciseForm.tsx:714-718 | the form becomes `HandleArrayRemove` of the old form; nothing else changes |
| ExerciseForm.Editor.ArrayChange | components/admin/exercises/EditExerciseForm.tsx:106-111 | the form becomes `HandleArrayChange` of the old form; nothing else changes |
| ExerciseForm.Editor.InlineChange | components/admin/exercises/EditExerciseForm.tsx:279-285 | the array-assigning select handler has the same result as `HandleArrayChange` |
| ExerciseForm.Editor.UploadImage | components/admin/exercises/EditExerciseForm.tsx:113-149 | no file → nothing; no session or a storage error → one error toast, form unchanged; success → URL appended and success toast; ends not loading |
| ExerciseForm.Editor.Save | components/admin/exercises/EditExerciseForm.tsx:151-181 | appends the save effects, leaves the form unchanged, ends not loading |
| ExercisesRoute.BearerTokenOfHeader | app/api/admin/exercises/route.ts:12-17 | "scheme token" and "scheme token rest" both yield exactly the token |
| ExercisesRoute.NoTokenWithoutSpace | app/api/admin/exercises/route.ts:13-17 | a header without a space has no token |
| ExercisesRoute.MuscleLinks | app/api/admin/exercises/route.ts:59-62 | one row per muscle id, in order, each carrying the new exercise id |
| ExercisesRoute.EquipmentLinks | app/api/admin/exercises/route.ts:73-92 | one row per equipment id, in order, each with the exercise id and the given `is_alternative` |
| ExercisesRoute.VariantLinks | app/api/admin/exercises/route.ts:103-106 | one row per variant id, in order, each carrying the new exercise id |
| ExercisesRoute.StepFailure | app/api/admin/exercises/route.ts:55-66 | an empty list cannot fail (no insert); a missing list fails on `.length` |
| ExercisesRoute.StepError | app/api/admin/exercises/route.ts:52-110 | the exercise insert throws its own fault; a relation step with an empty list cannot throw, and one with a missing list throws on `.length` |
| ExercisesRoute.Post | app/api/admin/exercises/route.ts:9-120 | 401 with nothing written iff the token is missing, empty or unknown; a failing exercise insert gives 500 with its message and writes nothing; `created_by` is the token's user; on success, exactly the row and its join rows |
| ExercisesRoute.Relations | app/api/admin/exercises/route.ts:54-118 | the exercise row is always kept; the first relation step to throw gives 500 with its message and leaves exactly the rows of the steps before it; success writes every join row, main-equipment rows before alternative ones |
| ExercisesRoute.MuscleStep | app/api/admin/exercises/route.ts:55-66 | a throwing muscle step answers 500 with its message and writes nothing; a passing one writes exactly the muscle rows; success needs every list present and writes all the join rows |
| ExercisesRoute.EquipmentStep | app/api/admin/exercises/route.ts:69-81 | a throwing equipment step answers 500 with its message and writes nothing; a passing one writes the main-equipment rows (`is_alternative` false) first |
| ExercisesRoute.AlternativeStep | app/api/admin/exercises/route.ts:84-96 | a throwing alternative step answers 500 with its message and writes nothing; a passing one writes exactly the alternative rows (`is_alternative` true) |
| ExercisesRoute.VariantStep | app/api/admin/exercises/route.ts:99-112 | a throwing variant step answers 500 with its message and writes nothing; success iff it does not throw, writing exactly the variant rows |
| ExercisesRoute.ExerciseRowSurvivesLaterFailures | app/api/admin/exercises/route.ts:52-118 | once the exercise insert succeeds its row stays, whatever later inserts do |
| ExercisesRoute.FirstFailureDecides | app/api/admin/exercises/route.ts:26-118 | the first step to throw gives 500 with its message (or the default text) and leaves exactly the rows of the steps before it; the exercise is created iff no step throws |
| ExercisesRoute.EmptyListSkipsInsert | app/api/admin/exercises/route.ts:55-110 | an empty muscle, equipment, alternative or variant list issues no insert: its step cannot throw, and a failure configured for it changes nothing |
| ExercisesRoute.HandlePost | app/api/admin/exercises/route.ts:9-120 | the handler's response is `Post`'s and the tables grow by exactly the rows `Post` says |
| ExercisesRoute.InsertRelations | app/api/admin/exercises/route.ts:54-66 | the relation inserts write exactly what `MuscleStep` says |
| ExercisesRoute.InsertEquipmentRelations | app/api/admin/exercises/route.ts:68-81 | writes exactly what `EquipmentStep` says |
| ExercisesRoute.InsertAlternativeRelations | app/api/admin/exercises/route.ts:83-96 | writes exactly what `AlternativeStep` says |
| ExercisesRoute.InsertVariantRelations | app/api/admin/exercises/route.ts:98-112 | writes exactly what `VariantStep` says |
| Backend.Database.InsertExercise | app/api/admin/exercises/route.ts:26-50 | appends the row to `exercises`; no other table changes |
| Backend.Database.InsertMuscles | app/api/admin/exercises/route.ts:56-63 | appends the rows to `exercise_muscles`; no other table changes |
| Backend.Database.InsertEquipment | app/api/admin/exercises/route.ts:70-78 | appends the rows to `exercise_equipment`; no other table changes |
| Backend.Database.InsertVariants | app/api/admin/exercises/route.ts:100-107 | appends the rows to `exercise_variants`; no other table changes |
| Backend.Database.PutAccount | app/api/admin/users/route.ts:36-47 | stores the account under the id; no other table changes |
| Backend.Database.DeleteAccount | app/api/admin/users/route.ts:71 | removes the account; no other table changes |
| Backend.Database.UpsertProfile | app/api/admin/users/route.ts:59-67 | inserts or replaces the profile with the same id; no other table changes |
| UsersRoute.NewUserMetadata | app/api/admin/users/route.ts:40-46 | metadata holds exactly full_name and role from the body, email_verified true, phone_verified false, phone "" |
| UsersRoute.NewAccount | app/api/admin/users/route.ts:36-47 | the account has the new id, the body's email and password, a confirmed email and the body's role claim |
| UsersRoute.CaughtMessage | app/api/admin/users/route.ts:76-82 | an `Error` shows its own message; anything else the fixed text |
| UsersRoute.PostUser | app/api/admin/users/route.ts:32-83 | 200 iff the account is created and the profile written; a create failure or missing user writes nothing; a profile failure writes no profile and deletes the account if the delete works |
| UsersRoute.PostUserKeepsAccountsProfiled | app/api/admin/users/route.ts:59-73 | with a working delete, every account keeps a profile, and a created user's profile and metadata carry the body's name and role |
| UsersRoute.FailedDeleteLeavesOrphan | app/api/admin/users/route.ts:69-73 | a failed profile write followed by a failed delete leaves an account without a profile |
| UsersRoute.AnyRoleIsStored | app/api/admin/users/route.ts:36-67 | a body asking for "admin" creates an account and profile with the admin role |
| UsersRoute.HandlePost | app/api/admin/users/route.ts:32-83 | the handler's response and tables are those of `PostUser`; exercise tables unchanged |
| UpdateAdmin.MergeMetadata | scripts/update-admin.ts:41-44 | a non-empty new name replaces `full_name`; otherwise the metadata is unchanged; every other key is kept |
| UpdateAdmin.MergeKeepsRole | scripts/update-admin.ts:41-44 | the merge never changes the role claim |
| UpdateAdmin.MergeIdempotent | scripts/update-admin.ts:43 | merging the same name twice equals merging it once |
| UpdateAdmin.UpdatedAccount | scripts/update-admin.ts:36-46 | email and password change only when given; the metadata is the merge |
| UpdateAdmin.UpdateKeepsAdmin | scripts/update-admin.ts:32-44 | an administrator updated by the script is still an administrator |
| UpdateAdmin.RunUpdate | scripts/update-admin.ts:15-60 | exit 0 iff lookup succeeds, the target is admin and the update succeeds, writing exactly the updated account; any failure exits 1 with nothing written |
| UpdateAdmin.Arg | scripts/update-admin.ts:62-65 | `argv[i]` is present exactly when the index exists |
| UpdateAdmin.RunScript | scripts/update-admin.ts:7-76 | missing environment or user id exits 1 before any backend call; otherwise `updateAdmin` with argv 3-5 |
| Landing.LandingFor | middleware.ts:22-23 | the landing page is /admin exactly for an admin claim, otherwise /dashboard |
| Landing.LandingAgrees | middleware.ts:19-26 | the middleware on an auth page, the home page and the login form choose the same landing page |
| Landing.LandingIsStable | middleware.ts:12-34 | the landing page passes the middleware (no redirect loop), and an administrator's passes the admin guard |
| Landing.AdminCheckIsTheGuards | middleware.ts:12-34 | a non-admin session passes the middleware on /admin, is denied by the page's guard and sent to "/", which lands them on /dashboard |
| Landing.SubpagesRelyOnGuard | middleware.ts:39-41 | pages below /admin are outside the matcher, so only the guard turns away a visitor with no session |

Other line ranges modelled by the same members:

- `ExerciseForm.Editor.InlineChange`: the muscle, equipment, alternative-equipment and variant select handlers (`EditExerciseForm.tsx` 279-285, 386-392, 448-454, 510-516).
- `ExerciseForm.Editor.ArrayRemove`: the inline remove buttons (299-306, 406-413, 468-475, 532-539) and the image remove button (714-718).
- `ExerciseForm.Editor.ArrayAdd`: the inline add buttons (317-321, 424-428, 486-490, 550-554).
- `Landing.AdminCheckIsTheGuards` and `Landing.SubpagesRelyOnGuard`: the admin pages wrap their content in `RoleGuard` with the single role "admin" (for example `app/(authenticated)/admin/exercises/new/page.tsx` line 6).
- `EditUserModal.Visible` is the dialog's visibility condition (`EditUserModal.tsx` 72).

## Left out

- Email syntax (`z.string().email()`): the schema library's verdict is a boolean input to each validator.
- I/O is a parameter of the model: network, storage, sessions and the hosted backend. Toasts, navigation and `console` output are recorded as effects or left out.
- The random upload file name and its extension (`EditExerciseForm.tsx` 123-125) are not modelled; only the resulting public URL is.
- The two-second `setTimeout` before the registration redirect: the navigation is recorded as scheduled, without the delay.
- The auth subscription's teardown and the `AuthContext` default value are not modelled; neither is the `refreshSession` call on mount, whose effect is the `Refreshed` event.
- React batching and stale closures: each handler is applied atomically to the current state. The inline select handlers and the inline remove buttons (`EditExerciseForm.tsx` 300-302, 407-409, 469-471, 533-535) read the rendered `formData` rather than `prev`; the model does not distinguish the two.
- The exercise form's option loading (`fetchOptions`) is not modelled; the loaded exercise list is the parameter of `ExerciseForm.VariantOptions`.
- Numeric input attributes and `parseInt` on the exercise form's number fields: browser hints with NaN behaviour that the submit path does not enforce.
- The GET handlers, the per-id PATCH/PUT routes and the routine and profile hooks are not part of this model.
- Malformed JSON request bodies, which make `request.json()` throw and yield a 500, are not modelled. Neither are JSON values of the wrong type, for example a non-string role claim or a non-array id list.
- ExercisesRoute.Post: a missing relation list fails with a fixed engine message (`LengthOfUndefinedText`); the exact text is the JavaScript engine's.
- UsersRoute.PostUser: a `deleteUser` that throws, rather than returning an error, is not modelled. It would replace the caught message with the delete's.
- UsersRoute.PostUserKeepsAccountsProfiled: stated only for a compensating delete that succeeds, because the handler ignores the delete's result (see `UsersRoute.FailedDeleteLeavesOrphan`).
- UpdateAdmin.RunUpdate: loading `.env.local`, the success log and the shape of `updatedUser` are left out. A lookup with no user is treated like a lookup error, since both exit 1 without an update.

# Admin dashboard logic, modelled in Dafny

This project models the parts of an NGO admin dashboard that compute something. The dashboard is a
React client. Four pieces are modelled:

- **User management** (`Users`, users.tsx). A user's permission map goes from module id to
  action flags. The model covers the editor's point update, how a checkbox reads a flag back, and
  the grid of eleven modules by four actions. It also covers the active/inactive toggle, the
  role select list, and the case-insensitive search over the fetched users. The designation
  select of the same screen has its own module, `Designations`: its 40 items, their values, and
  the reading of a value back as a designation.
- **Volunteer directory** (`Volunteers`, volunteers.tsx). The free-text search is combined with
  a status tab. A status change patches both the list and the selected record. The model also
  covers the per-volunteer event list and the completed-hours total (`getTotalHours`). The
  screen's state slots form the class `Volunteers.Directory`.
- **Session store** (`Auth`, authContext.tsx). The provider's two state slots, `user` and
  `loading`, form the class `Auth.AuthSession`. Its transitions are login, logout and a session
  check, and `IsAuthenticated` is derived from `user`. Remote calls are replaced by their
  outcomes, which the caller passes in.
- **Route guard** (`RouteGuard`, PrivateRoute.tsx). It picks one of three results from
  `loading` and `isAuthenticated`: a spinner, a redirect to `/pages/admin/login`, or the page
  with its top bar.

Shared helpers:

- `Seqs`: `filter`, proved against the order-preserving subsequence relation, with lemmas on element multiplicities and on the number of passing positions.
- `Text`: ASCII `toLowerCase`, and `includes`, which is proved equal to a reference definition
  of substring occurrence.
- `Wrappers`: `Option`.
- `VolunteerFixtures`: the screen's mock data, used only in one example lemma.

Three facts about the code shape the model:

- The session store keeps no persisted identity: a reload starts with nobody signed in until the
  session check answers, so no cache is modelled.
- The detail dialog shows the record's own `hours` field (volunteers.tsx:389), not the
  completed-hours total that `getTotalHours` computes. `Volunteers.ShownStats` models what is
  shown, and `VolunteerFixtures.ShownHoursDifferFromCompletedHours` shows on the sample data
  that the two differ (48 shown, 14 completed).
- The designation select lists 40 values (users.tsx:399-438).

## Model

| member | source | states |
|---|---|---|
| `Users.ModuleIds` | client/src/pages/admin/users.tsx:65-77 | The permission editor's module registry has exactly 11 ids, pairwise distinct, in display order |
| `Users.ActionsDistinct` | client/src/pages/admin/users.tsx:132 | The editor offers exactly four distinct actions: read, create, update, delete |
| `Users.InitialPermissions` | client/src/pages/admin/users.tsx:90-94 | The editor starts from the user's stored map, or from the empty map when the user has none |
| `Users.Checked` | client/src/pages/admin/users.tsx:137 | A checkbox is checked only if its module and action are both present; when both are present it shows the stored flag |
| `Users.ChangePermission` | client/src/pages/admin/users.tsx:96-104 | Afterwards the module is present and the action holds the new value. Every other module keeps exactly its entry. Every other action of that module keeps its value. The module's key set grows by at most that action |
| `Users.CheckedAfterChange` | client/src/pages/admin/users.tsx:96-104 | After a change, that checkbox reads back the value that was set |
| `Users.ChangeIsLocal` | client/src/pages/admin/users.tsx:97-101 | Every other (module, action) checkbox reads back as before the change |
| `Users.ChangeOfAbsentModule` | client/src/pages/admin/users.tsx:100-101 | Changing a module with no entry creates an entry holding only that action; the module's other flags read as unchecked |
| `Users.ChangeLastWins` | client/src/pages/admin/users.tsx:96-104 | Two changes of the same checkbox equal the last one alone |
| `Users.ChangesCommute` | client/src/pages/admin/users.tsx:96-104 | Changes to two different checkboxes give the same map in either order |
| `Users.Grid` | client/src/pages/admin/users.tsx:128-145 | The editor renders 11 rows of 4 checkboxes; cell (i, j) reads module i's action j |
| `Users.GridOfNoPermissions` | client/src/pages/admin/users.tsx:137 | A user with no stored permissions sees every checkbox unchecked |
| `Users.GridAfterClick` | client/src/pages/admin/users.tsx:132-138 | Clicking cell (i, j) sets that cell to the new value and leaves every other cell of the grid as it was |
| `Users.Toggled` | client/src/pages/admin/users.tsx:318-319 | The requested status always differs from the current one |
| `Users.ToggleTwice` | client/src/pages/admin/users.tsx:318-319 | Toggling twice restores the original status |
| `Users.ToggleStatusRequest` | client/src/pages/admin/users.tsx:318-321 | The mutation request names the same user; active becomes inactive and inactive becomes active |
| `Users.ParseRole` | client/src/pages/admin/users.tsx:369-378 | A select value is read as a role only when it is that role's item value |
| `Users.ParseRoleValue` | client/src/pages/admin/users.tsx:369-378 | Every role's item value reads back as that role |
| `Users.RoleOptionsComplete` | client/src/pages/admin/users.tsx:370-377 | The role select has 8 items and contains every role; their values are pairwise distinct |
| `Designations.ParseDesignation` | client/src/pages/admin/users.tsx:390-438 | A select value is read as a designation only when it is that designation's item value |
| `Designations.ParseDesignationValue` | client/src/pages/admin/users.tsx:399-438 | Every designation's item value reads back as that designation |
| `Designations.DesignationOptionsComplete` | client/src/pages/admin/users.tsx:399-438 | The designation select has 40 items and contains every designation; their values are pairwise distinct |
| `Designations.DesignationSelectValue` | client/src/pages/admin/users.tsx:391 | The select's value is the empty string exactly when the user has no designation |
| `Text.IncludesIffOccurs` | client/src/pages/admin/users.tsx:511-512 | The `includes` search holds exactly when the term occurs as a substring at some offset |
| `Users.MatchesSearchIff` | client/src/pages/admin/users.tsx:511-512 | The user search predicate holds exactly when the lower-cased term occurs in the lower-cased name or email |
| `Users.FilterUsers` | client/src/pages/admin/users.tsx:510-513 | No rows when nothing has been fetched; otherwise at most the fetched rows, each one taken from the fetched list |
| `Users.FilterUsersSpec` | client/src/pages/admin/users.tsx:510-513 | The rows are an order-preserving subsequence of the fetched users. Every row matches the term on name or email. Every fetched user that matches is shown, exactly as many times as it was fetched, and no other user appears |
| `Users.FilterUsersEmptyTerm` | client/src/pages/admin/users.tsx:510-513 | With an empty search term, every fetched user is shown in fetched order |
| `Users.FilterUsersIgnoresCase` | client/src/pages/admin/users.tsx:510-513 | The term "ANIL" finds the row "Anil Kumar" |
| `Users.FilterUsersNoHit` | client/src/pages/admin/users.tsx:510-513 | A row with no z or Z in its name or email is dropped by the term "zzz" |
| `Users.FilterUsersSampleNoHit` | client/src/pages/admin/users.tsx:510-513 | The term "zzz" finds nothing in the sample row |
| `Volunteers.MatchesSearchIff` | client/src/pages/admin/volunteers.tsx:146-150 | The volunteer search holds exactly when the lower-cased term occurs in the lower-cased name, email, location or skills |
| `Volunteers.FilterVolunteers` | client/src/pages/admin/volunteers.tsx:144-159 | Every row comes from the list and matches the search. Tab active, inactive or pending yields only that status. Every volunteer that matches the search and is admitted by the tab is shown |
| `Volunteers.FilterVolunteersSpec` | client/src/pages/admin/volunteers.tsx:144-159 | The rows keep the list order, and each contains the term in one of the four searched fields. A volunteer that matches the search and the tab appears exactly as often as in the list; any other volunteer does not appear |
| `Volunteers.FilterVolunteersIsTabOfSearch` | client/src/pages/admin/volunteers.tsx:144-159 | The table equals the search result narrowed afterwards by the status tab |
| `Volunteers.FilterVolunteersAllTab` | client/src/pages/admin/volunteers.tsx:153-158 | Tab "all", or any unrecognised tab value, gives exactly the search-only filter |
| `Volunteers.FilterVolunteersInitial` | client/src/pages/admin/volunteers.tsx:137-159 | The initial empty search with tab "all" shows the whole list |
| `Volunteers.SetStatusById` | client/src/pages/admin/volunteers.tsx:167-171 | The list keeps its length. Records with the id get the new status and keep every other field. All other records are unchanged |
| `Volunteers.SetStatusUnknownId` | client/src/pages/admin/volunteers.tsx:167-171 | A status change for an id that is not in the list leaves the list unchanged |
| `Volunteers.SetStatusLastWins` | client/src/pages/admin/volunteers.tsx:167-171 | Two status changes for one id equal the last one alone |
| `Volunteers.SetStatusKeepsSelectionInStep` | client/src/pages/admin/volunteers.tsx:178-181 | If the selected record came from the list, the patched selected record is in the patched list |
| `Volunteers.EventsOf` | client/src/pages/admin/volunteers.tsx:185-187 | Every returned event belongs to that volunteer and comes from the event list; every event of that volunteer is returned |
| `Volunteers.EventsOfInOrder` | client/src/pages/admin/volunteers.tsx:185-187 | The volunteer's events keep their list order |
| `Volunteers.EventsOfMultiplicity` | client/src/pages/admin/volunteers.tsx:185-187 | Each event of the volunteer appears as often as in the event list, and no other event appears |
| `Volunteers.EventsOfCount` | client/src/pages/admin/volunteers.tsx:185-187 | The number of the volunteer's events, which the dialog shows, is the number of positions of the event list that hold an event of that volunteer |
| `Volunteers.TotalHours` | client/src/pages/admin/volunteers.tsx:190-194 | The total is 0 when the volunteer has no completed events |
| `Volunteers.TotalHoursIsCompletedHours` | client/src/pages/admin/volunteers.tsx:190-194 | The total equals the sum of hours over the volunteer's Completed events, computed by one independent pass over all events |
| `Volunteers.TotalHoursAtMostAllHours` | client/src/pages/admin/volunteers.tsx:190-194 | When no event has negative hours, the total is at most the sum over all of the volunteer's events |
| `Volunteers.TotalHoursAppend` | client/src/pages/admin/volunteers.tsx:190-194 | The total over two event lists joined is the sum of their totals |
| `Volunteers.ShownStats` | client/src/pages/admin/volunteers.tsx:384-394 | The dialog shows the record's own hours field as the total; its event count is the length of the volunteer's event list |
| `VolunteerFixtures.ShownHoursDifferFromCompletedHours` | client/src/pages/admin/volunteers.tsx:384-394 | On the sample data, the first volunteer has 2 events and 14 completed hours, but the dialog shows 48 hours |
| `Volunteers.Directory.constructor` | client/src/pages/admin/volunteers.tsx:136-140 | The screen starts with the given list, an empty search, tab "all" and nothing selected; every volunteer is visible |
| `Volunteers.Directory.Visible` | client/src/pages/admin/volunteers.tsx:144-159 | Every visible row is in the current list |
| `Volunteers.Directory.SetSearchTerm` | client/src/pages/admin/volunteers.tsx:218 | Typing stores the new search term and changes nothing else |
| `Volunteers.Directory.SetActiveTab` | client/src/pages/admin/volunteers.tsx:204 | Choosing a tab stores it and changes nothing else |
| `Volunteers.Directory.ViewDetails` | client/src/pages/admin/volunteers.tsx:161-164 | Opening details selects that volunteer |
| `Volunteers.Directory.UpdateStatus` | client/src/pages/admin/volunteers.tsx:166-182 | The list becomes `SetStatusById` of the old list. The selected record gets the new status exactly when its id matches, and is otherwise untouched. A selected record that came from the list stays in it |
| `Volunteers.Directory.ShownDetailStats` | client/src/pages/admin/volunteers.tsx:336-394 | Statistics exist exactly when a volunteer is selected; the event count is the length of that volunteer's event list |
| `Auth.AuthSession.constructor` | client/src/context/authContext.tsx:35-36 | Initially nobody is signed in and loading is true |
| `Auth.AuthSession.IsAuthenticated` | client/src/context/authContext.tsx:92 | Authenticated exactly when a user is present, in every state |
| `Auth.AuthSession.Login` | client/src/context/authContext.tsx:38-44 | The given user is adopted, so the session is authenticated; loading is unchanged |
| `Auth.AuthSession.Logout` | client/src/context/authContext.tsx:45-58 | The user is cleared whatever the remote call did; loading is unchanged |
| `Auth.AuthSession.CheckSession` | client/src/context/authContext.tsx:61-83 | An OK response adopts the reported user. A non-OK response or a thrown error clears the user. Every outcome ends with loading false |
| `RouteGuard.Decide` | client/src/components/PrivateRoute.tsx:16-33 | Loading means the placeholder. Redirect exactly when not loading and not authenticated. Render the page exactly when not loading and authenticated |
| `RouteGuard.Rendered` | client/src/components/PrivateRoute.tsx:16-33 | The spinner is shown exactly for the placeholder, and nothing is rendered exactly for the redirect |
| `RouteGuard.Navigation` | client/src/components/PrivateRoute.tsx:24-28 | Only the redirect navigates, and its target is /pages/admin/login |
| `RouteGuard.NavigatesIff` | client/src/components/PrivateRoute.tsx:16-28 | Navigation happens exactly when not loading and not authenticated, and then nothing is rendered |
| `RouteGuard.GuardOf` | client/src/components/PrivateRoute.tsx:7-33 | On the session store's state, the guard never redirects while loading. It redirects exactly when loading is over and no user is present, and renders the page exactly when a user is present |

## Left out

- HTTP calls (`/api/auth/me`, `/api/auth/logout` and the user mutations in `@/lib/api`): the backend is not part of this model. Their results are inputs (`SessionCheckOutcome`, `LogoutOutcome`); the user list is an input of `FilterUsers`.
- The permission editor's `handleSubmit` (users.tsx:106-119): it is a remote call. Its only local logic, calling `onUpdate` and `onClose` only when the response reports success, is not modelled.
- `handleDeleteUser`, `handleRoleChange` and `handleDesignationChange` (users.tsx:323-335): they pass their arguments straight to remote mutations. The delete confirmation is a browser dialog.
- The react-query machinery: queries, mutations, cache invalidation, per-row disabling while a mutation is pending, loading and error screens, and the empty `onUpdate` callback.
- The periodic session re-check (`setInterval`) and the `setTimeout` tick in `login`. These are scheduling, not logic. `CheckSession` can be called any number of times, which covers repeated checks done one after another, but not overlapping ones.
- The default context value used when no provider is mounted (authContext.tsx:26-32).
- Toasts, console logging, JSX rendering, skeletons, CSS classes, the dialogs' open/close flags, and capitalised labels.
- Locale formatting (`toLocaleDateString`) and full Unicode case mapping: `Text.ToLower` lower-cases ASCII letters only.
- Floating-point numbers: hours are modelled as unbounded integers.
- Roles, designations and statuses are modelled as enumerations. The source types them as strings, so the model assumes the backend and the select lists only ever supply the listed values.
- The mock datasets (volunteers.tsx:14-133) appear only as example fixtures (`VolunteerFixtures`), never in contracts.

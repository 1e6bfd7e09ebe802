# Housing dashboard: a verified model of its document store and sync logic

The housing dashboard is a React single-page application. Organisers of a
youth retreat use it to keep one JSON document: the youth groups, the rooms,
the housing, small-group and meal-colour assignments, and some notes. That
document is stored as a file in a GitHub repository. This project is a Dafny
model of the application's core:

- `Housing` (`housing.dfy`) models the document and the nine copy-on-write
  edits that `DataContext.jsx` makes to it. These are:
  - add, update and delete a youth group;
  - add, update and delete a room;
  - overwrite one housing, small-group or meal-colour assignment.
- `SyncEngine` (`sync_engine.dfy`) models the state `DataContext.jsx` keeps
  around the document, as a class with a virtual clock. That state is the
  document itself, the loading/saving flags, the last-saved time, the last
  error, the debounced autosave timer and the manual save.
- `GitHubService` (`github_service.dfy`) models three things:
  - the token kept in `localStorage`;
  - loading the data file, with a fallback to a built-in skeleton document;
  - the save protocol: read the file's SHA, then PUT the new content with
    that SHA when there is one.
- `Storage` (`storage.dfy`) models the browser's key/value stores as a class
  over a map.
- `Auth` (`auth.dfy`) models login against the fixed credential list, and the
  session record kept in `sessionStorage`.
- Page logic, one module per page:
  - `HousingAssignmentsPage` (`housing_assignments.dfy`): the room toggle;
  - `DashboardLayout` (`dashboard_layout.dfy`): the "last saved" age label and
    status precedence;
  - `DashboardHome` (`dashboard_home.dfy`): the overview statistics;
  - `YouthGroupsPage` (`youth_groups.dfy`) and `RoomsPage` (`rooms.dfy`): the
    search filters and the add/edit forms.
- `Common` (`common.dfy`) holds shared helpers: Option/Result, a generic
  filter with its lemmas, ASCII lower-casing, substring search and decimal
  rendering.

The network, the clock and the browser are not modelled. Instead:

- Every reply from GitHub is a parameter. That covers a served file, a 404,
  another non-ok status and a failed `fetch`, for both the GET and the PUT.
  So every branch the code distinguishes can be chosen.
- Time is a parameter too: a millisecond clock that only
  `SyncEngine.DataProvider.Tick` advances, and ISO timestamps passed in as
  strings.
- An autosave is two steps. `Tick` fires the timer and dispatches the save;
  `SettleAutoSave` applies its outcome. This captures what the code does
  when saves overlap.

The model follows the code where it differs from the intended design:

- Deleting a youth group drops its id from the four assignment maps but
  leaves `adaIndividuals` as it is (`Housing.DeleteYouthGroup`, `SameRest`).
- No edit checks that a group id exists. An assignment to an unknown id is
  accepted and leaves a dangling key
  (`Housing.UpdateHousingAssignmentReferences` and its two siblings).
- A stale SHA on the PUT is an ordinary refused reply; there is no distinct
  conflict error.
- Nothing stops a second autosave while one is out. The first one to finish
  clears `saving` although the second is still pending
  (`SyncEngine.OverlappingAutoSaves`).

## Model

| member | source | states |
|---|---|---|
| Housing.AddYouthGroup | housing-dashboard/src/context/DataContext.jsx:84-91 | the group list is the old one with the group appended; rooms, partitions, every assignment map and the rest of the document are unchanged; `lastUpdated` is the new stamp |
| Housing.UpdateYouthGroup | housing-dashboard/src/context/DataContext.jsx:93-102 | the length is kept, position `index` holds the new group, every other position is unchanged, and nothing else but the stamp changes |
| Housing.DeleteYouthGroup | housing-dashboard/src/context/DataContext.jsx:104-119 | exactly the group at `index` is removed and the others keep their order; its id is dropped from the male and female housing maps, the small-group map and the meal-colour map, with every other key unchanged; rooms and the rest (including `adaIndividuals`) are unchanged |
| Housing.WithoutIndex | housing-dashboard/src/context/DataContext.jsx:108 | filtering out an index (here in `deleteYouthGroup`, and the same filter at line 147 in `deleteRoom`) removes exactly that position, shifting later ones down; an index past the end removes nothing |
| Housing.WithRooms | housing-dashboard/src/context/DataContext.jsx:121-156 | the shared shape of the room edits: rooms replaced, both partitions recomputed from them, groups, assignments and the rest unchanged |
| Housing.AddRoom | housing-dashboard/src/context/DataContext.jsx:121-131 | rooms are the old rooms plus the new one; `housingRooms` and `smallGroupRooms` are the type filters of the new rooms; groups and assignments unchanged |
| Housing.UpdateRoom | housing-dashboard/src/context/DataContext.jsx:133-144 | only position `index` of the rooms changes; both partitions are recomputed |
| Housing.DeleteRoom | housing-dashboard/src/context/DataContext.jsx:146-156 | the room at `index` is removed in order, an out-of-range index removes nothing; both partitions are recomputed either way |
| Housing.UpdateHousingAssignment | housing-dashboard/src/context/DataContext.jsx:158-171 | the chosen gender's map has `groupId` bound to the rooms and every other key unchanged; the other gender's map and all other maps are unchanged |
| Housing.UpdateSmallGroupAssignment | housing-dashboard/src/context/DataContext.jsx:173-183 | only the `groupId` key of the small-group map changes |
| Housing.UpdateMealColorAssignment | housing-dashboard/src/context/DataContext.jsx:185-195 | only the `groupId` key of the meal-colour map changes |
| Housing.DeleteYouthGroupKeepsReferences | housing-dashboard/src/context/DataContext.jsx:104-119 | if every assignment key names a listed group before a deletion, it still does after it |
| Housing.AddThenDeleteYouthGroup | housing-dashboard/src/context/DataContext.jsx:84-119 | adding a group and deleting it again restores the group list and the housing maps, and leaves no small-group or meal-colour key for its id |
| Housing.UpdateHousingAssignmentReferences | housing-dashboard/src/context/DataContext.jsx:158-171 | from a document without dangling keys, the result has none exactly when the id names a listed group: the id is not checked |
| Housing.UpdateSmallGroupAssignmentReferences | housing-dashboard/src/context/DataContext.jsx:173-183 | the same for the small-group map |
| Housing.UpdateMealColorAssignmentReferences | housing-dashboard/src/context/DataContext.jsx:185-195 | the same for the meal-colour map |
| SyncEngine.DataProvider.constructor | housing-dashboard/src/context/DataContext.jsx:7-14 | no document, loading, not saving, no last-saved time, no error, no timer |
| SyncEngine.DataProvider.LoadData | housing-dashboard/src/context/DataContext.jsx:21-33 | the loaded document becomes current, loading ends and the error is cleared; nothing else changes |
| SyncEngine.DataProvider.AutoSave | housing-dashboard/src/context/DataContext.jsx:36-56 | any armed timer is replaced by one due a debounce window (2000 ms) from now that carries the new document |
| SyncEngine.DataProvider.UpdateData | housing-dashboard/src/context/DataContext.jsx:59-62 | the new document is current at once and the timer is re-armed with it; no other state changes |
| SyncEngine.DataProvider.Tick | housing-dashboard/src/context/DataContext.jsx:42-46 | a timer that falls due is consumed, its document is dispatched and `saving` is set; otherwise nothing but the clock changes |
| SyncEngine.DataProvider.SettleAutoSave | housing-dashboard/src/context/DataContext.jsx:46-54 | success records the current time and clears the error; failure records "Auto-save failed: " and the message; `saving` drops either way; the settled save leaves the outstanding list |
| SyncEngine.DataProvider.ManualSave | housing-dashboard/src/context/DataContext.jsx:65-81 | nothing without a document; otherwise the current document is sent; success gives `{success:true}`, sets the last-saved time and clears the error; failure gives `{success:false, error}` and sets "Save failed: "; `saving` is false afterwards; the timer is untouched |
| SyncEngine.DataProvider.AddYouthGroup | housing-dashboard/src/context/DataContext.jsx:84-91 | the document becomes `Housing.AddYouthGroup` of the old one and the autosave is re-armed with it |
| SyncEngine.DataProvider.UpdateYouthGroup | housing-dashboard/src/context/DataContext.jsx:93-102 | the same with `Housing.UpdateYouthGroup` |
| SyncEngine.DataProvider.DeleteYouthGroup | housing-dashboard/src/context/DataContext.jsx:104-119 | the same with `Housing.DeleteYouthGroup` |
| SyncEngine.DataProvider.AddRoom | housing-dashboard/src/context/DataContext.jsx:121-131 | the same with `Housing.AddRoom` |
| SyncEngine.DataProvider.UpdateRoom | housing-dashboard/src/context/DataContext.jsx:133-144 | the same with `Housing.UpdateRoom` |
| SyncEngine.DataProvider.DeleteRoom | housing-dashboard/src/context/DataContext.jsx:146-156 | the same with `Housing.DeleteRoom` |
| SyncEngine.DataProvider.UpdateHousingAssignment | housing-dashboard/src/context/DataContext.jsx:158-171 | the same with `Housing.UpdateHousingAssignment` |
| SyncEngine.DataProvider.UpdateSmallGroupAssignment | housing-dashboard/src/context/DataContext.jsx:173-183 | the same with `Housing.UpdateSmallGroupAssignment` |
| SyncEngine.DataProvider.UpdateMealColorAssignment | housing-dashboard/src/context/DataContext.jsx:185-195 | the same with `Housing.UpdateMealColorAssignment` |
| SyncEngine.DebouncedBurst | housing-dashboard/src/context/DataContext.jsx:36-56 | a burst of edits with pauses under the debounce window, then a quiet window, dispatches exactly one save, carrying the last document |
| SyncEngine.OverlappingAutoSaves | housing-dashboard/src/context/DataContext.jsx:36-56 | two autosaves can be out at once, and when the first settles `saving` is false while the second is still out |
| Storage.Lookup | housing-dashboard/src/services/githubService.js:10 | `getItem` yields an item exactly when the key is stored, and then the stored item |
| Storage.KeyValueStore.constructor | housing-dashboard/src/services/githubService.js:8-10 | a browser key/value store (`localStorage`, and `sessionStorage` in the login code) starts empty |
| Storage.KeyValueStore.SetItem | housing-dashboard/src/services/githubService.js:32 | `setItem` binds the key and no other key changes |
| Storage.KeyValueStore.RemoveItem | housing-dashboard/src/services/githubService.js:42 | `removeItem` removes the key and no other key changes |
| GitHubService.GetToken | housing-dashboard/src/services/githubService.js:9-20 | reading the live store, there is a token exactly when the settings entry is a JSON object with a `token` field, and it is that field |
| GitHubService.TokenIn | housing-dashboard/src/services/githubService.js:9-20 | no token when the settings entry is missing or not JSON; otherwise the parsed `token` field, absent when the object has none |
| GitHubService.HasTokenIn | housing-dashboard/src/services/githubService.js:36-38 | there is a token exactly when the settings entry is a JSON object whose `token` field is present and non-empty |
| GitHubService.HasGitHubToken | housing-dashboard/src/services/githubService.js:36-38 | the same, read from the store |
| GitHubService.SettingsRecord | housing-dashboard/src/services/githubService.js:24-31 | the settings object holds the token, owner, repo, branch, file path and save time, and its `token` is the given token |
| GitHubService.SaveTokenRoundTrip | housing-dashboard/src/services/githubService.js:23-38 | saving a token and reading it back gives that token, and `hasGitHubToken` holds exactly when it is non-empty |
| GitHubService.ClearTokenRemovesIt | housing-dashboard/src/services/githubService.js:36-43 | after clearing there is no token and `hasGitHubToken` is false |
| GitHubService.SaveGitHubToken | housing-dashboard/src/services/githubService.js:23-33 | only the settings entry is written, after which `getToken` is the token and a non-empty one makes `hasGitHubToken` true |
| GitHubService.ClearGitHubToken | housing-dashboard/src/services/githubService.js:41-43 | only the settings entry is removed, after which there is no token |
| GitHubService.SaveError.Message | housing-dashboard/src/services/githubService.js:60-137 | the `message` of each thrown error: the fixed "token not configured" text (line 95); "GitHub API error: " followed by the status, which reads back from its digits, and the status text (line 60); the PUT error text (line 137) or the network failure's reason as they are |
| GitHubService.GetFileSha | housing-dashboard/src/services/githubService.js:46-65 | null exactly on a 404 or a missing file, an API-status error on any other non-ok status, a network error when the request fails, the file's SHA otherwise |
| GitHubService.DefaultMealTimesShape | housing-dashboard/src/services/githubService.js:165-174 | the skeleton's meal-time table has exactly the eight meal colours as keys |
| GitHubService.InitialData | housing-dashboard/src/services/githubService.js:152-185 | version "3.0", no groups, rooms or assignments, consistent partitions, exactly the eight meal colours with times, six active colours each with a time, an empty ADA list |
| GitHubService.LoadHousingData | housing-dashboard/src/services/githubService.js:68-88 | the stored document when the file is served; the skeleton on a 404, on any other status and on a failed request |
| GitHubService.BuildPutBody | housing-dashboard/src/services/githubService.js:111-120 | the body always has the message, content and branch "main", and has `sha` exactly when the fetched SHA is non-null and non-empty, and then that SHA |
| GitHubService.PutErrorMessage | housing-dashboard/src/services/githubService.js:135-138 | the reply's message when it has one, else "GitHub API error: " and the status |
| GitHubService.RemoteRepo.constructor | housing-dashboard/src/services/githubService.js:2-6 | the GitHub repository the service talks to (fixed owner, name, branch and data file path) holds the given files |
| GitHubService.SaveHousingData | housing-dashboard/src/services/githubService.js:91-149 | without a token it fails with "token not configured" before any request; a failed SHA read fails without a PUT; otherwise the PUT body is built as above, a refused or failed PUT is an error and leaves the repository unchanged, and a committed PUT replaces only the data file and returns the first seven characters of the commit SHA |
| HousingAssignmentsPage.CurrentAssignments | housing-dashboard/src/pages/HousingAssignments.jsx:10 | a group without an entry for the gender has the empty list, otherwise its stored list |
| HousingAssignmentsPage.RemoveAll | housing-dashboard/src/pages/HousingAssignments.jsx:12 | exactly the filter that drops the key: every occurrence goes, the other elements stay with their copies and order, and a present key makes the list shorter |
| HousingAssignmentsPage.Toggle | housing-dashboard/src/pages/HousingAssignments.jsx:11-13 | a listed key gives the list with every copy of it filtered out (the other elements keep their copies and order); an unlisted key is appended at the end; membership of the key flips |
| HousingAssignmentsPage.ToggleTwice | housing-dashboard/src/pages/HousingAssignments.jsx:9-15 | toggling a key twice, from a list without it, gives the list back |
| HousingAssignmentsPage.HandleAssignRoom | housing-dashboard/src/pages/HousingAssignments.jsx:9-15 | only the (group, gender) entry is written, with the toggled list; `lastUpdated` is the new stamp; everything else is unchanged |
| HousingAssignmentsPage.HousingRooms | housing-dashboard/src/pages/HousingAssignments.jsx:17 | exactly the rooms of type "housing", and the stored partition when that is up to date |
| HousingAssignmentsPage.HousingRoomsInOrder | housing-dashboard/src/pages/HousingAssignments.jsx:17 | the housing rooms sit in the rooms at strictly increasing positions, so they keep room order |
| HousingAssignmentsPage.ListedGroups | housing-dashboard/src/pages/HousingAssignments.jsx:31-32 | a group is listed for a gender unless both of that gender's counts are 0 |
| HousingAssignmentsPage.RemoveAllAbsent | housing-dashboard/src/pages/HousingAssignments.jsx:12 | filtering out a key that is not there changes nothing |
| HousingAssignmentsPage.RemoveAllConcat | housing-dashboard/src/pages/HousingAssignments.jsx:12 | filtering a concatenation filters each part |
| DashboardLayout.ElapsedSeconds | housing-dashboard/src/components/DashboardLayout.jsx:45 | the floor of the millisecond difference divided by 1000, for either sign |
| DashboardLayout.FormatLastSaved | housing-dashboard/src/components/DashboardLayout.jsx:42-51 | "Not saved" exactly without a save time; "Just now" exactly under 10 s; seconds exactly from 10 to 59 s; minutes (1 to 59, the floor) exactly from 60 s to under an hour; the clock time exactly from an hour on |
| DashboardLayout.SavedLabel.Text | housing-dashboard/src/components/DashboardLayout.jsx:43-49 | "Not saved" and "Just now" exactly for those labels; a text ends in "s ago" exactly for a seconds label and in "m ago" exactly for a minutes label, and the digits before the unit read back as the count |
| DashboardLayout.FormatLastSavedText | housing-dashboard/src/components/DashboardLayout.jsx:47-49 | the texts "Just now", "{diff}s ago" and "{minutes}m ago" |
| DashboardLayout.StatusIndicator | housing-dashboard/src/components/DashboardLayout.jsx:74-89 | "Saving..." exactly while saving, whatever the error; "Save failed" exactly on an error when not saving; the age label otherwise |
| DashboardLayout.Indicator.Caption | housing-dashboard/src/components/DashboardLayout.jsx:74-88 | "Saving..." exactly while saving, "Save failed" exactly on a failure, otherwise the age label's text; the three never coincide |
| DashboardLayout.MobileIndicator | housing-dashboard/src/components/DashboardLayout.jsx:111-127 | shown exactly while saving or after an error, with the same precedence |
| DashboardHome.Statistics | housing-dashboard/src/pages/DashboardHome.jsx:32-45 | the teen total is the running sum of each group's teens and the chaperone total that of its chaperones; participants are teens plus chaperones and the sum of the per-group totals; housing plus small-group rooms is at most all rooms, and equal to the stored partitions when current; the unique assigned count is the size of the union of the key sets, between either set's size and the sum, and equals the sum exactly when no group is in both; the ADA count is the list's length or 0 |
| DashboardHome.SumConcat | housing-dashboard/src/pages/DashboardHome.jsx:33-34 | the running sum over two lists in a row is the sum of both |
| DashboardHome.SumAdd | housing-dashboard/src/pages/DashboardHome.jsx:33-35 | summing teens and chaperones separately and adding gives the sum of per-group totals |
| DashboardHome.SumNonNegative | housing-dashboard/src/pages/DashboardHome.jsx:33-34 | a sum of non-negative counts is non-negative |
| DashboardHome.UnionSize | housing-dashboard/src/pages/DashboardHome.jsx:39-44 | the size of the union of the two key sets, and when it equals the sum |
| DashboardHome.TotalsNonNegative | housing-dashboard/src/pages/DashboardHome.jsx:33-35 | with no negative head-count the totals are non-negative |
| DashboardHome.AddYouthGroupStatistics | housing-dashboard/src/pages/DashboardHome.jsx:32-34 | adding a group adds one group and exactly its teens and chaperones |
| DashboardHome.DeleteYouthGroupStatistics | housing-dashboard/src/pages/DashboardHome.jsx:33-36 | deleting a group takes exactly its teens and chaperones off and leaves the room count |
| Auth.FindUser | housing-dashboard/src/context/AuthContext.jsx:40-42 | a user is found exactly when some entry matches both username and password, and it is the first such entry |
| Auth.SessionRecord | housing-dashboard/src/context/AuthContext.jsx:46-50 | the session holds username, name and role of the user and no password |
| Auth.KnownAccounts | housing-dashboard/src/context/AuthContext.jsx:6-19 | each listed account logs in with its own password, and neither listed username logs in with the other account's password |
| Auth.AuthProvider.constructor | housing-dashboard/src/context/AuthContext.jsx:21-23 | no user, loading |
| Auth.AuthProvider.Restore | housing-dashboard/src/context/AuthContext.jsx:26-36 | a stored session object becomes the current user; a stored entry that is not JSON is removed and the user stays; a missing or empty entry changes nothing; loading ends |
| Auth.AuthProvider.Login | housing-dashboard/src/context/AuthContext.jsx:38-60 | success exactly when some listed entry matches; then the session record is stored and becomes the current user; otherwise "Invalid username or password" and neither the user nor the session store changes |
| Auth.AuthProvider.Logout | housing-dashboard/src/context/AuthContext.jsx:62-65 | the session entry is removed, nothing else in the store changes, and there is no current user |
| YouthGroupsPage.GroupTotal | housing-dashboard/src/pages/YouthGroups.jsx:136-138 | the total is the teen total plus the chaperone total, a missing count read as 0 |
| YouthGroupsPage.FilteredGroups | housing-dashboard/src/pages/YouthGroups.jsx:72-75 | a group is kept exactly when the lower-cased term occurs in its lower-cased parish or leader; an empty term keeps every group in order |
| YouthGroupsPage.FilteredGroupsKeepOrder | housing-dashboard/src/pages/YouthGroups.jsx:72-75 | the search keeps list order |
| YouthGroupsPage.NewGroup | housing-dashboard/src/pages/YouthGroups.jsx:27-40 | the given id, all four head-counts 0, not staying off campus, parish, leader, SGL, religious, phone and special accommodations all empty, total 0 |
| YouthGroupsPage.ApplyEdit | housing-dashboard/src/pages/YouthGroups.jsx:68-70 | the edited field holds the new value (a count as a present number), every other field keeps its old value, and no edit changes the id |
| YouthGroupsPage.GroupForm.constructor | housing-dashboard/src/pages/YouthGroups.jsx:8-23 | modal closed, not editing, a blank group |
| YouthGroupsPage.GroupForm.HandleAdd | housing-dashboard/src/pages/YouthGroups.jsx:25-42 | not editing, modal open, a fresh group whose id is "group-" and the clock |
| YouthGroupsPage.GroupForm.HandleEdit | housing-dashboard/src/pages/YouthGroups.jsx:44-48 | editing `index`, modal open, the form is the listed group |
| YouthGroupsPage.GroupForm.HandleChange | housing-dashboard/src/pages/YouthGroups.jsx:68-70 | the form is the old form with the edit applied |
| YouthGroupsPage.GroupForm.HandleSubmit | housing-dashboard/src/pages/YouthGroups.jsx:56-66 | an update of the edited index exactly when one is being edited, an add otherwise; the modal closes |
| RoomsPage.FilteredRooms | housing-dashboard/src/pages/Rooms.jsx:59-64 | a room is kept exactly when the term occurs case-insensitively in its building or room id and the type filter is "all" or its type; "all" with an empty term keeps every room in order; "housing" keeps only housing rooms |
| RoomsPage.FilteredRoomsKeepOrder | housing-dashboard/src/pages/Rooms.jsx:59-64 | the filter keeps list order |
| RoomsPage.HousingChoiceIsHousingPartition | housing-dashboard/src/pages/Rooms.jsx:62 | with an empty term the "housing" choice is exactly the housing partition |
| RoomsPage.NewRoom | housing-dashboard/src/pages/Rooms.jsx:20-31 | type "housing", gender "male", capacity 0, empty text fields |
| RoomsPage.ApplyEdit | housing-dashboard/src/pages/Rooms.jsx:55-57 | the edited field holds the new value and every other field keeps its old value |
| RoomsPage.RoomForm.constructor | housing-dashboard/src/pages/Rooms.jsx:7-18 | modal closed, not editing, the blank room |
| RoomsPage.RoomForm.HandleAdd | housing-dashboard/src/pages/Rooms.jsx:20-31 | not editing, modal open, the blank room |
| RoomsPage.RoomForm.HandleEdit | housing-dashboard/src/pages/Rooms.jsx:33-37 | editing `index`, modal open, the form is the listed room |
| RoomsPage.RoomForm.HandleChange | housing-dashboard/src/pages/Rooms.jsx:55-57 | the form is the old form with the edit applied |
| RoomsPage.RoomForm.HandleSubmit | housing-dashboard/src/pages/Rooms.jsx:45-53 | an update of the edited index exactly when one is being edited, an add otherwise; the partitions are current afterwards; the modal closes |

## Left out

- JSON serialisation and the UTF-8/base64 encoding of the PUT content and
  the GET response are not modelled. The file's content is the document
  value itself.
- URLs, HTTP headers and authentication are not modelled. Any GitHub reply
  the code can receive is a parameter.
- GitHub's own check of the SHA on a PUT is not modelled. The code has no
  branch of its own for a conflict, so a stale SHA is one more refused PUT.
- A `response.json()` that fails to parse is not modelled, for either
  request.
- `GitHubService.LoadHousingData` reads the same `files` map the PUT writes.
  The public CDN it really reads from may serve a stale copy for a while
  after a commit (hence the `?t=` query), and that delay is not modelled.
- The `console.error` logging in `loadHousingData`, `saveHousingData` and
  the provider is not modelled; it has no effect on state or results.
- Real timers and wall-clock time are not modelled. The clock is a virtual
  millisecond counter, and ISO timestamps are string parameters.
- The locale-dependent texts are not modelled. `ClockTime` stands for the
  time string, and the commit message takes the time as a string.
- `DashboardLayout.FormatLastSavedText` does not cover the clock-time text,
  which depends on the locale.
- React rendering, hooks, routing and markup are not modelled. A state
  setter is an assignment to the field.
- DashboardLayout.StatusIndicator: any recorded error shows "Save failed".
  JavaScript would treat an empty error string as no error, but every
  error the provider records starts with a non-empty prefix.
- Lower-casing is ASCII only; full Unicode case mapping is not modelled.
- Stored browser items are either a JSON object with string fields or text
  that does not parse. Other JSON values (arrays, numbers, nested objects)
  are not modelled, because the application writes only flat objects.
- The element types of `groupNotes` and `resources` are kept as opaque
  strings. Nothing in the core reads them.
- Housing.UpdateYouthGroup, Housing.DeleteYouthGroup, Housing.UpdateRoom:
  these require an index into the list. The pages only pass positions of
  listed entries. With an out-of-range index, JavaScript would grow the
  array or read `undefined.id`.
- Head-counts are `Option<int>`. The forms' `parseInt(value) || 0` already
  turns an unparsable entry into 0, so a form edit carries an integer.
  Counts that are not numbers in a stored document are not modelled.
- `manualSave` is one atomic step. Events that happen during its request
  are not modelled. Autosaves are two steps.
- `SyncEngine.DataProvider.LoadData`: the error branch of `loadData` is not
  modelled, because `loadHousingData` always resolves with a document.
- The other pages and components are not part of this model: the public
  dashboard, settings, login form, meal colours, ADA individuals and
  small-group assignment pages. They are views or thin handlers over the
  operations above.

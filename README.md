# Taskie client: a verified model of its decision logic

Taskie is a task marketplace. Requesters post paid tasks, taskers search for
them, mark favourites and message the requesters, and an administrator has a
dashboard. This project models, in Dafny, the decisions the React client
makes around its REST backend:

- the session store with its two durable storage items;
- the HTTP helper's interceptors (the bearer header, multipart bodies, and a 401 treated as an expired session);
- the route table and its guard;
- the validation chains, payloads and state changes of the pages.

Every backend call is a given reply value of type `Web.Reply`:

- no response;
- an error status with an optional message;
- a 2xx response carrying `success`, `message` and `data`.

Each page hands its reply to `Gateway.Receive`, which applies the response
interceptor to the shared `Web.Browser`, i.e. the storage and the location
path.

Pages whose handlers change state step by step are classes: their fields
are the component's state and their methods are the handlers. Their
contracts state every field's new value on every path. The pure rules are
functions with named results and lemmas:

- lookups and filters;
- validation chains;
- route matching;
- relative-time buckets;
- masks and link paths.

Module layout follows the source: `Js` (the JavaScript string and number
primitives the pages rely on), `Web` (the browser, users, replies,
multipart parts), `Gateway` (`src/utils/api.js`), `Session`
(`src/context/AuthContext.jsx`), `Routes` (`src/App.jsx`), `Market` and
`Catalog` (backend records), `Account` (the avatar and password handlers
that `AdminAccount.jsx` and `RequesterProfile.jsx` share line for line), and
one module per page or component.

## Model

| member | source | states |
|---|---|---|
| Gateway.BaseUrl | src/utils/api.js:66-68 | the asset origin is the configured URL when non-empty, else `http://localhost:5000`; never empty |
| Gateway.ApiBase | src/utils/api.js:8 | the API base is exactly the asset origin followed by `/api` |
| Gateway.Prepared | src/utils/api.js:18-28 | `Authorization` is present iff a truthy token is stored (or was already set) and then equals `Bearer ` + token; `Content-Type` is removed exactly for multipart bodies; every other header is kept |
| Gateway.OnRequest | src/utils/api.js:15-31 | the interceptor edits the config in place to `Prepared` of its old headers, reading the token at request time, and returns the same config |
| Gateway.FreshRequestHeaders | src/utils/api.js:9-11 | a fresh request carries a bearer header iff a token is stored, and `application/json` iff its body is not multipart |
| Gateway.IsAuthPage | src/utils/api.js:46-50 | every sign-in page is an absolute path (`/`, `/login`, `/register` or under `/auth/`) |
| Gateway.SignInPagesOfRouteTable | src/utils/api.js:46-53 | of the pages in the route table exactly the sign-in form (`/`) and the register form sit on sign-in paths, so a 401 on any other page ends the session |
| Gateway.AuthPageExamples | src/utils/api.js:47-50 | `/choose-role` and `/tasker/search` are not sign-in pages; every path under `/auth/` is |
| Gateway.Expires | src/utils/api.js:44-53 | an expiry needs an error response, and never happens at `/`, the page the interceptor moves to |
| Gateway.Settled | src/utils/api.js:44-59 | a 401 outside the sign-in pages empties storage and moves to `/`; any other error or page leaves both alone |
| Gateway.OnResponseError | src/utils/api.js:42-62 | the error handler changes storage and location exactly as `Settled` says and rejects with the very error it received |
| Gateway.Receive | src/utils/api.js:38-62 | a 2xx reply passes through untouched; every call's reply reaches the page unchanged after the interceptor |
| Web.CaughtMessage | src/context/AuthContext.jsx:106 | `err.response?.data?.message \|\| fallback`: the server's non-empty message, else the fallback (always the fallback with no response) |
| Web.HasPartConcat | src/pages/auth/Register.jsx:68-75 | a multipart body built by appends carries a name iff one of its pieces does |
| Web.HasPartOfFew | src/pages/auth/Register.jsx:69-70 | one or two appended parts carry exactly their own names |
| Js.Or | src/context/AuthContext.jsx:59 | `a \|\| b` on strings: `a` when truthy, else `b`; truthy iff either is |
| Js.TrimEmptyIffAllSpace | src/pages/shared/Chat.jsx:70 | `.trim()` yields the empty string exactly for white-space-only input |
| Js.Trim | src/pages/shared/Chat.jsx:70 | `.trim()` is no longer than its input and has no white space at either end |
| Js.TrimShape | src/pages/shared/Chat.jsx:79 | the trimmed string is the slice of the input after its leading white space |
| Js.FloorDiv | src/pages/tasker/MessageHistory.jsx:36-38 | `Math.floor(a / b)` for a positive divisor: `q*b <= a < (q+1)*b` |
| Session.WithoutToken | src/context/AuthContext.jsx:45 | `{token, ...userData}`: every field but `token`, with the same values |
| Session.TokenOf | src/context/AuthContext.jsx:45-48 | the stored token is the reply's token; a missing one is stored as the truthy text `undefined` |
| Session.Committed | src/context/AuthContext.jsx:45-49 | a successful sign-in writes both items; the user item has every field of the reply but `token`, and never the token |
| Session.Restored | src/context/AuthContext.jsx:26-31 | the mount effect restores a user iff the token item is truthy and the user item is present, and then exactly the stored user |
| Session.LoginResult | src/context/AuthContext.jsx:44-76 | success iff the reply says `success`, with the user minus token; otherwise the server message or `Login failed`, the connectivity message with no response, or the server message or the credentials message for an error status |
| Session.RegisterResult | src/context/AuthContext.jsx:84-108 | as login on success; `Registration failed` for a refused 2xx; every thrown error, with or without response, gives the server message or the retry fallback |
| Session.RegisterHidesNetworkFailure | src/context/AuthContext.jsx:102-107 | register gives the same result for a network failure and a message-less error status, while login tells them apart |
| Session.SwitchOutcomeAsWritten | src/context/AuthContext.jsx:119-136 | as written: switched iff the reply succeeded; undefined iff a 2xx body says `success: false`; otherwise the caught message |
| Session.SwitchOutcomeOf | src/context/AuthContext.jsx:119-136 | as intended: never undefined; switched iff the reply succeeded; every failure carries a non-empty message; agrees with the as-written result on thrown errors |
| Session.CommitThenRestore | src/context/AuthContext.jsx:48-49 | round trip: after a successful login or register both items are present, and reloading restores exactly the returned user iff the stored token is non-empty, which it always is when the reply had no token |
| Session.SettledKeepsPaired | src/utils/api.js:44-58 | the response interceptor keeps the token and user items present together |
| Session.ExpiryThenReload | src/utils/api.js:53-57 | after an expiry storage is empty at `/`, the reloaded store restores no user, and a further 401 there changes nothing |
| Session.SessionStore.constructor | src/context/AuthContext.jsx:21-22 | no user and loading at mount; the store is consistent when storage holds both items or neither |
| Session.SessionStore.Hydrate | src/context/AuthContext.jsx:25-34 | the user becomes the restored one when restoring applies, else stays; loading ends and children render; consistency (items paired, a user only with a stored token) is kept |
| Session.SessionStore.Login | src/context/AuthContext.jsx:37-77 | returns `LoginResult`; on success it writes both items and sets the user; on failure the user is kept and storage changes only through the interceptor; consistency is kept unless the reply expires the session, whose reload the store does not see |
| Session.SessionStore.Register | src/context/AuthContext.jsx:80-109 | returns `RegisterResult`, with the same state changes as login; consistency is kept unless the reply expires the session, whose reload the store does not see |
| Session.SessionStore.Logout | src/context/AuthContext.jsx:112-116 | both items removed and the user null, whatever the state before, so a second call changes nothing; the store is consistent afterwards |
| Session.SessionStore.SwitchRole | src/context/AuthContext.jsx:119-136 | returns `SwitchOutcomeAsWritten`: on success only the user item is rewritten, with `currentRole` set, and the token item is untouched; a refused 2xx switch resolves to undefined and changes nothing; an error changes only what the interceptor does; a signed-in user's consistent store stays consistent |
| Session.SessionStore.UpdateUser | src/context/AuthContext.jsx:139-143 | the user becomes the merge of the old user and the fields; only the user item is written, so consistency is kept for a signed-in user |
| Session.SwitchChangesOnlyRole | src/context/AuthContext.jsx:124 | a switch sets the role and keeps every other field of the user |
| Session.UpdateMerges | src/context/AuthContext.jsx:140 | a merge keeps unmentioned fields and takes every mentioned field's new value |
| Routes.ProtectedRoute | src/App.jsx:35-51 | no user goes to `/`; no role goes to `/choose-role` before any role test; a role outside the allowed list goes to `/`; renders iff signed in with a role that is allowed |
| Routes.RoleBasedHome | src/App.jsx:204-215 | the three roles have homes, each under its own area prefix; every other value goes to `/choose-role` |
| Routes.JoinSplit | src/App.jsx:58-199 | joining the segments of any path gives the path back |
| Routes.MatchSegments | src/App.jsx:58-199 | the selected page's segments are exactly the given ones, and with slash-free segments the page is addressable |
| Routes.Match | src/App.jsx:58-199 | a path that selects a page is exactly that page's own path (the converse of `MatchPath`) |
| Routes.Element | src/App.jsx:58-199 | without a user only the two forms render; a history-keeping redirect sends a signed-in user from a form to their home; every other redirect replaces the entry and goes to `/` or `/choose-role` |
| Routes.SplitJoin | src/App.jsx:58-199 | splitting a joined path of slash-free segments gives the segments back |
| Routes.MatchPath | src/App.jsx:58-199 | every page's own path selects that page |
| Routes.RenderedOnlyForOwnRole | src/App.jsx:78-195 | pages under `/admin/`, `/requester/` and `/tasker/` render exactly for a user of that role; the chat renders for any user with a role |
| Routes.AreaPathsGuarded | src/App.jsx:78-195 | stated on paths: whatever follows an area prefix renders only for a signed-in user of that area's role |
| Routes.GuardedByAllowedRoles | src/App.jsx:35-51 | a page that allows exactly one role renders only for a signed-in user with that role |
| Routes.HomeRoute | src/App.jsx:204-215 | each role's home is an addressable page |
| Routes.HomePath | src/App.jsx:204-215 | `getRoleBasedHome` is the path of that page for every role value |
| Routes.MatchHome | src/App.jsx:204-215 | each home path selects the page `HomeRoute` names |
| Routes.HomeRenders | src/App.jsx:60-67 | a signed-in user's home renders for that user, so the redirects of `/` and `/register` do not loop |
| Routes.PublicRedirects | src/App.jsx:60-75 | `/` and `/register` send a signed-in user home and show the page to a visitor; `/choose-role` needs only a signed-in user |
| Routes.UnknownPathsGoToRoot | src/App.jsx:198 | any path outside the route table redirects to `/`, replacing the entry, whoever is signed in |
| RegisterPage.Validate | src/pages/auth/Register.jsx:42-63 | the ordered chain: each message exactly when its check is the first to fail, none iff all four pass |
| RegisterPage.LengthBoundary | src/pages/auth/Register.jsx:60-63 | six characters pass the length check; five code units fail it |
| RegisterPage.Optional | src/pages/auth/Register.jsx:71-72 | a field is appended iff its value is truthy |
| RegisterPage.PayloadLayout | src/pages/auth/Register.jsx:68-75 | the body starts with name and date of birth, carries both passwords, and ends with the proof iff one was chosen |
| RegisterPage.PayloadHas | src/pages/auth/Register.jsx:68-75 | the names carried are the four fixed ones, email and phone when non-empty, and the proof when chosen |
| RegisterPage.PayloadNames | src/pages/auth/Register.jsx:71-75 | `email`, `phone` and `proofOfExperience` are present exactly when given |
| RegisterPage.BuildPayload | src/pages/auth/Register.jsx:68-75 | the appends build exactly `Payload` |
| RegisterPage.Page.Submit | src/pages/auth/Register.jsx:37-86 | a failed check sets its message and sends nothing; otherwise the payload is sent; success stores both items of the returned user, keeps the location and navigates to `/choose-role`; failure keeps the user, shows the result's message and leaves storage and location as the interceptor does; loading ends |
| LoginPage.Destination | src/pages/auth/Login.jsx:35-45 | no role goes to `/choose-role`; the three roles go to their pages; any other role goes nowhere |
| LoginPage.DestinationAgreesWithHome | src/pages/auth/Login.jsx:37-45 | where it navigates, the page agrees with `getRoleBasedHome` |
| LoginPage.LandingRenders | src/pages/auth/Login.jsx:35-45 | the page a user lands on renders for that user |
| LoginPage.RetryFallbackUnused | src/pages/auth/Login.jsx:49 | every failed login already carries a message, so the page's own fallback never shows |
| LoginPage.Page.Submit | src/pages/auth/Login.jsx:20-54 | an empty field stops with its message and no call; success stores both items of the returned user and navigates by role; failure keeps the user, clears the password, shows the message and leaves storage and location as the interceptor does |
| ChooseRolePage.Destination | src/pages/auth/ChooseRole.jsx:31-37 | `requester` goes to `/requester/tasks`, any other selection to `/tasker/search` |
| ChooseRolePage.DestinationIsHome | src/pages/auth/ChooseRole.jsx:31-37 | for the two offered roles this is the role's home |
| ChooseRolePage.SwitchedUserLands | src/pages/auth/ChooseRole.jsx:31-37 | after a switch the landing page renders for the switched user |
| ChooseRolePage.SwitchNeverReachesAdmin | src/pages/auth/ChooseRole.jsx:67-89 | a role set on this page never opens the admin area: neither admin page nor any path under `/admin/` renders for it |
| ChooseRolePage.Settle | src/pages/auth/ChooseRole.jsx:31-42 | switched: navigate and stop loading; failed: show the message and stop loading; undefined: the page stays loading with no error |
| ChooseRolePage.StuckAfterRefusedSwitch | src/pages/auth/ChooseRole.jsx:29-31 | with `switchRole` as written, a refused 2xx switch leaves the page loading with no message and no navigation |
| ChooseRolePage.SubmitAlwaysSettles | src/pages/auth/ChooseRole.jsx:29-42 | with the corrected `switchRole`, every reply ends loading, and every failure shows a non-empty message |
| ChooseRolePage.Page.Select | src/pages/auth/ChooseRole.jsx:67 | a card click selects its role unless a switch is in flight, and then the confirm button is enabled (`CanSubmit`) |
| ChooseRolePage.Page.Submit | src/pages/auth/ChooseRole.jsx:18-43 | no selection shows its message without a call; otherwise the screen is `Settle` of the outcome `switchRole` resolves to as written, so a refused 2xx switch leaves the page loading; success sets the role, rewrites only the user item and shows the back button (`ShowsBackButton`); any other reply keeps the user and leaves storage as the interceptor does; the selection stays one of the offered roles |
| Account.AvatarLimitInclusive | src/pages/admin/AdminAccount.jsx:31-43 | exactly 5 MiB is accepted and one byte more is not |
| Account.ValidatePassword | src/pages/admin/AdminAccount.jsx:82-95 | the ordered chain (all filled, new equals confirm, length at least 6): each message exactly when its check is the first to fail |
| Account.ClearedFormRejected | src/pages/requester/RequesterProfile.jsx:159-166 | the form cleared after success is refused for empty fields |
| Account.PasswordBody | src/pages/requester/RequesterProfile.jsx:154-157 | the body carries the current and new passwords only, not the confirmation |
| Account.AvatarMergeChangesOnlyUrl | src/pages/requester/RequesterProfile.jsx:116 | an avatar success changes only `avatarUrl` of the user |
| Account.Settings.ChooseAvatar | src/pages/requester/RequesterProfile.jsx:56-68 | no file changes nothing; an oversized file sets the message and is not kept; an accepted one is kept and clears the error |
| Account.Settings.UploadAvatar | src/pages/admin/AdminAccount.jsx:45-74 | no file sets its message; otherwise the file is sent as `avatar`; success merges the URL into the session user, rewrites the user item under the old token and forgets the file; a refused 2xx changes neither; an error shows the caught message and leaves storage and location as the interceptor does |
| Account.Settings.SubmitPassword | src/pages/admin/AdminAccount.jsx:76-119 | a failing check sends nothing; success clears all three fields; failure shows the server message or the fixed fallback; every sent request leaves storage and location as the interceptor does, so a 401 wipes the session |
| RequesterProfile.DatePart | src/pages/requester/RequesterProfile.jsx:35 | `split('T')[0]`: the longest `T`-free prefix |
| RequesterProfile.DatePartOfTimestamp | src/pages/requester/RequesterProfile.jsx:35 | an ISO timestamp gives its date and a bare date is kept |
| RequesterProfile.InitForm | src/pages/requester/RequesterProfile.jsx:33-38 | each field is the user's value or `""`, and the date of birth is cut at `T` |
| RequesterProfile.ProfileBody | src/pages/requester/RequesterProfile.jsx:84 | the update body is the four form fields |
| RequesterProfile.SaveThenReload | src/pages/requester/RequesterProfile.jsx:84-87 | saving the shown form and merging the echo back shows the same form again |
| RequesterProfile.Page.Sync | src/pages/requester/RequesterProfile.jsx:31-40 | with a user the form is refilled from it; without one it is kept |
| RequesterProfile.Page.SaveProfile | src/pages/requester/RequesterProfile.jsx:70-97 | name and date required; success merges the reply into the session user, rewrites the user item under the old token and leaves edit mode; otherwise the user is kept, an error shows the caught message, and storage and location are as the interceptor leaves them |
| Catalog.Find | src/pages/requester/CreateTask.jsx:41 | `find`: the first element with that key, and none iff no element has it |
| CreateTask.LocationJson | src/pages/requester/CreateTask.jsx:113-116 | round trip: a reader of the location text gets back the province and ward |
| CreateTask.WardsAfter | src/pages/requester/CreateTask.jsx:39-46 | the matching province's wards; unchanged when the province is blank or unknown |
| CreateTask.FeeAfter | src/pages/requester/CreateTask.jsx:48-55 | the matching category's fee; unchanged when none matches |
| CreateTask.Validate | src/pages/requester/CreateTask.jsx:93-103 | required fields first, then at least two images; none iff both hold |
| CreateTask.InitialFormRefused | src/pages/requester/CreateTask.jsx:13-21 | the initial form, with only the default province, is refused for empty fields |
| CreateTask.BuildPayload | src/pages/requester/CreateTask.jsx:109-123 | six fixed fields in order, then one `images` part per image in order |
| CreateTask.Page.SyncWards | src/pages/requester/CreateTask.jsx:39-46 | the wards become `WardsAfter`; the form's other fields, images, loading, messages and created id are unchanged |
| CreateTask.Page.SyncFee | src/pages/requester/CreateTask.jsx:48-55 | the fee becomes `FeeAfter`; the form's other fields, images, loading, messages and created id are unchanged |
| CreateTask.Page.Submit | src/pages/requester/CreateTask.jsx:87-137 | a failed check sends nothing; success reports and records the created id; an error shows the caught message; loading ends; a sent request leaves storage and location as the interceptor does, unchanged on a 2xx |
| CreateTask.ProofUpload.Upload | src/pages/requester/CreateTask.jsx:362-383 | no file sets its message; any 2xx goes on to the task list; an error shows the fixed message and ends loading; a sent upload leaves storage and location as the interceptor does |
| CreateTask.ProofUpload.Skip | src/pages/requester/CreateTask.jsx:385-387 | always goes on to the task list |
| EditTask.EditBody | src/pages/requester/EditTask.jsx:68 | the update carries description and price only, never the title |
| EditTask.DetailPath | src/pages/requester/EditTask.jsx:70-72 | the task's own detail path |
| EditTask.Page.FetchTask | src/pages/requester/EditTask.jsx:30-46 | a reply fills the title and form; an error sets its message; loading ends either way |
| EditTask.Page.Submit | src/pages/requester/EditTask.jsx:55-78 | empty fields stop without a call; success reports and navigates; failure shows the caught message and ends `submitting`; a sent update leaves storage and location as the interceptor does |
| TaskerSearch.With | src/pages/tasker/TaskerSearch.jsx:105 | sets one filter and keeps every other |
| TaskerSearch.BuildParams | src/pages/tasker/TaskerSearch.jsx:84-91 | the parameters are exactly the non-empty filters, values unchanged |
| TaskerSearch.Changed | src/pages/tasker/TaskerSearch.jsx:103-118 | the field takes the value, a new province clears the ward, and nothing else changes |
| TaskerSearch.WardsFor | src/pages/tasker/TaskerSearch.jsx:37-48 | the matching province's wards; none when blank or unknown |
| TaskerSearch.FavoriteIds | src/pages/tasker/TaskerSearch.jsx:71 | one id per favourite, in order |
| TaskerSearch.FavoritedIffListed | src/pages/tasker/TaskerSearch.jsx:269 | a task is marked iff some favourite is for it |
| TaskerSearch.Page.FetchFavorites | src/pages/tasker/TaskerSearch.jsx:68-76 | a reply replaces the ids; an error keeps them |
| TaskerSearch.Page.Search | src/pages/tasker/TaskerSearch.jsx:78-101 | parameters from the override when given, else the filters; a reply replaces the tasks; an error sets its message |
| TaskerSearch.Page.ChangeFilter | src/pages/tasker/TaskerSearch.jsx:103-118 | the filters become `Changed`; clearing the province clears the wards |
| TaskerSearch.Page.SyncWards | src/pages/tasker/TaskerSearch.jsx:37-48 | the wards become `WardsFor` |
| TaskerSearch.Page.Reset | src/pages/tasker/TaskerSearch.jsx:125-130 | initial filters, no wards, and a search with no parameters: a 2xx replaces the tasks and clears the error, an error sets the fixed message; storage and location as the interceptor leaves them |
| RequesterTasks.WithStatus | src/pages/requester/RequesterTasks.jsx:45 | only tasks of that status, each from the list |
| RequesterTasks.FilterTasks | src/pages/requester/RequesterTasks.jsx:41-47 | `all` gives the whole list; any other filter only tasks of that status |
| RequesterTasks.WithStatusComplete | src/pages/requester/RequesterTasks.jsx:45 | no task of the status is dropped |
| RequesterTasks.WithStatusConcat | src/pages/requester/RequesterTasks.jsx:45 | the filter distributes over concatenation, so order is kept |
| RequesterTasks.CountIsFilteredLength | src/pages/requester/RequesterTasks.jsx:80 | a button's count is the length of the list its filter shows |
| RequesterTasks.CountsBounded | src/pages/requester/RequesterTasks.jsx:90 | pending plus completed never exceeds the whole list |
| RequesterTasks.EmptyMessage | src/pages/requester/RequesterTasks.jsx:108-112 | the empty-state text for each filter |
| RequesterTasks.CreateLinkOnlyWithoutTasks | src/pages/requester/RequesterTasks.jsx:105-118 | the create link appears only when the requester has no tasks at all |
| Favorites.Without | src/pages/tasker/Favorites.jsx:52-53 | the kept entries are for other tasks and come from the list |
| Favorites.WithoutKeepsOthers | src/pages/tasker/Favorites.jsx:52-53 | every entry for another task is kept |
| Favorites.WithoutConcat | src/pages/tasker/Favorites.jsx:52-53 | removal distributes over concatenation, so order is kept |
| Favorites.WithoutIdempotent | src/pages/tasker/Favorites.jsx:52-53 | removing the same task twice equals removing it once |
| Favorites.Page.RemoveClick | src/pages/tasker/Favorites.jsx:39-42 | records the task and opens the dialog; nothing is removed |
| Favorites.Page.Cancel | src/pages/tasker/Favorites.jsx:185-188 | closes the dialog and forgets the task |
| Favorites.Page.ConfirmRemove | src/pages/tasker/Favorites.jsx:44-63 | no pending task: nothing; success removes exactly that task's entries and closes the dialog; failure keeps the list and sets the error; `removingId` ends cleared; a sent delete leaves storage and location as the interceptor does |
| Chat.OtherUserOf | src/pages/shared/Chat.jsx:46-51 | none without messages; otherwise a participant of the first message |
| Chat.OtherUserIsNotMe | src/pages/shared/Chat.jsx:48-50 | when the user took part in the first message between two users, the other participant is not the user |
| Chat.EveryRunHasAvatar | src/pages/shared/Chat.jsx:188 | every message belongs to a run of its sender headed by an avatar |
| Chat.NoAvatarInsideRun | src/pages/shared/Chat.jsx:188 | a message from the previous message's sender shows no avatar |
| Chat.CanSendIffNotBlank | src/pages/shared/Chat.jsx:276 | the send button is enabled iff nothing is in flight and the input is not all white space |
| Chat.SendBody | src/pages/shared/Chat.jsx:76-80 | the body carries the task, the receiver and the content |
| Chat.ViewTaskPath | src/pages/shared/Chat.jsx:156-160 | the requester's task page for requesters, the tasker's otherwise |
| Chat.TaskPaths | src/pages/shared/Chat.jsx:156-160 | those strings are the route table's task page paths |
| Chat.ViewTaskLands | src/pages/shared/Chat.jsx:156-160 | "View Task" renders for requesters and taskers; any other role is redirected |
| Chat.SentContentTrimmed | src/pages/shared/Chat.jsx:79 | the sent content is never blank and has no surrounding white space |
| Chat.Page.FetchConversation | src/pages/shared/Chat.jsx:39-61 | a reply replaces messages and task and clears the error; the other user is re-read only when there are messages; loading ends |
| Chat.Page.Send | src/pages/shared/Chat.jsx:67-92 | blank input does nothing; otherwise the trimmed text is sent; success appends the reply at the end and clears the input; failure keeps both and sets the error; `sending` ends; a sent message leaves storage and location as the interceptor does |
| Chat.Page.Post | src/pages/shared/Chat.jsx:72-91 | the trimmed text is posted with the task and receiver; success appends the reply and clears the input; a refused 2xx keeps both with no error; a failure keeps both and shows `Unable to send message`; storage and location are as the interceptor leaves them on every reply; sending ends |
| MessageHistory.FormatTimeRanges | src/pages/tasker/MessageHistory.jsx:33-46 | the buckets are contiguous millisecond ranges and exactly one applies; a future time reads "Just now" |
| MessageHistory.FormatTime | src/pages/tasker/MessageHistory.jsx:33-46 | the number in each label lies within its unit's range: 1-59 minutes, 1-23 hours, 1-6 days |
| MessageHistory.FormatTimeMonotone | src/pages/requester/RequesterMessageHistory.jsx:41-45 | an older message never gets a more recent label, and within a unit its number never shrinks |
| MessageHistory.TextOfRelative | src/pages/tasker/MessageHistory.jsx:42-44 | every relative label is a positive number followed by its unit's suffix |
| MessageHistory.TaskerBadge | src/pages/tasker/MessageHistory.jsx:48-57 | `Pending`, `Completed`, or none for any other status |
| MessageHistory.RequesterBadge | src/pages/requester/RequesterMessageHistory.jsx:48-57 | `Posted`, `Completed`, or none for any other status |
| MessageHistory.BadgesDifferOnlyForPending | src/pages/requester/RequesterMessageHistory.jsx:48-57 | both pages badge the same statuses and differ only on pending |
| MessageHistory.ConversationLinkOpensChat | src/pages/tasker/MessageHistory.jsx:92 | the link opens the chat for that task and user, which renders for any user with a role |
| MessageHistory.Page.FetchConversations | src/pages/tasker/MessageHistory.jsx:20-31 | a reply replaces the list; an error sets its message; loading ends |
| RequesterTaskDetail.StatusText | src/pages/requester/RequesterTaskDetail.jsx:130-136 | the two known statuses capitalised, any other unchanged |
| RequesterTaskDetail.StatusColor | src/pages/requester/RequesterTaskDetail.jsx:122-128 | yellow, green, or grey |
| RequesterTaskDetail.StatusTextAgreesWithBadge | src/pages/requester/RequesterTaskDetail.jsx:130-136 | for known statuses the label equals the tasker history's badge |
| RequesterTaskDetail.ActionsByStatus | src/pages/requester/RequesterTaskDetail.jsx:176-193 | a completable task is editable; a completed one offers no action and no upload |
| RequesterTaskDetail.ProofSectionsExclusive | src/pages/requester/RequesterTaskDetail.jsx:222-248 | the upload form and the proof never show together, and one shows unless the task was completed without a proof |
| RequesterTaskDetail.TaskConversations | src/pages/requester/RequesterTaskDetail.jsx:51-53 | only conversations about this task, each from the list |
| RequesterTaskDetail.TaskConversationsComplete | src/pages/requester/RequesterTaskDetail.jsx:51-53 | no conversation about the task is dropped |
| RequesterTaskDetail.TaskConversationsConcat | src/pages/requester/RequesterTaskDetail.jsx:51-53 | the filter keeps the backend's order |
| RequesterTaskDetail.Page.FetchTask | src/pages/requester/RequesterTaskDetail.jsx:35-45 | a reply replaces the task; an error sets its message; loading ends |
| RequesterTaskDetail.Page.FetchConversations | src/pages/requester/RequesterTaskDetail.jsx:47-58 | a reply keeps this task's conversations; an error changes nothing |
| RequesterTaskDetail.Page.Delete | src/pages/requester/RequesterTaskDetail.jsx:60-69 | any 2xx goes to the task list; an error sets its message and closes the dialog, and leaves conversations, loading, `completing`, the proof file and `uploadingPayment` as they were |
| RequesterTaskDetail.Page.Complete | src/pages/requester/RequesterTaskDetail.jsx:71-88 | success reports, closes the dialog and reloads the task; a refused reply changes nothing more; an error shows the caught message; `completing` ends; `loading` changes only on success and `uploadingPayment` never |
| RequesterTaskDetail.Page.UploadProof | src/pages/requester/RequesterTaskDetail.jsx:90-116 | no file sets its message and keeps the file and loading; success reports, forgets the file and reloads the task; a refused reply or an error keeps loading, an error shows the caught message and keeps the file |
| TaskerTaskDetail.MaskEmail | src/pages/tasker/TaskerTaskDetail.jsx:110-113 | `""` for no email, else fifteen stars |
| TaskerTaskDetail.MaskPhone | src/pages/tasker/TaskerTaskDetail.jsx:115-118 | `""` for no phone, else eleven stars |
| TaskerTaskDetail.EmailLine | src/pages/tasker/TaskerTaskDetail.jsx:267-271 | the line is absent without an email and shows it unmasked once revealed |
| TaskerTaskDetail.PhoneLine | src/pages/tasker/TaskerTaskDetail.jsx:272-276 | the same for the phone |
| TaskerTaskDetail.HiddenContactRevealsNothing | src/pages/tasker/TaskerTaskDetail.jsx:110-118 | while hidden, any two present emails or phones read the same |
| TaskerTaskDetail.MessageOpensChat | src/pages/tasker/TaskerTaskDetail.jsx:102-104 | the message button opens the chat with the requester, which renders for the tasker |
| TaskerTaskDetail.Page.constructor | src/pages/tasker/TaskerTaskDetail.jsx:20-27 | contact details start hidden and the task unmarked |
| TaskerTaskDetail.Page.FetchTask | src/pages/tasker/TaskerTaskDetail.jsx:34-44 | a reply replaces the task; an error sets its message; loading ends |
| TaskerTaskDetail.Page.CheckFavorite | src/pages/tasker/TaskerTaskDetail.jsx:46-53 | a reply sets the mark; an error keeps it |
| TaskerTaskDetail.Page.AddToFavorites | src/pages/tasker/TaskerTaskDetail.jsx:65-81 | any 2xx marks and reports; an error keeps the mark and sets its message |
| TaskerTaskDetail.Page.RemoveFromFavorites | src/pages/tasker/TaskerTaskDetail.jsx:83-100 | any 2xx unmarks, reports and closes the dialog; an error keeps the mark and the dialog |
| TaskerTaskDetail.Page.FavoriteToggle | src/pages/tasker/TaskerTaskDetail.jsx:55-63 | a marked task only opens the confirmation; an unmarked one is added at once, and a failed add leaves it unmarked with the error set and no success message |
| TaskerTaskDetail.Page.CancelRemove | src/pages/tasker/TaskerTaskDetail.jsx:290 | only the dialog closes |
| TaskerTaskDetail.Page.ToggleContactInfo | src/pages/tasker/TaskerTaskDetail.jsx:120-122 | flips whether contact details show |
| Navbar.NavRoutes | src/components/Navbar.jsx:38-78 | each role's links lead to pages of its own area; no links for any other role |
| Navbar.NavLinksArePaths | src/components/Navbar.jsx:38-78 | each link string is the path of its page |
| Navbar.NavLinksRender | src/components/Navbar.jsx:38-78 | every link shown renders for the user who sees it, and the first is the role's home |
| Navbar.SwitchRoleLands | src/components/Navbar.jsx:87 | the role chooser renders for everyone offered the switch |
| Navbar.LogoutLands | src/components/Navbar.jsx:18-21 | after logout the root shows the sign-in page |
| Navbar.Bar.HandleLogout | src/components/Navbar.jsx:14-16 | only opens the dialog |
| Navbar.Bar.Cancel | src/components/Navbar.jsx:111 | closes the dialog |
| Navbar.Bar.ConfirmLogout | src/components/Navbar.jsx:18-21 | signs out (no user, empty storage) and navigates to `/`; the dialog flag is not reset; the browser location and the store's loading flag are kept |
| Navbar.Bar.ChangeRole | src/components/Navbar.jsx:23-25 | navigates to `/choose-role` |

## Left out

- HTTP transport is not modelled: no axios, no server rules. Each call is a given reply, and a page's follow-up request (the reload after completing a task, say) is a second given reply.
- JSON is not modelled: `JSON.stringify`/`JSON.parse` and the user item's serialisation are left out, so the user item holds the object itself.
- `CreateTask.LocationJson` writes the values raw, while `JSON.stringify` escapes quotes, backslashes and control characters. The text therefore equals the real one only for values without any of these, and its round trip is stated only for values without quotes.
- `Session.LoginResult`, `Session.RegisterResult`: a 2xx reply with `success: true` but no `data` cannot be expressed, because every `Web.Reply` success carries data. In the source, destructuring the missing data throws and the catch turns it into a message.
- Form and file plumbing is left out: FormData internals, file objects, `document.querySelector` and resetting file inputs.
- User fields are strings, and a missing field is `""`. A numeric price of 0 is therefore not modelled: JavaScript treats it as falsy, which would make the edit page refuse it as empty.
- The chat polling loop is left out. It is timing, not a decision.
- The `setTimeout` delays are left out: the edit redirect, the favourite message clearing and the focus after a failed login. So is scrolling. `EditTask.Page.Submit` returns the navigation it will perform.
- Locale formatting is left out (`toLocaleDateString`, `toLocaleString`, Chat's own `formatTime`). `MessageHistory.FormatTime` takes the elapsed milliseconds as an integer and keeps the date string abstract. An unparsable date (NaN) is not modelled.
- Between an expired session and the reload, the store keeps its user in memory while storage is empty. The reload itself (`window.location.href = '/'`) is stated as the state it leads to (`Session.ExpiryThenReload`), not as a remount of the store.
- `Session.SessionStore.UpdateUser` writes a user item without a token when nobody is signed in. The pages that call it are protected, so it is stated only for a signed-in user.
- `Routes.Match` does not model router case-insensitivity, trailing slashes or URL decoding. It matches the exact segments of the route table.
- `LoginPage.Page.Submit` omits the outer `catch` of `handleSubmit`: `login` never throws, so that branch is unreachable.
- The inline dialog openers (`setShowDeleteConfirm(true)` and the like) and the input `handleChange` handlers are plain field assignments and are not separate members.
- `Chat.Page.FetchConversation` records only whether a task came back, not the task.
- The hard-coded `http://localhost:5000` avatar origin in two pages is presentation only.
- The intermediate `removingId` of `Favorites.Page.ConfirmRemove` is set while the delete is in flight; the model has no interleaving, so only its final cleared value is stated.
- The admin dashboard, the pure rendering components and the JSX markup are not modelled.
- Display-only conditions are not modelled: the unread badge of a conversation, the busy state of the favourites dialog, the enabled state of the proof-upload button and which side a chat bubble is drawn on. They decide markup, not state.

## Findings

| source | as written | input that shows it | evidently intended | confidence | as-written member | corrected member |
|---|---|---|---|---|---|---|
| src/context/AuthContext.jsx:123-128 with src/pages/auth/ChooseRole.jsx:29-31 | `switchRole` has no `else` after `if (response.data.success)`, so a 2xx reply with `success: false` resolves to `undefined`; `ChooseRole` then reads `result.success`, throws, and never resets `loading` or shows an error | a 2xx reply `{success: false, message: "m"}` to `PUT /auth/role` | resolve to `{success: false, message}` as `login` does, so the page shows the message and stops loading | not executed | ChooseRolePage.StuckAfterRefusedSwitch | ChooseRolePage.SubmitAlwaysSettles |

The store and the page follow the code as written: `Session.SessionStore.SwitchRole` resolves to `Session.SwitchOutcomeAsWritten`, and `ChooseRolePage.Page.Submit` stays loading on the undefined outcome. The intended outcome is `Session.SwitchOutcomeOf`, and `ChooseRolePage.SubmitAlwaysSettles` proves that with it every reply ends the loading phase.

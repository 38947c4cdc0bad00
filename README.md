# Admin console for a social platform: a Dafny model

The repository is a React admin console. Operators use it to watch and
moderate a social platform's users, posts, communities, events,
locations, reports, verification requests, businesses and advertisements.
Most of its code is markup. This project models the logic under that
markup:

- **The two HTTP transports.**
  - The `fetch`-based `ApiService`: the envelope every call resolves to, its headers, the session it ends on a 401, and the query strings of its listing endpoints.
  - The axios instance: its request and response interceptors, and its table of admin endpoints.
- **The socket module.** The one module-level socket that connect and disconnect replace, and the fixed routing from a page's callbacks object to socket.io event names. The listener registry is a multiset of (event, callback) entries.
- **The record lists of the pages.**
  - Fetch normalisation (an array, or an array under the entity's plural name).
  - The `onNew`, `onUpdated` and `onDeleted` push handlers.
  - The local actions that change a list once their API call succeeds.
  - The case-insensitive search filters.
  - The reports page's split of reports into three lists by `type`.
- **The pages whose state is local.**
  - Verification: approve and reject.
  - Business: assign, confirm, cancel and unassign.
  - Advertising: delete, sums and active count.
  - Settings: the defaults and `handleChange`.
- **The dashboards.**
  - Dashboard: stats defaulting and the push merge.
  - Analytics: four stat cards, the list normalisation and the push merge.
- **The session.**
  - The `admin_token` and `admin_authenticated` keys of `localStorage`, as a `map<string, string>` field of a class.
  - Login, with its API path, its demo fallback and its refusal.
  - Logout, the protected route's session predicate, its connect-if-needed effect, the unmount disconnect and the route table.

JavaScript values are the `Json.Json` datatype. Its operations follow
JavaScript's own rules for truthiness, `||`, `?.`, object spread,
`String(v)`, `toLowerCase` and `includes`. Each page is a class whose
fields are the page's `useState` slots, and each handler is a method
that runs as one atomic step. Outside inputs are method parameters:

- the outcome of an HTTP call;
- the body of a push event;
- the clock reading of the demo token.

Pure list transforms are functions with lemmas beside them.

Modules and files:

| file | module | models |
|---|---|---|
| option.dfy | Optional | `Option` |
| json.dfy | Json | JavaScript values and operators |
| seqs.dfy | Seqs | `filter`, `map`, `find` |
| storage.dfy | Storage | `localStorage` and the two session keys |
| api.dfy | Api | src/services/api.js |
| query.dfy | Query | `URLSearchParams` as the listing builders use it |
| api_service.dfy | ApiService | src/services/apiService.ts |
| websocket.dfy | WebSocket | src/services/websocket.js |
| reconcile.dfy | Reconcile | list transforms shared by the entity pages |
| entity_store.dfy | EntityStore | Posts, Users, Communities, Events, Locations pages |
| reports.dfy | Reports | src/pages/Reports.jsx |
| verification.dfy | Verification | src/pages/Verification.jsx |
| business.dfy | Business | src/pages/Business.jsx |
| advertising.dfy | Advertising | src/pages/Advertising.jsx |
| dashboard.dfy | Dashboard | src/pages/Dashboard.jsx |
| analytics.dfy | Analytics | src/pages/Analytics.jsx |
| settings.dfy | Settings | src/pages/Settings.jsx |
| login.dfy | Login | src/pages/Login.tsx |
| app.dfy | App | src/App.tsx |
| sidebar.dfy | Sidebar | src/components/Sidebar.jsx |

## Model

| member | source | states |
|---|---|---|
| Storage.LocalStorage.GetItem | src/services/apiService.ts:219-221 | `getItem` yields the stored string exactly when the key is present, `null` otherwise |
| Storage.LocalStorage.SetItem | src/services/apiService.ts:223-225 | `setItem` writes one key and keeps every other |
| Storage.LocalStorage.RemoveItem | src/services/apiService.ts:227-229 | `removeItem` drops one key; a missing key is not an error |
| Storage.ClearSession | src/services/api.js:33-34 | After a 401, neither session key is stored and every other key keeps its value |
| Api.BearerIffTokenStored | src/services/api.js:14-21 | The interceptor adds `Authorization` exactly when a non-empty token is stored, as `Bearer <token>`; `Content-Type` is always `application/json` |
| Api.RequestConfig.constructor | src/services/api.js:5-11 | A request starts with the instance's JSON content-type header |
| Api.AttachToken | src/services/api.js:14-21 | The request interceptor edits the config's headers in place, exactly as `WithBearer` on the stored token |
| Api.InterceptResponse | src/services/api.js:28-38 | Every outcome reaches the caller unchanged; a 401 removes both session keys; any other outcome leaves storage as it was |
| Api.DeleteIsDeleteOnItem | src/services/api.js:52-114 | Deleting a user, post, community, event, location, advertisement or report is `DELETE /admin/<entity>/<id>` with no body |
| Api.BanUnbanArePatches | src/services/api.js:57-58 | Ban and unban are `PATCH` on `/admin/users/<id>/ban` and `/unban` |
| Api.SegmentRoundTrip | src/services/api.js:52-127 | Every entity's path segment reads back as that entity and holds no slash |
| Api.ItemPathIdentifiesTarget | src/services/api.js:52-127 | Two equal item paths name the same entity type and ids that read the same |
| ApiService.Caught | src/services/apiService.ts:290-297 | A thrown value gives `data: null`, `success: false`, and the error's message or `Network error` |
| ApiService.Envelope | src/services/apiService.ts:255-297 | A 401 gives exactly `{data: null, success: false, error: 'Unauthorized'}`; a network failure gives the `catch` envelope |
| ApiService.EnvelopeShape | src/services/apiService.ts:273-297 | An envelope carries data and no error exactly for a delivered 2xx body. Otherwise it has `data: null` and `success: false`. `success` holds exactly when a delivered body's `success` is not `false` |
| ApiService.ServerErrorMessage | src/services/apiService.ts:275-282 | A non-2xx, non-401 body yields `data: null`, `success: false`, and error `body.error`, else `body.message`, else `Request failed` |
| ApiService.DeliveredData | src/services/apiService.ts:284-289 | A 2xx body yields `body.data` when truthy, else the whole body; a bare array is passed on with `success: true` |
| ApiService.HeadersBearerIffToken | src/services/apiService.ts:247-253 | The bearer header is present exactly when a non-empty token is stored; `Content-Type` is JSON; caller headers override both |
| ApiService.Client.constructor | src/services/apiService.ts:236-238 | The base URL is the configured one when non-empty, else `/api` |
| ApiService.Client.Fetch | src/services/apiService.ts:243-298 | Sends to base URL plus endpoint with the computed headers and returns `Envelope(outcome)`. Clears both session keys on a 401 and changes storage in no other case |
| ApiService.ListingQuery | src/services/apiService.ts:305-314 | For every listing builder: a GET whose path has a `?` exactly when some filter is truthy. The parameter names are the truthy filter keys in the builder's fixed order |
| ApiService.ZeroPageParams | src/services/apiService.ts:305-313 | `{page: 0, limit: 20}` appends only `limit=20`: a zero page is dropped |
| ApiService.ZeroPageOmitted | src/services/apiService.ts:305-314 | `{page: 0, limit: 20}` requests exactly `/admin/users?limit=20` |
| ApiService.BanUserRequest | src/services/apiService.ts:327-336 | Ban is a POST to `/admin/users/<id>/ban` carrying the reason, and the duration exactly when one is given |
| Query.Params | src/services/apiService.ts:306-311 | Each appended pair is a truthy filter key with `String` of its value, never more pairs than keys |
| Query.ParamNamesAreTruthyKeys | src/services/apiService.ts:306-311 | The appended names are exactly the truthy filter keys, in the builder's order |
| Query.ParamsEmptyIff | src/services/apiService.ts:306-313 | Nothing is appended exactly when every filter key is falsy |
| Query.ParamsSingle | src/services/apiService.ts:306-311 | With one truthy key, that key is the only parameter |
| Query.NoFiltersNoParams | src/services/apiService.ts:305-311 | A call without a filters object appends nothing |
| Query.Build | src/services/apiService.ts:306-311 | The step-by-step appends produce `Params(filters, keys)` |
| Query.QuestionMarkIffParams | src/services/apiService.ts:313-314 | The path gains `?` plus the serialised pairs exactly when some pair was appended |
| Query.Encode | src/services/apiService.ts:313 | An encoded component consists only of unreserved characters, `+` and `%`, and is never shorter than its input |
| Query.EncodeUnreserved | src/services/apiService.ts:313 | Text of unreserved characters is serialised unchanged |
| Query.PairShape | src/services/apiService.ts:313 | A serialised pair is `name=value` with one `=` and no `&` |
| Query.SerializeEmptyIff | src/services/apiService.ts:313 | The query text is empty exactly when there are no pairs |
| Query.ParseSerialize | src/services/apiService.ts:313 | Splitting the query text at `&` and then `=` gives back every encoded name and value in order |
| WebSocket.RegistrationsArePresentCallbacks | src/services/websocket.js:47-61 | A subscribe registers exactly the callbacks present in the slots its topic reads, each on its own event |
| WebSocket.RegisteredEvents | src/services/websocket.js:112-127 | Every listener a topic registers is on that topic's event for the slot holding its callback |
| WebSocket.ReportRouting | src/services/websocket.js:205-219 | Reports route `onResolved` to `report:resolved` and have no `updated` event; other topics have no `resolved` event |
| WebSocket.NoCallbacksNoListeners | src/services/websocket.js:172-186 | An empty callbacks object registers nothing |
| WebSocket.UnregisterUndoesRegister | src/services/websocket.js:80-110 | Unsubscribing the callbacks just subscribed restores the listener multiset, whatever else was registered |
| WebSocket.Socket.constructor | src/services/websocket.js:12-18 | A new socket carries its `auth.token`, is not yet connected, and has no listeners |
| WebSocket.Socket.On | src/services/websocket.js:53 | `on` adds one listener entry |
| WebSocket.Socket.Off | src/services/websocket.js:69 | `off` removes one matching entry, if any |
| WebSocket.Socket.Handshake | src/services/websocket.js:8 | The library's handshake sets `connected` and keeps the listeners |
| WebSocket.Socket.Disconnect | src/services/websocket.js:37 | `disconnect()` clears `connected` and keeps the listeners |
| WebSocket.SocketModule.constructor | src/services/websocket.js:5 | The module starts without a socket |
| WebSocket.SocketModule.IsConnected | src/services/websocket.js:44 | `isConnected` is false whenever there is no socket |
| WebSocket.SocketModule.GetSocket | src/services/websocket.js:42 | `getSocket` yields the module's socket |
| WebSocket.SocketModule.Connect | src/services/websocket.js:7-33 | A connected socket is returned as it is. Otherwise a fresh, unconnected socket with the given token and the three logging listeners replaces it |
| WebSocket.SocketModule.Disconnect | src/services/websocket.js:35-40 | The socket is closed and forgotten; without a socket nothing happens |
| WebSocket.SocketModule.Subscribe | src/services/websocket.js:47-61 | Without a socket nothing happens; with one, its listeners gain exactly the topic's registrations |
| WebSocket.SocketModule.Unsubscribe | src/services/websocket.js:63-77 | Without a socket nothing happens; with one, each routed callback loses one matching entry |
| WebSocket.SocketModule.SubscribeOne | src/services/websocket.js:145-163 | The stats and analytics subscribes add one listener, or nothing without a socket |
| WebSocket.SocketModule.UnsubscribeOne | src/services/websocket.js:152-169 | The stats and analytics unsubscribes remove one listener, or nothing without a socket |
| WebSocket.SocketModule.MountUnmount | src/services/websocket.js:80-110 | A page's subscribe followed by its unsubscribe leaves the socket's listeners and state as they were |
| WebSocket.ConnectTwiceBeforeHandshake | src/services/websocket.js:8-18 | Two connects before the handshake open two distinct sockets; the first is left unconnected and unreferenced |
| Json.With | src/pages/Settings.jsx:14 | Spread yields an object whose updated keys read the new values and every other key reads as before |
| Json.Lower | src/pages/Posts.jsx:68 | `toLowerCase` keeps the length and lower-cases exactly the ASCII capitals |
| Json.LowerIdempotent | src/pages/Posts.jsx:68 | Lower-casing twice is lower-casing once |
| Json.MentionsEmptyAndSelf | src/pages/Posts.jsx:66-72 | Every string mentions the empty term and itself, whatever its case |
| Json.EmptyTermMatchesStringFields | src/pages/Posts.jsx:66-72 | With an empty term, `field?.toLowerCase().includes('')` holds exactly for a string field |
| Json.NatToString | src/pages/Login.tsx:52 | `String(n)` of a natural number is a non-empty run of decimal digits |
| Json.TruthyStringNonEmpty | src/pages/Login.tsx:26-28 | A truthy value other than an array writes a non-empty string to storage |
| Json.EmptyArrayConvertsToEmpty | src/pages/Login.tsx:26-28 | An empty array is truthy yet converts to the empty string |
| Reconcile.Normalize | src/pages/Posts.jsx:23-27 | An array body is that list. Otherwise, when `data.<plural>` is an array, it is that list. With neither, there is no list (the page keeps what it had) |
| Reconcile.ListOrEmpty | src/pages/Reports.jsx:22 | An array body is that list; otherwise an array `data.<plural>` is that list, and a falsy one yields `[]`; there is no list exactly when `data.<plural>` is truthy but not an array |
| Reconcile.Prepend | src/pages/Posts.jsx:43 | `onNew` grows the list by one, with the record first and the old list after it |
| Reconcile.PrependDuplicates | src/pages/Posts.jsx:42-44 | `onNew` of a listed id leaves that id twice: unique ids are not preserved |
| Reconcile.ReplaceById | src/pages/Posts.jsx:46-49 | `onUpdated` keeps the length, puts the update at every position with its id, and keeps every other record |
| Reconcile.ReplaceUnknownIsNoOp | src/pages/Posts.jsx:46-49 | An update for an unlisted id changes nothing: no insertion |
| Reconcile.ReplaceKeepsIds | src/pages/Users.jsx:45-48 | A replacement keeps every position's id, so unique ids stay unique |
| Reconcile.UpdateInPlace | src/pages/Communities.jsx:39-43 | With records A, B, C listed, an update of B replaces it in place and keeps A and C |
| Reconcile.FirstWithId | src/pages/Users.jsx:85 | `find` yields a listed record with that id and no record before it has that id; nothing exactly when none has it |
| Reconcile.FirstWithIdIsFirstKept | src/pages/Users.jsx:85 | `find` with the id test is the generic `Seqs.Find`, and yields the first record the filter `x.id === id` keeps |
| Reconcile.RemoveById | src/pages/Posts.jsx:51-53 | The removal's records are listed ones with another id, and never more of them |
| Reconcile.RemoveSpec | src/pages/Users.jsx:50-53 | Removal keeps exactly the records with another id, in order, and repeating it changes nothing |
| Reconcile.RemoveUnknownIsNoOp | src/pages/Events.jsx:44-47 | Removing an unlisted id changes nothing |
| Reconcile.PatchById | src/pages/Posts.jsx:88-90 | A patch keeps the list's length |
| Reconcile.PatchSpec | src/pages/Posts.jsx:85-90 | A patch changes only the records with that id, and on them only the patched fields; ids stay as they were |
| Reconcile.WithIdempotent | src/pages/Posts.jsx:89 | Spreading the same updates twice is spreading them once |
| Reconcile.PatchIdempotent | src/pages/Users.jsx:94-100 | Applying the same patch twice is applying it once |
| Reconcile.SearchSpec | src/pages/Posts.jsx:66-72 | The search keeps exactly the truthy records with a searched field containing the term, ignoring case, in their order |
| Reconcile.EmptySearchKeepsStringRecords | src/pages/Users.jsx:65-70 | An empty term keeps exactly the records having some searched field as a string |
| EntityStore.Fetched | src/pages/Locations.jsx:16-28 | A failed fetch keeps the list; an array body becomes the list; otherwise an array `data.<plural>` becomes the list; a resolved body with neither keeps the list |
| EntityStore.ToggledStatus | src/pages/Users.jsx:85-97 | The ban button writes `active` exactly when the first user with that id is `banned` |
| EntityStore.FindPatched | src/pages/Users.jsx:85-100 | `find` on a patched list finds the patched first match |
| EntityStore.ToggleFlips | src/pages/Users.jsx:83-101 | A successful toggle flips the listed user's banned state |
| EntityStore.Store.constructor | src/pages/Posts.jsx:13-14 | A page starts with an empty list and `loading` set |
| EntityStore.Store.Fetch | src/pages/Posts.jsx:19-36 | Issues `GET /admin/<entity>` and leaves the list `Fetched` yields. Clears `loading` in every outcome. Toasts exactly for a rejection with a response |
| EntityStore.Store.OnNew | src/pages/Users.jsx:41-44 | `onNew` prepends the record |
| EntityStore.Store.OnUpdated | src/pages/Communities.jsx:39-43 | `onUpdated` replaces by id |
| EntityStore.Store.OnDeleted | src/pages/Events.jsx:44-47 | `onDeleted` removes the id `data.<entity>Id \|\| data.id` |
| EntityStore.Store.Delete | src/pages/Posts.jsx:74-83 | Issues `DELETE /admin/<entity>/<id>`; the record leaves the list only when the call resolves |
| EntityStore.Store.Approve | src/pages/Posts.jsx:85-96 | Issues the approve PATCH; `status: 'published'` is written on that id only when the call resolves |
| EntityStore.Store.ToggleBan | src/pages/Users.jsx:83-106 | Calls unban for a banned user and ban otherwise; the toggled status is written only when the call resolves |
| EntityStore.Store.Filtered | src/pages/Locations.jsx:34-40 | The shown rows are the page's matching records, in their order |
| Reports.PartitionSpec | src/pages/Reports.jsx:24-26 | Each list holds exactly the reports whose singular or plural `type` names it, in the fetched order |
| Reports.PartitionDisjoint | src/pages/Reports.jsx:24-26 | The three lists are disjoint, and a report of another type is in none |
| Reports.PartitionSizes | src/pages/Reports.jsx:22-26 | The three list lengths plus the unfiled reports add up to the fetched count |
| Reports.Pending | src/pages/Reports.jsx:170-172 | A tab's pending count never exceeds its list length |
| Reports.FetchedReports | src/pages/Reports.jsx:20-22 | An array body (an empty one included) is the reports; otherwise an array `data.reports` is the reports; a truthy non-array body without a truthy `reports` yields `[]`. There are no reports (the lists are kept) exactly for a rejection, a falsy body, or a truthy `data.reports` that is not an array |
| Reports.ReportsPage.constructor | src/pages/Reports.jsx:10-14 | Three empty lists and `loading` set |
| Reports.ReportsPage.PendingTotal | src/pages/Reports.jsx:195-209 | The pending card never exceeds the total card, the sum of the three lengths |
| Reports.ReportsPage.SetAll | src/pages/Reports.jsx:24-26 | Each list becomes its partition of the fetched reports |
| Reports.ReportsPage.Fetch | src/pages/Reports.jsx:17-36 | Issues `GET /admin/reports`; lists are replaced by the partition only when reports are fetched; `loading` is cleared; toasts exactly for a rejection with a response |
| Reports.ReportsPage.OnNew | src/pages/Reports.jsx:41-50 | Prepends to the list for the report's type only; an unknown type changes no list |
| Reports.ReportsPage.OnResolved | src/pages/Reports.jsx:51-61 | Marks that id `reviewed` in its type's list only |
| Reports.ReportsPage.OnDeleted | src/pages/Reports.jsx:62-73 | Removes `data.reportId \|\| data.id` from the list for `data.type` only |
| Reports.ReportsPage.Approve | src/pages/Reports.jsx:116-137 | Issues the resolve PATCH and, only when it resolves, patches the tab's list with the approval fields |
| Reports.ReportsPage.Dismiss | src/pages/Reports.jsx:139-154 | Issues `DELETE /admin/reports/<id>` and, only when it resolves, removes the id from the tab's list |
| Reports.ApprovalPatch | src/pages/Reports.jsx:119-130 | Approval writes `status: 'reviewed'` and action `suspended` for users, `removed` otherwise, never the id |
| Verification.Stamp | src/pages/Verification.jsx:27-32 | A stamp keeps the number of requests |
| Verification.StampSpec | src/pages/Verification.jsx:27-41 | Only requests with that id change, and on them only the status |
| Verification.StampLastWins | src/pages/Verification.jsx:28-40 | The second stamp on an id overrides the first; repeating a stamp changes nothing |
| Verification.VisibleSpec | src/pages/Verification.jsx:16-25 | The shown requests are exactly those matching the search on name, email or applicant and the status filter, in order |
| Verification.InitialViewShowsAll | src/pages/Verification.jsx:13-25 | With the initial empty term and `all` filter every request is shown |
| Verification.CountersBounded | src/pages/Verification.jsx:45-47 | Pending, approved and rejected counts add up to at most the number of requests |
| Verification.VerificationPage.constructor | src/pages/Verification.jsx:11-14 | No requests, empty term, filter `all` |
| Verification.VerificationPage.Approve | src/pages/Verification.jsx:27-34 | Stamps the id `approved` and keeps the search and filter |
| Verification.VerificationPage.Reject | src/pages/Verification.jsx:36-43 | Stamps the id `rejected` and keeps the search and filter |
| Verification.VerificationPage.Shown | src/pages/Verification.jsx:16-25 | Shown requests are an ordered subsequence, and a request is shown exactly when it is listed and passes both the search and the filter |
| Business.Search | src/pages/Business.jsx:11-15 | The filter never grows the list |
| Business.SearchSpec | src/pages/Business.jsx:11-15 | Keeps exactly the businesses whose name, email or category contains the term, in order; an empty term keeps all |
| Business.SetOwner | src/pages/Business.jsx:30-34 | Setting an owner keeps the length |
| Business.SetOwnerSpec | src/pages/Business.jsx:22-34 | Only the matching id gets the owner, nothing else changes, and repeating is a no-op |
| Business.UnassignUndoesAssign | src/pages/Business.jsx:22-34 | Unassigning after assigning an unowned business restores the list |
| Business.BusinessPage.constructor | src/pages/Business.jsx:5-9 | No businesses, empty term, modal closed, nothing selected |
| Business.BusinessPage.Assign | src/pages/Business.jsx:17-20 | Records the selection and opens the modal |
| Business.BusinessPage.Confirm | src/pages/Business.jsx:22-28 | Sets owner `admin` on the selected id only, then closes the modal and clears the selection |
| Business.BusinessPage.Cancel | src/pages/Business.jsx:179-182 | Closes the modal and clears the selection without touching businesses |
| Business.BusinessPage.Unassign | src/pages/Business.jsx:30-34 | Sets owner `null` on that id only and leaves the modal state alone |
| Business.BusinessPage.Shown | src/pages/Business.jsx:11-15 | Shown businesses are the matching ones, in order |
| Advertising.Search | src/pages/Advertising.jsx:9-12 | The filter never grows the list |
| Advertising.SearchSpec | src/pages/Advertising.jsx:9-12 | Keeps exactly the ads whose title or advertiser contains the term, in order |
| Advertising.Remove | src/pages/Advertising.jsx:14-16 | Deletion keeps only listed ads with another id |
| Advertising.RemoveSpec | src/pages/Advertising.jsx:14-16 | Deletion keeps exactly the ads with another id, in order |
| Advertising.Total | src/pages/Advertising.jsx:46-49 | An empty list gives all-zero totals |
| Advertising.RemoveSum | src/pages/Advertising.jsx:46-49 | A sum over the kept ads plus the sum over the deleted ones is the sum over the list |
| Advertising.RemoveTotals | src/pages/Advertising.jsx:14-49 | After a delete each of the four totals drops by exactly the deleted ads' amounts |
| Advertising.RemoveUnknownKeepsTotals | src/pages/Advertising.jsx:14-49 | Deleting an unlisted id keeps the totals |
| Advertising.ActiveCount | src/pages/Advertising.jsx:50 | The active count is at most the list length, 0 for no ads |
| Advertising.AdvertisingPage.constructor | src/pages/Advertising.jsx:5-7 | No ads, so zero totals and no active ads |
| Advertising.AdvertisingPage.Delete | src/pages/Advertising.jsx:14-16 | `handleDelete` removes that id and keeps the search term |
| Advertising.AdvertisingPage.Active | src/pages/Advertising.jsx:50 | The active card never exceeds the number of ads |
| Advertising.AdvertisingPage.Shown | src/pages/Advertising.jsx:9-12 | Shown ads are the matching ones, in order, while totals use the whole list |
| Dashboard.Merge | src/pages/Dashboard.jsx:73-83 | Each of the eight stats is the incoming value when truthy, else the fallback's |
| Dashboard.Zeroes | src/pages/Dashboard.jsx:8-17 | The initial record holds the eight stats, all 0 |
| Dashboard.Defaulted | src/pages/Dashboard.jsx:28-38 | A fetched record takes each value when truthy, else 0 |
| Dashboard.MergeStats | src/pages/Dashboard.jsx:73-83 | The corrected merge always yields a full stats record |
| Dashboard.MergeStatsKeepsUnsent | src/pages/Dashboard.jsx:73-83 | The corrected merge keeps every stat the push leaves out, takes every one it sends, and an empty push changes nothing |
| Dashboard.DashboardPage.constructor | src/pages/Dashboard.jsx:8-20 | Zero stats, no activity, both loading flags set |
| Dashboard.DashboardPage.FetchStats | src/pages/Dashboard.jsx:24-49 | Issues the stats GET. A truthy body sets the defaulted record; otherwise the stats are kept. `loading` is cleared; toasts exactly for a rejection with a response |
| Dashboard.DashboardPage.FetchActivity | src/pages/Dashboard.jsx:52-67 | Issues the activity GET; only an array body replaces the activity; `activityLoading` is cleared |
| Dashboard.DashboardPage.OnStatsPush | src/pages/Dashboard.jsx:73-92 | As written: each stat is the push value when truthy, else the value captured when the effect ran; a `null` or `undefined` push throws before `setStats` and leaves the stats as they were |
| Dashboard.StalePushResetsCounters | src/pages/Dashboard.jsx:73-92 | A push of `totalPosts` alone resets a counted `totalUsers` to 0 as written, and keeps it under the corrected merge |
| Analytics.InitialCards | src/pages/Analytics.jsx:14-19 | Four cards in the fixed order, all values and changes 0 |
| Analytics.Cards | src/pages/Analytics.jsx:96-129 | Four cards in the fixed order, each figure from the data when truthy, else from the fallback card |
| Analytics.FetchedCards | src/pages/Analytics.jsx:35-66 | Fetched cards are four in the fixed order; each value and each change is the body's figure when truthy, else 0 |
| Analytics.ListOrFallback | src/pages/Analytics.jsx:69-83 | The stored value is always truthy: the body when it is an array, else `data.<key>` when truthy, else `[]` |
| Analytics.ListOrFallbackAgrees | src/pages/Analytics.jsx:69-83 | It is an array exactly when the reports-style normalisation yields a list, and then the same list |
| Analytics.AnalyticsPage.constructor | src/pages/Analytics.jsx:12-21 | Range `7d`, loading, zero cards and empty lists |
| Analytics.AnalyticsPage.Requests | src/pages/Analytics.jsx:29-33 | Three GET requests, each carrying the selected range |
| Analytics.AnalyticsPage.Fetch | src/pages/Analytics.jsx:26-92 | Each truthy body sets its part; a rejection sets nothing; `loading` is cleared; toasts exactly for a rejection with a response |
| Analytics.AnalyticsPage.SelectRange | src/pages/Analytics.jsx:132-151 | A new range sets `loading` and re-registers the push handler with the current cards; choosing the selected range again changes nothing |
| Analytics.AnalyticsPage.OnAnalyticsPush | src/pages/Analytics.jsx:96-129 | A push without truthy `stats` changes nothing; otherwise figures fall back to the captured cards |
| Analytics.FullPushIgnoresCapture | src/pages/Analytics.jsx:96-129 | A push carrying every figure yields the same cards whatever was captured |
| Settings.Defaults | src/pages/Settings.jsx:5-11 | Notifications, email notifications and moderation on, public profile off, theme `light` |
| Settings.ChangeSpec | src/pages/Settings.jsx:13-15 | The change sets its key, keeps every other key, and repeating it changes nothing |
| Settings.ChangeToSameIsNoOp | src/pages/Settings.jsx:14 | Setting a key to its current value changes nothing |
| Settings.SettingsPage.constructor | src/pages/Settings.jsx:5-11 | The page starts with the defaults |
| Settings.SettingsPage.HandleChange | src/pages/Settings.jsx:13-15 | `handleChange` stores the changed record |
| Login.DemoToken | src/pages/Login.tsx:52 | The demo token starts with `demo_token_` and has a suffix |
| Login.Decide | src/pages/Login.tsx:18-70 | The API path is taken exactly for a truthy token, and carries the server's `data.token`. The demo path is taken exactly without a token, with no server answer, and with `admin`/`admin123`, and carries `demo_token_` plus the clock reading. Everything else is refused |
| Login.Stored | src/pages/Login.tsx:26-65 | A refusal stores nothing. A login adds both keys: the token is `String` of the server's token or the demo token, and the flag is `true`. Other keys are kept |
| Login.LoginOutcomes | src/pages/Login.tsx:22-69 | Login never removes a key. A demo login, or an API token that is not an array, leaves an authenticated session. An empty-array token does not |
| Login.ServerErrorRefusesDemo | src/pages/Login.tsx:47-65 | A server answer with a non-zero status never lets the demo credentials in |
| Login.LoginForm.constructor | src/pages/Login.tsx:15 | The form starts not loading |
| Login.LoginForm.Submit | src/pages/Login.tsx:18-70 | Acts as `Decide`, writes `Stored`, and ends not loading. A socket is connected only on the API path: a fresh one with the token when none is connected, else the connected one is kept |
| App.BothKeysNeeded | src/App.tsx:24-26 | Neither key alone, a cleared session or an empty token authenticates |
| App.ProtectedRoute.constructor | src/App.tsx:24-26 | The initial state is the session predicate over storage |
| App.ProtectedRoute.Mount | src/App.tsx:28-39 | Re-reads the session. Opens a socket with the stored token exactly when authenticated and not connected; otherwise keeps the socket |
| App.ProtectedRoute.OnLogin | src/App.tsx:42 | The login callback marks the route authenticated |
| App.ProtectedRoute.Render | src/App.tsx:41-45 | The children are shown exactly when authenticated; the login form otherwise |
| App.Authenticated | src/App.tsx:25 | Reading both keys equals the session predicate |
| App.Unmount | src/App.tsx:49-54 | Unmount leaves no socket and nothing connected |
| App.Resolve | src/App.tsx:56-83 | Paths are compared without regard to letter case or trailing slashes. A page is shown only when authenticated and declared; `/` redirects; without a session every path shows the login form; the empty layout exactly for an undeclared path |
| App.ResolveCanonical | src/App.tsx:56-83 | A path leads where its canonical form leads |
| App.CanonicalIdempotent | src/App.tsx:56-83 | Canonicalising a path twice is canonicalising it once |
| App.PagesResolve | src/App.tsx:64-77 | Signed in, each declared page path shows that page |
| App.RootRedirectsToDashboard | src/App.tsx:65-66 | `/` redirects to `/dashboard`, which is a page, and `/Users/` shows the users page |
| Sidebar.NavTable | src/components/Sidebar.jsx:31-44 | Twelve items, pairwise distinct paths, each a declared route |
| Sidebar.Logout | src/components/Sidebar.jsx:24-25 | Logout removes only the flag and leaves no session |
| Sidebar.LogoutKeepsToken | src/components/Sidebar.jsx:24-25 | After logout the token is still stored, yet the session predicate is false |

## Left out

- Rendering, styling, icons, pagination widgets, colour lookups, `Header.jsx`, `Layout.jsx` and `main.tsx` are not modelled. They hold no state the logic reads.
- Toasts and `console` output are not modelled, except whether a fetch shows an error toast. They are side channels only.
- Transport is not modelled: axios, `fetch`, `response.json()`, the 10 second timeout, the base URLs and `window.location` redirects and reloads. Each call's outcome is an input datatype, and navigation is not modelled.
- socket.io connection, reconnection and event delivery are not modelled. Only the module's socket variable, the `connected` flag and the listener registry are.
- Races between handlers are not modelled, nor handlers that use a list read before an `await` (`Posts.jsx:77`, `Users.jsx:94`, `Reports.jsx:120`). Every handler is one atomic step, so a push that lands during an `await` is not represented.
- Floating point and locale formatting are not modelled: the CTR, `growthRate.toFixed` and `toLocaleString`. Numbers are integers.
- `Date.now()` in the demo token is a parameter.
- `Reports.jsx` `filterItems` (156-168) is not modelled. It only selects rows to render, and it throws on a missing field.
- Query.Encode: lower-casing and percent-encoding cover the code points of a Dafny `char`. Surrogate pairs are not combined. Injectivity of the encoding is not proved.
- Json.Lower: case folding covers ASCII letters only.
- Verification, Business and Advertising records are typed records, because those pages read their fields without `?.`. A `null` record or a non-string searched field, on which the source throws, is not represented.
- The records of the Posts, Users, Communities, Events, Locations and Reports pages are JavaScript values, but the model does not represent where those pages throw. `post.id`, `u.id` and `r.type` are read with a plain `.`, so a `null` or `undefined` record throws. `field?.toLowerCase()` throws on a number, boolean or object field. The model reads such an id or type as `undefined` and such a field as no match, where the source abandons the handler (for a fetch, keeping the old lists without a toast).
- Json.With: only an object's own properties are spread. Spreading a non-empty string or an array, which JavaScript turns into index keys, is not modelled.
- App.Resolve: only ASCII letters are case-folded, and leading or repeated inner slashes are compared as written.
- Analytics.AnalyticsPage.Fetch: `Promise.all` is modelled as either three bodies or the first rejection. Which call rejected first is not recorded.
- Analytics.AnalyticsPage.SelectRange: the re-run of the effect also fetches. The model keeps that fetch as a separate `Fetch` call.
- Login.LoginForm.Submit: the response interceptor's 401 effect is `Api.InterceptResponse`, applied before the outcome reaches the form. The `onLogin` callback and `navigate` are not modelled.
- Query.Build: each builder's guarded `append` statements are one loop over that builder's key list; the builders differ only in that list.
- Object identity is not modelled: ids compare as values, and JavaScript's `===` on two object ids compares references.

## Findings

| source | as written | input that shows it | evidently intended | confidence | as-written member | corrected member |
|---|---|---|---|---|---|---|
| src/pages/Dashboard.jsx:73-92 | The stats push handler is created by an effect that runs once, so its fallback for every absent stat is the all-zero record of the first render | After a fetch sets `totalUsers: 5`, a push `{totalPosts: 3}` sets `totalUsers` back to 0 | Absent stats keep their current value | not executed | Dashboard.DashboardPage.OnStatsPush, Dashboard.StalePushResetsCounters | Dashboard.MergeStats, Dashboard.MergeStatsKeepsUnsent |

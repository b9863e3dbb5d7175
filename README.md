# Project-management front end: a verified model of its session core and page logic

This project models, in Dafny, the logic of a React/TypeScript front end for a
project-management backend. It has two parts.

The **token-based session core**:

- **`localStorage`.** The token store has `accessToken` and `refreshToken`. Reading a missing *or empty* value gives nothing, so "token present" means present and non-empty.
- **The `api` client.** Its request interceptor attaches a bearer credential (section 2.1 of RFC 6750). Its response interceptor answers a 401 (section 15.5.2 of RFC 9110) with one token refresh and one resend.
- **`authService`.** Login, logout and `isAuthenticated` are store transitions; the other calls are logged requests.
- **`AuthProvider`.** Its state is `(user, loading)`, driven by bootstrap, login, logout and register.
- **The `ProtectedRoute` guard and the route table of `App`.**
- **The `WebSocketService` reconnect policy.** It makes at most five attempts in a row, resets the count on open, and does not reconnect after a normal closure (code 1000, section 7.4.1 of RFC 6455).

The **services and pages** built on it:

- **Query-string builders.** `getNotifications`, `getProjects` and `getTasks` append `URLSearchParams` pairs one by one. The serialisation is the `application/x-www-form-urlencoded` format of section 5.2 of the WHATWG URL Standard. It is proved to read back as the same pairs.
- **The other service endpoints**, with their paths and bodies.
- **The page components:**
  - notifications: tab filter, mark as read, time labels;
  - registration: validation order and payload;
  - file upload: size limit, form parts, state resets;
  - new project: payload normalisation;
  - profile: prefill, submit outcome, role labels;
  - comment thread: whitespace guard, reactions;
  - project list, the two team lists and the file list: search, colours, labels, preview address, delete confirmation.

## How the model is organised

There is one Dafny module per source file, plus six foundation modules.

| module | what it models |
|---|---|
| `Wrappers` | `Option` and `Result` |
| `Text` | JavaScript truthiness of strings, ASCII `toLowerCase`, `includes`, `replace` of the first match, `trim`, UTF-16 length |
| `Decimal` | `Number.prototype.toString` on integers and its inverse, for integers JavaScript holds exactly (magnitude below 2^53) |
| `FormUrlEncoded` | `URLSearchParams`: its `append`, its serialiser with UTF-8 and percent-encoding, and a parser |
| `Lists` | an order-preserving filter and the "array, else `results`, else `[]`" normalisation of list answers |
| `Storage` | the `localStorage` double |
| `Http` | the request log and the error-message fallback |

Code that changes state step by step is modelled as classes:

- the store, the request config and the `api` client;
- `AuthProvider` and `WebSocketService`;
- `URLSearchParams`;
- each page's component state.

Their methods carry `modifies` clauses and state the new value of every field and object they may modify. Value computations are functions, and lemmas state the properties that relate several of them.

Two things the code does are modelled as inputs and logs:

- **Inside `api` itself.** The server is a function from the exchange number and the request to an answer, and so is the refresh endpoint. `ApiClient.wire` logs every request sent and `refreshes` logs every refresh post. `RequestSpec` and `ResponseSpec` state the whole interceptor chain as a function. The methods are proved equal to it.
- **The session calls.** `authService`'s four network calls, and through them `AuthProvider`, the profile page's save and the registration page's submit, go through `ApiClient.Request`. Their contracts state the token store as the response interceptor leaves it (`Api.Exchange`), so a 401 answered by a refresh or a logout is part of what they promise.
- **The other services.** The page services' requests are appended to `Http.Backend.calls`. Their answers, as the client delivers them after its interceptors, are passed in as parameters (`Result<T, Failure>`).

A page's network call and its state update happen in one method, in source order.

The code does not resolve as written in one place. `src/services/contexts/AuthContext.tsx:3` imports `'../services/authService'`, which from that directory names `src/services/services/authService`, a file that does not exist. The model uses `src/services/authService.ts`, the service the import evidently means.

## Model

| member | source | states |
|---|---|---|
| Storage.Lookup | src/tests/setup.ts:19-21 | a key reads as present exactly when it is stored with a non-empty value, and then reads as that value |
| Storage.LookupAfterSet | src/tests/setup.ts:22-24 | after `setItem(k, v)`, `k` reads as `v` (absent when `v` is empty) and every other key reads as before |
| Storage.LookupAfterRemove | src/tests/setup.ts:25-27 | after `removeItem(k)`, `k` reads as absent and every other key as before |
| Storage.LocalStorage.constructor | src/tests/setup.ts:18 | the store starts empty |
| Storage.LocalStorage.GetItem | src/tests/setup.ts:19-21 | `getItem` is the lookup over the current items |
| Storage.LocalStorage.SetItem | src/tests/setup.ts:22-24 | the key is bound to the value, nothing else changes |
| Storage.LocalStorage.RemoveItem | src/tests/setup.ts:25-27 | the key is removed, nothing else changes |
| Storage.LocalStorage.Clear | src/tests/setup.ts:28-30 | the store becomes empty |
| Api.BearerCredential | src/services/api.ts:23 | the header value is `Bearer ` followed by exactly the token |
| Api.BearerCredentialInjective | src/services/api.ts:23 | two tokens with the same credential are equal |
| Api.Authorize | src/services/api.ts:18-26 | with a token, `Authorization` is set to its credential and the other headers are kept; without one, the headers are returned untouched |
| Api.RequestConfig.constructor | src/services/api.ts:42 | a fresh config carries its verb, URL, payload and headers, with `_retry` unset |
| Api.FirstRequestCredential | src/services/api.ts:18-26 | the first request sent carries the stored access token as bearer credential when there is one, and the caller's headers unchanged otherwise |
| Api.AtMostOneRefresh | src/services/api.ts:45-46 | any request causes at most one refresh (none if already marked) and is sent at most twice; it ends marked exactly when it was marked or its first answer was a 401 |
| Api.PassThrough | src/services/api.ts:35-80 | a success, a non-401 error, a failure with no response, and a 401 to a marked request all reach the caller unchanged, with no refresh and an untouched store |
| Api.RefreshFailureLogsOut | src/services/api.ts:67-76 | a 401 whose refresh fails removes both tokens, rejects with the refresh error rather than the 401, and does not resend |
| Api.StoreEffect | src/services/api.ts:55-76 | one exchange leaves the store untouched when no refresh is needed, stores the refreshed access token, or removes both tokens when the refresh fails; a refresh happens exactly when the first answer is a 401 |
| Api.RefreshSuccessResends | src/services/api.ts:55-65 | a 401 whose refresh succeeds stores the new access token, keeps the refresh token, resends once with the new credential, and returns the resent request's answer |
| Api.ApiClient.constructor | src/services/api.ts:9-14 | a client over a store starts with empty request and refresh logs |
| Api.ApiClient.InterceptRequest | src/services/api.ts:18-26 | the config's headers become `Authorize` of the old headers and the stored token; `_retry` is untouched |
| Api.ApiClient.Request | src/services/api.ts:18-82 | the answer, the new store, the requests sent, the refresh posts and the final config all equal `RequestSpec` of the old state |
| Api.ApiClient.InterceptResponse | src/services/api.ts:35-82 | the same for the response interceptor alone, against `ResponseSpec` |
| AuthService.CredentialsJson | src/services/authService.ts:36 | the login body holds exactly `email` and `password` |
| AuthService.AfterLogin | src/services/authService.ts:38-40 | both tokens are stored from the answer, and every other key is kept |
| AuthService.AfterLogout | src/services/authService.ts:45-48 | both token keys are removed, and every other key is kept |
| AuthService.IsAuthenticated | src/services/authService.ts:60-62 | true exactly when a non-empty access token is stored; the refresh token is not consulted |
| AuthService.LogoutIdempotent | src/services/authService.ts:45-48 | logging out twice equals logging out once, and leaves no token readable |
| AuthService.LoginAuthenticates | src/services/authService.ts:35-43 | after login the session is authenticated exactly when the returned access token is non-empty, and the refresh token reads as the returned one |
| AuthService.LogoutUndoesLogin | src/services/authService.ts:45-48 | logout after login leaves the store as logout alone would |
| AuthService.Register | src/services/authService.ts:30-33 | posts the user data unchanged to the register endpoint through the client; success exactly when the client delivers one, else its error; the store is as the client leaves it |
| AuthService.Login | src/services/authService.ts:35-43 | posts the credentials through the client and returns what it delivers; on success both received tokens are stored over the store the client left; on failure the store is as the client left it (refreshed or logged out on a 401) |
| AuthService.RejectedLoginStore | src/services/authService.ts:35-43 | a rejected login writes no key but the two tokens, and either keeps the refresh token or removes both tokens |
| AuthService.Logout | src/services/authService.ts:45-48 | the store becomes `AfterLogout` of the old store |
| AuthService.GetCurrentUser | src/services/authService.ts:50-53 | one GET of the profile endpoint through the client; returns what the client delivers, with the store as the client leaves it |
| AuthService.UpdateProfile | src/services/authService.ts:55-58 | one PATCH of the profile endpoint with the given data through the client; returns what the client delivers, with the store as the client leaves it |
| AuthContext.PhaseOf | src/services/contexts/AuthContext.tsx:22-23 | the session is bootstrapping exactly while loading, and signed in exactly when loaded with a user |
| AuthContext.AuthProvider.constructor | src/services/contexts/AuthContext.tsx:22-23 | starts over the given client with no user and `loading` true |
| AuthContext.AuthProvider.InitializeAuth | src/services/contexts/AuthContext.tsx:26-40 | loading ends false; without a token nothing else changes and no request is sent; with one the profile is fetched through the client; success sets the user and keeps the store the client left (a refreshed token included); failure keeps the user and logs out of the store the client left |
| AuthContext.AuthProvider.Login | src/services/contexts/AuthContext.tsx:45-49 | login then profile fetch, in that order, the fetch over the store the login left; a failed login stops there, keeps the user and leaves the store as the client left it; a failed fetch keeps the user and the store its exchange left; success sets the user; `loading` is never touched |
| AuthContext.AuthProvider.Logout | src/services/contexts/AuthContext.tsx:51-55 | clears both tokens and the user, with no network call and `loading` unchanged |
| AuthContext.AuthProvider.Register | src/services/contexts/AuthContext.tsx:57-59 | forwards to the register call only; user and loading unchanged, the store as the client leaves it |
| App.ProtectedRoute | src/App.tsx:15-26 | the loading placeholder exactly while loading, a replacing redirect to `/login` exactly when loaded without a user, the children exactly when loaded with one |
| App.Match | src/App.tsx:32-43 | a route is found exactly when some route has the path, and it is the element of the first route with that path |
| App.LoginUnguarded | src/App.tsx:33 | `/login` always shows the login page |
| App.DashboardGuarded | src/App.tsx:34-41 | `/dashboard` waits while loading, redirects a signed-out visitor to `/login`, and shows the dashboard exactly to a signed-in one |
| App.RootSettles | src/App.tsx:42 | once loaded, `/` ends within two redirects on the dashboard for a user and on the login page otherwise |
| WebSocket.SocketUrl | src/services/websocket.ts:34 | the socket address is the URL, `?token=`, then exactly the token |
| WebSocket.SocketUrlInjective | src/services/websocket.ts:34 | different tokens give different socket addresses |
| WebSocket.AfterEvent | src/services/websocket.ts:38-76 | an open resets the count and schedules nothing; a normal closure schedules nothing; another closure schedules exactly while fewer than five attempts were made, and then counts one more |
| WebSocket.AttemptsBounded | src/services/websocket.ts:65-76 | from a count of at most five, no sequence of events takes the count above five |
| WebSocket.ReconnectsBounded | src/services/websocket.ts:65-76 | with no open in between, closures schedule at most five minus the starting count reconnects, and the count grows by exactly the number scheduled |
| WebSocket.WebSocketService.constructor | src/services/websocket.ts:9-12 | no socket, zero attempts, nothing scheduled, created or sent |
| WebSocket.WebSocketService.Connect | src/services/websocket.ts:20-60 | nothing changes while a socket is open or no token is stored; otherwise a new connecting socket to `SocketUrl(url, token)`; the attempt count is untouched |
| WebSocket.WebSocketService.OnOpen | src/services/websocket.ts:38-41 | the socket is open and the attempt count is zero |
| WebSocket.WebSocketService.OnClose | src/services/websocket.ts:53-59 | the socket is closed; count and timers follow `AfterEvent`, a reconnect to the handler's URL scheduled only for a non-1000 code |
| WebSocket.WebSocketService.AttemptReconnect | src/services/websocket.ts:65-76 | below five attempts it counts one more and schedules `connect(url)`; at five it changes nothing |
| WebSocket.WebSocketService.FireTimer | src/services/websocket.ts:70-72 | the oldest timer is consumed and runs `connect` on its URL: a new connecting socket to that URL with the stored token, handlers bound to that URL; nothing else when a socket is open or no token is stored |
| WebSocket.WebSocketService.Send | src/services/websocket.ts:82-88 | the message is transmitted exactly when the socket is open |
| WebSocket.WebSocketService.Disconnect | src/services/websocket.ts:93-98 | with a socket, requests close code 1000; in every case there is no socket afterwards |
| Http.DetailOr | src/components/NotificationsList.tsx:21 | the error message is the answer's non-empty `detail`, else the fallback |
| Http.ResourcePath | src/services/projectService.ts:61 | `collection + id + "/"` starts with the collection and ends with `/` |
| Http.ResourcePathRoundTrip | src/services/projectService.ts:60-77 | the id can be read back from the resource path |
| Http.ResourcePathInjective | src/services/projectService.ts:60-77 | different ids address different resources |
| Http.ActionPath | src/services/notificationService.ts:39 | an action path is the resource path followed by the action and `/` |
| Lists.Filter | src/components/ProjectsList.tsx:49-52 | keeps exactly the elements that satisfy the test, never adds any |
| Lists.FilterAppend | src/components/ProjectsList.tsx:49-52 | filtering a concatenation is concatenating the filtered parts, so order is kept |
| Lists.FilterKeepsAll | src/components/ProjectsList.tsx:49-52 | a test every element passes keeps the whole list |
| Lists.FilterDisjointLength | src/components/CommentSection.tsx:137-140 | two tests no element passes together keep at most the whole list between them |
| Lists.Normalize | src/components/CommentSection.tsx:54 | an array is used as it is, else `results`, else the empty list |
| Decimal.IntToString | src/services/taskService.ts:67 | non-empty; a non-negative number is its decimal digits, a negative one `-` and the digits of its magnitude |
| Decimal.IntToStringRoundTrip | src/services/taskService.ts:67 | the decimal text parses back to the number |
| Decimal.IntToStringInjective | src/services/taskService.ts:69 | different numbers have different decimal texts |
| Text.IfTruthy | src/services/projectService.ts:52-54 | the truthiness guard `if (filters?.x)` of the filter builders (also taskService.ts:65-66 and notificationService.ts:25-27): present exactly when the value is a non-empty string, and then that value |
| Text.ToLower | src/components/ProjectsList.tsx:50 | same length, each character lower-cased |
| Text.IndexOf | src/components/ProjectsList.tsx:101 | the first occurrence of the pattern, or none exactly when it never occurs |
| Text.Utf16Length | src/components/Register.tsx:37 | at least one and at most two code units per character, and exactly one per character when every character lies in the basic plane |
| Text.EmptyQueryMentioned | src/components/ProjectsList.tsx:49-52 | an empty query matches every field |
| Text.TrimEmptyIffBlank | src/components/CommentSection.tsx:65 | the trimmed text is empty exactly when the text is all whitespace |
| FormUrlEncoded.SearchParams.constructor | src/services/notificationService.ts:21 | a new `URLSearchParams` holds no pairs |
| FormUrlEncoded.SearchParams.Append | src/services/notificationService.ts:23 | `append` adds the pair at the end |
| FormUrlEncoded.SearchParams.ToString | src/services/notificationService.ts:29 | the query string parses back to exactly the pairs held, in order |
| FormUrlEncoded.Serialize | src/services/notificationService.ts:29 | the query is empty exactly when there are no pairs |
| FormUrlEncoded.EncodeComponent | src/services/notificationService.ts:29 | an encoded name or value contains no `&` or `=` |
| FormUrlEncoded.ComponentRoundTrip | src/services/notificationService.ts:29 | every name or value decodes back to itself |
| FormUrlEncoded.Utf8RoundTrip | src/services/notificationService.ts:29 | UTF-8 decoding undoes UTF-8 encoding |
| FormUrlEncoded.PercentRoundTrip | src/services/notificationService.ts:29 | percent-decoding undoes percent-encoding |
| FormUrlEncoded.ParseQuerySerialize | src/services/notificationService.ts:29 | a serialised query reads back as the same pairs, order and repeats included |
| FormUrlEncoded.SerializeInjective | src/services/notificationService.ts:29 | different pair lists give different query strings |
| FormUrlEncoded.EncodeUnreserved | src/services/taskService.ts:69 | text of ASCII letters, digits and `*-._` is written unchanged |
| FormUrlEncoded.PairWrittenAsIs | src/services/taskService.ts:69 | a pair of such texts is written as `name=value` |
| FormUrlEncoded.Optional | src/services/projectService.ts:52 | `if (v) params.append(n, v)`: the pair once when the value is given, nothing otherwise |
| FormUrlEncoded.Appended2 | src/services/projectService.ts:52-53 | two guarded appends: each name carried as given, only those names, the first before the second |
| FormUrlEncoded.Appended3 | src/services/projectService.ts:52-54 | three guarded appends: each name carried as given, only those names, in append order |
| NotificationService.BoolString | src/services/notificationService.ts:23 | `true` and `false` render as `"true"` and `"false"` |
| NotificationService.IsReadValue | src/services/notificationService.ts:22-24 | `is_read` is sent exactly when defined, `false` included |
| NotificationService.TypeValue | src/services/notificationService.ts:25-27 | `notification_type` is sent exactly when non-empty |
| NotificationService.NotificationParams | src/services/notificationService.ts:21-27 | only the two names, each as given, `is_read` first |
| NotificationService.ListUrlParses | src/services/notificationService.ts:29 | the list URL is `/notifications/?` followed by a query that reads back as the filter pairs |
| NotificationService.UnfilteredUrl | src/services/notificationService.ts:29 | with no filters, or empty ones, the URL is exactly `/notifications/?` |
| NotificationService.AppendNotificationFilters | src/services/notificationService.ts:21-27 | the appended pairs are `NotificationParams` of the filters |
| NotificationService.GetNotifications | src/services/notificationService.ts:20-31 | one GET of the list URL; the answer is returned unchanged |
| NotificationService.GetUnreadCount | src/services/notificationService.ts:33-36 | one GET of the count endpoint; returns the answer's `count` |
| NotificationService.MarkAsRead | src/services/notificationService.ts:38-40 | one POST to `/notifications/{id}/mark_as_read/` |
| NotificationService.MarkAllAsRead | src/services/notificationService.ts:42-44 | one POST to `/notifications/mark_all_as_read/` |
| NotificationService.DeleteNotification | src/services/notificationService.ts:46-48 | one DELETE of `/notifications/{id}/` |
| ProjectService.ProjectParams | src/services/projectService.ts:51-54 | `status`, `priority`, `search` each sent only when non-empty, only those names, in that order |
| ProjectService.EmptyFiltersIgnored | src/services/projectService.ts:51-54 | empty filters give the same empty query as no filters |
| ProjectService.AppendProjectFilters | src/services/projectService.ts:51-54 | the appended pairs are `ProjectParams` of the filters |
| ProjectService.GetProjects | src/services/projectService.ts:50-58 | one GET of `/projects/projects/?` plus the serialised params; the answer is returned unchanged |
| ProjectService.GetProject | src/services/projectService.ts:60-63 | one GET of the project's resource path |
| ProjectService.CreateProject | src/services/projectService.ts:65-68 | one POST of the data to the collection |
| ProjectService.UpdateProject | src/services/projectService.ts:70-73 | one PATCH of the data to the project's resource path |
| ProjectService.DeleteProject | src/services/projectService.ts:75-77 | one DELETE of the project's resource path |
| ProjectService.MembersOf | src/services/projectService.ts:81 | the `members` list, or the empty list when it is absent |
| ProjectService.GetProjectMembers | src/services/projectService.ts:79-82 | one GET of the project's resource path; returns its members, or the error |
| TaskService.AssigneeValue | src/services/taskService.ts:67 | `assignee` is sent exactly when defined and non-zero, as decimal text that parses back to it |
| TaskService.TaskParams | src/services/taskService.ts:64-67 | `status`, `priority`, `assignee` each sent only when truthy, only those names, in that order |
| TaskService.TasksQueryParses | src/services/taskService.ts:69 | the query reads back as `project` then the filter pairs; without filters it ends in a bare `&` |
| TaskService.ProjectPairWrittenAsIs | src/services/taskService.ts:69 | `project={id}` as written by hand is also how the form encoder writes that pair |
| TaskService.GetTaskLists | src/services/taskService.ts:58-61 | one GET of `/tasks/task-lists/?project={id}` |
| TaskService.AppendTaskFilters | src/services/taskService.ts:64-67 | the appended pairs are `TaskParams` of the filters |
| TaskService.GetTasks | src/services/taskService.ts:63-71 | one GET of `/tasks/tasks/?project={id}&` plus the serialised params |
| TaskService.GetTask | src/services/taskService.ts:73-76 | one GET of the task's resource path |
| TaskService.CreateTask | src/services/taskService.ts:78-81 | one POST of the data to the collection |
| TaskService.UpdateTask | src/services/taskService.ts:83-86 | one PATCH of the data to the task's resource path |
| TaskService.DeleteTask | src/services/taskService.ts:88-90 | one DELETE of the task's resource path |
| TaskService.TaskListBody | src/services/taskService.ts:93-96 | the body holds exactly `project` (a number) and `name` |
| TaskService.CreateTaskList | src/services/taskService.ts:92-98 | one POST of that body to the task-list collection |
| TaskService.GetLabels | src/services/taskService.ts:100-103 | one GET of `/tasks/labels/?project={id}` |
| NotificationsList.IsReadFilter | src/components/NotificationsList.tsx:17 | `read` asks for `is_read` true, `unread` for false, `all` for no filter, each exactly |
| NotificationsList.MarkedRead | src/components/NotificationsList.tsx:30-32 | same length and order; exactly the entries with that id become read, the rest are unchanged |
| NotificationsList.MarkedAllRead | src/components/NotificationsList.tsx:41 | same length and order; every entry read, its other fields unchanged |
| NotificationsList.ShowMarkAll | src/components/NotificationsList.tsx:86 | offered exactly when some entry is unread |
| NotificationsList.MarkAllHidesOffer | src/components/NotificationsList.tsx:40-41 | after marking all read, the offer is gone |
| NotificationsList.MarkedReadIdempotent | src/components/NotificationsList.tsx:30-32 | marking the same id twice equals marking it once |
| NotificationsList.MarkingEveryIdReadsAll | src/components/NotificationsList.tsx:27-45 | marking each listed id in turn gives the same list as marking all read |
| NotificationsList.FormatTime | src/components/NotificationsList.tsx:59-71 | "just now" under a minute, minutes under an hour, hours under a day, days under a week, the date otherwise; each count is the whole number of units elapsed |
| NotificationsList.LabelText | src/components/NotificationsList.tsx:67-70 | the texts `Just now`, `Nm ago`, `Nh ago`, `Nd ago`; none for the calendar date |
| NotificationsList.FormatTimeMonotone | src/components/NotificationsList.tsx:63-70 | an older notification never gets a finer label, nor fewer minutes |
| NotificationsList.NotificationsView.constructor | src/components/NotificationsList.tsx:5-8 | an empty list, loading, no error, the `all` tab |
| NotificationsList.NotificationsView.LoadNotifications | src/components/NotificationsList.tsx:14-25 | fetches with the tab's filter; success replaces the list and keeps any error; failure keeps the list and sets `detail` or the fallback; loading ends false |
| NotificationsList.NotificationsView.SelectTab | src/components/NotificationsList.tsx:10-12 | a different tab reloads the list with that tab's filter; the tab already shown changes nothing and sends nothing |
| NotificationsList.NotificationsView.HandleMarkAsRead | src/components/NotificationsList.tsx:27-36 | posts mark-as-read; success marks that id read; failure leaves the list |
| NotificationsList.NotificationsView.HandleMarkAllAsRead | src/components/NotificationsList.tsx:38-45 | posts mark-all; success marks every entry read; failure leaves the list |
| Register.InitialForm | src/components/Register.tsx:8-15 | the six fields, all empty |
| Register.ValidationError | src/components/Register.tsx:31-41 | a mismatch is reported first; otherwise a password under 8 code units; no error exactly when the passwords match and are long enough |
| Register.EightCharactersSuffice | src/components/Register.tsx:37 | matching passwords of at least eight characters pass validation |
| Register.RegisterPayload | src/components/Register.tsx:44-50 | exactly `username`, `email`, `password`, `first_name`, `last_name` from the form; never `password_confirm` |
| Register.RegisterForm.constructor | src/components/Register.tsx:8-17 | the empty form, no error, not loading |
| Register.RegisterForm.HandleChange | src/components/Register.tsx:19-24 | only the named field changes |
| Register.RegisterForm.HandleSubmit | src/components/Register.tsx:26-57 | an invalid form sets its error and sends nothing; a valid one registers the payload through the client, then navigates to the dashboard or sets `detail` or the fallback; loading ends false on every path |
| FileUpload.Accepts | src/components/FileUpload.tsx:34 | no file, or a file of at most 10 MiB (the limit itself included), is accepted |
| FileUpload.UploadParts | src/components/FileUpload.tsx:49-53 | the parts `file`, `description`, `content_type`, `object_id` in that order, the id as decimal text that parses back to it |
| FileUpload.UploadError | src/components/FileUpload.tsx:88 | `detail`, else `error`, else `Upload failed` |
| FileUpload.Uploader.constructor | src/components/FileUpload.tsx:24-28 | no file, empty description and error, not uploading, zero progress |
| FileUpload.Uploader.HandleFileChange | src/components/FileUpload.tsx:30-41 | a too-large file sets the size error and keeps the previous file; otherwise the selection (possibly none) is taken and the error cleared |
| FileUpload.Uploader.SetDescription | src/components/FileUpload.tsx:113 | only the description changes |
| FileUpload.Uploader.HandleUpload | src/components/FileUpload.tsx:43-93 | no file sets `Please select a file` and sends nothing; otherwise posts the parts; success resets file, description and progress and hands the answer on; failure sets the message; uploading ends false |
| CreateProject.InitialForm | src/components/CreateProject.tsx:9-17 | empty texts, priority `MEDIUM`, `is_public` false |
| CreateProject.BudgetJson | src/components/CreateProject.tsx:37 | a budget text becomes a number parsed from that text |
| CreateProject.ProjectPayload | src/components/CreateProject.tsx:35-40 | every other field copied unchanged; budget and the two dates present exactly when truthy, dates verbatim and budget as a number |
| CreateProject.InitialPayload | src/components/CreateProject.tsx:35-40 | the untouched form sends only name, description, priority and visibility |
| CreateProject.ProjectForm.constructor | src/components/CreateProject.tsx:7-17 | the initial form, not loading, no error |
| CreateProject.ProjectForm.HandleChange | src/components/CreateProject.tsx:19-27 | a checkbox stores `checked`, any other input its value; only the named field changes |
| CreateProject.ProjectForm.HandleSubmit | src/components/CreateProject.tsx:29-49 | posts the payload; success navigates to `/projects`, failure sets `detail` or the fallback; loading ends false |
| Profile.Prefill | src/components/Profile.tsx:12-23 | the form holds exactly the editable fields the user has, each with the user's value; a field the user lacks is left unset |
| Profile.ProfileBody | src/components/Profile.tsx:35 | the patch sends the form's fields unchanged |
| Profile.UntouchedPatch | src/components/Profile.tsx:12-23 | a prefilled, unedited form patches exactly the editable fields the user has, with the user's values, never email or role |
| Profile.FixturePatch | src/tests/mockData.ts:4-11 | for the fixture user, who has no phone number, bio, job title or department, the untouched patch is `{first_name: "Test", last_name: "User"}` |
| Profile.RoleLabel | src/components/Profile.tsx:190-195 | the six role codes map to their names; any other role is shown as it is |
| Profile.HeaderRoleLabel | src/components/Profile.tsx:63 | `Admin` for ADMIN, the raw code otherwise |
| Profile.HeaderAgreesWithDetails | src/components/Profile.tsx:63 | header and details agree exactly for ADMIN and unknown roles |
| Profile.RoleLabelsDistinct | src/components/Profile.tsx:190-195 | different known roles get different names |
| Profile.ProfileEditor.constructor | src/components/Profile.tsx:7-10 | an empty form, not editing, not loading, no message |
| Profile.ProfileEditor.SyncUser | src/components/Profile.tsx:12-23 | a user prefills the form; no user leaves it |
| Profile.ProfileEditor.HandleChange | src/components/Profile.tsx:25-28 | only the named field changes |
| Profile.ProfileEditor.ToggleEdit | src/components/Profile.tsx:66 | editing flips, nothing else changes |
| Profile.ProfileEditor.HandleSubmit | src/components/Profile.tsx:30-43 | patches the form through the client; success shows the success message and stops editing; failure shows the error message and keeps editing; loading ends false; the store is as the client leaves it |
| CommentSection.FetchParams | src/components/CommentSection.tsx:46-51 | `content_type`, `object_id` (decimal, parses back) and `top_level=true` |
| CommentSection.CommentBody | src/components/CommentSection.tsx:73-77 | exactly the untrimmed draft, the content type and the object id |
| CommentSection.CanSubmit | src/components/CommentSection.tsx:116 | enabled exactly when not submitting and the draft is not all whitespace |
| CommentSection.ReactionCount | src/components/CommentSection.tsx:137 | the number of reactions of that type, 0 when reactions are absent |
| CommentSection.LikesAndLovesBounded | src/components/CommentSection.tsx:136-141 | likes plus loves never exceed the reactions |
| CommentSection.ReactionAdded | src/components/CommentSection.tsx:137 | one more reaction of a type counts one more of it and no more of another |
| CommentSection.CommentThread.constructor | src/components/CommentSection.tsx:34-37 | no comments, empty draft, loading, not submitting |
| CommentSection.CommentThread.FetchComments | src/components/CommentSection.tsx:43-60 | one GET with the thread's query; success replaces the list with the normalised answer; failure keeps it; loading ends false |
| CommentSection.CommentThread.SetDraft | src/components/CommentSection.tsx:111 | only the draft changes |
| CommentSection.CommentThread.HandleSubmit | src/components/CommentSection.tsx:62-87 | a blank draft changes and sends nothing; otherwise posts the body; success clears the draft and refetches; failure keeps the draft |
| CommentSection.CommentThread.HandleReact | src/components/CommentSection.tsx:89-97 | posts the reaction to `/comments/comments/{id}/react/`; success refetches |
| ProjectsList.FilteredProjects | src/components/ProjectsList.tsx:49-52 | keeps exactly the projects whose name or description mentions the query, case-insensitively, in order |
| ProjectsList.EmptyQueryKeepsAll | src/components/ProjectsList.tsx:49-52 | an empty query keeps every project |
| ProjectsList.FilterSplits | src/components/ProjectsList.tsx:49-52 | searching two lists joined is searching each, in order |
| ProjectsList.StatusColor | src/components/ProjectsList.tsx:28-37 | four statuses get their colours; PLANNING and anything else get `#6b7280` |
| ProjectsList.PriorityColor | src/components/ProjectsList.tsx:39-47 | four priorities get their colours; anything else gets `#6b7280` |
| ProjectsList.StatusLabel | src/components/ProjectsList.tsx:101 | only the first `_` becomes a space, all else unchanged |
| ProjectsList.StatusLabelExamples | src/components/ProjectsList.tsx:101 | `IN_PROGRESS` shows as `IN PROGRESS`; `A_B_C` as `A B_C` |
| ProjectsList.Remaining | src/components/ProjectsList.tsx:139 | remaining plus completed is the total |
| ProjectsList.ProjectsView.constructor | src/components/ProjectsList.tsx:5-10 | no projects, loading, no error, empty search |
| ProjectsList.ProjectsView.Visible | src/components/ProjectsList.tsx:49-52 | the projects shown match the search; all of them when it is empty |
| ProjectsList.ProjectsView.LoadProjects | src/components/ProjectsList.tsx:16-26 | fetches unfiltered; success replaces the list; failure keeps it and sets `detail` or the fallback; loading ends false |
| ProjectsList.ProjectsView.SetFilter | src/components/ProjectsList.tsx:70 | only the search text changes |
| TeamList.TeamTypeParams | src/components/teams/TeamList.tsx:47-49 | no `team_type` for `all`, otherwise exactly that type |
| TeamList.FilteredTeams | src/components/teams/TeamList.tsx:58-60 | keeps exactly the teams whose name mentions the search, case-insensitively, in order |
| TeamList.EmptySearchKeepsAll | src/components/teams/TeamList.tsx:58-60 | an empty search keeps every team |
| TeamList.SearchIgnoresDescription | src/components/teams/TeamList.tsx:58-60 | two teams with the same name are both kept or both dropped |
| TeamList.TeamTypeColor | src/components/teams/TeamList.tsx:62-73 | six types get their colours; CROSS and unknown types get the default grey |
| TeamList.ShowsCompletionRate | src/components/teams/TeamList.tsx:186 | shown exactly for a team with at least one project |
| TeamList.JoinBadge | src/components/teams/TeamList.tsx:203-215 | Full exactly when full, whatever self-join says; else Open to Join when self-join is allowed; else Invite Only |
| TeamList.TeamDirectory.constructor | src/components/teams/TeamList.tsx:35-38 | no teams, loading, empty search, type `all` |
| TeamList.TeamDirectory.Visible | src/components/teams/TeamList.tsx:58-60 | the teams shown match the search; all of them when it is empty |
| TeamList.TeamDirectory.FetchTeams | src/components/teams/TeamList.tsx:44-56 | one GET with the type param; success replaces the list with the normalised answer; failure keeps it; loading ends false |
| TeamList.TeamDirectory.SelectType | src/components/teams/TeamList.tsx:40-42 | a new type refetches with that type |
| TeamList.TeamDirectory.SetSearchTerm | src/components/teams/TeamList.tsx:109 | only the search text changes |
| TeamsList.FilteredTeams | src/components/TeamsList.tsx:27-30 | keeps exactly the teams whose name or description mentions the query, in order |
| TeamsList.EmptyQueryKeepsAll | src/components/TeamsList.tsx:27-30 | an empty query keeps every team |
| TeamsList.MemberLabel | src/components/TeamsList.tsx:73 | `{n} members` whenever a count is defined, zero included; `View team` otherwise |
| TeamsList.MemberLabelNamesCount | src/components/TeamsList.tsx:73 | the number in the label parses back to the team's count |
| TeamsList.TeamsView.constructor | src/components/TeamsList.tsx:6-9 | no teams, loading, no error, empty search |
| TeamsList.TeamsView.Visible | src/components/TeamsList.tsx:27-30 | the teams shown match the search; all of them when it is empty |
| TeamsList.TeamsView.LoadTeams | src/components/TeamsList.tsx:15-25 | one GET of `/teams/teams/`; success replaces the list; failure keeps it and sets `detail` or the fallback; loading ends false |
| TeamsList.TeamsView.SetFilter | src/components/TeamsList.tsx:48 | only the search text changes |
| FileList.FetchParams | src/components/FileList.tsx:42-47 | `content_type` and `object_id` (decimal, parses back) |
| FileList.FormatFileSize | src/components/FileList.tsx:108-112 | bytes below 1024, kilobytes below 1 MiB, megabytes otherwise; the byte label is the number (parses back) and ` B` |
| FileList.ThumbnailImpliesPreview | src/components/FileList.tsx:130 | a file shown with a thumbnail can always be previewed |
| FileList.PreviewBase | src/components/FileList.tsx:85 | the configured base with its first `/api` removed, or `http://localhost:8000` when that is empty or nothing is configured |
| FileList.BareApiFallsBack | src/components/FileList.tsx:85 | a base of just `/api` falls back to the local server |
| FileList.TokenText | src/components/FileList.tsx:86 | the token as stored, or `null` when there is none |
| FileList.PreviewPath | src/components/FileList.tsx:86 | the preview endpoint is the file's resource path below `/api/files/attachments/`, then `preview/` |
| FileList.PreviewUrlNamesFile | src/components/FileList.tsx:84-86 | different files get different preview addresses |
| FileList.PreviewUrlCarriesToken | src/components/FileList.tsx:84-86 | after base and endpoint comes exactly `?token=` and the token text |
| FileList.FileBrowser.constructor | src/components/FileList.tsx:29-32 | no files, loading, no windows opened |
| FileList.FileBrowser.FetchFiles | src/components/FileList.tsx:38-57 | one GET with the object's query; success replaces the list with the normalised answer; failure keeps it; loading ends false |
| FileList.FileBrowser.HandleDownload | src/components/FileList.tsx:59-79 | one GET of `/files/attachments/{id}/download/` |
| FileList.FileBrowser.HandlePreview | src/components/FileList.tsx:81-88 | opens the preview address built from the stored access token |
| FileList.FileBrowser.HandleDelete | src/components/FileList.tsx:90-106 | without confirmation nothing is sent or changed; with it, one DELETE, and a refetch only after it succeeds |

## Left out

- Networking. axios and the network are not modelled; each exchange is an answer passed in as a parameter. `FormData` bodies are a list of named parts.
- Token refresh on page requests. The page services also send through `api`, but their models take the delivered answer and do not apply the token writes that a 401 and refresh make on their behalf. Only the session calls listed above state them.
- Request headers. A config is assumed always to carry a headers object, so the `if (originalRequest.headers)` guard at `src/services/api.ts:60` is always taken; axios always supplies one.
- Concurrency. Overlapping 401s each refresh independently; the model runs one request chain at a time.
- Asynchronous order. The refetch after a post, a reaction or a delete is not awaited in the source. The model runs it to completion before the handler returns.
- Timers and sockets. Real `WebSocket` objects and `setTimeout` are replaced by explicit events (`OnOpen`, `OnClose`, `FireTimer`). Incoming messages and the `onerror` handler only call callbacks, and are not modelled. `JSON.stringify` in `send` is not modelled: payloads are strings.
- WebSocket.WebSocketService.OnClose: only the events of the most recently created socket are modelled. In the source, a socket still connecting when `connect` runs again keeps its handlers, so its later `open` or `close` also resets or bumps `reconnectAttempts` (`src/services/websocket.ts:36-59`); the model does not capture these stale sockets.
- Floating point. The kilobyte and megabyte figures of `formatFileSize` are only classified as a size class. The upload progress percentage and its `onUploadProgress` events are not modelled. `parseFloat` of the budget is kept as the text it would parse.
- Dates and locale. `new Date`, the current time and `toLocaleDateString` are not modelled. `formatTime` takes the elapsed milliseconds as input, and past a week it yields a calendar-date marker.
- Text.ToLower: lower-cases ASCII letters only. Unicode case mapping is library behaviour.
- Decimal.IntToString: writes every integer as its plain decimal digits. JavaScript does so only below 2^53 in magnitude, where numbers are exact, and switches to exponent form from 1e21; ids and counts beyond that range are not modelled.
- FormUrlEncoded.ParseQuery: reads back only well-formed queries, as the serialiser writes them. Its UTF-8 decoder likewise rejects rather than repairs malformed input.
- UI side effects. `alert`, `console` output, `window.open` (recorded as the list of opened addresses), the blob download link of `handleDownload`, toast display, JSX and CSS classes are not modelled.
- `getNotificationIcon` in `NotificationsList.tsx` is a display-only emoji lookup and is not modelled.
- Page components. `Dashboard.tsx`, `ProjectDetail.tsx`, `TeamDetail.tsx`, `teams/TeamDetail.tsx` and `TaskBoard.tsx` only fetch and render, and are not modelled.
  - The `CreateProjectModal` inside `ProjectsList.tsx` uses state it never declares, and is not modelled.
  - `Login.tsx` is not part of this model.
- `teamService.ts` is not modelled apart from `getTeams`. It is a list of fixed-path calls. `getTeams` appears as the request that `TeamsView.LoadTeams` logs.
- Profile.Prefill: a profile field the backend sends as JSON `null` is not distinguished from a missing one. Both are `None` and left out of the form, whereas the source would send a `null` value back in the patch. Only `undefined` fields are dropped by `JSON.stringify`.
- Profile.ProfileEditor.HandleSubmit: the `AuthProvider` user is not refreshed after a profile update. The source does not refresh it either, so this is faithful to the source rather than a weakening.
- Register.RegisterForm.HandleSubmit: requires all six form fields to be present. The constructor establishes this and `HandleChange` never removes a field, so every reachable state meets it.

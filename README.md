# ephemeral-client core, modelled in Dafny

This project models the logic underneath a social-feed web client (React,
react-query, axios and socket.io) and proves properties of that model. It
covers these pieces:

- **Credentials.** `TokenService` caches a token, keeps the `Authorization`
  default header and stores a copy in browser storage. The token changes on
  refresh, register, login and logout.
- **Transport rules.**
  - The anti-forgery header interceptor.
  - The `auth:unauthorized` broadcast.
  - The retry predicates of queries and mutations, and the option override.
  - The error normaliser and its defaults.
- **Cache work.**
  - The optimistic post vote and its rollback.
  - The hashtag split of a new post.
  - The comments query key, its `enabled` flag and its invalidation.
- **Notifications.** Two notification lists (the hook and the notification
  page), with their list operations, filters, unread counts and relative
  time label.
- **Forms.** Four Yup schemas and the submit sequencing around them.
- **Real-time channel.**
  - The state machine of the socket provider: connect, connect error,
    disconnect, and a reconnect that happens only after a server disconnect.
  - Its two simpler variants.
  - The chat screen: its message list, its send guard, its room join and its
    layout rule.

Libraries become abstract state:

- the react-query cache is a class holding a map from keys to values and a
  set of stale keys, and invalidation is a key-prefix match;
- browser storage and the axios default headers are maps;
- a socket is a class holding a listener registry that follows the
  component-emitter rules of `on` and `off`.

Module by module:

- `Credentials` (token service) and `TokenRefresh`.
- `Auth` (the auth hooks, built on `QueryCache`).
- `ApiClient`, `ApiHooks` and `ApiErrors`.
- `Posts` and `Comments`.
- `Notifications` and `NotificationCenter`, over the shared
  `NotificationLists`.
- `Forms`, with `AuthSignupForm`, `AuthLoginForm`, `SimpleSignupForm` and
  `SimpleLoginForm`.
- `SocketContext` (`useSocket.tsx`), `SocketHook` (`useSocket.ts`) and
  `SocketProvider` (`socket-provider.tsx`), over `SocketIo`.
- `Messages`.
- `Wrappers`, `Seqs` and `Text` hold what JavaScript provides. This
  includes `filter`, `map`, `split` and `join`, `trim` over ECMAScript white
  space, UTF-16 `length`, and decimal `toString`.

Three behaviours of the code are worth knowing before the table:

- **No refresh coordinator.** Nothing in the code refreshes a token on a
  401, queues the failing requests or replays them.
  - On a 401, `src/services/api-client.ts:22-30` only dispatches
    `auth:unauthorized` and rejects. It does so once per failing request
    (`ApiClient.BroadcastPerUnauthorized`).
  - The token refresh is a query that never runs on its own and is never
    retried (`TokenRefresh.RefreshQueryConfig`).
- **The vote rollback is not exact** (`Posts.VotePost`).
  - It restores the snapshot only when one existed. Without one, the empty
    list written by the optimistic step stays.
  - A stale mark on `["posts"]` is lost in every case. `setQueryData` makes
    the entry fresh, and both the optimistic write and the rollback go
    through it.
- **The Authorization header** is set by the token service in the client's
  default headers, not per request (`Credentials.AfterSet`).

## Model

| member | source | states |
|---|---|---|
| Credentials.AfterSet | src/services/token-service.ts:6-10 | `setToken(tk)` caches `tk`, sets the `Authorization` header to `"Bearer " + tk` and stores `tk` under "token"; nothing else changes |
| Credentials.AfterGet | src/services/token-service.ts:12-19 | A truthy cached token is returned and nothing changes. Otherwise the stored value is loaded into the cache and returned, the header is set only if that value is truthy, and storage is untouched |
| Credentials.AfterClear | src/services/token-service.ts:21-25 | The cache becomes null. The header and the stored token are removed, and every other header and storage entry is kept |
| Credentials.GetAfterSet | src/services/token-service.ts:6-13 | After `setToken(tk)` with a non-empty `tk`, `getToken()` returns `tk` and changes nothing |
| Credentials.GetAfterClear | src/services/token-service.ts:12-25 | After `clearToken()`, `getToken()` returns null and leaves the cleared state |
| Credentials.GetTwice | src/services/token-service.ts:12-19 | A second `getToken()` returns the same value and leaves the same state as the first |
| Credentials.ReloadAfterSet | src/services/token-service.ts:6-19 | After a reload (an empty cache and fresh headers), the stored token is found again and the header is rebuilt from it |
| Credentials.TokenService.constructor | src/services/token-service.ts:4 | The static cache starts as null |
| Credentials.TokenService.SetToken | src/services/token-service.ts:6-10 | The object's new state is `AfterSet` of its old state |
| Credentials.TokenService.GetToken | src/services/token-service.ts:12-19 | The result and the new state are those `AfterGet` gives |
| Credentials.TokenService.ClearToken | src/services/token-service.ts:21-25 | The new state is `AfterClear` of the old state |
| TokenRefresh.RefreshQueryFn | src/hooks/useTokenRefresh.ts:8-20 | On success the token is stored with `setToken` and the response is returned. On a 401 the token is cleared and the error rethrown. On any other failure the credentials are unchanged and the error is rethrown |
| TokenRefresh.RefreshQueryConfig | src/hooks/useTokenRefresh.ts:6-24 | The key is `["token-refresh"]`, `enabled` is false, the query is never retried and it never goes stale |
| TokenRefresh.RefreshSingleAttempt | src/hooks/useTokenRefresh.ts:22 | The refresh makes exactly one attempt, whatever its failures |
| Auth.UserKey | src/hooks/useAuth.ts:5-8 | `authKeys.user()` is `["auth","user"]`, and `authKeys.all` is a proper prefix of it |
| Auth.StoreSession | src/hooks/useAuth.ts:15-18 | The token is stored, every query under the user key becomes stale, and the cache entries are unchanged |
| Auth.Register | src/hooks/useAuth.ts:10-20 | On success the token is stored and the user query is invalidated. On failure neither the credentials nor the cache change |
| Auth.Login | src/hooks/useAuth.ts:22-32 | As for register |
| Auth.Logout | src/hooks/useAuth.ts:34-44 | On success the token is cleared and every query under `["auth"]` is removed, including the user query. Other entries keep their values, and the stale set loses exactly the removed keys. On failure nothing changes |
| Auth.CurrentUserRetry | src/hooks/useAuth.ts:51-54 | Never retries a 401. Any other error is retried iff `failureCount < 3` |
| Auth.CurrentUserAttempts | src/hooks/useAuth.ts:51-54 | Persistent non-401 failures lead to exactly 4 attempts |
| Auth.CurrentUserQueryConfig | src/hooks/useAuth.ts:46-57 | `enabled` is whether `getToken()` returned a truthy value, and that read changes state as `getToken()` does. The retry rule is as above and the stale time is 300000 ms |
| ApiClient.StatusOf | src/services/api-client.ts:25 | A status exists only for an axios error that has a response carrying one |
| ApiClient.ApiV1 | src/services/api-client.ts:4-5 | `API_URL + "/api/v1"`, where `API_URL` falls back to "" when unset or empty |
| ApiClient.RequestConfig.constructor | src/services/api-client.ts:16 | The config carries the headers it was given |
| ApiClient.InterceptRequest | src/services/api-client.ts:16-20 | A truthy XSRF cookie adds exactly the `x-xsrf-token` header with its value. Without one the headers are unchanged. The same config object is returned |
| ApiClient.InterceptResponse | src/services/api-client.ts:22-30 | The outcome passes through unchanged, so an error is always rejected. Exactly one `auth:unauthorized` event is dispatched iff the outcome is an error whose response status is 401, and none otherwise |
| ApiClient.BroadcastPerUnauthorized | src/services/api-client.ts:22-30 | Over a run of requests, one event is dispatched per 401 failure; nothing merges them |
| ApiHooks.AuthenticatedRetry | src/services/api-hooks.ts:14-18 | Never retries a 401. Any other error, including one without a response or status, is retried iff `failureCount < 2` |
| ApiHooks.Attempts | src/services/api-hooks.ts:14-18 | The number of attempts a retry policy allows never exceeds the failures available |
| ApiHooks.AuthenticatedQueryAttempts | src/services/api-hooks.ts:14-18 | Persistent non-401 failures lead to exactly 3 attempts |
| ApiHooks.AuthenticatedQueryStopsOn401 | src/services/api-hooks.ts:15-16 | A 401 ends the query after one attempt |
| ApiHooks.AuthenticatedQueryConfig | src/services/api-hooks.ts:6-21 | The caller's key is used. A caller-supplied `retry` (or `enabled`, or `staleTime`) wins over the default, because the options are spread last |
| ApiHooks.DefaultQueryRetry | src/services/api-hooks.ts:14-19 | Without a caller `retry`, the configured policy is the authenticated predicate |
| ApiHooks.AuthenticatedMutationConfig | src/services/api-hooks.ts:23-32 | Mutations are never retried by default. A caller `retry` overrides this |
| ApiErrors.ApiErrAsWritten | src/services/utils.ts:22-49 | As written, the normaliser throws exactly when an axios error has a response whose `data` is null or undefined |
| ApiErrors.NullBodyThrows | src/services/utils.ts:33 | A concrete such error throws |
| ApiErrors.HandleApiErr | src/services/utils.ts:22-49 | The result: `error` is always true. `status` is the response status, or 500 when it is absent or 0. `code` and `message` are copied when truthy, otherwise "" and "Something went wrong". A non-axios error yields exactly the defaults. Wherever the as-written code does not throw, the result equals it |
| Posts.Voted | src/hooks/usePosts.ts:77-92 | `userVote` toggles. For each counter, the counter minus the user's own contribution to it is conserved. Every other field is unchanged |
| Posts.ApplyVote | src/hooks/usePosts.ts:77-92 | The step-by-step `-= 1` / `+= 1` update computes `Voted` |
| Posts.VoteSameUndoes | src/hooks/usePosts.ts:79-82 | Voting the current vote clears it and takes 1 from that counter only |
| Posts.VoteDifferentMoves | src/hooks/usePosts.ts:83-90 | Voting another value takes 1 from the previous vote's counter (if any), adds 1 to the new one and sets `userVote` |
| Posts.VoteTwice | src/hooks/usePosts.ts:79-90 | Voting `v` twice restores the post exactly iff the post did not hold the opposite vote |
| Posts.VoteKeepsConsistent | src/hooks/usePosts.ts:80-88 | If the counter matching the current vote is at least 1 and none is negative, this stays true and no counter goes negative |
| Posts.VoteExample | src/hooks/usePosts.ts:77-92 | A worked sequence of votes on a post with 3 up-votes and 1 down-vote |
| Posts.VotePosts | src/hooks/usePosts.ts:75-96 | Only posts whose id equals `postId` change. Length, order, ids and every other post are preserved |
| Posts.VotePostsConsistent | src/hooks/usePosts.ts:75-96 | A list of consistent posts stays consistent |
| Posts.OptimisticPosts | src/hooks/usePosts.ts:73-96 | An absent cached list becomes `[]` |
| Posts.OnMutate | src/hooks/usePosts.ts:68-99 | The snapshot is the cached value read before the write, and `["posts"]` receives the optimistic list |
| Posts.OnError | src/hooks/usePosts.ts:100-104 | A snapshot is written back to `["posts"]`, and that key is no longer stale. Without a snapshot, nothing changes |
| Posts.VotePost | src/hooks/usePosts.ts:64-106 | On failure with a cached list, the entries are exactly the entries before the vote. With no cached list, `["posts"]` is left as `[]`. On success the optimistic list remains. In every case the stale set is the old one without `["posts"]` |
| Posts.DropFirst | src/hooks/usePosts.ts:40 | `word.slice(1)` for each word |
| Posts.SplitHashtags | src/hooks/usePosts.ts:37-43 | The request body of a new post; its properties are the lemmas below |
| Posts.SplitHashtagsSpec | src/hooks/usePosts.ts:37-43 | The content is split on " ". `topics` are the `#` words with the `#` removed, in order. The content sent is the other words joined by " ". The two counts add up to the number of words |
| Posts.SplitHashtagsContent | src/hooks/usePosts.ts:37-43 | The content sent holds no hashtag word. When there is a plain word, splitting the content on " " gives back exactly the plain words, in order |
| Posts.FilterSplitsInTwo | src/hooks/usePosts.ts:38-42 | Every word is either a hashtag or a plain word |
| Posts.NoHashtagsKeepsContent | src/hooks/usePosts.ts:37-43 | Content without hashtags is sent unchanged, with no topics |
| Posts.CreatePost | src/hooks/usePosts.ts:32-52 | The request body is the hashtag split. On success every `["posts"]` query is invalidated. The cache entries never change |
| Comments.CommentsKey | src/hooks/useComments.ts:16 | The key is `["comments", postId]` when `postId` is non-empty, otherwise `["comments", commentId]` (undefined when absent) |
| Comments.SharedKey | src/hooks/useComments.ts:16 | A post id and a comment id that are equal give the same key |
| Comments.CommentsEnabled | src/hooks/useComments.ts:19 | An explicit `enabled` wins, including false. Otherwise it is true iff one of the ids is non-empty |
| Comments.CommentsQueryConfig | src/hooks/useComments.ts:15-21 | The authenticated query uses that key and `enabled`, with the authenticated retry rule |
| Comments.FetcherView | src/hooks/useComments.ts:23 | `data` defaults to `[]` when the query has none. Every other field passes through |
| Comments.InvalidateComments | src/hooks/useComments.ts:31 | Every query whose key starts with "comments" becomes stale. The entries are unchanged |
| Comments.VoteComment | src/hooks/useComments.ts:26-36 | Nothing is written to the cache. Invalidation happens only after success |
| Comments.CreateComment | src/hooks/useComments.ts:38-48 | As for the voter |
| Comments.CommentsQueriesInvalidated | src/hooks/useComments.ts:16-31 | Every comments query, whatever its ids, is reached by the invalidation |
| SocketIo.AddListener | src/hooks/useSocket.tsx:47-49 | `on(e, h)` registers `h` last for `e` and keeps every other event's listeners |
| SocketIo.RemoveListener | src/hooks/useSocket.tsx:54-56 | `off(e, h)` removes the first registration of `h` for `e`. Other events are untouched and an emptied event is dropped |
| SocketIo.RemoveAllListeners | src/hooks/useNotifications.ts:81-84 | `off(e)` removes every listener of `e`, whoever registered it |
| SocketIo.RemoveFirst | src/hooks/useSocket.tsx:54-56 | Exactly one occurrence is removed: the first |
| SocketIo.OffAfterOn | src/hooks/useSocket.tsx:91-95 | `off` after `on` of a handler not registered before gives back the registry exactly |
| SocketIo.Socket.constructor | src/hooks/useSocket.tsx:18-26 | A new socket is active, has no listeners and carries the auth token it was given |
| SocketIo.Socket.On | src/hooks/useSocket.tsx:47 | The registry becomes `AddListener` of the old one |
| SocketIo.Socket.Off | src/hooks/useSocket.tsx:54 | The registry becomes `RemoveListener` of the old one |
| SocketIo.Socket.OffAll | src/hooks/useNotifications.ts:81 | The registry becomes `RemoveAllListeners` of the old one |
| SocketIo.Socket.Connect | src/hooks/useSocket.tsx:43 | The socket becomes active |
| SocketIo.Socket.Disconnect | src/hooks/useSocket.tsx:57 | The socket becomes inactive; its listeners and packets stay. The `"disconnect"` event it fires on a connected socket is delivered by the owning cleanup, which holds the listeners' state |
| SocketIo.Socket.Emit | src/components/messages/Message.tsx:73-76 | The packet is appended to what the socket has sent |
| SocketContext.AfterEvent | src/hooks/useSocket.tsx:27-45 | Connected iff the event is `connect`. The error is cleared on connect, set to "Failed to connect to the chat server" on a connect error, and kept on a disconnect |
| SocketContext.ReplaySnoc | src/hooks/useSocket.tsx:27-45 | Events act one after another |
| SocketContext.ReplayState | src/hooks/useSocket.tsx:27-45 | After any run of events the client is connected iff the last event was `connect`. The error is decided by the last connect or connect error. A connected client never shows an error |
| SocketIo.RegistryExtensional | src/hooks/useSocket.tsx:47-56 | Registries with the same listeners for every event are equal |
| SocketContext.SubscribedHears | src/hooks/useSocket.tsx:47-49 | After mounting, the provider hears all three events |
| SocketContext.CleanupListeners | src/hooks/useSocket.tsx:47-56 | The cleanup restores each event's listener list |
| SocketContext.SubscribeThenCleanup | src/hooks/useSocket.tsx:47-56 | The cleanup removes exactly the three handlers the mount registered, so later events no longer reach the provider |
| SocketContext.UseSocket | src/hooks/useSocket.tsx:76-83 | Outside a provider it fails with "useSocket must be used within a SocketProvider". Inside one it returns the context value |
| SocketContext.SocketState.constructor | src/hooks/useSocket.tsx:13-15 | Starts with no socket, not connected and no error |
| SocketContext.SocketState.Mount | src/hooks/useSocket.tsx:17-51 | A new socket authenticated with the token `getToken()` returns at mount (with `getToken()`'s effect on the credentials), with the three handlers registered. The state is otherwise unchanged |
| SocketContext.SocketState.Receive | src/hooks/useSocket.tsx:27-45 | A registered handler applies `AfterEvent`. `connect()` is called iff the event is a disconnect with reason "io server disconnect". An unregistered handler does nothing |
| SocketContext.SocketState.Cleanup | src/hooks/useSocket.tsx:53-60 | Exactly its three handlers are removed, the socket is disconnected and set to null, and connected becomes false. The error is kept |
| SocketContext.SubscribeEvent | src/hooks/useSocket.tsx:85-92 | Nothing happens without a socket. Otherwise the handler is registered |
| SocketContext.UnsubscribeEvent | src/hooks/useSocket.tsx:93-95 | The same handler is unregistered |
| SocketHook.HookSubscribed | src/hooks/useSocket.ts:21-35 | The three anonymous handlers are registered |
| SocketHook.HookSubscribedHears | src/hooks/useSocket.ts:21-35 | After mounting, every event reaches the hook |
| SocketHook.HookState.constructor | src/hooks/useSocket.ts:6-8 | Starts with no socket, not connected and no error |
| SocketHook.HookState.Mount | src/hooks/useSocket.ts:10-37 | A new socket with the token read at mount and the three handlers |
| SocketHook.HookState.Receive | src/hooks/useSocket.ts:21-35 | The state moves as in `AfterEvent`, and the socket itself is never touched: there is no reconnect |
| SocketHook.HookState.Cleanup | src/hooks/useSocket.ts:39-42 | The socket is disconnected and set to null, and its listeners stay registered. If the socket was connected and the hook's `disconnect` handler is registered on it, the client-side disconnect ("io client disconnect") reaches that handler, so the state moves as `AfterEvent` of that event: `isConnected` becomes false and the error is kept. Otherwise the state is unchanged |
| SocketProvider.ProviderSubscribed | src/hooks/socket-provider.tsx:19-25 | Registers the `connect` and `disconnect` handlers |
| SocketProvider.StoredAuth | src/hooks/socket-provider.tsx:14-16 | The auth token is the stored "token" entry, or null |
| SocketProvider.ProviderSubscribedHears | src/hooks/socket-provider.tsx:19-25 | The provider hears `connect` and `disconnect`, and not `connect_error` |
| SocketProvider.ProviderState.constructor | src/hooks/socket-provider.tsx:7-8 | Starts with no socket and not connected |
| SocketProvider.ProviderState.Effect | src/hooks/socket-provider.tsx:11-39 | With a user, a new socket authenticated by the stored token is kept, and a socket held before is left exactly as it was (the previous run's cleanup closes it). With no user and a socket, it is closed and dropped, its listeners and packets kept, and connected becomes false. With neither, nothing changes. A socket is held only while there is a user |
| SocketProvider.ProviderState.Receive | src/hooks/socket-provider.tsx:19-25 | `connect` sets connected; `disconnect` clears it |
| SocketProvider.ProviderState.Cleanup | src/hooks/socket-provider.tsx:23-31 | The socket is closed and keeps its listeners. If it was connected and the provider's `disconnect` handler is registered on it, the client-side disconnect makes `isConnected` false. Otherwise `isConnected` is unchanged. The held socket is not touched |
| Messages.CanSend | src/components/messages/Message.tsx:64 | The send guard; `CanSendIff` states what it means |
| Messages.CanSendIff | src/components/messages/Message.tsx:64 | Sending is possible iff there is a socket, a selected user and an input character that is not white space |
| Messages.ChatSubscribed | src/components/messages/Message.tsx:49-50 | Both chat handlers are registered |
| Messages.ChatCleanupAsWritten | src/components/messages/Message.tsx:52-54 | The `chat:message` list loses the first registration of this run's handler; the `chat:messages` list is unchanged |
| Messages.CleanupAsWrittenLeaks | src/components/messages/Message.tsx:52-54 | The `chat:messages` handler survives the cleanup as written |
| Messages.RemountDoublesHistory | src/components/messages/Message.tsx:37-55 | Mount, the cleanup as written, and a second mount leave two history handlers |
| Messages.ChatCleanup | src/components/messages/Message.tsx:52-54 | Corrected cleanup: each chat list loses the first registration of this run's handler, every other event is unchanged, and well-formedness is kept |
| Messages.CleanupListeners | src/components/messages/Message.tsx:49-54 | The corrected cleanup restores each event's listeners |
| Messages.ChatCleanupRestores | src/components/messages/Message.tsx:49-54 | With both handlers removed, mount and cleanup leave the registry exactly as found |
| Messages.SubscribeChat | src/components/messages/Message.tsx:37-50 | Nothing happens without a socket. Otherwise both handlers are registered |
| Messages.UnsubscribeChat | src/components/messages/Message.tsx:52-54 | Both handlers are removed (the corrected cleanup) |
| Messages.ChatScreen.constructor | src/components/messages/Message.tsx:17-22 | Empty input and list, no selected user, mobile iff the width is below 900, and the sidebar shown |
| Messages.ChatScreen.Resize | src/components/messages/Message.tsx:25-31 | Mobile iff the width is below 900. Leaving mobile width forces the sidebar visible. Outside mobile the sidebar is always shown |
| Messages.ChatScreen.ReceiveMessage | src/components/messages/Message.tsx:40-42 | The message is appended at the end |
| Messages.ChatScreen.ReceiveHistory | src/components/messages/Message.tsx:44-47 | The batch is placed before the existing messages, in its own order |
| Messages.ChatScreen.EditMessage | src/components/messages/Message.tsx:123 | The input becomes the typed text |
| Messages.ChatScreen.SendMessage | src/components/messages/Message.tsx:63-80 | It sends iff the guard holds. It then emits `chat:message` with the untrimmed input and room `{single, selected id}` and clears the input; otherwise the input stays. The list never changes |
| Messages.ChatScreen.SelectUser | src/components/messages/Message.tsx:82-93 | The user becomes selected. `chat:join` with `{single, id}` is emitted when a socket exists. The sidebar is hidden only on mobile |
| Messages.ChatScreen.BackToUsers | src/components/messages/Message.tsx:95-97 | The sidebar is shown |
| NotificationLists.UnreadCount | src/hooks/useNotifications.ts:118 | The unread count never exceeds the length |
| NotificationLists.UnreadCountPositions | src/hooks/useNotifications.ts:118 | The unread count equals the number of positions holding an entry with `read = false` |
| NotificationLists.Prepend | src/hooks/useNotifications.ts:34 | The new entry comes first, followed by the old list in order |
| NotificationLists.PrependCount | src/components/notifications/NotificationCenter.tsx:100-102 | Prepending adds 1 to the unread count iff the entry is unread |
| NotificationLists.MarkAsRead | src/hooks/useNotifications.ts:88-96 | The length, the ids and the payloads are kept. An entry is read afterwards iff it was read before or has that id |
| NotificationLists.MarkAllAsRead | src/hooks/useNotifications.ts:98-102 | The length is kept, and every entry is the old entry with `read = true` |
| NotificationLists.RemoveId | src/hooks/useNotifications.ts:104-106 | No entry with that id remains, and the rest keep their order |
| NotificationLists.ClearRead | src/components/notifications/NotificationCenter.tsx:118-120 | Only unread entries remain, in order |
| NotificationLists.RemoveIdExact | src/hooks/useNotifications.ts:104-106 | Exactly the entries with that id are removed; every other entry keeps its multiplicity |
| NotificationLists.RemoveAbsentId | src/hooks/useNotifications.ts:104-106 | Deleting an absent id changes nothing |
| NotificationLists.ClearReadExact | src/components/notifications/NotificationCenter.tsx:118-120 | Exactly the unread entries are kept, so the unread count is unchanged and equals the new length |
| NotificationLists.MarkAllClearsCount | src/hooks/useNotifications.ts:98-102 | After marking everything read, the unread count is 0 |
| NotificationLists.MarkAsReadCount | src/hooks/useNotifications.ts:88-96 | The entries left unread are the unread ones with another id, so the count never grows |
| NotificationLists.EquivalentFilters | src/components/notifications/NotificationCenter.tsx:135-148 | Filters with the same test give the same list |
| Notifications.ToNotice | src/hooks/useNotifications.ts:38-77 | A connection request becomes a "connection" notice. Its message is `fromUsername + " wants to connect with you"`. A like becomes a "like" notice naming the user and the post. A message event becomes a "message" notice: its message is `fromUsername + ": " + messagePreview` and its actionUrl is `"/messages/" + fromUsername`. A security alert copies its message. The mapped events are stamped with the current time; `notification:new` passes its data through |
| Notifications.Received | src/hooks/useNotifications.ts:26-35 | The id is the decimal clock value and the entry is unread |
| Notifications.ReceivedIds | src/hooks/useNotifications.ts:29 | Two notifications share an id iff they arrive in the same millisecond |
| Notifications.ReceivedCount | src/hooks/useNotifications.ts:26-35 | A received entry goes in front of the unchanged list, and the unread count grows by 1 |
| Notifications.EffectAsWritten | src/hooks/useNotifications.ts:20-38 | As written, the effect returns early only for a falsy value and otherwise calls `socket.on`, which throws when the value has no `on` member |
| Notifications.EffectAsWrittenThrows | src/hooks/useNotifications.ts:20-38 | The hook's result object always passes the guard, and the first registration then throws |
| Notifications.NotificationsSubscribed | src/hooks/useNotifications.ts:38-77 | The five handlers are registered, one per event |
| Notifications.NotificationsCleanup | src/hooks/useNotifications.ts:79-85 | It removes its own `notification:new` handler and every listener of the four other events |
| Notifications.CleanupAfterSubscribe | src/hooks/useNotifications.ts:38-85 | After mount and cleanup, the `notification:new` listeners are as before, and the four other events have no listener left, other components' included |
| Notifications.Subscribe | src/hooks/useNotifications.ts:22-77 | Corrected effect: nothing happens without a socket. Otherwise the five registrations are made on the socket itself |
| Notifications.Unsubscribe | src/hooks/useNotifications.ts:79-85 | The registry becomes `NotificationsCleanup` of the old one |
| Notifications.NotificationsHook.constructor | src/hooks/useNotifications.ts:19 | Starts with an empty list |
| Notifications.NotificationsHook.Receive | src/hooks/useNotifications.ts:26-77 | The event's notice is prepended, unread, with the clock id |
| Notifications.NotificationsHook.MarkAsRead | src/hooks/useNotifications.ts:88-96 | The list becomes `MarkAsRead` of the old list |
| Notifications.NotificationsHook.MarkAllAsRead | src/hooks/useNotifications.ts:98-102 | The list becomes `MarkAllAsRead` of the old list, and the unread count is 0 |
| Notifications.NotificationsHook.DeleteNotification | src/hooks/useNotifications.ts:104-106 | The list becomes `RemoveId` of the old list |
| Notifications.NotificationsHook.AddNotification | src/hooks/useNotifications.ts:108-116 | The entry is prepended and the unread count grows by 1 |
| NotificationCenter.TabKind | src/components/notifications/NotificationCenter.tsx:139-144 | The notification type each type tab shows |
| NotificationCenter.Shows | src/components/notifications/NotificationCenter.tsx:135-148 | The `switch` test of a tab; `VisibleAll`, `VisibleUnread` and `VisibleKind` state what each tab keeps |
| NotificationCenter.Visible | src/components/notifications/NotificationCenter.tsx:135-148 | The filtered list is always a subsequence of the full list |
| NotificationCenter.VisibleAll | src/components/notifications/NotificationCenter.tsx:146-147 | "all" shows the full list |
| NotificationCenter.VisibleUnread | src/components/notifications/NotificationCenter.tsx:137-138 | "unread" keeps exactly the `!read` entries, and its length is the unread count |
| NotificationCenter.VisibleKind | src/components/notifications/NotificationCenter.tsx:139-144 | Each type tab keeps exactly the entries of its type, with their multiplicity |
| NotificationCenter.FloorDiv | src/components/notifications/NotificationCenter.tsx:125-127 | `Math.floor(a / d)` is the q with `d*q <= a < d*(q+1)` |
| NotificationCenter.FormatTimestamp | src/components/notifications/NotificationCenter.tsx:122-133 | "Just now" iff the difference is below one minute |
| NotificationCenter.FormatMinutes | src/components/notifications/NotificationCenter.tsx:129-130 | Below an hour the label is "Nm ago", where N is the floored number of minutes |
| NotificationCenter.FormatHours | src/components/notifications/NotificationCenter.tsx:131 | Below a day the label is "Nh ago", where N is the floored number of hours |
| NotificationCenter.FormatDays | src/components/notifications/NotificationCenter.tsx:132 | From a day on the label is "Nd ago", where N is the floored number of days |
| NotificationCenter.SampleNotifications | src/components/notifications/NotificationCenter.tsx:48-98 | The page starts with five sample entries |
| NotificationCenter.SampleUnread | src/components/notifications/NotificationCenter.tsx:48-98 | Two of them are unread |
| NotificationCenter.Center.constructor | src/components/notifications/NotificationCenter.tsx:42-46 | Starts with an empty list and the "all" tab |
| NotificationCenter.Center.LoadSamples | src/components/notifications/NotificationCenter.tsx:48-98 | The mount effect installs the samples |
| NotificationCenter.Center.Receive | src/components/notifications/NotificationCenter.tsx:100-102 | A socket notification is prepended as received |
| NotificationCenter.Center.MarkAsRead | src/components/notifications/NotificationCenter.tsx:104-108 | The list becomes `MarkAsRead` of the old list |
| NotificationCenter.Center.MarkAllAsRead | src/components/notifications/NotificationCenter.tsx:110-112 | Everything is read, so the unread count is 0 |
| NotificationCenter.Center.ClearNotification | src/components/notifications/NotificationCenter.tsx:114-116 | The list becomes `RemoveId` of the old list |
| NotificationCenter.Center.ClearAllRead | src/components/notifications/NotificationCenter.tsx:118-120 | Exactly the unread entries remain. The unread count is unchanged and equals the length |
| NotificationCenter.Center.SetFilter | src/components/notifications/NotificationCenter.tsx:43-45 | Only the tab changes |
| Forms.AwaitThenNavigate | src/components/auth/SignupForm.tsx:52-55 | The request is sent iff the schema holds. "/feed" is reached iff the request also succeeds. A failed request rejects and does not navigate |
| Forms.TryThenNavigate | src/components/LoginForm.tsx:31-38 | The same, except a failure is caught: no navigation and no rejection |
| Forms.CatchingDropsRejection | src/components/LoginForm.tsx:31-38 | Catching only drops the rejection |
| AuthSignupForm.ValidUsername | src/components/auth/SignupForm.tsx:21-28 | The username rules; `ValidUsernameIff` states them plainly |
| AuthSignupForm.ValidPassword | src/components/auth/SignupForm.tsx:30-36 | The password rules; `StrengthSingleLine` and `DigitAfterLineBreak` state them |
| AuthSignupForm.ValidConfirm | src/components/auth/SignupForm.tsx:37-39 | The confirmation rule; `ValidConfirmIff` states it |
| AuthSignupForm.Valid | src/components/auth/SignupForm.tsx:20-40 | The whole schema: all three rules |
| AuthSignupForm.FirstLine | src/components/auth/SignupForm.tsx:32-35 | The text before the first line terminator, which is as far as `.*` reaches |
| AuthSignupForm.ValidUsernameIff | src/components/auth/SignupForm.tsx:21-28 | A username is accepted iff it has 3 to 20 characters (20 included), each an ASCII letter, digit or `_` |
| AuthSignupForm.WordCharsAreBmp | src/components/auth/SignupForm.tsx:22-23 | On such a username, `length` counts characters |
| AuthSignupForm.StrengthSingleLine | src/components/auth/SignupForm.tsx:32-35 | On a one-line password the pattern requires an ASCII lowercase letter, an uppercase letter and a digit |
| AuthSignupForm.DigitAfterLineBreak | src/components/auth/SignupForm.tsx:32-35 | A digit after a line break does not count |
| AuthSignupForm.ExampleUsername | src/components/auth/SignupForm.tsx:21-28 | "jane_doe" is accepted |
| AuthSignupForm.ExamplePassword | src/components/auth/SignupForm.tsx:30-36 | "Secret1" is accepted |
| AuthSignupForm.ExampleAccepted | src/components/auth/SignupForm.tsx:20-40 | A complete form is accepted |
| AuthSignupForm.ValidConfirmIff | src/components/auth/SignupForm.tsx:37-39 | The confirmation is accepted iff it is non-empty and equal to the password |
| AuthSignupForm.Submit | src/components/auth/SignupForm.tsx:52-55 | The register request is sent iff the form is valid, and then only with a valid username and password. "/feed" is reached iff the request also succeeds. The handler rejects iff the request fails |
| AuthLoginForm.Valid | src/components/auth/LoginForm.tsx:21-26 | The schema; `ValidIff` states it |
| AuthLoginForm.ValidIff | src/components/auth/LoginForm.tsx:21-26 | Valid iff the username is non-empty and the password is at least 6 UTF-16 units long |
| AuthLoginForm.PasswordBoundary | src/components/auth/LoginForm.tsx:23-25 | Five characters are rejected and six are accepted |
| AuthLoginForm.Submit | src/components/auth/LoginForm.tsx:37-40 | The login request is sent iff the username is non-empty and the password has at least 6 UTF-16 units. "/feed" is reached iff the login also succeeds. The handler rejects iff the login fails |
| SimpleSignupForm.ValidConfirm | src/components/SignupForm.tsx:29-31 | The confirmation rule; `ValidConfirmIff` states it |
| SimpleSignupForm.Valid | src/components/SignupForm.tsx:26-32 | The schema; `ValidIff` states it |
| SimpleSignupForm.ValidConfirmIff | src/components/SignupForm.tsx:29-31 | Allowing "" in `oneOf` changes nothing under `required`: this is the same rule as the newer form's |
| SimpleSignupForm.ValidIff | src/components/SignupForm.tsx:26-32 | Valid iff the username and password are non-empty and the confirmation equals the password |
| SimpleSignupForm.WeakerThanAuthForm | src/components/SignupForm.tsx:26-32 | Whatever the newer sign-up form accepts, this one accepts too |
| SimpleSignupForm.Submit | src/components/SignupForm.tsx:33-36 | The request is sent iff both fields are non-empty and the confirmation equals the password. "/feed" is reached iff the register also succeeds. The handler rejects iff it fails |
| SimpleLoginForm.Valid | src/components/LoginForm.tsx:27-30 | Both fields are required |
| SimpleLoginForm.Submit | src/components/LoginForm.tsx:27-38 | The request is sent iff both fields are non-empty. "/feed" is reached iff the login also succeeds. Nothing is ever rethrown |
| SimpleLoginForm.FailedLoginStays | src/components/LoginForm.tsx:35-37 | A failed login stays on the form and throws nothing |
| Text.TrimEmpty | src/components/messages/Message.tsx:64 | `trim()` is empty iff every character is ECMAScript white space |
| Text.JoinSplit | src/hooks/usePosts.ts:37 | Joining the pieces of a split with the same separator gives back the text |
| Text.NatToStringRoundTrip | src/hooks/useNotifications.ts:29 | The decimal rendering of a clock value reads back as that value |
| Text.Utf16Length | src/components/auth/SignupForm.tsx:22-23 | `length` counts UTF-16 code units, at least one per character |

## Left out

- React rendering, the JSX layout and the order React runs effects in are not modelled. Effects are methods the caller invokes in order. A re-run is a cleanup followed by a mount with a new `instance` number.
- `src/hooks/socket-provider.tsx:11-39` both depends on `socket` and sets it. That makes React re-run the effect after every mount. This scheduling loop is outside the model.
- Both `src/hooks/useSocket.ts` and `src/hooks/useSocket.tsx` exist. Vite's default extension order tries `.ts` before `.tsx`, so `@/hooks/useSocket` resolves to `useSocket.ts`.
  - `useNotifications.ts` and `Message.tsx` therefore get the simpler hook (`SocketHook`), whose return value has the same shape as the provider's.
  - `src/main.tsx:9` imports `SocketProvider` from `./hooks/useSocket`, which only `useSocket.tsx` exports. Under that resolution this import has no matching export either, so the entry module does not link.
  - `NotificationCenter.tsx:27` imports `useSocketEvent`, which only `useSocket.tsx` exports. Under that resolution the named import has no matching export, so the module does not link. The model reads the import as the `useSocket.tsx` helper it evidently means: `SocketContext.SubscribeEvent` models that helper, and `NotificationCenter.Center.Receive` models the listener it registers. The failed link is not modelled.
- The HTTP calls themselves (axios, the `post.api` / `auth.api` wrappers) are not modelled. Their outcome is a `Result` parameter. The 10-second timeout is a constant with no clock behind it.
- `Cookies.get`, `localStorage` and `window.dispatchEvent` are not modelled. They become, in turn, an `Option<string>` parameter, a map, and a log of dispatched event names.
- react-query internals are not modelled: `cancelQueries`, refetch timing, retry delays, garbage collection. A retry policy is a predicate, and `Attempts` counts the attempts it allows.
- Socket.io transport, buffering and the server's side are not modelled. An incoming event is a method call.
- `Date.now()` and `new Date()` are not modelled. Time is an integer parameter in milliseconds, and a timestamp is a number, not a `Date` object.
- `console.log` / `console.error` are not modelled.
- Formik's error display, touched state and `isSubmitting` are not modelled. Neither are Yup's messages.
- Notifications.ToNotice: the event payloads are typed `any` in the source. The model assumes the fields it reads are present strings. A missing `fromUsername` would read as "undefined" in the text.
- Notifications.NotificationsHook.Receive: `handleNewNotification` and the event mapping each read the clock. The model uses one `now` for both.
- SocketContext.SocketState.Mount: closures are compared by name and effect-run number. Two closures of one effect run with the same name cannot be told apart.
- Posts.SplitHashtags has no contract of its own. Its properties are the lemmas `SplitHashtagsSpec`, `SplitHashtagsContent`, `FilterSplitsInTwo` and `NoHashtagsKeepsContent`.

## Findings

| source | as written | input that shows it | evidently intended | confidence | as-written member | corrected member |
|---|---|---|---|---|---|---|
| src/hooks/useNotifications.ts:20-38 | `const socket = useSocket()` names the hook's state object `{ socket, isConnected, error }`. The `!socket` guard never fires, and `socket.on` is not a function, so the effect throws on every mount | any mount of the hook, with or without a connected socket | destructure `const { socket } = useSocket()`. Do nothing without a socket; otherwise register the five listeners on the socket | high (not executed) | Notifications.EffectAsWrittenThrows | Notifications.Subscribe |
| src/services/utils.ts:33-37 | `error.response?.data.code` guards `response` but not `data`, so an axios error whose response has null `data` throws a TypeError inside the error handler | `AxiosError` with `response = { status: 500, data: null }` | treat a missing body like a body without code and message: 500 or the status, "", "Something went wrong" | medium (not executed) | ApiErrors.NullBodyThrows | ApiErrors.HandleApiErr |
| src/components/messages/Message.tsx:52-54 | The cleanup removes only the `chat:message` listener. The `chat:messages` listener of each effect run stays on the socket, so after a re-run every history batch is put in front once per stale listener | in development StrictMode, the chat screen mounting while the shared socket of the `useSocket.tsx` provider is already set: the `[socket]` effect runs, is cleaned up and runs again on that same socket, and the next `chat:messages` batch is put in front twice. Under the `useSocket.ts` reading the socket starts as null, the effect runs once on each created socket, and that socket is disconnected before its leaked listener can fire, so nothing is doubled | remove both listeners in the cleanup | medium (not executed) | Messages.RemountDoublesHistory | Messages.ChatCleanupRestores |

# QR queue front end: realtime sync layer, in Dafny

This project models the client side of a QR-code queueing web app (one React page per view, one SignalR hub).

**The realtime client.** `QueueHubClient` in src/realtime/queueHub.ts:
- creates one SignalR connection lazily;
- records the rooms (`site|room` keys) and sites it has joined;
- fans every `QueueUpdated` notification out to the registered listeners;
- after a reconnect, replays the recorded joins: rooms first, then sites, ignoring each failure.

**The views.** Each of them keeps a small state machine inside a React effect:
- **TV screen** (TvSitePage): subscribes to a site. Its 5 s staleness tick only resets the clock and never refreshes, because the call on line 101 is inside a `//` comment.
- **Staff view** (StaffRoomPage): subscribes to a room, checks every 5 s, and refreshes when no update has arrived for more than 30 s.
- **Ticket view** (MyTicketPage): does the same every 10 s for the followed ticket. It also stores that ticket.
- **Customer view** (CustomerRoomPage): has no timer, and its listener has no mounted guard.

**The pure helpers:**
- the wait estimates and the Vietnamese labels;
- the localStorage key scheme;
- `trimTrailingSlash` and the API base address;
- `safeNumber` and `addMinutes`;
- the feedback form's validation and comment normalisation;
- the QR room URL.

**How the model is built.**
- *JavaScript values.* A `Set` is a duplicate-free sequence in insertion order (`OrderedSet`). A JavaScript number is an integer or one of NaN, +Infinity and -Infinity (`Time.JsNumber`). Strings are `seq<char>`. `encodeURIComponent` is a function parameter `enc` that is injective and never emits '/' or ':' (`JsString.IsUriComponentEncoder`).
- *The SignalR connection* is a class holding its state (`HubConnection`). Whether `start()` and each `invoke(...)` succeed is a parameter. Every invoke is appended to a ghost trace. While the connection is Connecting, the states observed by the 100 ms polls are a parameter too (`ConnectEnv`).
- *Each view's effect* is a class. The constructor is the mount; the events are the methods:
  - `Tick(now)`: the interval firing;
  - `Notify(now, payload)`: the registered listener called;
  - `Subscribe`: the asynchronous join completing;
  - `Unmount`: the effect's cleanup.

  Time is an integer `now` in milliseconds. `refreshes` records when the view's `refresh()` ran.
- *The failsafe timer*: `Failsafe.TimerRefreshes` and `Failsafe.ClockAfter` give the effect of a whole run of ticks. `TimerRefreshesAppend` shows that one `Tick` call after another composes into them.

## Model

| member | source | states |
|---|---|---|
| `QueueHub.QueueHubClient.EnsureConnection` | src/realtime/queueHub.ts:22-62 | The first call builds a connection to `apiBaseUrl + "/hubs/queue"`; every later call returns that same object; the joined sets and listeners are untouched |
| `QueueHub.WaitOutcomeMeaning` | src/realtime/queueHub.ts:69-89 | Waiting on a Connecting connection resolves iff the first settled poll sees Connected, rejects 'Connection failed' iff it sees Disconnected, and rejects 'Connection timeout' iff no poll in 10 s sees a settled state |
| `QueueHub.AwaitTransition` | src/realtime/queueHub.ts:72-88 | The 100 ms poll loop settles exactly as `WaitOutcome` of the observed states |
| `QueueHub.QueueHubClient.Start` | src/realtime/queueHub.ts:64-95 | Connected: returns with no effect; Connecting: settles as the poll wait; any other state (Reconnecting included): calls `conn.start()` exactly once. Never invokes a server method; joined sets and listeners unchanged |
| `QueueHub.StartPassLeavesConnected` | src/realtime/queueHub.ts:64-66 | A `start()` that resolves leaves the connection Connected, so the `start()` inside a following join returns at once |
| `QueueHub.QueueHubClient.OnQueueUpdated` | src/realtime/queueHub.ts:97-100 | Adds the listener to the set (no-op if present) and returns the unsubscriber for exactly that listener |
| `QueueHub.QueueHubClient.Unsubscribe` | src/realtime/queueHub.ts:99 | Removes exactly that listener; a second call is a no-op (`OrderedSet.Delete`) |
| `QueueHub.QueueHubClient.JoinRoom` | src/realtime/queueHub.ts:102-109 | Invokes JoinRoom only if `start()` resolves, and records `site|room` only if that invoke succeeds; a failed start or invoke leaves `joinedRooms` unchanged |
| `QueueHub.QueueHubClient.JoinSite` | src/realtime/queueHub.ts:111-118 | As JoinRoom for sites; joining a site twice issues a second invoke but leaves `joinedSites` unchanged |
| `QueueHub.QueueHubClient.Dispatch` | src/realtime/queueHub.ts:32-35 | The calls the handler makes are `Deliveries(queueListeners, payload)`: one per registered listener, in insertion order, all with the same payload |
| `QueueHub.DeliveredExactlyOnce` | src/realtime/queueHub.ts:34 | Each registered listener is called exactly once per notification, an unregistered one never |
| `QueueHub.QueueHubClient.OnReconnected` | src/realtime/queueHub.ts:37-58 | The invokes made are exactly `ReplayCalls(joinedRooms, joinedSites)`, whatever each one's outcome; the state and the joined sets are unchanged |
| `QueueHub.HubConnection.RejoinRooms` | src/realtime/queueHub.ts:40-49 | The room loop invokes `RejoinRoomCalls(rooms)`; a failed invoke does not stop it |
| `QueueHub.HubConnection.RejoinSites` | src/realtime/queueHub.ts:51-57 | The site loop invokes JoinSite once per recorded site, in order |
| `QueueHub.HubConnection.Rejoin` | src/realtime/queueHub.ts:41-48 | One recorded key: JoinRoom for its two pieces when both are non-empty, else nothing |
| `QueueHub.ReplayRoomsBeforeSites` | src/realtime/queueHub.ts:40-57 | In the replay no JoinRoom follows a JoinSite |
| `QueueHub.ReplayRejoinsEveryRoom` | src/realtime/queueHub.ts:40-49 | Every recorded room with non-empty, '\|'-free slugs is re-joined |
| `QueueHub.RejoinRoomCallsInOrder` | src/realtime/queueHub.ts:40-44 | When every key parses, the i-th replayed JoinRoom is the i-th recorded room |
| `QueueHub.ReplayRejoinsEverySite` | src/realtime/queueHub.ts:51-53 | Every recorded site is re-joined |
| `QueueHub.RejoinSiteCalls` | src/realtime/queueHub.ts:51-57 | One JoinSite per recorded site, the i-th for the i-th site |
| `QueueHub.RoomKeyRoundTrip` | src/realtime/queueHub.ts:41-42 | Splitting `site\|room` on '\|' gives back (site, room) when both are non-empty and '\|'-free; a key with an empty piece is skipped |
| `QueueHub.PipeInRoomSlugRejoinsAnotherRoom` | src/realtime/queueHub.ts:107 | A room slug containing '\|' is replayed as the wrong room: ("a", "b\|c") rejoins ("a", "b") |
| `QueueHub.HubModule.GetQueueHub` | src/realtime/queueHub.ts:121-126 | The first call creates an empty client, and every call returns that same client |
| `QueueHub.HubModule.constructor` | src/config.ts:5-8 | The client's base address is `config.apiBaseUrl` |
| `OrderedSet.Add` | src/realtime/queueHub.ts:98 | `Set.add`: membership gains x, no duplicates, existing order kept, no-op when present |
| `OrderedSet.Delete` | src/realtime/queueHub.ts:99 | `Set.delete`: membership loses exactly x, no duplicates, no-op when absent, one shorter when present |
| `OrderedSet.DeleteKeepsOrder` | src/realtime/queueHub.ts:99 | Deleting a present element keeps every other element, in its order: the result is the sequence with that one position cut out |
| `Failsafe.TimerRefreshesSpaced` | src/pages/StaffRoomPage.tsx:52-65 | With increasing tick times, timer refreshes happen at tick times, each more than 30 s after the previous one (the first more than 30 s after the clock), and the clock ends at the last |
| `Failsafe.TimerRefreshesAppend` | src/pages/MyTicketPage.tsx:61-69 | A run of ticks split in two fires as the first part followed by the second from the first part's clock |
| `Failsafe.NoFiringWithinThirtySeconds` | src/pages/StaffRoomPage.tsx:58 | Ticks no more than 30 s after the clock neither refresh nor move it |
| `Failsafe.ClockAfter` | src/pages/StaffRoomPage.tsx:58-61 | The clock after a run of ticks is the starting clock or one of the tick times |
| `Failsafe.FirstStaffRefreshAt35s` | src/pages/StaffRoomPage.tsx:52-65 | With exact 5 s ticks the 30 s tick skips (strict `>`) and the first failsafe refresh is at 35 s |
| `Failsafe.FirstTicketRefreshAt40s` | src/pages/MyTicketPage.tsx:61-69 | With exact 10 s ticks the first failsafe refresh is at 40 s |
| `Failsafe.StaffRefreshesEvery35s` | src/pages/StaffRoomPage.tsx:52-65 | Without notifications the staff view refreshes every 35 s |
| `Failsafe.TicketRefreshesEvery40s` | src/pages/MyTicketPage.tsx:61-69 | Without notifications the ticket view refreshes every 40 s |
| `Failsafe.ExactTicksSplit` | src/pages/StaffRoomPage.tsx:52 | `n + m` interval ticks are the first `n` followed by `m` more from `start + n*period` |
| `Failsafe.MatchesRoomIsNarrower` | src/pages/MyTicketPage.tsx:80 | A room match implies a site match; a payload without roomSlug matches the TV filter but never a room filter |
| `TvSitePage.TvSiteEffect.constructor` | src/pages/TvSitePage.tsx:80-106 | Empty siteSlug: nothing happens. Otherwise the page is mounted, the interval set, the clock at the mount time, exactly one refresh, no listener yet |
| `TvSitePage.TvSiteEffect.Tick` | src/pages/TvSitePage.tsx:95-103 | A stale clock is reset to `now` (as `ClockAfter`), and nothing is ever refreshed |
| `TvSitePage.TvSiteEffect.Notify` | src/pages/TvSitePage.tsx:112-118 | Same site, any room: the clock resets and, while mounted, one refresh; other sites change nothing |
| `TvSitePage.TvSiteEffect.SafeRefresh` | src/pages/TvSitePage.tsx:87-90 | Refreshes only while mounted |
| `TvSitePage.TvSiteEffect.Refresh` | src/pages/TvSitePage.tsx:67-78 | Each `refresh()` call is recorded at its time, with the effect's closure state untouched |
| `TvSitePage.TvSiteEffect.Subscribe` | src/pages/TvSitePage.tsx:108-123 | `start()`, then `joinSite`, then the listener is registered; if either fails, no listener and `unsub` stays null. The connection is kept once built; the hub's state is `StartState` of the old one and `conn.start()` runs at most once (the second `start()` finds Connected) |
| `TvSitePage.TvSiteEffect.Unmount` | src/pages/TvSitePage.tsx:125-129 | Unmounted, interval cleared, the listener removed iff `unsub` was set; nothing else in the hub changes |
| `TvSitePage.TileOmitsServedTicket` | src/pages/TvSitePage.tsx:12-15 | The tile's estimate is waiting × service minutes (fallback 10), exactly one service time below the card's when a ticket is being served |
| `TvSitePage.RoomTileEstimateMinutes` | src/pages/TvSitePage.tsx:13-14 | waiting × service minutes, a non-finite waiting count giving 0 and non-finite service minutes counting as 10 |
| `TvSitePage.RoomTileEta` | src/pages/TvSitePage.tsx:15 | The tile's eta is `now` plus the estimate in minutes, never before `now` for a non-negative estimate |
| `StaffRoomPage.StaffRoomEffect.constructor` | src/pages/StaffRoomPage.tsx:35-68 | Empty site or room: nothing happens; otherwise mounted, interval set, clock at mount time, one refresh started (loading, no error, no data yet) |
| `StaffRoomPage.StaffRoomEffect.Tick` | src/pages/StaffRoomPage.tsx:52-65 | Refreshes and resets the clock exactly as `TimerRefreshes`/`ClockAfter` of one tick; nothing once unmounted |
| `StaffRoomPage.StaffRoomEffect.Notify` | src/pages/StaffRoomPage.tsx:73-79 | Same site and room: the clock resets and, while mounted, one refresh; anything else changes nothing |
| `StaffRoomPage.StaffRoomEffect.SafeRefresh` | src/pages/StaffRoomPage.tsx:42-46 | Refreshes only while mounted |
| `StaffRoomPage.StaffRoomEffect.Refresh` | src/pages/StaffRoomPage.tsx:22-24 | A refresh is recorded, the view shows loading and its error is cleared; the data stays until the load settles |
| `StaffRoomPage.StaffRoomEffect.LoadSettles` | src/pages/StaffRoomPage.tsx:25-32 | The loaded response replaces the data; a failure keeps the data and shows the message or 'Không tải được dữ liệu'; loading ends |
| `StaffRoomPage.ActionAfterLoad` | src/pages/StaffRoomPage.tsx:93-104 | After a successful first load, an action's status is merged into the loaded room, keeping its other fields |
| `StaffRoomPage.StaffRoomEffect.Subscribe` | src/pages/StaffRoomPage.tsx:70-83 | `joinRoom` then the listener; a failed join leaves no listener, so only the timer refreshes. The connection is kept once built, the hub's state is `StartState` of the old one and `conn.start()` runs only from a state other than Connected/Connecting |
| `StaffRoomPage.TwoViewsShareOneConnection` | src/realtime/queueHub.ts:22-24 | Two views joining one after the other use one connection. Once the first join's `start()` resolved, the second join makes no `conn.start()` call and its outcome is that of its own JoinRoom invoke, accepted or rejected; both invokes reach the server in order |
| `StaffRoomPage.StaffRoomEffect.Unmount` | src/pages/StaffRoomPage.tsx:85-89 | Unmounted, interval cleared, the listener removed iff it was registered |
| `StaffRoomPage.StaffRoomEffect.RunAction` | src/pages/StaffRoomPage.tsx:93-104 | Success: only `data.status` replaced and null data stays null, error cleared. Failure: data unchanged, error is the message or 'Thao tác thất bại'. Loading ends false |
| `StaffRoomPage.WithStatus` | src/pages/StaffRoomPage.tsx:98 | The merge replaces the status and keeps siteSlug, roomSlug and myTicket; none stays none |
| `StaffRoomPage.WithStatusLastWins` | src/pages/StaffRoomPage.tsx:98 | Two merges keep only the later status |
| `MyTicketPage.SelectTicketId` | src/pages/MyTicketPage.tsx:20-24 | The query's ticketId when present, otherwise the stored one |
| `MyTicketPage.EmptyQueryHidesStoredTicket` | src/pages/MyTicketPage.tsx:22 | `??` only falls through on null: an empty query ticketId hides the stored one, so the page follows no ticket |
| `MyTicketPage.MyTicketEffect.constructor` | src/pages/MyTicketPage.tsx:44-72 | Active iff site, room and ticketId are all non-empty; then the ticket is stored for (site, room) first, with one refresh and the clock at mount time; inactive: storage untouched |
| `MyTicketPage.MyTicketEffect.Refresh` | src/pages/MyTicketPage.tsx:30-31 | No-op without a ticket |
| `MyTicketPage.MyTicketEffect.SafeRefresh` | src/pages/MyTicketPage.tsx:53-56 | Refreshes only while mounted and with a ticket |
| `MyTicketPage.MyTicketEffect.Tick` | src/pages/MyTicketPage.tsx:61-69 | Refreshes and resets the clock exactly as `TimerRefreshes`/`ClockAfter` of one tick |
| `MyTicketPage.MyTicketEffect.Notify` | src/pages/MyTicketPage.tsx:79-85 | Same site and room: clock reset and, while mounted, one refresh; otherwise nothing |
| `MyTicketPage.MyTicketEffect.Subscribe` | src/pages/MyTicketPage.tsx:74-89 | `start()`, `joinRoom`, then the listener; any failure leaves no listener. The connection is kept once built; the hub's state is `StartState` of the old one and `conn.start()` runs at most once (the second `start()` finds Connected) |
| `MyTicketPage.MyTicketEffect.Unmount` | src/pages/MyTicketPage.tsx:91-95 | Unmounted, interval cleared, the listener removed iff it was registered |
| `MyTicketPage.MyTicketEffect.ClearSavedTicket` | src/pages/MyTicketPage.tsx:113-116 | Removes only this room's stored ticket (customer id kept) and navigates to the unencoded room path |
| `MyTicketPage.RoomPath` | src/pages/MyTicketPage.tsx:115 | `/s/`, the site, `/r/`, the room, with the slugs as given (not encoded) |
| `MyTicketPage.RoomPathSegments` | src/pages/MyTicketPage.tsx:115 | With '/'-free slugs the path splits into exactly "", "s", site, "r", room |
| `CustomerRoomPage.TierVi` | src/pages/CustomerRoomPage.tsx:15-17 | 'Normal' becomes 'Thường', any other tier is unchanged |
| `CustomerRoomPage.DisplayedCustomerId` | src/pages/CustomerRoomPage.tsx:32 | The logged-in customer's id when present, otherwise the stored id |
| `CustomerRoomPage.LoggedInCustomerWins` | src/pages/CustomerRoomPage.tsx:32 | Login overrides storage; without login an id shows iff one is stored |
| `CustomerRoomPage.CustomerRoomEffect.constructor` | src/pages/CustomerRoomPage.tsx:49-55 | Non-empty slugs: one refresh started on mount (loading, no error) and no timer; otherwise nothing; no customer logged in |
| `CustomerRoomPage.CustomerRoomEffect.Refresh` | src/pages/CustomerRoomPage.tsx:36-38 | A refresh is recorded, the view shows loading and its error is cleared; the data stays until the load settles |
| `CustomerRoomPage.CustomerRoomEffect.LoadSettles` | src/pages/CustomerRoomPage.tsx:39-46 | The loaded response replaces the data; a failure keeps the data and shows the message or 'Không tải được dữ liệu'; loading ends |
| `CustomerRoomPage.CustomerRoomEffect.HandleLogin` | src/pages/CustomerRoomPage.tsx:76-85 | Success: the customer is kept and its id stored, so it is the id the page shows; failure: storage unchanged and the message or 'Đăng nhập thất bại'; other keys kept |
| `CustomerRoomPage.CustomerRoomEffect.Notify` | src/pages/CustomerRoomPage.tsx:60-64 | Same site and room: one refresh started (loading, error cleared), with no mounted guard; anything else changes nothing |
| `CustomerRoomPage.CustomerRoomEffect.Subscribe` | src/pages/CustomerRoomPage.tsx:57-68 | `joinRoom` then the listener; a failed join leaves no listener. The connection is kept once built, the hub's state is `StartState` of the old one and `conn.start()` runs only from a state other than Connected/Connecting |
| `CustomerRoomPage.CustomerRoomEffect.Unmount` | src/pages/CustomerRoomPage.tsx:70-72 | Only removes the listener when `unsub` is already set |
| `CustomerRoomPage.LateJoinAfterUnmount` | src/pages/CustomerRoomPage.tsx:55-72 | Cleanup before the join resolves: the listener registered afterwards stays in the hub and a matching notification still refreshes the unmounted page |
| `CustomerRoomPage.CustomerRoomEffect.HandleTakeTicket` | src/pages/CustomerRoomPage.tsx:87-104 | Empty slug: nothing sent. Otherwise the request names the room and the customer id the page shows (`DisplayedCustomerId`). Success: the ticket is stored for (site, room) and the page navigates to its ticket page. Failure: nothing stored, error is the message or 'Lấy số thất bại' |
| `CustomerRoomPage.TicketPagePath` | src/pages/CustomerRoomPage.tsx:98 | The room path `clearSavedTicket` returns to, then `/mine?ticketId=` and the encoded ticket id |
| `CustomerRoomPage.TicketPagePathNamesTicket` | src/pages/CustomerRoomPage.tsx:98 | Within one room, two tickets get the same ticket page iff they are the same ticket |
| `RoomStatusCard.TicketStatusVi` | src/components/RoomStatusCard.tsx:5-18 | The four statuses get their Vietnamese labels; any other string is returned unchanged |
| `RoomStatusCard.StatusLabelsDistinct` | src/components/RoomStatusCard.tsx:5-18 | The four labels are pairwise distinct and differ from the status names |
| `RoomStatusCard.ServiceMinutes` | src/components/RoomStatusCard.tsx:29 | `serviceMinutes` when finite, else 10 |
| `RoomStatusCard.ServingSlot` | src/components/RoomStatusCard.tsx:30 | 1 iff `currentNumber` is truthy (null and 0 are not), else 0 |
| `RoomStatusCard.NewTicketEstimateMinutes` | src/components/RoomStatusCard.tsx:30 | One service time per waiting ticket, plus one more when a ticket is being served |
| `RoomStatusCard.EstimateCountsServedTicket` | src/components/RoomStatusCard.tsx:30 | Estimate = waiting × minutes, plus one service time iff a ticket is being served |
| `RoomStatusCard.EstimateWithoutWaitingCount` | src/components/RoomStatusCard.tsx:30 | A non-finite waiting count counts as zero |
| `RoomStatusCard.EstimateMonotone` | src/components/RoomStatusCard.tsx:30 | With non-negative inputs the estimate is non-negative and non-decreasing in the waiting count |
| `RoomStatusCard.NewTicketEstimateTime` | src/components/RoomStatusCard.tsx:31 | `status.now` plus the estimate in minutes |
| `RoomStatusCard.EstimateTimeNotBeforeNow` | src/components/RoomStatusCard.tsx:31 | The estimated time is never before `status.now` |
| `Storage.TicketKeyIsNotCustomerKey` | src/lib/storage.ts:1-5 | No ticket key equals the customer-id key |
| `Storage.TicketKey` | src/lib/storage.ts:3-5 | The key is the `qrqueue:ticketId:` prefix followed by `site:room` |
| `Storage.TicketKeyInjective` | src/lib/storage.ts:3-5 | With ':'-free site slugs, equal ticket keys mean equal (site, room) |
| `Storage.TicketKeysCollideAcrossColon` | src/lib/storage.ts:3-5 | ("a:b", "c") and ("a", "b:c") share a key |
| `Storage.SetTicketId` | src/lib/storage.ts:21-23 | Afterwards `getTicketId` returns the ticket; every other key and the customer id are kept |
| `Storage.ClearTicketId` | src/lib/storage.ts:24-26 | Afterwards `getTicketId` returns null; every other key and the customer id are kept |
| `Storage.SetTicketLeavesOtherPairs` | src/lib/storage.ts:21-22 | Setting one pair leaves every pair with a different key unchanged |
| `Storage.SetCustomerId` | src/lib/storage.ts:11-13 | Afterwards `getCustomerId` returns the id; every other key is kept |
| `Storage.ClearCustomerId` | src/lib/storage.ts:14-16 | Afterwards `getCustomerId` returns null; every other key is kept |
| `Storage.LocalStorage.GetItem` | src/lib/storage.ts:8-10 | The stored value iff the key is present, else null |
| `Storage.GetCustomerId` | src/lib/storage.ts:8-10 | The stored customer id iff the customer key is present, else null |
| `Storage.GetTicketId` | src/lib/storage.ts:18-20 | The ticket stored under the pair's key iff that key is present, else null |
| `Config.TrimTrailingSlash` | src/config.ts:1-3 | Drops exactly one trailing '/': `r + "/" == url` when url ends in '/', else unchanged; always a prefix at most one shorter |
| `Config.TrailingSlashSurvivesOnlyDoubled` | src/config.ts:2 | The result ends in '/' iff the input ended in "//" |
| `Config.ApiBaseUrl` | src/config.ts:6 | 'http://localhost:5000' when unset, else the trimmed setting |
| `Config.ApiBaseUrlHasNoSingleTrailingSlash` | src/config.ts:6 | A setting not ending in "//" never yields a base ending in '/' |
| `Config.DefaultApiBaseUrlUnchanged` | src/config.ts:6 | The default address passes through trimming unchanged |
| `Time.SafeNumber` | src/lib/time.ts:11-13 | A finite number is returned as is; anything else gives the fallback (0 by default) |
| `Time.SafeNumberFallsBack` | src/lib/time.ts:12 | NaN, ±Infinity and non-numbers all give the fallback |
| `Time.AddMinutes` | src/lib/time.ts:6-9 | The result is `minutes × 60000` ms after the input |
| `Time.AddMinutesLaws` | src/lib/time.ts:8 | Adding 0 is the identity; adding a then b adds a + b |
| `ApiTypes.ErrorText` | src/pages/StaffRoomPage.tsx:100 | An Error's message, anything else the fallback text |
| `FeedbackPage.BackLink` | src/pages/FeedbackPage.tsx:18-21 | The encoded room path when both slugs are non-empty, else '/' |
| `FeedbackPage.BackLinkMatchesQrCode` | src/pages/FeedbackPage.tsx:19 | The back link is the room's QR URL without the origin |
| `FeedbackPage.InitialStarsValid` | src/pages/FeedbackPage.tsx:23 | The initial 5 stars are accepted, and exactly 1..5 are |
| `FeedbackPage.NormalizeComment` | src/pages/FeedbackPage.tsx:35 | null iff the comment is all whitespace, else the trimmed comment, non-empty |
| `FeedbackPage.NormalizeCommentStable` | src/pages/FeedbackPage.tsx:35 | Normalising a sent comment again changes nothing |
| `FeedbackPage.FeedbackForm.Submit` | src/pages/FeedbackPage.tsx:29-42 | No ticket: nothing. Stars outside 1..5: 'Số sao phải từ 1 đến 5' and no request. Otherwise sends, for that ticket, (stars, normalised comment); done on success, else the message or 'Gửi đánh giá thất bại'; loading ends false |
| `QrCodesPage.BuildRoomUrl` | src/pages/QrCodesPage.tsx:10-12 | Starts with origin, followed by the encoded room path |
| `QrCodesPage.EncodedRoomPathSegments` | src/pages/QrCodesPage.tsx:11 | The path after the origin has exactly the segments "", "s", enc(site), "r", enc(room) |
| `QrCodesPage.BuildRoomUrlInjective` | src/pages/QrCodesPage.tsx:11 | For one origin, equal URLs iff equal (site, room) |
| `QrCodesPage.RoomUrls` | src/pages/QrCodesPage.tsx:75-87 | One URL per room of each listed site |
| `QrCodesPage.RoomUrlsCoverEveryRoom` | src/pages/QrCodesPage.tsx:86-87 | Every room of every listed site gets its URL |
| `QrCodesPage.RoomUrlsOnlyListedRooms` | src/pages/QrCodesPage.tsx:86-87 | Every URL is a listed room's |
| `JsString.SplitJoin` | src/realtime/queueHub.ts:41 | `split('\|')` pieces joined with '\|' give back the key |
| `JsString.SplitPieces` | src/realtime/queueHub.ts:41 | `split` yields one piece more than there are separators, none containing one |
| `JsString.TrimIdempotent` | src/pages/FeedbackPage.tsx:35 | `trim` of a trimmed string changes nothing |

## Left out

- SignalR internals are not modelled. This covers the connection builder, logging, the automatic-reconnect backoff and how the library changes the state on its own. The model takes as parameters the outcomes of `start()` and `invoke(...)` and the states the 100 ms polls observe.
- Real timers and clocks (`setInterval`, `setTimeout`, `Date.now`) become explicit events with an integer `now`.
- At exactly 10 s the interval poll and the timeout fire together; the model lets the 100th poll win.
- `QueueHub.StartState`: after a timed-out wait the state is the last polled one, and a rejected `conn.start()` leaves Disconnected from whichever state it was called (Disconnected, Disconnecting or Reconnecting). The source leaves both to the library, so these are modelling choices.
- Promise interleaving beyond the events above is not modelled, and neither is true concurrency. In particular:
  - a join that lands while `onreconnected` iterates the sets, which a JavaScript `Set` iteration would pick up;
  - listeners that unsubscribe while the `forEach` runs.
- `Notify`: running the page's listener is a separate event that requires the listener to be registered. The hub's `Dispatch` says which listeners a payload reaches.
- The HTTP API (src/api/*) is not modelled. An awaited call's outcome is a parameter (`ApiTypes.Response`). On the staff and customer views a refresh is split into its start (`Refresh`) and its settling (`LoadSettles`); when several refreshes are in flight the caller chooses the order they settle in.
- `TvSitePage.TvSiteEffect.Refresh` and `MyTicketPage.MyTicketEffect.Refresh` record only the time of each load: those views' data, error and loading flags are not modelled.
- `CustomerRoomPage.CustomerRoomEffect.HandleLogin`: the phone and date of birth sent to `loginCustomer` are not modelled; only the outcome is.
- React rendering and routing are not modelled: JSX, `loading` spinners, `useMemo` caching, and effects re-running when their dependencies change. A navigation is returned as the target path.
- Floating point is not modelled: numbers are integers with NaN/±Infinity tags, and ISO timestamps are epoch milliseconds. `formatHHmm` and Date parsing are not part of this model.
- `Time.AddMinutes`: integer minutes only. It does not model a fractional or non-finite estimate, nor an invalid date (both give NaN in the source).
- `encodeURIComponent` is abstract. The model assumes only that it is injective and never emits '/' or ':'. `localStorage` is a map, with no quota or exceptions.
- The following are not part of this model:
  - `handleComplete` on the ticket view, an API call followed by navigation to the feedback page;
  - the QR page's loading state;
  - `console` output.

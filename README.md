# Crypto price-alert pipeline, modelled in Dafny

Two processes share one relational store. The ingestion process (src/ingestion.py) reads a
market-data feed of trade ticks. It keeps the feed subscribed to exactly the symbols that
clients currently want. On every price rise it stores a notification for each live subscription
whose threshold the price passed through. The session process (src/main.py) runs one `WsHandler`
per client websocket. The handler records the connection and turns subscribe requests into
subscription rows. After every wait for a client message it delivers the pending notifications
of the connection's live subscriptions and refreshes their heartbeats. When the client goes
away it soft-deletes its rows. The read queries both processes use are in src/sql/data.py.

The project has these modules:

- `Text` is Python's `str.lower()` on ASCII letters.
- `Seqs` holds sequence helpers: filter, no-duplicates and the set of elements.
- `Records` holds the rows (`Connection`, `Subscription`, `Notification`) and the store. The
  store is a class with one sequence field per table and a counter that hands out fresh
  primary keys.
- `Data` is src/sql/data.py: `HEARTBEAT_LIMIT`, the liveness filter and the four queries, as
  functions of the table contents and the current time.
- `Ingestion` is src/ingestion.py. The class `Ingestion` holds `symbolSubs`, `lastId` and
  `previousPrices`. `OnMessage` is the crossing detector. `SubscribeToIngestion`,
  `UnsubscribeToIngestion` and `CheckCurrentSubs` are the reconciler. Each method is proved
  against pure functions (`TickNotifications`, `Commands`) whose properties are proved as
  lemmas.
- `Server` is src/main.py. The class `WsHandler` has the constructor,
  `HandleReceivedMessage`, `CheckNotifications` (with its inner loop `DeliverPending`) and
  `CloseWebsocketSession`. `Step` is one iteration of the `websocket_endpoint` loop. Each is
  proved against pure functions of the old store: `SubscriptionsAfter`, `HandlerReply`,
  `RefreshHeartbeats`, `MarkDelivered`, `PendingDeliveries`, `FinishSubscriptions`.
- `Scenarios` holds concrete runs after src/tests/tests.py. They are stated over any symbol
  names: subscriptions store a lower-case symbol, and ticks carry any wire name that
  lower-cases to it.

Time is a whole number of seconds, and one operation reads the clock once (`now`). Prices and
thresholds are reals. Primary keys are integers taken from the store's counter.

Three behaviours of the code are easy to miss, and the model keeps them:

- A feed tick's event type `e` is not checked. Every tick is processed (ingestion.py:28-54).
- The subscribe handler stores the symbol as the client sent it, not lower-cased
  (main.py:77-81). The tick query compares with a lower-cased symbol (data.py:27). So a
  subscription sent with a capital letter is stored and echoed but never notified.
  `Data.MixedCaseSubscriptionNeverMatched` states this.
- The heartbeat is refreshed, and notifications delivered, only for the connection's live
  subscriptions (main.py:39). A subscription whose heartbeat has already lapsed is never
  revived.

## Model

| member | source | states |
|---|---|---|
| Text.Lower | src/ingestion.py:32 | lower-casing keeps the length and maps each character through ASCII lower-casing |
| Text.LowerIsLower | src/sql/data.py:27 | the result of lower-casing has no capital letter, and lower-casing leaves a string unchanged exactly when it has none |
| Text.LowerIdempotent | src/sql/data.py:27 | lower-casing the already lower-cased tick symbol again changes nothing |
| Records.Store.NewId | src/sql/models.py:16 | a new primary key differs from the id of every existing connection, subscription and notification |
| Records.SameIdSameRow | src/sql/models.py:16 | in a table with unique ids, two rows with the same id are the same row |
| Data.ListCurrentSubSymbols | src/sql/data.py:10-20 | a symbol is returned exactly when some live subscription has it, and no symbol is returned twice |
| Data.ListCurrentSubscriptionsFromSymbol | src/sql/data.py:23-30 | a row is returned exactly when it is live and its stored symbol equals the lower-cased argument; unique ids stay unique |
| Data.ListSubscriptionsFromConnection | src/sql/data.py:33-40 | a row is returned exactly when it is live and owned by the connection; unique ids stay unique |
| Data.ListNotificationsFromSubscription | src/sql/data.py:43-49 | a notification is returned exactly when it is undelivered and names the subscription; there is no liveness filter |
| Data.HeartbeatWindowIsStrict | src/sql/data.py:7-13 | an unfinished subscription whose heartbeat is exactly HEARTBEAT_LIMIT seconds old is not live; one second younger is live |
| Data.StaleSymbolNotDesired | src/sql/data.py:10-15 | a symbol whose subscriptions all have heartbeats at least HEARTBEAT_LIMIT seconds old is not desired, even if none is finished |
| Data.MixedCaseSubscriptionNeverMatched | src/sql/data.py:23-28 | a subscription stored with a capital letter is never returned by the tick query |
| Ingestion.CommandsAt | src/ingestion.py:57-81 | the k-th command sent by a loop over symbols has the loop's method, the k-th symbol's stream name `<symbol>@trade`, and request id first + k |
| Ingestion.PassIdsConsecutive | src/ingestion.py:99-103 | the subscribe and unsubscribe commands of one pass carry request ids that count up by one, with no gap between the two loops |
| Ingestion.StaleSymbols | src/ingestion.py:96-106 | after the subscribe loop, `(symbol_subs ^ open_symbols) & symbol_subs` is exactly the old subscribed set minus the desired set, and removing it leaves the desired set |
| Ingestion.Crossing | src/ingestion.py:47-48 | a subscription is kept exactly when its threshold lies strictly between the previous and the current price; unique ids stay unique |
| Ingestion.NewNotifications | src/ingestion.py:40-46 | one notification per crossing subscription, in order, with ids counting up from the store's next id, that subscription's id and symbol, the surpassed-price message, the tick's event time as order reference, undelivered |
| Ingestion.FirstTickCreatesNothing | src/ingestion.py:34-37 | the first tick of a symbol creates no notification |
| Ingestion.NoRiseCreatesNothing | src/ingestion.py:37 | a tick whose price does not rise above the previous one, or whose previous price is 0, creates no notification |
| Ingestion.NotificationIffCrossing | src/ingestion.py:32-49 | a tick creates a notification for a subscription exactly when it is live, stored under the lower-cased tick symbol, and its threshold lies strictly between a non-zero previous price and the tick's price |
| Ingestion.NotificationsAddressLiveSubscriptions | src/ingestion.py:38-46 | every created notification names a live subscription of the tick's symbol and carries that symbol, the tick's price and event time, and no delivery time |
| Ingestion.OneNotificationPerSubscription | src/ingestion.py:40-49 | one tick never creates two notifications for the same subscription |
| Ingestion.Ingestion.constructor | src/ingestion.py:18-20 | a new process is subscribed to `etcusdt` only, its last request id is 1, and it has seen no price |
| Ingestion.Ingestion.OnMessage | src/ingestion.py:28-54 | the store gains exactly the tick's notifications and nothing else changes; the symbol's last price becomes the tick's price |
| Ingestion.Ingestion.SubscribeToIngestion | src/ingestion.py:57-68 | sends one SUBSCRIBE command for `<symbol>@trade` with the given id, adds the symbol, and records the id |
| Ingestion.Ingestion.UnsubscribeToIngestion | src/ingestion.py:70-81 | sends one UNSUBSCRIBE command for `<symbol>@trade` with the given id, removes the symbol, and records the id |
| Ingestion.Ingestion.SubscribeAll | src/ingestion.py:99-100 | the loop visits each symbol once in some order, sends one SUBSCRIBE per symbol with ids counting up from last id + 1, and adds them all |
| Ingestion.Ingestion.UnsubscribeAll | src/ingestion.py:102-103 | the loop visits each symbol once in some order, sends one UNSUBSCRIBE per symbol with ids counting up from last id + 1, and removes them all |
| Ingestion.Ingestion.CheckCurrentSubs | src/ingestion.py:90-106 | afterwards the subscribed set equals the symbols of live subscriptions; the pass sent a SUBSCRIBE for each newly desired symbol, then an UNSUBSCRIBE for each no-longer-desired one, with consecutive request ids |
| Server.FindDuplicate | src/main.py:73-75 | the search finds a match exactly when some owned live subscription has the request's symbol, as sent, and threshold |
| Server.UnsupportedSymbolRejected | src/main.py:67-71 | a request whose lower-cased symbol is not supported gets the error reply and stores nothing |
| Server.ResubscribeIsDuplicate | src/main.py:64-75 | sending an accepted request again while the new subscription is live stores nothing and sends nothing |
| Server.AcceptedSymbolIsDesired | src/main.py:77-83 | an accepted request's symbol, as sent, is at once among the symbols the ingestion process reconciles against |
| Server.OwnedIds | src/main.py:39 | an id is owned exactly when a live subscription of the connection has it |
| Server.PendingDeliveries | src/main.py:39-49 | a pass sends a notification exactly when it is undelivered and names a live subscription of the connection |
| Server.MarkingOthersKeepsPending | src/main.py:46-52 | delivering the notifications of other subscriptions does not change what is pending for this one |
| Server.SecondPassSendsNothing | src/main.py:37-53 | after a delivery pass, a second pass at the same or a later time sends nothing unless new notifications arrive |
| Server.OtherConnectionsUntouched | src/main.py:39-51 | a pass neither sends nor marks the notifications of another connection's subscription |
| Server.RefreshKeepsLive | src/main.py:41-43 | the heartbeat rule only moves a heartbeat forward and changes nothing else; a live subscription stays live, and a refreshed one is live for a whole window |
| Server.ClosedSessionHasNoLiveSubscriptions | src/main.py:91-98 | after teardown the connection owns no live subscription at any time |
| Server.ClosedSessionLeavesDesiredSet | src/main.py:95-96 | after teardown every symbol still desired comes from a live subscription of another connection |
| Server.WsHandler.constructor | src/main.py:25-35 | appends one open connection row with a fresh id and keeps that id |
| Server.WsHandler.HandleReceivedMessage | src/main.py:57-89 | rejects an unsupported symbol with the error reply, ignores a duplicate silently, otherwise stores and echoes the new subscription; the table and the socket change accordingly |
| Server.WsHandler.DeliverPending | src/main.py:46-52 | sends the subscription's undelivered notifications in store order and marks exactly those delivered at `now` |
| Server.WsHandler.CheckNotifications | src/main.py:37-54 | refreshes stale heartbeats of the connection's live subscriptions, sends their pending notifications, and marks exactly those delivered |
| Server.WsHandler.CloseWebsocketSession | src/main.py:91-98 | finishes the connection's row and every subscription it owns, and changes no other row |
| Server.WsHandler.Step | src/main.py:108-125 | a disconnect tears down and ends the loop; otherwise the request is handled, or a malformed message gets the plain-text reply, and then a delivery pass runs |
| Scenarios.InitialPassUnsubscribesDefault | src/tests/tests.py:417-421 | with no subscriptions, a fresh process's first pass unsubscribes `etcusdt@trade` with id 2 and ends with nothing subscribed |
| Scenarios.RiseTo1100NotifiesOnlyFirst | src/tests/tests.py:74-100 | with subscriptions at 1000 and 1200 on one symbol and 1000 on another, a rise from 900 to 1100 creates one notification, for the one at 1000 |
| Scenarios.RisingEdgeNotifiesCrossedThresholdOnly | src/tests/tests.py:60-100 | ticks at 1100 then 900 create nothing, and the rise back to 1100 creates exactly one notification, for the subscription at 1000 |
| Scenarios.FirstRequestIsEchoed | src/main.py:57-89 | a connection's first supported request is stored and echoed, and with no notifications the following pass sends nothing |
| Scenarios.RiseNotifiesOnlySubscription | src/ingestion.py:36-51 | a rise through the threshold of the only subscription creates exactly one pending notification, for it |
| Scenarios.OnlyPendingNotificationPushed | src/main.py:41-51 | with one live subscription and one pending notification for it, the pass pushes exactly that notification |
| Scenarios.SubscribeThenReceiveNotification | src/tests/tests.py:390-445 | a client subscribes at 1000 and the price goes from 900 to 1100: the client gets the echo and then exactly one push, for its subscription |

## Left out

- Network I/O is left out. The feed and client sockets are modelled only as the sequence of
  messages written to them. Receiving, the 0.5-second receive timeout, the reconciliation
  `Timer` and `run_forever` are not modelled. A received client message is a `ClientEvent`.
- Concurrency between the two processes and between handlers is left out. Each operation is
  atomic on the store, and interleavings are not explored.
- SQLAlchemy sessions, transactions and commits are left out. Each operation's changes become
  visible at once. The query result order is taken to be store order.
- JSON decoding, `float()` parsing and message serialisation are left out. A decoded request
  is a `SubscribeRequest`. Any decoding failure is the `Malformed` event. A notification's
  message text is `PriceSurpassed(price)`, without Python's float formatting.
- The `except Exception` branch of `check_current_subs` is left out. In the model only
  store or socket failures could raise there, and the model has none. `set.remove` cannot
  fail, because every unsubscribed symbol is in the subscribed set
  (`UnsubscribeToIngestion` requires it).
- A tick that fails to decode, and the feed's `on_error`/`on_open` callbacks, are left out.
- Timestamps are whole seconds read once per operation. The source calls `datetime.utcnow()`
  several times within one pass.
- UUID primary keys are replaced by a counter that never repeats.
- Lower-casing covers ASCII letters only, which is all that ticker symbols in feed ticks use.
  A client request is arbitrary text, and Python's `str.lower()` (main.py:68) also maps
  non-ASCII letters, for example U+212A KELVIN SIGN to `k`. So a request that spells a
  supported symbol containing `k` with that sign is accepted by the source but rejected by
  `Text.Lower` and the model's support check.
- src/sql/models.py shows no `last_heartbeat` column or default. The model gives a new
  subscription `lastHeartbeat = createdAt = now`, which is what makes it live at once.
- The set of supported symbols, `Symbol.__dict__.values()` from the `enums` module, is a
  parameter. The enums module is not part of this model.
- The logger calls and `print` output are left out.
- Ingestion.Ingestion.CheckCurrentSubs: its ensures gives the exact commands sent. The
  consecutiveness of their request ids is stated by the lemma
  `Ingestion.PassIdsConsecutive` about that sequence, not repeated in the method's ensures.
- Ingestion.Ingestion.SubscribeAll, Ingestion.Ingestion.UnsubscribeAll: Python's set
  iteration order is unspecified. The order actually walked is a ghost result, and the
  contracts hold for every order.

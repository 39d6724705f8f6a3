/**
 * Concrete runs of the model, after the scenarios of src/tests/tests.py: each method builds its
 * own store and processes and reports what they end up holding.
 */
module Scenarios {
  import opened Records
  import opened Seqs
  import opened Text
  import opened Data
  import opened Ingestion
  import opened Server

  /** A set with exactly one element, walked without repeats, is walked as that one element. */
  lemma SingletonWalk(order: seq<string>, x: string)
    requires Elements(order) == {x} && NoDuplicates(order)
    ensures order == [x]
  {
    NoDuplicatesCardinality(order);
    assert order[0] in Elements(order);
  }

  /** An empty set is walked as the empty sequence. */
  lemma EmptyWalk(order: seq<string>)
    requires Elements(order) == {}
    ensures order == []
  {
    if order != [] {
      HeadIsMember(order);
      assert false;
    }
  }

  /**
   * With no subscriptions in the store, the first reconciliation pass of a fresh ingestion
   * process unsubscribes its default symbol with request id 2 and leaves nothing subscribed.
   */
  method InitialPassUnsubscribesDefault(now: int) returns (sent: seq<FeedCommand>, subscribed: set<string>, lastId: int)
    ensures sent == [FeedCommand(UNSUBSCRIBE, ["etcusdt@trade"], 2)]
    ensures subscribed == {}
    ensures lastId == 2
  {
    var store := new Store();
    var feed := new FeedSocket();
    var ingestion := new Ingestion();
    var toSubscribe, toUnsubscribe := ingestion.CheckCurrentSubs(feed, store, now);
    EmptyWalk(toSubscribe);
    SingletonWalk(toUnsubscribe, "etcusdt");
    assert Commands(SUBSCRIBE, [], 2) == [];
    assert StreamName("etcusdt") == "etcusdt@trade";
    assert Commands(UNSUBSCRIBE, ["etcusdt"], 2) == [FeedCommand(UNSUBSCRIBE, ["etcusdt@trade"], 2)];
    sent, subscribed, lastId := feed.sent, ingestion.symbolSubs, ingestion.lastId;
  }

  /** Notifications that all name one subscription, and name distinct ones, number at most one. */
  lemma AtMostOneForSubscription(r: seq<Notification>, subId: Id)
    requires forall i, j :: 0 <= i < j < |r| ==> r[i].subscriptionId != r[j].subscriptionId
    requires forall m :: m in r ==> m.subscriptionId == subId
    ensures |r| <= 1
  {
    if |r| > 1 {
      FirstTwoAreMembers(r);
      assert false;
    }
  }

  /**
   * The subscriptions of the rising-edge scenario, all of connection 10: symbol `a` at 1000
   * and at 1200, symbol `b` at 1000.
   */
  function RisingEdgeSubscriptions(a: string, b: string, now: int): seq<Subscription> {
    [Subscription(0, 10, a, 1000.0, now, now, None),
     Subscription(1, 10, a, 1200.0, now, now, None),
     Subscription(2, 10, b, 1000.0, now, now, None)]
  }

  /** The subscriptions of the rising-edge scenario have the distinct ids 0, 1 and 2. */
  lemma RisingEdgeIds(a: string, b: string, now: int)
    ensures forall s :: s in RisingEdgeSubscriptions(a, b, now) ==> s.id == 0 || s.id == 1 || s.id == 2
    ensures DistinctIds(RisingEdgeSubscriptions(a, b, now))
  {
  }

  /**
   * In the rising-edge scenario, a tick of 1100 whose wire symbol lower-cases to `a`, after a
   * price of 900, notifies no subscription other than 0.
   */
  lemma RiseTo1100SkipsOthers(a: string, b: string, wire: string, now: int, prices: map<string, real>, firstId: Id)
    requires a != b && Lower(wire) == a && a in prices && prices[a] == 900.0
    ensures forall m :: m in TickNotifications(RisingEdgeSubscriptions(a, b, now), prices,
                                              Trade("trade", wire, 1100.0, 3), now, firstId)
                        ==> m.subscriptionId == 0
  {
    var subs := RisingEdgeSubscriptions(a, b, now);
    var tick := Trade("trade", wire, 1100.0, 3);
    NotificationIffCrossing(subs, prices, tick, now, firstId, subs[1]);
    NotificationIffCrossing(subs, prices, tick, now, firstId, subs[2]);
    NotificationsAddressLiveSubscriptions(subs, prices, tick, now, firstId);
    RisingEdgeIds(a, b, now);
  }

  /** In the rising-edge scenario, the same tick does notify subscription 0, at 1000. */
  lemma RiseTo1100NotifiesFirst(a: string, b: string, wire: string, now: int, prices: map<string, real>, firstId: Id)
    requires a != b && Lower(wire) == a && a in prices && prices[a] == 900.0
    ensures TickNotifications(RisingEdgeSubscriptions(a, b, now), prices, Trade("trade", wire, 1100.0, 3), now, firstId) != []
  {
    var subs := RisingEdgeSubscriptions(a, b, now);
    NotificationIffCrossing(subs, prices, Trade("trade", wire, 1100.0, 3), now, firstId, subs[0]);
  }

  /**
   * After a price of 900, a tick of 1100 crosses the threshold 1000 and not 1200, and the
   * subscription of the other symbol is not matched: exactly one notification, for subscription 0.
   */
  lemma RiseTo1100NotifiesOnlyFirst(a: string, b: string, wire: string, now: int, prices: map<string, real>, firstId: Id)
    requires a != b && Lower(wire) == a && a in prices && prices[a] == 900.0
    ensures var r := TickNotifications(RisingEdgeSubscriptions(a, b, now), prices,
                                       Trade("trade", wire, 1100.0, 3), now, firstId);
      && |r| == 1 && r[0].subscriptionId == 0 && r[0].symbol == a
      && r[0].message == PriceSurpassed(1100.0) && r[0].orderRef == 3
  {
    var subs := RisingEdgeSubscriptions(a, b, now);
    var tick := Trade("trade", wire, 1100.0, 3);
    var r := TickNotifications(subs, prices, tick, now, firstId);
    RiseTo1100NotifiesFirst(a, b, wire, now, prices, firstId);
    RiseTo1100SkipsOthers(a, b, wire, now, prices, firstId);
    RisingEdgeIds(a, b, now);
    OneNotificationPerSubscription(subs, prices, tick, now, firstId);
    AtMostOneForSubscription(r, 0);
    assert r[0] in r;
    NotificationsAddressLiveSubscriptions(subs, prices, tick, now, firstId);
  }

  /**
   * The rising-edge scenario run through the ingestion process: ticks whose wire symbol
   * lower-cases to `a`, at 1100 then 900, create nothing, and the rise back to 1100 notifies
   * only the subscription at 1000.
   */
  method RisingEdgeNotifiesCrossedThresholdOnly(store: Store, a: string, b: string, wire: string, now: int) returns (notifications: seq<Notification>)
    requires store.Valid() && store.subscriptions == RisingEdgeSubscriptions(a, b, now) && store.notifications == []
    requires a != b && Lower(wire) == a
    modifies store
    ensures |notifications| == 1
    ensures notifications[0].subscriptionId == 0 && notifications[0].symbol == a
    ensures notifications[0].message == PriceSurpassed(1100.0) && notifications[0].orderRef == 3
  {
    var subs := store.subscriptions;
    var firstId := store.nextId;
    var ingestion := new Ingestion();
    var first := Trade("trade", wire, 1100.0, 1);
    FirstTickCreatesNothing(subs, map[], first, now, firstId);
    ingestion.OnMessage(store, first, now);
    var second := Trade("trade", wire, 900.0, 2);
    NoRiseCreatesNothing(subs, ingestion.previousPrices, second, now, firstId);
    ingestion.OnMessage(store, second, now);
    assert store.notifications == [];
    RiseTo1100NotifiesOnlyFirst(a, b, wire, now, ingestion.previousPrices, firstId);
    ingestion.OnMessage(store, Trade("trade", wire, 1100.0, 3), now);
    notifications := store.notifications;
  }

  /**
   * A connection's first, supported request is stored and echoed; its new subscription's
   * heartbeat is fresh, and with no notifications in the store the delivery pass sends nothing.
   */
  lemma FirstRequestIsEchoed(connId: Id, req: SubscribeRequest, now: int, supported: set<string>, id: Id)
    requires Lower(req.symbol) in supported
    ensures var s := NewSubscription(id, connId, req, now);
      && SubscriptionsAfterEvent([], connId, Received(req), now, supported, id) == [s]
      && EventReplies([], connId, Received(req), now, supported, id) == [SubscriptionEcho(s)]
      && RefreshHeartbeats([s], connId, now) == [s]
      && PendingDeliveries([s], [], connId, now) == []
  {
    var s := NewSubscription(id, connId, req, now);
    assert !IsDuplicate(ListSubscriptionsFromConnection([], connId, now), req);
    var pending := PendingDeliveries([s], [], connId, now);
    if pending != [] {
      HeadIsMember(pending);
      assert false;
    }
  }

  /** A rise through the threshold of a store's only subscription creates one notification for it. */
  lemma RiseNotifiesOnlySubscription(s: Subscription, previousPrices: map<string, real>, message: Trade, now: int, firstId: Id)
    requires IsLive(s, now) && s.symbol == Lower(message.symbol)
    requires s.symbol in previousPrices && previousPrices[s.symbol] != 0.0
    requires previousPrices[s.symbol] < s.priceThreshold < message.price
    ensures var r := TickNotifications([s], previousPrices, message, now, firstId);
      |r| == 1 && r[0].subscriptionId == s.id && r[0].finishedAt.None?
  {
    var r := TickNotifications([s], previousPrices, message, now, firstId);
    NotificationIffCrossing([s], previousPrices, message, now, firstId, s);
    NotificationsAddressLiveSubscriptions([s], previousPrices, message, now, firstId);
    OneNotificationPerSubscription([s], previousPrices, message, now, firstId);
    AtMostOneForSubscription(r, s.id);
    assert r[0] in r;
  }

  /** The delivery pass of a connection with one live subscription and one pending notification for it pushes that notification. */
  lemma OnlyPendingNotificationPushed(s: Subscription, n: Notification, connId: Id, now: int)
    requires LiveOf(s, connId, now) && PendingFor(n, s.id)
    ensures Pushes(PendingDeliveries([s], [n], connId, now)) == [NotificationPush(n)]
  {
    assert [s][..0] == [] && [n][..0] == [];
    assert ListNotificationsFromSubscription([n], s.id) == [n];
    assert PendingDeliveries([s], [n], connId, now) == PendingDeliveries([], [n], connId, now) + [n];
  }

  /**
   * A client connects and subscribes to a supported lower-case symbol at 1000: the store holds
   * that one subscription and the client has its echo.
   */
  method ConnectAndSubscribe(now: int, supported: set<string>, symbol: string)
    returns (store: Store, client: ClientSocket, handler: WsHandler, subscription: Subscription)
    requires symbol in supported && IsLower(symbol)
    ensures fresh(store) && fresh(client) && store.Valid() && handler.websocket == client
    ensures store.subscriptions == [subscription] && store.notifications == []
    ensures subscription == Subscription(subscription.id, handler.connId, symbol, 1000.0, now, now, None)
    ensures client.sent == [SubscriptionEcho(subscription)]
  {
    store := new Store();
    client := new ClientSocket();
    handler := new WsHandler(client, store, now);
    var req := SubscribeRequest(symbol, 1000.0);
    LowerIsLower(symbol);
    FirstRequestIsEchoed(handler.connId, req, now, supported, store.nextId);
    subscription := NewSubscription(store.nextId, handler.connId, req, now);
    var _ := handler.Step(store, Received(req), now, supported);
  }

  /**
   * A fresh ingestion process sees ticks of 900 and then 1100 whose wire symbol lower-cases to
   * the symbol of the store's one subscription, at 1000: that subscription gets exactly one
   * pending notification.
   */
  method PriceRisesThrough(store: Store, subscription: Subscription, wire: string, now: int)
    requires store.Valid() && store.subscriptions == [subscription] && store.notifications == []
    requires IsLive(subscription, now) && Lower(wire) == subscription.symbol && subscription.priceThreshold == 1000.0
    modifies store
    ensures store.Valid() && store.subscriptions == [subscription] && store.connections == old(store.connections)
    ensures |store.notifications| == 1 && PendingFor(store.notifications[0], subscription.id)
  {
    var ingestion := new Ingestion();
    var first := Trade("trade", wire, 900.0, 1);
    FirstTickCreatesNothing([subscription], map[], first, now, store.nextId);
    ingestion.OnMessage(store, first, now);
    var second := Trade("trade", wire, 1100.0, 2);
    RiseNotifiesOnlySubscription(subscription, ingestion.previousPrices, second, now, store.nextId);
    ingestion.OnMessage(store, second, now);
  }

  /**
   * A client subscribes to a symbol at 1000, the feed's price for it (under its upper- or
   * lower-case wire name) moves from 900 to 1100, and the next
   * iteration of the client's endpoint loop pushes exactly the one notification for that subscription.
   */
  method SubscribeThenReceiveNotification(now: int, supported: set<string>, symbol: string, wire: string)
    returns (pushed: seq<Reply>, subscription: Subscription)
    requires symbol in supported && IsLower(symbol) && Lower(wire) == symbol
    ensures |pushed| == 2 && pushed[0] == SubscriptionEcho(subscription)
    ensures pushed[1].NotificationPush? && pushed[1].notification.subscriptionId == subscription.id
  {
    var store, client, handler;
    store, client, handler, subscription := ConnectAndSubscribe(now, supported, symbol);
    PriceRisesThrough(store, subscription, wire, now);
    OnlyPendingNotificationPushed(subscription, store.notifications[0], handler.connId, now);
    var _ := handler.Step(store, TimedOut, now, supported);
    pushed := client.sent;
  }
}

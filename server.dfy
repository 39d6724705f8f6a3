/**
 * The session process of src/main.py: one `WsHandler` per client connection. It records the
 * connection, validates and stores subscribe requests, delivers the pending notifications of
 * the connection's live subscriptions, and soft-deletes its rows when the client goes away.
 */
module Server {
  import opened Records
  import opened Seqs
  import opened Text
  import opened Data

  /** A decoded subscribe request `{"symbol": ..., "threshold": ...}`. */
  datatype SubscribeRequest = SubscribeRequest(symbol: string, threshold: real)

  /** What the session process writes to its client. */
  datatype Reply =
    | ErrorReply(message: string)                  // `{"type": "error", "message": ...}`
    | SubscriptionEcho(subscription: Subscription) // the stored row, serialised
    | NotificationPush(notification: Notification) // one delivered notification, serialised
    | InvalidMessage(text: string)                 // plain text, not JSON

  const SYMBOL_ERROR: string :=
    "symbol is not valid, check https://www.binance.com/api/v3/exchangeInfo to get the available symbols"

  const INVALID_MESSAGE: string :=
    "Invalid json subscription message. e.g: {\"symbol\": \"btcusdt\", \"threshold\": \"20356.11\"}"

  /** What one iteration of the endpoint loop gets from the client. */
  datatype ClientEvent =
    | Received(request: SubscribeRequest) // a message that decodes as a subscribe request
    | Malformed                           // a message whose decoding raises
    | TimedOut                            // nothing arrived within the wait
    | Disconnected                        // the client closed the socket

  /** The client's socket; only what is sent on it is modelled. */
  class ClientSocket {
    var sent: seq<Reply>

    constructor ()
      ensures sent == []
    {
      sent := [];
    }

    method Send(reply: Reply)
      modifies this
      ensures sent == old(sent) + [reply]
    {
      sent := sent + [reply];
    }
  }

  // ---------------------------------------------------------------------------------------
  // Subscribe requests
  // ---------------------------------------------------------------------------------------

  /** Whether one of `owned` already has the request's symbol, as sent, and threshold. */
  predicate IsDuplicate(owned: seq<Subscription>, req: SubscribeRequest) {
    exists s :: s in owned && s.priceThreshold == req.threshold && s.symbol == req.symbol
  }

  /** Whether the handler stores a new subscription for the request. */
  predicate Accepted(subs: seq<Subscription>, connId: Id, req: SubscribeRequest, now: int, supported: set<string>) {
    Lower(req.symbol) in supported && !IsDuplicate(ListSubscriptionsFromConnection(subs, connId, now), req)
  }

  /** The row a request creates: the symbol exactly as sent, a fresh heartbeat, not finished. */
  function NewSubscription(id: Id, connId: Id, req: SubscribeRequest, now: int): Subscription {
    Subscription(id, connId, req.symbol, req.threshold, now, now, None)
  }

  /** The subscription table after the handler has run, `id` being the store's next fresh id. */
  function SubscriptionsAfter(subs: seq<Subscription>, connId: Id, req: SubscribeRequest, now: int, supported: set<string>, id: Id): seq<Subscription> {
    if Accepted(subs, connId, req, now, supported) then subs + [NewSubscription(id, connId, req, now)] else subs
  }

  /** What the handler sends and returns: an error, nothing for a duplicate, or the echoed row. */
  function HandlerReply(subs: seq<Subscription>, connId: Id, req: SubscribeRequest, now: int, supported: set<string>, id: Id): Option<Reply> {
    if Lower(req.symbol) !in supported then Some(ErrorReply(SYMBOL_ERROR))
    else if IsDuplicate(ListSubscriptionsFromConnection(subs, connId, now), req) then None
    else Some(SubscriptionEcho(NewSubscription(id, connId, req, now)))
  }

  function Sent(reply: Option<Reply>): seq<Reply> {
    if reply.Some? then [reply.value] else []
  }

  /** The duplicate check of the handler, a linear search over the connection's live subscriptions. */
  method FindDuplicate(owned: seq<Subscription>, req: SubscribeRequest) returns (found: bool)
    ensures found <==> IsDuplicate(owned, req)
  {
    var i := 0;
    while i < |owned|
      invariant 0 <= i <= |owned|
      invariant forall k :: 0 <= k < i ==> !(owned[k].priceThreshold == req.threshold && owned[k].symbol == req.symbol)
    {
      if owned[i].priceThreshold == req.threshold && owned[i].symbol == req.symbol {
        return true;
      }
      i := i + 1;
    }
    return false;
  }

  /** A request for an unsupported symbol gets the error reply and stores nothing. */
  lemma UnsupportedSymbolRejected(subs: seq<Subscription>, connId: Id, req: SubscribeRequest, now: int, supported: set<string>, id: Id)
    requires Lower(req.symbol) !in supported
    ensures SubscriptionsAfter(subs, connId, req, now, supported, id) == subs
    ensures HandlerReply(subs, connId, req, now, supported, id) == Some(ErrorReply(SYMBOL_ERROR))
  {
  }

  /**
   * Once a request is accepted, sending it again while the new subscription is live is a
   * duplicate: nothing is stored and nothing is sent.
   */
  lemma {:induction false} ResubscribeIsDuplicate(subs: seq<Subscription>, connId: Id, req: SubscribeRequest, now: int, supported: set<string>, id: Id, later: int)
    requires Accepted(subs, connId, req, now, supported)
    requires now <= later < now + HEARTBEAT_LIMIT
    ensures var after := SubscriptionsAfter(subs, connId, req, now, supported, id);
      && !Accepted(after, connId, req, later, supported)
      && SubscriptionsAfter(after, connId, req, later, supported, id + 1) == after
      && HandlerReply(after, connId, req, later, supported, id + 1) == None
  {
    var after := SubscriptionsAfter(subs, connId, req, now, supported, id);
    var s := NewSubscription(id, connId, req, now);
    assert s in after;
    assert s in ListSubscriptionsFromConnection(after, connId, later);
  }

  /**
   * An accepted subscription is live at once, so its symbol, as sent, joins the set of symbols
   * the ingestion process reconciles its feed against.
   */
  lemma {:induction false} AcceptedSymbolIsDesired(subs: seq<Subscription>, connId: Id, req: SubscribeRequest, now: int, supported: set<string>, id: Id)
    requires Accepted(subs, connId, req, now, supported)
    ensures req.symbol in ListCurrentSubSymbols(SubscriptionsAfter(subs, connId, req, now, supported, id), now)
  {
    var s := NewSubscription(id, connId, req, now);
    assert s in SubscriptionsAfter(subs, connId, req, now, supported, id);
  }

  // ---------------------------------------------------------------------------------------
  // The delivery pass
  // ---------------------------------------------------------------------------------------

  /** The heartbeat rule: a live owned subscription older than half the window gets `now`. */
  function Refresh(s: Subscription, connId: Id, now: int): Subscription {
    if LiveOf(s, connId, now) && s.lastHeartbeat < now - HEARTBEAT_LIMIT / 2 then s.(lastHeartbeat := now) else s
  }

  function RefreshHeartbeats(subs: seq<Subscription>, connId: Id, now: int): (r: seq<Subscription>)
    ensures |r| == |subs|
  {
    seq(|subs|, k requires 0 <= k < |subs| => Refresh(subs[k], connId, now))
  }

  /** The ids of the connection's live subscriptions. */
  function OwnedIds(subs: seq<Subscription>, connId: Id, now: int): (r: set<Id>)
    ensures forall id :: id in r <==> exists s :: s in subs && LiveOf(s, connId, now) && s.id == id
  {
    if subs == [] then {}
    else
      var init := subs[..|subs| - 1];
      var last := subs[|subs| - 1];
      assert subs == init + [last];
      OwnedIds(init, connId, now) + (if LiveOf(last, connId, now) then {last.id} else {})
  }

  /** Marks `n` delivered at `now` when it is pending for one of `ids`. */
  function Deliver(n: Notification, ids: set<Id>, now: int): Notification {
    if n.finishedAt.None? && n.subscriptionId in ids then n.(finishedAt := Some(now)) else n
  }

  function MarkDelivered(notifs: seq<Notification>, ids: set<Id>, now: int): (r: seq<Notification>)
    ensures |r| == |notifs|
  {
    seq(|notifs|, k requires 0 <= k < |notifs| => Deliver(notifs[k], ids, now))
  }

  /**
   * What a delivery pass sends: for each live subscription of the connection, in store order,
   * its pending notifications in store order.
   */
  function PendingDeliveries(subs: seq<Subscription>, notifs: seq<Notification>, connId: Id, now: int): (r: seq<Notification>)
    ensures forall n :: n in r <==> n in notifs && n.finishedAt.None? && n.subscriptionId in OwnedIds(subs, connId, now)
  {
    if subs == [] then []
    else
      var init := subs[..|subs| - 1];
      var last := subs[|subs| - 1];
      assert subs == init + [last];
      PendingDeliveries(init, notifs, connId, now)
        + (if LiveOf(last, connId, now) then ListNotificationsFromSubscription(notifs, last.id) else [])
  }

  function Pushes(ns: seq<Notification>): (r: seq<Reply>)
    ensures |r| == |ns|
  {
    seq(|ns|, k requires 0 <= k < |ns| => NotificationPush(ns[k]))
  }

  lemma PushesAppend(a: seq<Notification>, b: seq<Notification>)
    ensures Pushes(a + b) == Pushes(a) + Pushes(b)
  {
    assert forall k :: 0 <= k < |a + b| ==> Pushes(a + b)[k] == (Pushes(a) + Pushes(b))[k];
  }

  /** Both the owned ids and the deliveries grow by the next subscription when it is owned and live. */
  lemma DeliveriesPrefix(subs: seq<Subscription>, notifs: seq<Notification>, i: nat, connId: Id, now: int)
    requires i < |subs|
    ensures OwnedIds(subs[..i + 1], connId, now)
         == OwnedIds(subs[..i], connId, now) + (if LiveOf(subs[i], connId, now) then {subs[i].id} else {})
    ensures PendingDeliveries(subs[..i + 1], notifs, connId, now)
         == PendingDeliveries(subs[..i], notifs, connId, now)
            + (if LiveOf(subs[i], connId, now) then ListNotificationsFromSubscription(notifs, subs[i].id) else [])
  {
    assert subs[..i + 1][..i] == subs[..i];
  }

  /** The first `i` subscriptions of `subs` have had the heartbeat rule applied in `current`, the rest not. */
  predicate RefreshedUpTo(subs: seq<Subscription>, current: seq<Subscription>, i: nat, connId: Id, now: int) {
    && |current| == |subs|
    && (forall k :: 0 <= k < i && k < |subs| ==> current[k] == Refresh(subs[k], connId, now))
    && (forall k :: i <= k < |subs| ==> current[k] == subs[k])
  }

  /** One iteration of the heartbeat part of the delivery pass. */
  lemma RefreshStep(subs: seq<Subscription>, current: seq<Subscription>, i: nat, connId: Id, now: int)
    requires i < |subs| && RefreshedUpTo(subs, current, i, connId, now)
    ensures current[i] == subs[i]
    ensures LiveOf(subs[i], connId, now) && subs[i].lastHeartbeat < now - HEARTBEAT_LIMIT / 2
      ==> RefreshedUpTo(subs, current[i := subs[i].(lastHeartbeat := now)], i + 1, connId, now)
    ensures !(LiveOf(subs[i], connId, now) && subs[i].lastHeartbeat < now - HEARTBEAT_LIMIT / 2)
      ==> RefreshedUpTo(subs, current, i + 1, connId, now)
  {
  }

  lemma RefreshedAll(subs: seq<Subscription>, current: seq<Subscription>, i: nat, connId: Id, now: int)
    requires i == |subs| && RefreshedUpTo(subs, current, i, connId, now)
    ensures current == RefreshHeartbeats(subs, connId, now)
    ensures subs[..i] == subs
  {
  }

  /**
   * One iteration of the delivery part of the pass: a live owned subscription adds its id to
   * the delivered ids and its pending notifications, untouched so far, to what is sent.
   */
  lemma PassStep(subs: seq<Subscription>, notifs: seq<Notification>, i: nat, connId: Id, now: int, sent0: seq<Reply>)
    requires i < |subs| && DistinctIds(subs)
    ensures var ids := OwnedIds(subs[..i], connId, now);
      var s := subs[i];
      if LiveOf(s, connId, now) then
        && ListNotificationsFromSubscription(MarkDelivered(notifs, ids, now), s.id) == ListNotificationsFromSubscription(notifs, s.id)
        && MarkDelivered(MarkDelivered(notifs, ids, now), {s.id}, now) == MarkDelivered(notifs, OwnedIds(subs[..i + 1], connId, now), now)
        && sent0 + Pushes(PendingDeliveries(subs[..i], notifs, connId, now)) + Pushes(ListNotificationsFromSubscription(notifs, s.id))
           == sent0 + Pushes(PendingDeliveries(subs[..i + 1], notifs, connId, now))
      else
        && OwnedIds(subs[..i + 1], connId, now) == ids
        && PendingDeliveries(subs[..i + 1], notifs, connId, now) == PendingDeliveries(subs[..i], notifs, connId, now)
  {
    var ids := OwnedIds(subs[..i], connId, now);
    var s := subs[i];
    DeliveriesPrefix(subs, notifs, i, connId, now);
    if LiveOf(s, connId, now) {
      MarkingOthersKeepsPending(notifs, ids, s.id, now);
      MarkDeliveredTwice(notifs, ids, s.id, now);
      PushesAppend(PendingDeliveries(subs[..i], notifs, connId, now), ListNotificationsFromSubscription(notifs, s.id));
    }
  }

  /** The delivery pass changes no id, so the store's id invariant survives it. */
  lemma PassKeepsIds(subs: seq<Subscription>, notifs: seq<Notification>, connId: Id, now: int, bound: Id)
    ensures var refreshed := RefreshHeartbeats(subs, connId, now);
      && (forall k :: 0 <= k < |subs| ==> refreshed[k].id == subs[k].id)
      && (DistinctIds(subs) ==> DistinctIds(refreshed))
      && ((forall s :: s in subs ==> s.id < bound) ==> forall s :: s in refreshed ==> s.id < bound)
    ensures var marked := MarkDelivered(notifs, OwnedIds(subs, connId, now), now);
      (forall n :: n in notifs ==> n.id < bound) ==> forall n :: n in marked ==> n.id < bound
  {
    var refreshed := RefreshHeartbeats(subs, connId, now);
    var marked := MarkDelivered(notifs, OwnedIds(subs, connId, now), now);
    forall s | s in refreshed
      ensures exists t :: t in subs && t.id == s.id
    {
      var k :| 0 <= k < |refreshed| && refreshed[k] == s;
      assert subs[k] in subs;
    }
    forall n | n in marked
      ensures exists m :: m in notifs && m.id == n.id
    {
      var k :| 0 <= k < |marked| && marked[k] == n;
      assert notifs[k] in notifs;
    }
  }

  /** The first `j` notifications of `notifs` are delivered for `subId` in `current`, the rest untouched. */
  predicate DeliveredUpTo(notifs: seq<Notification>, current: seq<Notification>, j: nat, subId: Id, now: int) {
    && |current| == |notifs|
    && (forall k :: 0 <= k < j && k < |notifs| ==> current[k] == Deliver(notifs[k], {subId}, now))
    && (forall k :: j <= k < |notifs| ==> current[k] == notifs[k])
  }

  /** One iteration of the delivery loop of one subscription. */
  lemma DeliverStep(notifs: seq<Notification>, current: seq<Notification>, j: nat, subId: Id, now: int)
    requires j < |notifs| && DeliveredUpTo(notifs, current, j, subId, now)
    ensures current[j] == notifs[j]
    ensures notifs[..j + 1] == notifs[..j] + [notifs[j]]
    ensures ListNotificationsFromSubscription(notifs[..j + 1], subId)
         == ListNotificationsFromSubscription(notifs[..j], subId) + (if PendingFor(notifs[j], subId) then [notifs[j]] else [])
    ensures PendingFor(notifs[j], subId) ==> DeliveredUpTo(notifs, current[j := notifs[j].(finishedAt := Some(now))], j + 1, subId, now)
    ensures !PendingFor(notifs[j], subId) ==> DeliveredUpTo(notifs, current, j + 1, subId, now)
  {
    assert notifs[..j + 1] == notifs[..j] + [notifs[j]];
    ListNotificationsSnoc(notifs[..j], notifs[j], subId);
  }

  lemma DeliveredAll(notifs: seq<Notification>, current: seq<Notification>, j: nat, subId: Id, now: int)
    requires j == |notifs| && DeliveredUpTo(notifs, current, j, subId, now)
    ensures current == MarkDelivered(notifs, {subId}, now)
    ensures notifs[..|notifs|] == notifs
  {
  }

  /** Delivering for `ids` and then for `id` is delivering for both at once. */
  lemma MarkDeliveredTwice(notifs: seq<Notification>, ids: set<Id>, id: Id, now: int)
    ensures MarkDelivered(MarkDelivered(notifs, ids, now), {id}, now) == MarkDelivered(notifs, ids + {id}, now)
  {
  }

  /** Marking the notifications of other subscriptions does not change what is pending for `id`. */
  lemma {:induction false} MarkingOthersKeepsPending(notifs: seq<Notification>, ids: set<Id>, id: Id, now: int)
    requires id !in ids
    ensures ListNotificationsFromSubscription(MarkDelivered(notifs, ids, now), id) == ListNotificationsFromSubscription(notifs, id)
  {
    if notifs != [] {
      var init := notifs[..|notifs| - 1];
      var marked := MarkDelivered(notifs, ids, now);
      assert marked == MarkDelivered(init, ids, now) + [Deliver(notifs[|notifs| - 1], ids, now)];
      MarkingOthersKeepsPending(init, ids, id, now);
      ListNotificationsSnoc(MarkDelivered(init, ids, now), Deliver(notifs[|notifs| - 1], ids, now), id);
    }
  }

  /**
   * After a delivery pass at `now`, a second pass at the same or a later time sends nothing
   * (unless new notifications are stored in between).
   */
  lemma SecondPassSendsNothing(subs: seq<Subscription>, notifs: seq<Notification>, connId: Id, now: int, later: int)
    requires now <= later
    ensures PendingDeliveries(RefreshHeartbeats(subs, connId, now), MarkDelivered(notifs, OwnedIds(subs, connId, now), now), connId, later) == []
  {
    var ids := OwnedIds(subs, connId, now);
    var refreshed := RefreshHeartbeats(subs, connId, now);
    var marked := MarkDelivered(notifs, ids, now);
    var r := PendingDeliveries(refreshed, marked, connId, later);
    forall s' | s' in refreshed && LiveOf(s', connId, later)
      ensures s'.id in ids
    {
      var k :| 0 <= k < |refreshed| && refreshed[k] == s';
      assert LiveOf(subs[k], connId, now);
    }
    forall n | n in marked && n.finishedAt.None?
      ensures n.subscriptionId !in ids
    {
      var j :| 0 <= j < |marked| && marked[j] == n;
    }
    if r != [] {
      HeadIsMember(r);
      assert false;
    }
  }

  /**
   * A pass leaves alone, and does not send, the notifications of a subscription that belongs
   * to another connection.
   */
  lemma OtherConnectionsUntouched(subs: seq<Subscription>, notifs: seq<Notification>, connId: Id, now: int, t: Subscription, k: nat)
    requires DistinctIds(subs) && t in subs && t.connectionId != connId
    requires k < |notifs| && notifs[k].subscriptionId == t.id
    ensures MarkDelivered(notifs, OwnedIds(subs, connId, now), now)[k] == notifs[k]
    ensures notifs[k] !in PendingDeliveries(subs, notifs, connId, now)
  {
    if t.id in OwnedIds(subs, connId, now) {
      var s :| s in subs && LiveOf(s, connId, now) && s.id == t.id;
      SameIdSameRow(subs, s, t);
      assert false;
    }
  }

  /**
   * The heartbeat rule never moves a heartbeat back and changes nothing else; a subscription
   * that was live stays live, and a refreshed one is live for a whole window after `now`.
   */
  lemma RefreshKeepsLive(subs: seq<Subscription>, connId: Id, now: int, k: nat, t: int)
    requires k < |subs|
    ensures var r := RefreshHeartbeats(subs, connId, now)[k];
      && r.lastHeartbeat >= subs[k].lastHeartbeat
      && r == subs[k].(lastHeartbeat := r.lastHeartbeat)
      && (IsLive(subs[k], t) ==> IsLive(r, t))
      && (r != subs[k] ==> r.lastHeartbeat == now && (now <= t < now + HEARTBEAT_LIMIT ==> IsLive(r, t)))
  {
  }

  // ---------------------------------------------------------------------------------------
  // Teardown
  // ---------------------------------------------------------------------------------------

  function CloseConnection(c: Connection, connId: Id, now: int): Connection {
    if c.id == connId then c.(finishedAt := Some(now)) else c
  }

  function CloseConnections(conns: seq<Connection>, connId: Id, now: int): (r: seq<Connection>)
    ensures |r| == |conns|
  {
    seq(|conns|, k requires 0 <= k < |conns| => CloseConnection(conns[k], connId, now))
  }

  /** Every subscription of the connection, finished or not, gets `finishedAt := now`. */
  function FinishSubscription(s: Subscription, connId: Id, now: int): Subscription {
    if s.connectionId == connId then s.(finishedAt := Some(now)) else s
  }

  function FinishSubscriptions(subs: seq<Subscription>, connId: Id, now: int): (r: seq<Subscription>)
    ensures |r| == |subs|
  {
    seq(|subs|, k requires 0 <= k < |subs| => FinishSubscription(subs[k], connId, now))
  }

  /** After teardown no subscription of the connection is live, at any time. */
  lemma ClosedSessionHasNoLiveSubscriptions(subs: seq<Subscription>, connId: Id, now: int, later: int)
    ensures ListSubscriptionsFromConnection(FinishSubscriptions(subs, connId, now), connId, later) == []
    ensures OwnedIds(FinishSubscriptions(subs, connId, now), connId, later) == {}
  {
    var r := ListSubscriptionsFromConnection(FinishSubscriptions(subs, connId, now), connId, later);
    if r != [] {
      HeadIsMember(r);
      assert false;
    }
  }

  /**
   * After teardown every symbol the ingestion process still wants comes from a live
   * subscription of another connection.
   */
  lemma ClosedSessionLeavesDesiredSet(subs: seq<Subscription>, connId: Id, now: int, later: int, x: string)
    requires x in ListCurrentSubSymbols(FinishSubscriptions(subs, connId, now), later)
    ensures exists s :: s in subs && s.connectionId != connId && IsLive(s, later) && s.symbol == x
  {
    var closed := FinishSubscriptions(subs, connId, now);
    var s' :| s' in closed && IsLive(s', later) && s'.symbol == x;
    var k :| 0 <= k < |closed| && closed[k] == s';
    assert subs[k].connectionId != connId && subs[k] == s';
  }

  /** The subscription table after the event part of a loop iteration, before the delivery pass. */
  function SubscriptionsAfterEvent(subs: seq<Subscription>, connId: Id, event: ClientEvent, now: int, supported: set<string>, id: Id): seq<Subscription> {
    if event.Received? then SubscriptionsAfter(subs, connId, event.request, now, supported, id) else subs
  }

  /** What the event part of a loop iteration sends, before the delivery pass. */
  function EventReplies(subs: seq<Subscription>, connId: Id, event: ClientEvent, now: int, supported: set<string>, id: Id): seq<Reply> {
    match event
    case Received(req) => Sent(HandlerReply(subs, connId, req, now, supported, id))
    case Malformed => [InvalidMessage(INVALID_MESSAGE)]
    case _ => []
  }

  // ---------------------------------------------------------------------------------------
  // The handler
  // ---------------------------------------------------------------------------------------

  /** The per-connection handler: its client socket and the id of its connection row. */
  class WsHandler {
    const websocket: ClientSocket
    const connId: Id

    /** Stores a new, open connection row and keeps its id. */
    constructor (websocket: ClientSocket, store: Store, now: int)
      requires store.Valid()
      modifies store`connections, store`nextId
      ensures store.Valid()
      ensures this.websocket == websocket && connId == old(store.nextId)
      ensures store.connections == old(store.connections) + [Connection(connId, now, None)]
      ensures store.nextId == old(store.nextId) + 1
    {
      var id := store.NewId();
      store.connections := store.connections + [Connection(id, now, None)];
      this.websocket := websocket;
      connId := id;
    }

    /**
     * A subscribe request: reject an unsupported symbol, ignore a duplicate of a live
     * subscription of this connection, otherwise store the new subscription and echo it.
     */
    method HandleReceivedMessage(store: Store, req: SubscribeRequest, now: int, supported: set<string>) returns (reply: Option<Reply>)
      requires store.Valid()
      modifies store`subscriptions, store`nextId, websocket
      ensures store.Valid()
      ensures reply == HandlerReply(old(store.subscriptions), connId, req, now, supported, old(store.nextId))
      ensures store.subscriptions == SubscriptionsAfter(old(store.subscriptions), connId, req, now, supported, old(store.nextId))
      ensures store.nextId == old(store.nextId) + |store.subscriptions| - |old(store.subscriptions)|
      ensures websocket.sent == old(websocket.sent) + Sent(reply)
    {
      var owned := ListSubscriptionsFromConnection(store.subscriptions, connId, now);
      if Lower(req.symbol) !in supported {
        reply := Some(ErrorReply(SYMBOL_ERROR));
        websocket.Send(reply.value);
        return;
      }
      var duplicate := FindDuplicate(owned, req);
      if duplicate {
        return None;
      }
      var id := store.NewId();
      var sub := NewSubscription(id, connId, req, now);
      store.subscriptions := store.subscriptions + [sub];
      reply := Some(SubscriptionEcho(sub));
      websocket.Send(reply.value);
    }

    /** Sends and marks delivered the pending notifications of one subscription. */
    method DeliverPending(store: Store, subId: Id, now: int)
      modifies store`notifications, websocket
      ensures store.notifications == MarkDelivered(old(store.notifications), {subId}, now)
      ensures websocket.sent == old(websocket.sent) + Pushes(ListNotificationsFromSubscription(old(store.notifications), subId))
    {
      var j := 0;
      while j < |store.notifications|
        invariant j <= |old(store.notifications)| == |store.notifications|
        invariant DeliveredUpTo(old(store.notifications), store.notifications, j, subId, now)
        invariant websocket.sent == old(websocket.sent) + Pushes(ListNotificationsFromSubscription(old(store.notifications)[..j], subId))
      {
        var n := store.notifications[j];
        DeliverStep(old(store.notifications), store.notifications, j, subId, now);
        PushesAppend(ListNotificationsFromSubscription(old(store.notifications)[..j], subId), if PendingFor(n, subId) then [n] else []);
        if PendingFor(n, subId) {
          websocket.Send(NotificationPush(n));
          store.notifications := store.notifications[j := n.(finishedAt := Some(now))];
        }
        j := j + 1;
      }
      DeliveredAll(old(store.notifications), store.notifications, j, subId, now);
    }

    /**
     * The delivery pass: for each live subscription of this connection, refresh a stale
     * heartbeat, then send every pending notification and mark it delivered.
     */
    method CheckNotifications(store: Store, now: int)
      requires store.Valid()
      modifies store`subscriptions, store`notifications, websocket
      ensures store.Valid()
      ensures store.subscriptions == RefreshHeartbeats(old(store.subscriptions), connId, now)
      ensures store.notifications == MarkDelivered(old(store.notifications), OwnedIds(old(store.subscriptions), connId, now), now)
      ensures websocket.sent == old(websocket.sent)
        + Pushes(PendingDeliveries(old(store.subscriptions), old(store.notifications), connId, now))
    {
      var i := 0;
      while i < |store.subscriptions|
        invariant i <= |old(store.subscriptions)| == |store.subscriptions|
        invariant RefreshedUpTo(old(store.subscriptions), store.subscriptions, i, connId, now)
        invariant store.notifications == MarkDelivered(old(store.notifications), OwnedIds(old(store.subscriptions)[..i], connId, now), now)
        invariant websocket.sent == old(websocket.sent)
          + Pushes(PendingDeliveries(old(store.subscriptions)[..i], old(store.notifications), connId, now))
      {
        var sub := store.subscriptions[i];
        RefreshStep(old(store.subscriptions), store.subscriptions, i, connId, now);
        PassStep(old(store.subscriptions), old(store.notifications), i, connId, now, old(websocket.sent));
        if LiveOf(sub, connId, now) {
          if sub.lastHeartbeat < now - HEARTBEAT_LIMIT / 2 {
            store.subscriptions := store.subscriptions[i := sub.(lastHeartbeat := now)];
          }
          DeliverPending(store, sub.id, now);
        }
        i := i + 1;
      }
      RefreshedAll(old(store.subscriptions), store.subscriptions, i, connId, now);
      PassKeepsIds(old(store.subscriptions), old(store.notifications), connId, now, store.nextId);
    }

    /** Teardown: finish this connection's row and every one of its subscriptions. */
    method CloseWebsocketSession(store: Store, now: int)
      requires store.Valid()
      modifies store`connections, store`subscriptions
      ensures store.Valid()
      ensures store.connections == CloseConnections(old(store.connections), connId, now)
      ensures store.subscriptions == FinishSubscriptions(old(store.subscriptions), connId, now)
    {
      var i := 0;
      while i < |store.connections|
        invariant 0 <= i <= |store.connections| == |old(store.connections)|
        invariant forall k :: 0 <= k < i ==> store.connections[k] == CloseConnection(old(store.connections)[k], connId, now)
        invariant forall k :: i <= k < |store.connections| ==> store.connections[k] == old(store.connections)[k]
        invariant store.subscriptions == old(store.subscriptions)
      {
        var conn := store.connections[i];
        if conn.id == connId {
          store.connections := store.connections[i := conn.(finishedAt := Some(now))];
        }
        i := i + 1;
      }
      i := 0;
      while i < |store.subscriptions|
        invariant 0 <= i <= |store.subscriptions| == |old(store.subscriptions)|
        invariant forall k :: 0 <= k < i ==> store.subscriptions[k] == FinishSubscription(old(store.subscriptions)[k], connId, now)
        invariant forall k :: i <= k < |store.subscriptions| ==> store.subscriptions[k] == old(store.subscriptions)[k]
        invariant store.connections == CloseConnections(old(store.connections), connId, now)
      {
        var sub := store.subscriptions[i];
        if sub.connectionId == connId {
          store.subscriptions := store.subscriptions[i := sub.(finishedAt := Some(now))];
        }
        i := i + 1;
      }
    }

    /**
     * One iteration of the endpoint loop. A disconnect tears the session down and ends the
     * loop. Otherwise a request is handled, or a message that fails to decode gets the
     * plain-text reply, and then the delivery pass runs. The result says whether the loop goes on.
     */
    method Step(store: Store, event: ClientEvent, now: int, supported: set<string>) returns (open: bool)
      requires store.Valid()
      modifies store`connections, store`subscriptions, store`notifications, store`nextId, websocket
      ensures store.Valid()
      ensures open <==> !event.Disconnected?
      ensures event.Disconnected? ==>
        && store.connections == CloseConnections(old(store.connections), connId, now)
        && store.subscriptions == FinishSubscriptions(old(store.subscriptions), connId, now)
        && store.notifications == old(store.notifications)
        && store.nextId == old(store.nextId)
        && websocket.sent == old(websocket.sent)
      ensures !event.Disconnected? ==>
        var subs := SubscriptionsAfterEvent(old(store.subscriptions), connId, event, now, supported, old(store.nextId));
        && store.connections == old(store.connections)
        && store.nextId == old(store.nextId) + |subs| - |old(store.subscriptions)|
        && store.subscriptions == RefreshHeartbeats(subs, connId, now)
        && store.notifications == MarkDelivered(old(store.notifications), OwnedIds(subs, connId, now), now)
        && websocket.sent == old(websocket.sent)
             + EventReplies(old(store.subscriptions), connId, event, now, supported, old(store.nextId))
             + Pushes(PendingDeliveries(subs, old(store.notifications), connId, now))
    {
      match event {
        case Disconnected =>
          CloseWebsocketSession(store, now);
          return false;
        case Received(req) =>
          var _ := HandleReceivedMessage(store, req, now, supported);
        case Malformed =>
          websocket.Send(InvalidMessage(INVALID_MESSAGE));
        case TimedOut =>
      }
      CheckNotifications(store, now);
      return true;
    }
  }
}

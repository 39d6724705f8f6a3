/**
 * The ingestion process of src/ingestion.py: the rising-edge crossing detector applied to each
 * feed tick, and the reconciler that keeps the feed's subscribed-symbol set equal to the
 * symbols of live subscriptions.
 */
module Ingestion {
  import opened Records
  import opened Seqs
  import opened Text
  import opened Data

  /** A decoded feed tick: event type `e`, symbol `s`, price `p` and event time `E`. */
  datatype Trade = Trade(eventType: string, symbol: string, price: real, eventTime: int)

  datatype FeedMethod = SUBSCRIBE | UNSUBSCRIBE

  /** `{"method": ..., "params": [...], "id": ...}` as sent to the feed. */
  datatype FeedCommand = FeedCommand(command: FeedMethod, params: seq<string>, id: int)

  function StreamName(symbol: string): string {
    symbol + "@trade"
  }

  /** The commands a loop over `symbols` sends, one per symbol, with request ids counting up from `firstId`. */
  function Commands(m: FeedMethod, symbols: seq<string>, firstId: int): (r: seq<FeedCommand>)
    ensures |r| == |symbols|
  {
    if symbols == [] then []
    else
      var init := symbols[..|symbols| - 1];
      Commands(m, init, firstId) + [FeedCommand(m, [StreamName(symbols[|symbols| - 1])], firstId + |init|)]
  }

  lemma CommandsSnoc(m: FeedMethod, symbols: seq<string>, symbol: string, firstId: int)
    ensures Commands(m, symbols + [symbol], firstId)
         == Commands(m, symbols, firstId) + [FeedCommand(m, [StreamName(symbol)], firstId + |symbols|)]
  {
    assert (symbols + [symbol])[..|symbols|] == symbols;
  }

  /**
   * After the subscribe loop has added `open - current`, the source's
   * `(symbol_subs ^ open_symbols) & symbol_subs` is exactly `current - open`.
   */
  lemma StaleSymbols(current: set<string>, open: set<string>)
    ensures var after := current + (open - current);
      && ((after - open) + (open - after)) * after == current - open
      && after - (current - open) == open
  {
  }

  lemma CommandsSameIds(m: FeedMethod, symbols: seq<string>, firstId: int, sameId: int)
    requires firstId == sameId
    ensures Commands(m, symbols, firstId) == Commands(m, symbols, sameId)
  {
  }

  /** The k-th command sent by a loop over `symbols` names the k-th symbol and carries request id `firstId + k`. */
  lemma {:induction false} CommandsAt(m: FeedMethod, symbols: seq<string>, firstId: int, k: int)
    requires 0 <= k < |symbols|
    ensures Commands(m, symbols, firstId)[k] == FeedCommand(m, [StreamName(symbols[k])], firstId + k)
  {
    var init := symbols[..|symbols| - 1];
    if k < |init| {
      CommandsAt(m, init, firstId, k);
    }
  }

  /** The commands after the first `start` carry request ids counting up by one from `firstId`. */
  predicate ConsecutiveIdsFrom(sent: seq<FeedCommand>, start: int, firstId: int) {
    forall k :: 0 <= start <= k < |sent| ==> sent[k].id == firstId + (k - start)
  }

  /** A reconciliation pass's subscribe and unsubscribe commands carry consecutive request ids. */
  lemma PassIdsConsecutive(sent: seq<FeedCommand>, before: seq<FeedCommand>, subscribed: seq<string>, unsubscribed: seq<string>, firstId: int)
    requires sent == before + Commands(SUBSCRIBE, subscribed, firstId) + Commands(UNSUBSCRIBE, unsubscribed, firstId + |subscribed|)
    ensures ConsecutiveIdsFrom(sent, |before|, firstId)
  {
    var a := Commands(SUBSCRIBE, subscribed, firstId);
    var b := Commands(UNSUBSCRIBE, unsubscribed, firstId + |subscribed|);
    forall k | |before| <= k < |sent|
      ensures sent[k].id == firstId + (k - |before|)
    {
      if k < |before| + |a| {
        assert sent[k] == a[k - |before|];
        CommandsAt(SUBSCRIBE, subscribed, firstId, k - |before|);
      } else {
        assert sent[k] == b[k - |before| - |a|];
        CommandsAt(UNSUBSCRIBE, unsubscribed, firstId + |subscribed|, k - |before| - |a|);
      }
    }
  }

  /**
   * The guard of the tick handler: Python's truthiness makes a previous price of 0 behave
   * like a missing one, and only a rise passes.
   */
  predicate PriceRose(previous: Option<real>, current: real) {
    previous.Some? && previous.value != 0.0 && previous.value < current
  }

  /** The subscriptions whose threshold lies strictly between the two prices. */
  function Crossing(subs: seq<Subscription>, previous: real, current: real): (r: seq<Subscription>)
    ensures forall s :: s in r <==> s in subs && previous < s.priceThreshold < current
    ensures DistinctIds(subs) ==> DistinctIds(r)
  {
    var crosses := (s: Subscription) => previous < s.priceThreshold < current;
    FilterKeepsDistinctIds(subs, crosses);
    Filter(subs, crosses)
  }

  /** One notification per crossing subscription, with ids counting up from `firstId`. */
  function NewNotifications(crossing: seq<Subscription>, price: real, orderRef: int, now: int, firstId: Id): (r: seq<Notification>)
    ensures |r| == |crossing|
    ensures forall k :: 0 <= k < |r| ==>
      && r[k].id == firstId + k
      && r[k].subscriptionId == crossing[k].id
      && r[k].symbol == crossing[k].symbol
      && r[k].message == PriceSurpassed(price)
      && r[k].orderRef == orderRef
      && r[k].finishedAt.None?
  {
    seq(|crossing|, k requires 0 <= k < |crossing| =>
      Notification(firstId + k, crossing[k].id, crossing[k].symbol, PriceSurpassed(price), orderRef, now, None))
  }

  function PreviousPrice(previousPrices: map<string, real>, symbol: string): Option<real> {
    if symbol in previousPrices then Some(previousPrices[symbol]) else None
  }

  /** The notifications one tick adds to the store, given the last prices seen before it. */
  function TickNotifications(subs: seq<Subscription>, previousPrices: map<string, real>, message: Trade, now: int, firstId: Id): seq<Notification>
  {
    var symbol := Lower(message.symbol);
    var previous := PreviousPrice(previousPrices, symbol);
    if PriceRose(previous, message.price) then
      NewNotifications(Crossing(ListCurrentSubscriptionsFromSymbol(subs, symbol, now), previous.value, message.price),
                       message.price, message.eventTime, now, firstId)
    else []
  }

  /** The first tick of a symbol finds no previous price and creates nothing. */
  lemma FirstTickCreatesNothing(subs: seq<Subscription>, previousPrices: map<string, real>, message: Trade, now: int, firstId: Id)
    requires Lower(message.symbol) !in previousPrices
    ensures TickNotifications(subs, previousPrices, message, now, firstId) == []
  {
  }

  /** A falling or flat price, or a previous price of 0, creates nothing. */
  lemma NoRiseCreatesNothing(subs: seq<Subscription>, previousPrices: map<string, real>, message: Trade, now: int, firstId: Id)
    requires Lower(message.symbol) in previousPrices
    requires message.price <= previousPrices[Lower(message.symbol)] || previousPrices[Lower(message.symbol)] == 0.0
    ensures TickNotifications(subs, previousPrices, message, now, firstId) == []
  {
  }

  /**
   * The crossing rule: a tick creates a notification for subscription `s` exactly when `s` is
   * live, stored under the tick's lower-cased symbol, and its threshold lies strictly between a
   * non-zero previous price and the current one.
   */
  lemma NotificationIffCrossing(subs: seq<Subscription>, previousPrices: map<string, real>, message: Trade, now: int, firstId: Id, s: Subscription)
    requires DistinctIds(subs) && s in subs
    ensures var symbol := Lower(message.symbol);
      (exists n :: n in TickNotifications(subs, previousPrices, message, now, firstId) && n.subscriptionId == s.id)
      <==>
      (&& IsLive(s, now) && s.symbol == symbol
       && symbol in previousPrices && previousPrices[symbol] != 0.0
       && previousPrices[symbol] < s.priceThreshold < message.price)
  {
    var symbol := Lower(message.symbol);
    LowerIdempotent(message.symbol);
    var r := TickNotifications(subs, previousPrices, message, now, firstId);
    var previous := PreviousPrice(previousPrices, symbol);
    if PriceRose(previous, message.price) {
      var live := ListCurrentSubscriptionsFromSymbol(subs, symbol, now);
      var crossing := Crossing(live, previous.value, message.price);
      assert r == NewNotifications(crossing, message.price, message.eventTime, now, firstId);
      if n :| n in r && n.subscriptionId == s.id {
        var k :| 0 <= k < |r| && r[k] == n;
        assert crossing[k] in crossing;
        SameIdSameRow(subs, crossing[k], s);
      }
      if s in crossing {
        var k :| 0 <= k < |crossing| && crossing[k] == s;
        assert r[k] in r;
      }
    }
  }

  /**
   * Every created notification names a live subscription of the tick's symbol, carries that
   * symbol and the tick's event time, and is undelivered.
   */
  lemma NotificationsAddressLiveSubscriptions(subs: seq<Subscription>, previousPrices: map<string, real>, message: Trade, now: int, firstId: Id)
    ensures forall n :: n in TickNotifications(subs, previousPrices, message, now, firstId) ==>
      && n.symbol == Lower(message.symbol)
      && n.orderRef == message.eventTime
      && n.message == PriceSurpassed(message.price)
      && n.finishedAt.None?
      && exists s :: s in subs && s.id == n.subscriptionId && IsLive(s, now) && s.symbol == n.symbol
  {
    var symbol := Lower(message.symbol);
    LowerIdempotent(message.symbol);
    var r := TickNotifications(subs, previousPrices, message, now, firstId);
    var previous := PreviousPrice(previousPrices, symbol);
    if PriceRose(previous, message.price) {
      var crossing := Crossing(ListCurrentSubscriptionsFromSymbol(subs, symbol, now), previous.value, message.price);
      forall n | n in r
        ensures n.symbol == symbol
        ensures exists s :: s in subs && s.id == n.subscriptionId && IsLive(s, now) && s.symbol == n.symbol
      {
        var k :| 0 <= k < |r| && r[k] == n;
        assert crossing[k] in crossing;
      }
    }
  }

  /** A tick creates at most one notification per subscription. */
  lemma OneNotificationPerSubscription(subs: seq<Subscription>, previousPrices: map<string, real>, message: Trade, now: int, firstId: Id)
    requires DistinctIds(subs)
    ensures var r := TickNotifications(subs, previousPrices, message, now, firstId);
      forall i, j :: 0 <= i < j < |r| ==> r[i].subscriptionId != r[j].subscriptionId
  {
  }

  /**
   * One iteration of a loop that walks `symbols` and sends one command per symbol: the visit
   * order grows by the chosen symbol, and so do the commands sent and the subscribed set.
   */
  lemma WalkCommandStep(m: FeedMethod, symbols: set<string>, remaining: set<string>, order: seq<string>, symbol: string,
                        before: set<string>, sent0: seq<FeedCommand>, firstId: int)
    requires remaining <= symbols && symbol in remaining
    requires Elements(order) == symbols - remaining && NoDuplicates(order)
    ensures remaining - {symbol} <= symbols
    ensures Elements(order + [symbol]) == symbols - (remaining - {symbol}) && NoDuplicates(order + [symbol])
    ensures before + Elements(order) + {symbol} == before + Elements(order + [symbol])
    ensures before - Elements(order) - {symbol} == before - Elements(order + [symbol])
    ensures sent0 + Commands(m, order, firstId) + [FeedCommand(m, [StreamName(symbol)], firstId + |order|)]
         == sent0 + Commands(m, order + [symbol], firstId)
  {
    WalkStep(symbols, remaining, order, symbol);
    CommandsSnoc(m, order, symbol, firstId);
  }

  /** The connection to the market-data feed; only what is sent on it is modelled. */
  class FeedSocket {
    var sent: seq<FeedCommand>

    constructor ()
      ensures sent == []
    {
      sent := [];
    }

    method Send(command: FeedCommand)
      modifies this
      ensures sent == old(sent) + [command]
    {
      sent := sent + [command];
    }
  }

  /** The ingestion process's own state. */
  class Ingestion {
    var symbolSubs: set<string>
    var lastId: int
    var previousPrices: map<string, real>

    constructor ()
      ensures symbolSubs == {"etcusdt"} && lastId == 1 && previousPrices == map[]
    {
      symbolSubs := {"etcusdt"};
      lastId := 1;
      previousPrices := map[];
    }

    /**
     * One feed tick: store the notifications of every live subscription of the tick's symbol
     * that the price rose through, then record the price as the symbol's last one.
     */
    method OnMessage(store: Store, message: Trade, now: int)
      requires store.Valid()
      modifies this`previousPrices, store
      ensures store.Valid()
      ensures previousPrices == old(previousPrices)[Lower(message.symbol) := message.price]
      ensures store.notifications == old(store.notifications)
        + TickNotifications(old(store.subscriptions), old(previousPrices), message, now, old(store.nextId))
      ensures store.nextId == old(store.nextId)
        + |TickNotifications(old(store.subscriptions), old(previousPrices), message, now, old(store.nextId))|
      ensures store.connections == old(store.connections) && store.subscriptions == old(store.subscriptions)
    {
      var symbol := Lower(message.symbol);
      var currentPrice := message.price;
      var previousPrice := PreviousPrice(previousPrices, symbol);
      if PriceRose(previousPrice, currentPrice) {
        var subs := ListCurrentSubscriptionsFromSymbol(store.subscriptions, symbol, now);
        var notifications := NewNotifications(Crossing(subs, previousPrice.value, currentPrice),
                                              currentPrice, message.eventTime, now, store.nextId);
        store.notifications := store.notifications + notifications;
        store.nextId := store.nextId + |notifications|;
      }
      previousPrices := previousPrices[symbol := currentPrice];
    }

    /** Send a SUBSCRIBE command with request id `id` and add the symbol to the subscribed set. */
    method SubscribeToIngestion(ws: FeedSocket, id: int, symbol: string)
      modifies this`symbolSubs, this`lastId, ws
      ensures ws.sent == old(ws.sent) + [FeedCommand(SUBSCRIBE, [StreamName(symbol)], id)]
      ensures symbolSubs == old(symbolSubs) + {symbol}
      ensures lastId == id
    {
      ws.Send(FeedCommand(SUBSCRIBE, [StreamName(symbol)], id));
      symbolSubs := symbolSubs + {symbol};
      lastId := id;
    }

    /**
     * Send an UNSUBSCRIBE command with request id `id` and remove the symbol from the subscribed
     * set; Python's `set.remove` fails on a symbol that is not there.
     */
    method UnsubscribeToIngestion(ws: FeedSocket, id: int, symbol: string)
      requires symbol in symbolSubs
      modifies this`symbolSubs, this`lastId, ws
      ensures ws.sent == old(ws.sent) + [FeedCommand(UNSUBSCRIBE, [StreamName(symbol)], id)]
      ensures symbolSubs == old(symbolSubs) - {symbol}
      ensures lastId == id
    {
      ws.Send(FeedCommand(UNSUBSCRIBE, [StreamName(symbol)], id));
      symbolSubs := symbolSubs - {symbol};
      lastId := id;
    }

    /** The subscribe loop of a reconciliation pass, over a set walked in unspecified order. */
    method SubscribeAll(ws: FeedSocket, symbols: set<string>) returns (ghost order: seq<string>)
      modifies this`symbolSubs, this`lastId, ws
      ensures Elements(order) == symbols && NoDuplicates(order) && |order| == |symbols|
      ensures symbolSubs == old(symbolSubs) + symbols
      ensures lastId == old(lastId) + |symbols|
      ensures ws.sent == old(ws.sent) + Commands(SUBSCRIBE, order, old(lastId) + 1)
    {
      var remaining := symbols;
      order := [];
      while remaining != {}
        invariant remaining <= symbols
        invariant Elements(order) == symbols - remaining && NoDuplicates(order)
        invariant symbolSubs == old(symbolSubs) + Elements(order)
        invariant lastId == old(lastId) + |order|
        invariant ws.sent == old(ws.sent) + Commands(SUBSCRIBE, order, old(lastId) + 1)
        decreases remaining
      {
        var symbol :| symbol in remaining;
        WalkCommandStep(SUBSCRIBE, symbols, remaining, order, symbol, old(symbolSubs), old(ws.sent), old(lastId) + 1);
        SubscribeToIngestion(ws, lastId + 1, symbol);
        remaining := remaining - {symbol};
        order := order + [symbol];
      }
      NoDuplicatesCardinality(order);
    }

    /** The unsubscribe loop of a reconciliation pass; every symbol it removes is subscribed. */
    method UnsubscribeAll(ws: FeedSocket, symbols: set<string>) returns (ghost order: seq<string>)
      requires symbols <= symbolSubs
      modifies this`symbolSubs, this`lastId, ws
      ensures Elements(order) == symbols && NoDuplicates(order) && |order| == |symbols|
      ensures symbolSubs == old(symbolSubs) - symbols
      ensures lastId == old(lastId) + |symbols|
      ensures ws.sent == old(ws.sent) + Commands(UNSUBSCRIBE, order, old(lastId) + 1)
    {
      var remaining := symbols;
      order := [];
      while remaining != {}
        invariant remaining <= symbols
        invariant Elements(order) == symbols - remaining && NoDuplicates(order)
        invariant symbolSubs == old(symbolSubs) - Elements(order)
        invariant lastId == old(lastId) + |order|
        invariant ws.sent == old(ws.sent) + Commands(UNSUBSCRIBE, order, old(lastId) + 1)
        decreases remaining
      {
        var symbol :| symbol in remaining;
        WalkCommandStep(UNSUBSCRIBE, symbols, remaining, order, symbol, old(symbolSubs), old(ws.sent), old(lastId) + 1);
        UnsubscribeToIngestion(ws, lastId + 1, symbol);
        remaining := remaining - {symbol};
        order := order + [symbol];
      }
      NoDuplicatesCardinality(order);
    }

    /**
     * One reconciliation pass: subscribe the desired symbols not yet subscribed, then unsubscribe
     * the subscribed symbols no longer desired, each command with the next request id. The ghost
     * results give the (unspecified) order in which each set was walked.
     */
    method CheckCurrentSubs(ws: FeedSocket, store: Store, now: int) returns (ghost subscribed: seq<string>, ghost unsubscribed: seq<string>)
      modifies this`symbolSubs, this`lastId, ws
      ensures var desired := Elements(ListCurrentSubSymbols(store.subscriptions, now));
        && Elements(subscribed) == desired - old(symbolSubs) && NoDuplicates(subscribed)
        && Elements(unsubscribed) == old(symbolSubs) - desired && NoDuplicates(unsubscribed)
        && symbolSubs == desired
        && lastId == old(lastId) + |desired - old(symbolSubs)| + |old(symbolSubs) - desired|
      ensures ws.sent == old(ws.sent)
        + Commands(SUBSCRIBE, subscribed, old(lastId) + 1)
        + Commands(UNSUBSCRIBE, unsubscribed, old(lastId) + 1 + |subscribed|)
    {
      var openSymbols := Elements(ListCurrentSubSymbols(store.subscriptions, now));
      var toSubscribe := openSymbols - symbolSubs;
      var toUnsubscribe := symbolSubs - openSymbols;

      subscribed := SubscribeAll(ws, toSubscribe);
      // Python's `(symbol_subs ^ open_symbols) & symbol_subs`, taken after the subscribe loop.
      var stale := ((symbolSubs - openSymbols) + (openSymbols - symbolSubs)) * symbolSubs;
      StaleSymbols(old(symbolSubs), openSymbols);
      assert stale == toUnsubscribe;
      ghost var sent1, firstUnsubscribeId := ws.sent, lastId + 1;
      unsubscribed := UnsubscribeAll(ws, stale);
      assert ws.sent == sent1 + Commands(UNSUBSCRIBE, unsubscribed, firstUnsubscribeId);

      symbolSubs := symbolSubs + toSubscribe;
      symbolSubs := symbolSubs - toUnsubscribe;
      assert symbolSubs == openSymbols;
      CommandsSameIds(UNSUBSCRIBE, unsubscribed, firstUnsubscribeId, old(lastId) + 1 + |subscribed|);
    }
  }
}

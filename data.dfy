/**
 * The read-only queries of src/sql/data.py. Each takes the rows it filters (and the current
 * time) and returns a list; being functions, none of them can change the store.
 */
module Data {
  import opened Records
  import opened Seqs
  import opened Text

  /** The heartbeat window, in seconds. */
  const HEARTBEAT_LIMIT: int := 60

  /** The liveness filter every subscription query applies: not finished, heartbeat inside the window. */
  predicate IsLive(s: Subscription, now: int) {
    s.finishedAt.None? && s.lastHeartbeat > now - HEARTBEAT_LIMIT
  }

  /** Filtering rows with unique ids keeps them unique. */
  lemma {:induction false} FilterKeepsDistinctIds(subs: seq<Subscription>, p: Subscription -> bool)
    ensures DistinctIds(subs) ==> DistinctIds(Filter(subs, p))
  {
    if subs != [] && DistinctIds(subs) {
      var init := subs[..|subs| - 1];
      var last := subs[|subs| - 1];
      assert DistinctIds(init);
      FilterKeepsDistinctIds(init, p);
      forall t | t in Filter(init, p)
        ensures t.id != last.id
      {
        var i :| 0 <= i < |init| && init[i] == t;
        assert subs[i] == t;
      }
    }
  }

  /** The desired set: each symbol of a live subscription once (`SELECT DISTINCT symbol`). */
  function ListCurrentSubSymbols(subs: seq<Subscription>, now: int): (r: seq<string>)
    ensures forall x :: x in r <==> exists s :: s in subs && IsLive(s, now) && s.symbol == x
    ensures NoDuplicates(r)
  {
    if subs == [] then []
    else
      var init := subs[..|subs| - 1];
      var last := subs[|subs| - 1];
      assert subs == init + [last];
      var rest := ListCurrentSubSymbols(init, now);
      if IsLive(last, now) && last.symbol !in rest then rest + [last.symbol] else rest
  }

  /** The live subscriptions whose stored symbol equals the lower-cased argument. */
  function ListCurrentSubscriptionsFromSymbol(subs: seq<Subscription>, symbol: string, now: int): (r: seq<Subscription>)
    ensures forall s :: s in r <==> s in subs && IsLive(s, now) && s.symbol == Lower(symbol)
    ensures DistinctIds(subs) ==> DistinctIds(r)
  {
    var matches := (s: Subscription) => IsLive(s, now) && s.symbol == Lower(symbol);
    FilterKeepsDistinctIds(subs, matches);
    Filter(subs, matches)
  }

  /** Whether `s` is a live subscription of connection `connId`. */
  predicate LiveOf(s: Subscription, connId: Id, now: int) {
    IsLive(s, now) && s.connectionId == connId
  }

  /** The live subscriptions of one connection, in store order. */
  function ListSubscriptionsFromConnection(subs: seq<Subscription>, connId: Id, now: int): (r: seq<Subscription>)
    ensures forall s :: s in r <==> s in subs && IsLive(s, now) && s.connectionId == connId
    ensures DistinctIds(subs) ==> DistinctIds(r)
  {
    var owned := (s: Subscription) => LiveOf(s, connId, now);
    FilterKeepsDistinctIds(subs, owned);
    Filter(subs, owned)
  }

  /** Whether `n` is an undelivered notification of subscription `subId`. */
  predicate PendingFor(n: Notification, subId: Id) {
    n.finishedAt.None? && n.subscriptionId == subId
  }

  /** The undelivered notifications of one subscription, in store order; no liveness filter. */
  function ListNotificationsFromSubscription(notifs: seq<Notification>, subId: Id): (r: seq<Notification>)
    ensures forall n :: n in r <==> n in notifs && n.finishedAt.None? && n.subscriptionId == subId
  {
    if notifs == [] then []
    else
      var init := notifs[..|notifs| - 1];
      var last := notifs[|notifs| - 1];
      assert notifs == init + [last];
      ListNotificationsFromSubscription(init, subId) + (if PendingFor(last, subId) then [last] else [])
  }

  /** Extending the table by one row extends the query result by that row when it is pending. */
  lemma ListNotificationsSnoc(notifs: seq<Notification>, n: Notification, subId: Id)
    ensures ListNotificationsFromSubscription(notifs + [n], subId)
         == ListNotificationsFromSubscription(notifs, subId) + (if PendingFor(n, subId) then [n] else [])
  {
    assert (notifs + [n])[..|notifs|] == notifs;
  }

  /** The window is strict: a heartbeat exactly HEARTBEAT_LIMIT seconds old no longer counts. */
  lemma HeartbeatWindowIsStrict(s: Subscription, now: int)
    requires s.finishedAt.None?
    ensures s.lastHeartbeat == now - HEARTBEAT_LIMIT ==> !IsLive(s, now)
    ensures s.lastHeartbeat == now - HEARTBEAT_LIMIT + 1 ==> IsLive(s, now)
  {
  }

  /**
   * A symbol whose subscriptions all have heartbeats older than the window leaves the desired
   * set, even when none of them is finished.
   */
  lemma StaleSymbolNotDesired(subs: seq<Subscription>, now: int, x: string)
    requires forall s :: s in subs && s.symbol == x ==> s.lastHeartbeat <= now - HEARTBEAT_LIMIT
    ensures x !in ListCurrentSubSymbols(subs, now)
  {
  }

  /**
   * The subscribe handler stores the symbol as the client sent it, while this query compares
   * with a lower-cased symbol: a subscription stored with a capital letter is never returned.
   */
  lemma MixedCaseSubscriptionNeverMatched(subs: seq<Subscription>, symbol: string, now: int, s: Subscription)
    requires !IsLower(s.symbol)
    ensures s !in ListCurrentSubscriptionsFromSymbol(subs, symbol, now)
  {
    LowerIsLower(symbol);
  }
}

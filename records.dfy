/**
 * The three record kinds of the shared store and the store itself.
 *
 * Field names follow how src/sql/data.py and src/main.py use the rows; timestamps are
 * whole seconds and a null timestamp is `None`. Row ids are abstract naturals handed out
 * by the store in place of UUIDs.
 */
module Records {

  datatype Option<T> = None | Some(value: T)

  type Id = nat

  /** One client session of the session process. */
  datatype Connection = Connection(id: Id, createdAt: int, finishedAt: Option<int>)

  /** A standing request "notify this connection when `symbol` rises through `priceThreshold`". */
  datatype Subscription = Subscription(
    id: Id,
    connectionId: Id,
    symbol: string,
    priceThreshold: real,
    createdAt: int,
    lastHeartbeat: int,
    finishedAt: Option<int>)

  /** The human-readable text of a notification, "Price has surpassed the threshold: <price>". */
  datatype Message = PriceSurpassed(price: real)

  /** One detected crossing, addressed to one subscription; `finishedAt` is set once delivered. */
  datatype Notification = Notification(
    id: Id,
    subscriptionId: Id,
    symbol: string,
    message: Message,
    orderRef: int,
    createdAt: int,
    finishedAt: Option<int>)

  /** Subscription ids are primary keys. */
  predicate DistinctIds(subs: seq<Subscription>) {
    forall i, j :: 0 <= i < j < |subs| ==> subs[i].id != subs[j].id
  }

  /** Two rows of a table with unique ids and the same id are the same row. */
  lemma SameIdSameRow(subs: seq<Subscription>, s: Subscription, t: Subscription)
    requires DistinctIds(subs) && s in subs && t in subs && s.id == t.id
    ensures s == t
  {
    var i :| 0 <= i < |subs| && subs[i] == s;
    var j :| 0 <= j < |subs| && subs[j] == t;
    assert !(i < j) && !(j < i);
  }

  /**
   * The persistent store shared by the ingestion process and the session process:
   * three tables kept as sequences in insertion order, and the source of fresh ids.
   */
  class Store {
    var connections: seq<Connection>
    var subscriptions: seq<Subscription>
    var notifications: seq<Notification>
    var nextId: Id

    /** Every id handed out so far is below `nextId`, and subscription ids are unique. */
    ghost predicate Valid()
      reads this
    {
      && (forall c :: c in connections ==> c.id < nextId)
      && (forall s :: s in subscriptions ==> s.id < nextId)
      && (forall n :: n in notifications ==> n.id < nextId)
      && DistinctIds(subscriptions)
    }

    constructor ()
      ensures Valid()
      ensures connections == [] && subscriptions == [] && notifications == []
    {
      connections, subscriptions, notifications := [], [], [];
      nextId := 0;
    }

    /** A primary key that no row of any table uses yet. */
    method NewId() returns (id: Id)
      requires Valid()
      modifies this`nextId
      ensures id == old(nextId) && nextId == id + 1
      ensures Valid()
      ensures forall c :: c in connections ==> c.id != id
      ensures forall s :: s in subscriptions ==> s.id != id
      ensures forall n :: n in notifications ==> n.id != id
    {
      id := nextId;
      nextId := nextId + 1;
    }
  }
}

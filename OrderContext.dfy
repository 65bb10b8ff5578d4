/** The local order log: an append-only list of order records. */
module OrderContext {
  import opened Outcomes
  import opened Types
  import opened AuthProvider

  /** The `email` field of the stored session record, when it is there. */
  function SessionEmail(entries: map<string, Stored>): (e: Option<string>)
    ensures SessionKey in entries && entries[SessionKey].Record? ==> e == entries[SessionKey].session.email
    ensures SessionKey !in entries || entries[SessionKey].Unparsable? ==> e == None
  {
    match ReadSession(entries)
    case Parsed(r) => r.email
    case ParseError => None
  }

  /** The record `createOrder` builds: its id from `Date.now()`, its date from
      `new Date()`, both passed in. */
  function NewOrder(cart: seq<CartItem>, total: int, now: int, createdAt: int, entries: map<string, Stored>): Order {
    Order(now, SessionEmail(entries), cart, total, createdAt)
  }

  /** Building the record throws exactly when the stored session is text other
      than the empty text that is not JSON. */
  predicate BuildThrows(entries: map<string, Stored>) {
    ReadSession(entries).ParseError?
  }

  /** The log after `createOrder`: one record more at the tail, or the same
      log when building the record threw. */
  function OrdersAfter(orders: seq<Order>, cart: seq<CartItem>, total: int, now: int, createdAt: int,
                       entries: map<string, Stored>): seq<Order> {
    if BuildThrows(entries) then orders else orders + [NewOrder(cart, total, now, createdAt, entries)]
  }

  lemma AppendOnly(orders: seq<Order>, cart: seq<CartItem>, total: int, now: int, createdAt: int,
                   entries: map<string, Stored>)
    ensures var r := OrdersAfter(orders, cart, total, now, createdAt, entries);
      && r[..|orders|] == orders
      && (BuildThrows(entries) ==> r == orders)
      && (!BuildThrows(entries) ==>
            && |r| == |orders| + 1
            && r[|orders|].cart == cart && r[|orders|].total == total
            && r[|orders|].id == now && r[|orders|].createdAt == createdAt
            && r[|orders|].email == SessionEmail(entries))
  {
  }

  /** An empty stored text falls back to `"{}"`: the order is still recorded,
      without an email. Other text that is not JSON drops it. */
  lemma EmptySessionTextStillRecords(orders: seq<Order>, cart: seq<CartItem>, total: int, now: int,
                                     createdAt: int, entries: map<string, Stored>)
    ensures SessionKey in entries && entries[SessionKey] == Unparsable("") ==>
      OrdersAfter(orders, cart, total, now, createdAt, entries) == orders + [Order(now, None, cart, total, createdAt)]
    ensures SessionKey in entries && entries[SessionKey].Unparsable? && entries[SessionKey].text != "" ==>
      OrdersAfter(orders, cart, total, now, createdAt, entries) == orders
  {
  }

  class OrderStore {
    var orders: seq<Order>
    var orderLoading: bool

    /** `useState([])`, `useState(false)`. */
    constructor ()
      ensures orders == [] && !orderLoading
    {
      orders, orderLoading := [], false;
    }

    /** `createOrder(cart, total)`: raises the busy flag, appends the new record
        unless building it throws (the error is caught and logged), and lowers
        the flag on every path. Storage is only read. */
    method CreateOrder(cart: seq<CartItem>, total: int, now: int, createdAt: int, storage: BrowserStorage)
      modifies this
      ensures orders == OrdersAfter(old(orders), cart, total, now, createdAt, storage.entries)
      ensures !orderLoading
    {
      orderLoading := true;
      if !BuildThrows(storage.entries) {
        var newOrder := NewOrder(cart, total, now, createdAt, storage.entries);
        orders := orders + [newOrder];
      }
      orderLoading := false;
    }
  }
}

/** The cart store: an ordered list of line items, newest first, a counter
    that hands out line ids, and a busy flag that every mutation raises. */
module CartProvider {
  import opened Types
  import opened Sequences

  /** What the store holds: `cart`, `cartLoading` and `idCounter`. */
  datatype CartState = CartState(cart: seq<CartItem>, cartLoading: bool, idCounter: int)

  /** `useState([])`, `useState(false)`, `useState(1)`. */
  function Initial(): CartState {
    CartState([], false, 1)
  }

  /** `prev.map(item => item.id === id ? { ...item, quantity } : item)`. */
  function WithQuantity(cart: seq<CartItem>, id: int, quantity: int): (r: seq<CartItem>)
    ensures |r| == |cart|
    ensures forall i :: 0 <= i < |cart| ==>
      r[i] == if cart[i].id == id then cart[i].(quantity := quantity) else cart[i]
  {
    if cart == [] then []
    else
      var head := if cart[0].id == id then cart[0].(quantity := quantity) else cart[0];
      [head] + WithQuantity(cart[1..], id, quantity)
  }

  predicate HasId(id: int, item: CartItem) {
    item.id == id
  }

  /** `prev.filter(item => item.id !== id)`. */
  function WithoutId(cart: seq<CartItem>, id: int): (r: seq<CartItem>) {
    FilterOut(cart, item => HasId(id, item))
  }

  // One function per mutator: the state once the mutation has been applied,
  // with the busy flag raised.

  function Added(s: CartState, item: CartItem): CartState {
    CartState([item.(id := s.idCounter)] + s.cart, true, s.idCounter + 1)
  }

  function QuantityUpdated(s: CartState, id: int, quantity: int): CartState {
    CartState(WithQuantity(s.cart, id, quantity), true, s.idCounter)
  }

  function Removed(s: CartState, id: int): CartState {
    CartState(WithoutId(s.cart, id), true, s.idCounter)
  }

  function Cleared(s: CartState): CartState {
    CartState([], true, s.idCounter)
  }

  /** The timer that follows each mutation lowers the busy flag. */
  function Settled(s: CartState): CartState {
    s.(cartLoading := false)
  }

  ghost predicate NewerFirst(a: CartItem, b: CartItem) {
    a.id > b.id
  }

  /** Every id was handed out by the counter (so it is at least 1 and below the
      counter), and ids strictly decrease from the head of the cart to its tail,
      so they are distinct and the newest line comes first. */
  ghost predicate Invariant(s: CartState) {
    && s.idCounter >= 1
    && (forall i :: 0 <= i < |s.cart| ==> 1 <= s.cart[i].id < s.idCounter)
    && Pairwise(s.cart, NewerFirst)
  }

  lemma InitialInvariant()
    ensures Invariant(Initial())
  {
  }

  /** `addItem` puts the candidate at the head with the counter value as its id,
      whatever id it carried, keeps the old lines behind it in their order, and
      bumps the counter by one. */
  lemma AddedShape(s: CartState, item: CartItem)
    ensures |Added(s, item).cart| == |s.cart| + 1
    ensures Added(s, item).cart[0] == item.(id := s.idCounter)
    ensures Added(s, item).cart[1..] == s.cart
    ensures Added(s, item).idCounter == s.idCounter + 1
  {
  }

  lemma AddedInvariant(s: CartState, item: CartItem)
    requires Invariant(s)
    ensures Invariant(Added(s, item))
    ensures forall i :: 0 <= i < |s.cart| ==> s.cart[i].id < Added(s, item).cart[0].id
  {
    var r := Added(s, item);
    forall i, j | 0 <= i < j < |r.cart| ensures NewerFirst(r.cart[i], r.cart[j]) {
      assert r.cart[j] == s.cart[j - 1];
      if i > 0 {
        assert r.cart[i] == s.cart[i - 1];
      }
    }
  }

  /** `updateQuantity` replaces the quantity of the lines with that id and
      nothing else; it does not check the quantity. */
  lemma QuantityUpdatedInvariant(s: CartState, id: int, quantity: int)
    requires Invariant(s)
    ensures Invariant(QuantityUpdated(s, id, quantity))
  {
    var r := QuantityUpdated(s, id, quantity);
    forall i, j | 0 <= i < j < |r.cart| ensures NewerFirst(r.cart[i], r.cart[j]) {
      assert NewerFirst(s.cart[i], s.cart[j]);
    }
  }

  /** An id that is not in the cart leaves it as it is. */
  lemma QuantityUpdatedUnknownId(s: CartState, id: int, quantity: int)
    requires forall i :: 0 <= i < |s.cart| ==> s.cart[i].id != id
    ensures QuantityUpdated(s, id, quantity).cart == s.cart
  {
  }

  lemma RemovedInvariant(s: CartState, id: int)
    requires Invariant(s)
    ensures Invariant(Removed(s, id))
  {
    FilterOutPairwise(s.cart, item => HasId(id, item), NewerFirst);
  }

  /** `removeItem` drops exactly the lines with that id: every remaining line
      has another id, every line with another id remains, and the remaining
      lines keep their order; a second call changes nothing. */
  lemma RemovedExactly(s: CartState, id: int, front: seq<CartItem>, back: seq<CartItem>)
    ensures forall i :: 0 <= i < |Removed(s, id).cart| ==>
      Removed(s, id).cart[i].id != id && Removed(s, id).cart[i] in s.cart
    ensures forall i :: 0 <= i < |s.cart| && s.cart[i].id != id ==> s.cart[i] in Removed(s, id).cart
    ensures WithoutId(front + back, id) == WithoutId(front, id) + WithoutId(back, id)
    ensures Removed(Removed(s, id), id).cart == Removed(s, id).cart
  {
    FilterOutConcat(front, back, item => HasId(id, item));
    FilterOutIdempotent(s.cart, item => HasId(id, item));
  }

  /** An id that is not in the cart leaves it as it is. */
  lemma RemovedUnknownId(s: CartState, id: int)
    requires forall i :: 0 <= i < |s.cart| ==> s.cart[i].id != id
    ensures Removed(s, id).cart == s.cart
  {
    FilterOutNoneDropped(s.cart, item => HasId(id, item));
  }

  /** `clearCart` does not reset the counter: the next line gets an id above
      every id handed out before, and is then the only line. */
  lemma ClearedThenAdded(s: CartState, item: CartItem)
    requires Invariant(s)
    ensures Added(Cleared(s), item).cart == [item.(id := s.idCounter)]
    ensures forall i :: 0 <= i < |s.cart| ==> s.cart[i].id < Added(Cleared(s), item).cart[0].id
  {
  }

  /** The timer only lowers the busy flag: lines and counter stay, and so does
      the invariant. */
  lemma SettledInvariant(s: CartState)
    requires Invariant(s)
    ensures Invariant(Settled(s))
    ensures Settled(s).cart == s.cart && Settled(s).idCounter == s.idCounter && !Settled(s).cartLoading
  {
  }

  /** The state after adding `items` one after another, first to last. */
  function AddedAll(s: CartState, items: seq<CartItem>): CartState
    decreases |items|
  {
    if items == [] then s
    else Added(AddedAll(s, items[..|items| - 1]), items[|items| - 1])
  }

  /** n adds from any state put n new lines in front of the old ones, the
      latest first, numbered down from the last id handed out; the cart
      grows by exactly one line per add. */
  lemma {:induction false} AddedAllShape(s: CartState, items: seq<CartItem>)
    ensures var r := AddedAll(s, items);
      && |r.cart| == |items| + |s.cart|
      && r.idCounter == s.idCounter + |items|
      && r.cart[|items|..] == s.cart
      && forall i :: 0 <= i < |items| ==>
           r.cart[i] == items[|items| - 1 - i].(id := s.idCounter + |items| - 1 - i)
  {
    if items != [] {
      var n := |items|;
      var prefix := items[..n - 1];
      AddedAllShape(s, prefix);
      var p := AddedAll(s, prefix);
      var r := AddedAll(s, items);
      assert r == Added(p, items[n - 1]);
      forall i | 0 <= i < n
        ensures r.cart[i] == items[n - 1 - i].(id := s.idCounter + n - 1 - i)
      {
        if i > 0 {
          assert r.cart[i] == p.cart[i - 1];
          assert prefix[n - 2 - (i - 1)] == items[n - 1 - i];
        }
      }
      assert r.cart[n..] == p.cart[n - 1..];
    }
  }

  /** From a fresh store, n adds give the ids n, n-1, ..., 1 from head to tail. */
  lemma AddedAllFromInitial(items: seq<CartItem>)
    ensures |AddedAll(Initial(), items).cart| == |items|
    ensures forall i :: 0 <= i < |items| ==> AddedAll(Initial(), items).cart[i].id == |items| - i
    ensures Invariant(AddedAll(Initial(), items))
  {
    AddedAllShape(Initial(), items);
    AddedAllInvariant(Initial(), items);
  }

  lemma {:induction false} AddedAllInvariant(s: CartState, items: seq<CartItem>)
    requires Invariant(s)
    ensures Invariant(AddedAll(s, items))
    decreases |items|
  {
    if items != [] {
      AddedAllInvariant(s, items[..|items| - 1]);
      AddedInvariant(AddedAll(s, items[..|items| - 1]), items[|items| - 1]);
    }
  }

  /** The store object; each method applies one mutation to its fields. */
  class CartStore {
    var cart: seq<CartItem>
    var cartLoading: bool
    var idCounter: int

    function State(): CartState
      reads this
    {
      CartState(cart, cartLoading, idCounter)
    }

    ghost predicate Valid()
      reads this
    {
      Invariant(State())
    }

    constructor ()
      ensures Valid() && State() == Initial()
    {
      cart, cartLoading, idCounter := [], false, 1;
    }

    method AddItem(item: CartItem)
      requires Valid()
      modifies this
      ensures Valid()
      ensures State() == Added(old(State()), item)
      ensures cart == [item.(id := old(idCounter))] + old(cart)
      ensures idCounter == old(idCounter) + 1 && cartLoading
    {
      AddedInvariant(State(), item);
      cartLoading := true;
      var newItem := item.(id := idCounter);
      cart := [newItem] + cart;
      idCounter := idCounter + 1;
    }

    method UpdateQuantity(id: int, quantity: int)
      requires Valid()
      modifies this
      ensures Valid()
      ensures State() == QuantityUpdated(old(State()), id, quantity)
    {
      QuantityUpdatedInvariant(State(), id, quantity);
      cartLoading := true;
      cart := WithQuantity(cart, id, quantity);
    }

    method RemoveItem(id: int)
      requires Valid()
      modifies this
      ensures Valid()
      ensures State() == Removed(old(State()), id)
    {
      RemovedInvariant(State(), id);
      cartLoading := true;
      cart := WithoutId(cart, id);
    }

    method ClearCart()
      requires Valid()
      modifies this
      ensures Valid()
      ensures State() == Cleared(old(State()))
    {
      cartLoading := true;
      cart := [];
    }

    /** The delayed `setCartLoading(false)` of the last mutation. */
    method Settle()
      requires Valid()
      modifies this
      ensures Valid()
      ensures State() == Settled(old(State()))
    {
      cartLoading := false;
    }
  }
}

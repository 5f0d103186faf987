/** The shopping cart provider (src/contexts/CartContext.tsx): a list of
    (book, quantity) entries keyed by book id, replaced wholesale by each action.
    The new lists are built by the pure functions below, which the provider's
    methods are specified by. */
module CartContext {
  import opened Common
  import opened Api

  datatype CartItem = CartItem(book: Book, quantity: int)

  /** `items.find(item => item.book._id === id)`. */
  function Find(items: seq<CartItem>, id: string): (r: Option<CartItem>)
    ensures r.Some? ==> r.value in items && r.value.book.id == id
    ensures r.None? ==> forall i :: 0 <= i < |items| ==> items[i].book.id != id
  {
    if items == [] then None
    else if items[0].book.id == id then Some(items[0])
    else Find(items[1..], id)
  }

  predicate InCart(items: seq<CartItem>, id: string)
  {
    exists i :: 0 <= i < |items| && items[i].book.id == id
  }

  /** The cart invariant: no two entries share a book id. */
  predicate UniqueIds(items: seq<CartItem>)
  {
    forall i, j :: 0 <= i < j < |items| ==> items[i].book.id != items[j].book.id
  }

  predicate AllPositive(items: seq<CartItem>)
  {
    forall i :: 0 <= i < |items| ==> items[i].quantity > 0
  }

  /** The `map` in `addToCart`: every entry for `id` gains `q`. */
  function Incremented(items: seq<CartItem>, id: string, q: int): seq<CartItem>
  {
    if items == [] then []
    else [if items[0].book.id == id then items[0].(quantity := items[0].quantity + q) else items[0]]
         + Incremented(items[1..], id, q)
  }

  /** `addToCart(book, q)`: an entry for the book gains `q`; otherwise `{book, q}` is appended. */
  function AddedToCart(items: seq<CartItem>, book: Book, q: int): seq<CartItem>
  {
    if Find(items, book.id).Some? then Incremented(items, book.id, q) else items + [CartItem(book, q)]
  }

  /** `removeFromCart(id)`: the `filter` that drops the entries for `id`. */
  function RemovedFromCart(items: seq<CartItem>, id: string): seq<CartItem>
  {
    if items == [] then []
    else (if items[0].book.id != id then [items[0]] else []) + RemovedFromCart(items[1..], id)
  }

  /** The `map` in `updateQuantity`: every entry for `id` gets quantity `q`. */
  function QuantitySet(items: seq<CartItem>, id: string, q: int): seq<CartItem>
  {
    if items == [] then []
    else [if items[0].book.id == id then items[0].(quantity := q) else items[0]]
         + QuantitySet(items[1..], id, q)
  }

  /** `updateQuantity(id, q)`: a quantity of zero or less removes the entry. */
  function UpdatedQuantity(items: seq<CartItem>, id: string, q: int): seq<CartItem>
  {
    if q <= 0 then RemovedFromCart(items, id) else QuantitySet(items, id, q)
  }

  /** `totalItems`: the sum of the quantities. */
  function TotalItems(items: seq<CartItem>): int
  {
    if items == [] then 0 else items[0].quantity + TotalItems(items[1..])
  }

  /** `totalPrice`: the sum of price times quantity. */
  function TotalPrice(items: seq<CartItem>): int
  {
    if items == [] then 0 else items[0].book.price * items[0].quantity + TotalPrice(items[1..])
  }

  // ---------------------------------------------------------------------------
  // Properties of the cart actions.

  lemma {:induction false} IncrementedAt(items: seq<CartItem>, id: string, q: int)
    ensures |Incremented(items, id, q)| == |items|
    ensures forall i :: 0 <= i < |items| ==>
              Incremented(items, id, q)[i] ==
                (if items[i].book.id == id then items[i].(quantity := items[i].quantity + q) else items[i])
  {
    if items != [] {
      IncrementedAt(items[1..], id, q);
    }
  }

  lemma {:induction false} QuantitySetAt(items: seq<CartItem>, id: string, q: int)
    ensures |QuantitySet(items, id, q)| == |items|
    ensures forall i :: 0 <= i < |items| ==>
              QuantitySet(items, id, q)[i] == (if items[i].book.id == id then items[i].(quantity := q) else items[i])
  {
    if items != [] {
      QuantitySetAt(items[1..], id, q);
    }
  }

  /** `addToCart` on a book already in the cart: the length is unchanged, each
      entry for that id keeps its book and gains `q`, every other entry is
      untouched. On a new book: `{book, q}` is appended after the unchanged
      earlier entries. */
  lemma AddToCartEffect(items: seq<CartItem>, book: Book, q: int)
    ensures var r := AddedToCart(items, book, q);
      InCart(items, book.id) ==>
        |r| == |items| &&
        forall i :: 0 <= i < |items| ==>
          r[i].book == items[i].book &&
          (items[i].book.id == book.id ==> r[i].quantity == items[i].quantity + q) &&
          (items[i].book.id != book.id ==> r[i] == items[i])
    ensures var r := AddedToCart(items, book, q);
      !InCart(items, book.id) ==>
        |r| == |items| + 1 && r[..|items|] == items && r[|items|] == CartItem(book, q)
  {
    IncrementedAt(items, book.id, q);
  }

  /** `addToCart` keeps book ids unique and leaves the given book in the cart. */
  lemma AddToCartKeepsIdsUnique(items: seq<CartItem>, book: Book, q: int)
    requires UniqueIds(items)
    ensures UniqueIds(AddedToCart(items, book, q))
    ensures InCart(AddedToCart(items, book, q), book.id)
  {
    var r := AddedToCart(items, book, q);
    IncrementedAt(items, book.id, q);
    if Find(items, book.id).Some? {
      var k :| 0 <= k < |items| && items[k].book.id == book.id;
      assert r[k].book.id == book.id;
    } else {
      assert r[|items|].book.id == book.id;
    }
  }

  /** Positive quantities stay positive when a positive amount is added. */
  lemma AddToCartKeepsPositive(items: seq<CartItem>, book: Book, q: int)
    requires AllPositive(items) && q > 0
    ensures AllPositive(AddedToCart(items, book, q))
  {
    IncrementedAt(items, book.id, q);
  }

  lemma {:induction false} TotalsOfConcat(a: seq<CartItem>, b: seq<CartItem>)
    ensures TotalItems(a + b) == TotalItems(a) + TotalItems(b)
    ensures TotalPrice(a + b) == TotalPrice(a) + TotalPrice(b)
  {
    if a == [] {
      assert a + b == b;
    } else {
      assert (a + b)[0] == a[0] && (a + b)[1..] == a[1..] + b;
      TotalsOfConcat(a[1..], b);
    }
  }

  /** The price `addToCart` charges for the added copies: that of the entry
      already in the cart (whose book object is kept), or the new book's. */
  function UnitPrice(items: seq<CartItem>, book: Book): int
  {
    match Find(items, book.id)
    case Some(entry) => entry.book.price
    case None => book.price
  }

  lemma {:induction false} IncrementedTotals(items: seq<CartItem>, id: string, q: int)
    requires UniqueIds(items)
    ensures Find(items, id).Some? ==>
              TotalItems(Incremented(items, id, q)) == TotalItems(items) + q &&
              TotalPrice(Incremented(items, id, q)) == TotalPrice(items) + Find(items, id).value.book.price * q
    ensures Find(items, id).None? ==> Incremented(items, id, q) == items
  {
    if items != [] {
      IncrementedTotals(items[1..], id, q);
      if items[0].book.id == id {
        assert Find(items[1..], id).None? by {
          assert forall i :: 0 <= i < |items[1..]| ==> items[1..][i] == items[i + 1];
        }
      }
    }
  }

  /** `addToCart(book, q)` raises `totalItems` by exactly `q` and `totalPrice`
      by `q` copies at the unit price. */
  lemma AddToCartTotals(items: seq<CartItem>, book: Book, q: int)
    requires UniqueIds(items)
    ensures TotalItems(AddedToCart(items, book, q)) == TotalItems(items) + q
    ensures TotalPrice(AddedToCart(items, book, q)) == TotalPrice(items) + UnitPrice(items, book) * q
  {
    IncrementedTotals(items, book.id, q);
    if Find(items, book.id).None? {
      TotalsOfConcat(items, [CartItem(book, q)]);
    }
  }

  /** `removeFromCart(id)` keeps exactly the entries for other ids. */
  lemma {:induction false} RemovedMembers(items: seq<CartItem>, id: string)
    ensures forall x :: x in RemovedFromCart(items, id) <==> x in items && x.book.id != id
    ensures |RemovedFromCart(items, id)| <= |items|
  {
    if items != [] {
      RemovedMembers(items[1..], id);
      assert items == [items[0]] + items[1..];
    }
  }

  /** `removeFromCart` is a filter: it keeps the order of what it keeps. */
  lemma {:induction false} RemovedOfConcat(a: seq<CartItem>, b: seq<CartItem>, id: string)
    ensures RemovedFromCart(a + b, id) == RemovedFromCart(a, id) + RemovedFromCart(b, id)
  {
    if a == [] {
      assert a + b == b;
    } else {
      assert (a + b)[0] == a[0] && (a + b)[1..] == a[1..] + b;
      RemovedOfConcat(a[1..], b, id);
    }
  }

  /** Removing an id that is not in the cart changes nothing. */
  lemma {:induction false} RemoveAbsentIsNoOp(items: seq<CartItem>, id: string)
    requires !InCart(items, id)
    ensures RemovedFromCart(items, id) == items
  {
    if items != [] {
      assert !InCart(items[1..], id) by {
        assert forall i :: 0 <= i < |items[1..]| ==> items[1..][i] == items[i + 1];
      }
      RemoveAbsentIsNoOp(items[1..], id);
    }
  }

  /** In a cart with unique ids, removing a present id removes exactly one
      entry and takes its quantity and its line price off the totals. */
  lemma {:induction false} RemovedTotals(items: seq<CartItem>, id: string)
    requires UniqueIds(items)
    ensures Find(items, id).Some? ==>
              |RemovedFromCart(items, id)| == |items| - 1 &&
              TotalItems(RemovedFromCart(items, id)) == TotalItems(items) - Find(items, id).value.quantity &&
              TotalPrice(RemovedFromCart(items, id)) ==
                TotalPrice(items) - Find(items, id).value.book.price * Find(items, id).value.quantity
  {
    if items != [] {
      if items[0].book.id == id {
        assert !InCart(items[1..], id) by {
          assert forall i :: 0 <= i < |items[1..]| ==> items[1..][i] == items[i + 1];
        }
        RemoveAbsentIsNoOp(items[1..], id);
        assert RemovedFromCart(items, id) == items[1..];
      } else {
        RemovedTotals(items[1..], id);
      }
    }
  }

  lemma RemoveKeepsIdsUnique(items: seq<CartItem>, id: string)
    requires UniqueIds(items)
    ensures UniqueIds(RemovedFromCart(items, id))
    ensures !InCart(RemovedFromCart(items, id), id)
  {
    RemovedUnique(items, id);
    RemovedMembers(items, id);
    var r := RemovedFromCart(items, id);
    assert forall i :: 0 <= i < |r| ==> r[i] in r;
  }

  lemma {:induction false} RemovedUnique(items: seq<CartItem>, id: string)
    requires UniqueIds(items)
    ensures UniqueIds(RemovedFromCart(items, id))
  {
    if items != [] {
      var tail := items[1..];
      assert UniqueIds(tail) by {
        assert forall i :: 0 <= i < |tail| ==> tail[i] == items[i + 1];
      }
      RemovedUnique(tail, id);
      RemovedMembers(tail, id);
      var rest := RemovedFromCart(tail, id);
      if items[0].book.id != id {
        forall j | 0 <= j < |rest| ensures rest[j].book.id != items[0].book.id {
          assert rest[j] in tail;
          var k :| 0 <= k < |tail| && tail[k] == rest[j];
          assert tail[k] == items[k + 1];
        }
      }
    }
  }

  lemma RemoveKeepsPositive(items: seq<CartItem>, id: string)
    requires AllPositive(items)
    ensures AllPositive(RemovedFromCart(items, id))
  {
    RemovedMembers(items, id);
    var r := RemovedFromCart(items, id);
    assert forall i :: 0 <= i < |r| ==> r[i] in r;
  }

  /** `updateQuantity(id, q)` with `q <= 0` is `removeFromCart(id)`; with
      `q > 0` the entries for `id` get quantity `q`, nothing else changes, and
      an absent id changes nothing. */
  lemma UpdateQuantityEffect(items: seq<CartItem>, id: string, q: int)
    ensures q <= 0 ==> UpdatedQuantity(items, id, q) == RemovedFromCart(items, id)
    ensures var r := UpdatedQuantity(items, id, q);
      q > 0 ==>
        |r| == |items| &&
        forall i :: 0 <= i < |items| ==>
          r[i].book == items[i].book &&
          (items[i].book.id == id ==> r[i].quantity == q) &&
          (items[i].book.id != id ==> r[i] == items[i])
    ensures !InCart(items, id) ==> UpdatedQuantity(items, id, q) == items
  {
    QuantitySetAt(items, id, q);
    if !InCart(items, id) {
      if q <= 0 {
        RemoveAbsentIsNoOp(items, id);
      } else {
        assert QuantitySet(items, id, q) == items;
      }
    }
  }

  /** Every quantity in the cart is positive after `updateQuantity`, whatever
      the requested quantity, when it was before; and ids stay unique. */
  lemma UpdateQuantityKeepsInvariants(items: seq<CartItem>, id: string, q: int)
    ensures AllPositive(items) ==> AllPositive(UpdatedQuantity(items, id, q))
    ensures UniqueIds(items) ==> UniqueIds(UpdatedQuantity(items, id, q))
  {
    QuantitySetAt(items, id, q);
    if q <= 0 {
      if AllPositive(items) { RemoveKeepsPositive(items, id); }
      if UniqueIds(items) { RemoveKeepsIdsUnique(items, id); }
    }
  }

  /** Both totals are zero for the empty cart. */
  lemma EmptyCartTotals()
    ensures TotalItems([]) == 0 && TotalPrice([]) == 0
  {
  }

  /** With positive quantities, `totalItems` is at least the number of entries. */
  lemma {:induction false} TotalItemsAtLeastEntries(items: seq<CartItem>)
    requires AllPositive(items)
    ensures TotalItems(items) >= |items|
  {
    if items != [] {
      assert AllPositive(items[1..]) by {
        assert forall i :: 0 <= i < |items[1..]| ==> items[1..][i] == items[i + 1];
      }
      TotalItemsAtLeastEntries(items[1..]);
    }
  }

  /** The provider's state: the `items` list that every action replaces. */
  class CartProvider {
    var items: seq<CartItem>

    ghost predicate Valid()
      reads this
    {
      UniqueIds(items)
    }

    constructor ()
      ensures Valid() && items == []
    {
      items := [];
    }

    method AddToCart(book: Book, quantity: int := 1)
      requires Valid()
      modifies this
      ensures Valid()
      ensures items == AddedToCart(old(items), book, quantity)
      ensures TotalItems(items) == TotalItems(old(items)) + quantity
    {
      AddToCartKeepsIdsUnique(items, book, quantity);
      AddToCartTotals(items, book, quantity);
      var existing := Find(items, book.id);
      if existing.Some? {
        items := Incremented(items, book.id, quantity);
      } else {
        items := items + [CartItem(book, quantity)];
      }
    }

    method RemoveFromCart(bookId: string)
      requires Valid()
      modifies this
      ensures Valid()
      ensures items == RemovedFromCart(old(items), bookId)
      ensures !InCart(items, bookId)
    {
      RemoveKeepsIdsUnique(items, bookId);
      items := RemovedFromCart(items, bookId);
    }

    method UpdateQuantity(bookId: string, quantity: int)
      requires Valid()
      modifies this
      ensures Valid()
      ensures items == UpdatedQuantity(old(items), bookId, quantity)
      ensures old(AllPositive(items)) ==> AllPositive(items)
    {
      UpdateQuantityKeepsInvariants(items, bookId, quantity);
      if quantity <= 0 {
        RemoveFromCart(bookId);
        return;
      }
      items := QuantitySet(items, bookId, quantity);
    }

    method ClearCart()
      modifies this
      ensures Valid() && items == []
      ensures TotalItems(items) == 0 && TotalPrice(items) == 0
    {
      items := [];
    }
  }
}

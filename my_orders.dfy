/** The customer's order history (src/pages/MyOrders.tsx): the signed-in
    user's orders picked out of the full list, each with a status style and
    line prices. The same owner test is used by the customer dashboard. */
module MyOrders {
  import opened Common
  import opened Api

  /** `order.userId._id === user?.id || order.userId.email === user?.email`.
      A bare owner id has neither field, so it is read as `undefined` twice:
      such an order matches only when nobody is signed in. */
  predicate OwnedBy(o: Order, user: Option<User>)
  {
    match o.owner
    case OwnerRef(id, email) => user.Some? && (id == user.value.id || email == user.value.email)
    case OwnerId(_) => user.None?
  }

  /** The user's orders, in the order the server listed them. */
  function UserOrders(orders: seq<Order>, user: Option<User>): (r: seq<Order>)
    ensures |r| <= |orders|
    ensures forall o :: o in r <==> o in orders && OwnedBy(o, user)
  {
    if orders == [] then []
    else if OwnedBy(orders[0], user) then [orders[0]] + UserOrders(orders[1..], user)
    else UserOrders(orders[1..], user)
  }

  /** Filtering distributes over concatenation, so the relative order of the
      user's orders is kept. */
  lemma {:induction false} UserOrdersOfConcat(a: seq<Order>, b: seq<Order>, user: Option<User>)
    ensures UserOrders(a + b, user) == UserOrders(a, user) + UserOrders(b, user)
  {
    if a == [] {
      assert a + b == b;
    } else {
      assert (a + b)[0] == a[0] && (a + b)[1..] == a[1..] + b;
      UserOrdersOfConcat(a[1..], b, user);
    }
  }

  /** Filtering again removes nothing. */
  lemma {:induction false} UserOrdersIdempotent(orders: seq<Order>, user: Option<User>)
    ensures UserOrders(UserOrders(orders, user), user) == UserOrders(orders, user)
  {
    if orders != [] {
      UserOrdersIdempotent(orders[1..], user);
    }
  }

  /** A signed-in user's list holds only orders whose populated owner is that
      user by id or by e-mail. */
  lemma SignedInSeesOwnOrders(orders: seq<Order>, u: User)
    ensures forall o :: o in UserOrders(orders, Some(u)) ==>
              o.owner.OwnerRef? && (o.owner.id == u.id || o.owner.email == u.email)
  {
  }

  datatype Icon = Clock | CheckCircle | Truck | PackageIcon | AlertCircle

  datatype StatusStyle = StatusStyle(icon: Icon, color: string, bg: string)

  /** `statusConfig`. */
  const StatusConfig: map<string, StatusStyle> := map[
    PendingPayment := StatusStyle(Clock, "text-amber-600", "bg-amber-100"),
    Paid := StatusStyle(CheckCircle, "text-green-600", "bg-green-100"),
    Shipped := StatusStyle(Truck, "text-blue-600", "bg-blue-100"),
    Delivered := StatusStyle(PackageIcon, "text-primary", "bg-primary/10"),
    Cancelled := StatusStyle(AlertCircle, "text-destructive", "bg-destructive/10")
  ]

  /** `getStatusConfig(status)`: the status's own style, or the style of a
      pending payment for a status the table does not list. */
  function GetStatusConfig(status: string): (c: StatusStyle)
    ensures status in StatusConfig ==> c == StatusConfig[status]
    ensures status !in StatusConfig ==> c == StatusConfig[PendingPayment]
  {
    if status in StatusConfig then StatusConfig[status] else StatusConfig[PendingPayment]
  }

  /** The table covers exactly the known statuses, each with its own icon, so
      only a pending order or an unknown status shows the clock. */
  lemma StatusConfigDistinguishesStatuses(status: string)
    ensures StatusConfig.Keys == OrderStatuses
    ensures GetStatusConfig(status).icon == Clock <==> status == PendingPayment || status !in OrderStatuses
  {
  }

  /** `(item.bookId?.price || 0) * item.quantity`: a deleted book counts as free. */
  function LinePrice(item: OrderItem): (p: int)
    ensures item.book.None? ==> p == 0
    ensures item.book.Some? ==> p == item.book.value.price * item.quantity
  {
    (if item.book.Some? && item.book.value.price != 0 then item.book.value.price else 0) * item.quantity
  }

  const UnknownBook: string := "Unknown Book"

  /** `item.bookId?.title || 'Unknown Book'`: the book's title, or the
      fallback for a deleted book or an empty title. */
  function ItemTitle(item: OrderItem): (t: string)
    ensures t != ""
    ensures item.book.Some? && item.book.value.title != "" ==> t == item.book.value.title
    ensures item.book.None? || item.book.value.title == "" ==> t == UnknownBook
  {
    OrElse(if item.book.Some? then item.book.value.title else "", UnknownBook)
  }

  class MyOrdersPage {
    var orders: seq<Order>
    var isLoading: bool

    constructor ()
      ensures orders == [] && isLoading
    {
      orders, isLoading := [], true;
    }

    /** `loadOrders` for `user`, with the reply of `getAll`: the user's orders
        replace the list; a failure keeps it; loading ends either way. */
    method LoadOrders(user: Option<User>, reply: Response<Option<seq<Order>>>)
      modifies this
      ensures !isLoading
      ensures reply.Ok? ==> orders == UserOrders(OrEmpty(reply.data), user)
      ensures reply.Failed? ==> orders == old(orders)
    {
      if reply.Ok? {
        orders := UserOrders(OrEmpty(reply.data), user);
      }
      isLoading := false;
    }
  }
}

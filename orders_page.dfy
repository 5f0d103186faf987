/** The alternative order list (src/pages/Orders.tsx), which the route table
    does not mount: it sends signed-out visitors to the login page and matches
    orders by owner id only. */
module OrdersPage {
  import opened Common
  import opened Api
  import MyOrders

  /** `getStatusColor(status)`. */
  function GetStatusColor(status: string): (c: string)
    ensures c == "bg-muted text-muted-foreground" <==> status !in OrderStatuses
  {
    if status == PendingPayment then "bg-amber-100 text-amber-800 border-amber-200"
    else if status == Paid then "bg-emerald-100 text-emerald-800 border-emerald-200"
    else if status == Shipped then "bg-blue-100 text-blue-800 border-blue-200"
    else if status == Delivered then "bg-green-100 text-green-800 border-green-200"
    else if status == Cancelled then "bg-red-100 text-red-800 border-red-200"
    else "bg-muted text-muted-foreground"
  }

  /** The owner's id: the populated record's `_id`, or the bare value. */
  function OwnerKey(owner: Owner): string
  {
    match owner
    case OwnerRef(id, _) => id
    case OwnerId(raw) => raw
  }

  predicate BelongsTo(o: Order, user: Option<User>)
  {
    user.Some? && OwnerKey(o.owner) == user.value.id
  }

  /** `response.data?.filter(...) || []`. */
  function CustomerOrders(data: Option<seq<Order>>, user: Option<User>): (r: seq<Order>)
    ensures data.None? ==> r == []
    ensures data.Some? ==> |r| <= |data.value|
    ensures data.Some? ==> forall o :: o in r <==> o in data.value && BelongsTo(o, user)
  {
    if data.None? then [] else Matching(data.value, user)
  }

  function Matching(orders: seq<Order>, user: Option<User>): (r: seq<Order>)
    ensures |r| <= |orders|
    ensures forall o :: o in r <==> o in orders && BelongsTo(o, user)
  {
    if orders == [] then []
    else if BelongsTo(orders[0], user) then [orders[0]] + Matching(orders[1..], user)
    else Matching(orders[1..], user)
  }

  /** A single order is kept exactly when its owner id is the user's id. */
  lemma MatchingOfOne(o: Order, user: Option<User>)
    ensures Matching([o], user) == if BelongsTo(o, user) then [o] else []
  {
  }

  /** The filter distributes over concatenation, so it keeps each of the
      user's orders once, in the order the server listed them. */
  lemma {:induction false} MatchingOfConcat(a: seq<Order>, b: seq<Order>, user: Option<User>)
    ensures Matching(a + b, user) == Matching(a, user) + Matching(b, user)
  {
    if a == [] {
      assert a + b == b;
    } else {
      assert (a + b)[0] == a[0] && (a + b)[1..] == a[1..] + b;
      MatchingOfConcat(a[1..], b, user);
    }
  }

  /** Where this page and the order history page disagree: for a populated
      owner this page's match implies the history's (which also accepts an
      e-mail match); for a bare owner id the history never matches a signed-in
      user, while this page matches it by id. */
  lemma CompareWithOrderHistory(o: Order, u: User)
    ensures o.owner.OwnerRef? && BelongsTo(o, Some(u)) ==> MyOrders.OwnedBy(o, Some(u))
    ensures o.owner.OwnerId? ==> !MyOrders.OwnedBy(o, Some(u))
    ensures o.owner.OwnerId? ==> (BelongsTo(o, Some(u)) <==> o.owner.rawId == u.id)
  {
  }

  /** The statuses this page colours are those the back office offers. */
  lemma SameStatusesAsBackOffice(status: string)
    ensures GetStatusColor(status) == "bg-muted text-muted-foreground" <==>
              MyOrders.GetStatusConfig(status) == MyOrders.StatusConfig[PendingPayment] && status != PendingPayment
  {
    MyOrders.StatusConfigDistinguishesStatuses(status);
  }

  const LoadFailed: string := "Failed to load orders"

  class OrdersView {
    var orders: seq<Order>
    var isLoading: bool

    constructor ()
      ensures orders == [] && isLoading
    {
      orders, isLoading := [], true;
    }

    /** The page's effect: a signed-out visitor is sent to the login page and
        nothing is fetched (the spinner stays); otherwise `fetchOrders` runs
        with the reply of `getAll`. */
    method Effect(isAuthenticated: bool, user: Option<User>, reply: Response<Option<seq<Order>>>)
      returns (navigateTo: Option<string>, fetched: bool, error: Option<string>)
      modifies this
      ensures fetched <==> isAuthenticated
      ensures !isAuthenticated ==>
                navigateTo == Some("/login") && error == None
                && orders == old(orders) && isLoading == old(isLoading)
      ensures isAuthenticated ==> navigateTo == None && !isLoading
      ensures isAuthenticated && reply.Ok? ==> orders == CustomerOrders(reply.data, user) && error == None
      ensures isAuthenticated && reply.Failed? ==> orders == old(orders) && error == Some(LoadFailed)
    {
      if !isAuthenticated {
        return Some("/login"), false, None;
      }
      navigateTo, fetched, error := None, true, None;
      if reply.Ok? {
        orders := CustomerOrders(reply.data, user);
      } else {
        error := Some(LoadFailed);
      }
      isLoading := false;
    }
  }
}

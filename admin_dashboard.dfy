/** The back-office overview (src/pages/admin/AdminDashboard.tsx): counts and
    revenue computed from the full book and order lists, and the latest orders. */
module AdminDashboard {
  import opened Common
  import opened Api

  /** `orders.reduce((sum, order) => sum + order.totalCost, 0)`. */
  function Revenue(orders: seq<Order>): int
  {
    if orders == [] then 0 else orders[0].totalCost + Revenue(orders[1..])
  }

  /** The revenue of two lists together is the sum of their revenues. */
  lemma {:induction false} RevenueOfConcat(a: seq<Order>, b: seq<Order>)
    ensures Revenue(a + b) == Revenue(a) + Revenue(b)
  {
    if a == [] {
      assert a + b == b;
    } else {
      assert (a + b)[1..] == a[1..] + b;
      RevenueOfConcat(a[1..], b);
    }
  }

  /** With no negative order totals, revenue is never negative and no single
      order's total exceeds it. */
  lemma {:induction false} RevenueBounds(orders: seq<Order>)
    requires forall i :: 0 <= i < |orders| ==> orders[i].totalCost >= 0
    ensures Revenue(orders) >= 0
    ensures forall i :: 0 <= i < |orders| ==> orders[i].totalCost <= Revenue(orders)
  {
    if orders != [] {
      RevenueBounds(orders[1..]);
      assert forall i :: 1 <= i < |orders| ==> orders[i] == orders[1..][i - 1];
    }
  }

  /** `orders.filter(order => order.status === 'PENDING PAYMENT')`. */
  function Pending(orders: seq<Order>): (r: seq<Order>)
    ensures |r| <= |orders|
    ensures forall o :: o in r <==> o in orders && o.status == PendingPayment
  {
    if orders == [] then []
    else if orders[0].status == PendingPayment then [orders[0]] + Pending(orders[1..])
    else Pending(orders[1..])
  }

  /** A single order is kept exactly when it is pending. */
  lemma PendingOfOne(o: Order)
    ensures Pending([o]) == if o.status == PendingPayment then [o] else []
  {
  }

  /** The filter distributes over concatenation: every pending order is kept
      once, in the order the server listed it, so the card counts each. */
  lemma {:induction false} PendingOfConcat(a: seq<Order>, b: seq<Order>)
    ensures Pending(a + b) == Pending(a) + Pending(b)
  {
    if a == [] {
      assert a + b == b;
    } else {
      assert (a + b)[0] == a[0] && (a + b)[1..] == a[1..] + b;
      PendingOfConcat(a[1..], b);
    }
  }

  datatype Stats = Stats(totalBooks: nat, totalOrders: nat, totalRevenue: int, pendingOrders: nat)

  /** The four cards of the overview. */
  function DashboardStats(books: seq<Book>, orders: seq<Order>): (s: Stats)
    ensures s.totalBooks == |books| && s.totalOrders == |orders|
    ensures s.pendingOrders <= s.totalOrders
    ensures s.pendingOrders == |Pending(orders)| && s.totalRevenue == Revenue(orders)
  {
    Stats(|books|, |orders|, Revenue(orders), |Pending(orders)|)
  }

  /** How many of the latest orders the overview lists. */
  const RecentCount: nat := 5

  class AdminDashboardPage {
    var stats: Stats
    var recentOrders: seq<Order>

    constructor ()
      ensures stats == Stats(0, 0, 0, 0) && recentOrders == []
    {
      stats, recentOrders := Stats(0, 0, 0, 0), [];
    }

    /** `loadDashboardData`, with the replies of the two requests it makes
        together: when either fails nothing changes; otherwise the cards are
        computed from both lists (a missing list reads as empty) and the first
        five orders are kept. */
    method LoadDashboardData(booksReply: Response<Option<seq<Book>>>, ordersReply: Response<Option<seq<Order>>>)
      modifies this
      ensures booksReply.Failed? || ordersReply.Failed? ==>
                stats == old(stats) && recentOrders == old(recentOrders)
      ensures booksReply.Ok? && ordersReply.Ok? ==>
                stats == DashboardStats(OrEmpty(booksReply.data), OrEmpty(ordersReply.data))
                && recentOrders == Take(OrEmpty(ordersReply.data), RecentCount)
    {
      if booksReply.Failed? || ordersReply.Failed? {
        return;
      }
      var books := OrEmpty(booksReply.data);
      var orders := OrEmpty(ordersReply.data);
      stats := DashboardStats(books, orders);
      recentOrders := Take(orders, RecentCount);
    }
  }
}

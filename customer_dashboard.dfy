/** The customer's home page (src/pages/CustomerDashboard.tsx): the number of
    the user's orders, what they spent, the latest three, and a status badge. */
module CustomerDashboard {
  import opened Common
  import opened Api
  import opened MyOrders
  import AdminDashboard
  import AdminOrders

  datatype Stats = Stats(totalOrders: nat, totalSpent: int)

  /** The cards, computed over the user's orders only. */
  function CustomerStats(orders: seq<Order>, user: Option<User>): (s: Stats)
    ensures s.totalOrders == |UserOrders(orders, user)| <= |orders|
    ensures s.totalSpent == AdminDashboard.Revenue(UserOrders(orders, user))
  {
    var mine := UserOrders(orders, user);
    Stats(|mine|, AdminDashboard.Revenue(mine))
  }

  /** What the user spent plus what everyone else spent is the store's revenue. */
  lemma {:induction false} SpentPartitionsRevenue(orders: seq<Order>, user: Option<User>)
    ensures CustomerStats(orders, user).totalSpent + AdminDashboard.Revenue(Others(orders, user))
            == AdminDashboard.Revenue(orders)
  {
    if orders != [] {
      SpentPartitionsRevenue(orders[1..], user);
      var o := orders[0];
      if OwnedBy(o, user) {
        assert UserOrders(orders, user) == [o] + UserOrders(orders[1..], user);
        assert AdminDashboard.Revenue([o] + UserOrders(orders[1..], user))
               == o.totalCost + AdminDashboard.Revenue(UserOrders(orders[1..], user));
      } else {
        assert Others(orders, user) == [o] + Others(orders[1..], user);
        assert AdminDashboard.Revenue([o] + Others(orders[1..], user))
               == o.totalCost + AdminDashboard.Revenue(Others(orders[1..], user));
      }
    }
  }

  /** The orders the filter leaves out. */
  function Others(orders: seq<Order>, user: Option<User>): seq<Order>
  {
    if orders == [] then []
    else if !OwnedBy(orders[0], user) then [orders[0]] + Others(orders[1..], user)
    else Others(orders[1..], user)
  }

  const RecentCount: nat := 3

  /** The badge of an order in the recent list. */
  function BadgeClass(status: string): (c: string)
    ensures c == "bg-green-100 text-green-700" <==> status == Paid
    ensures c == "bg-blue-100 text-blue-700" <==> status == Shipped
    ensures c == "bg-amber-100 text-amber-700" <==> status != Paid && status != Shipped
  {
    if status == Paid then "bg-green-100 text-green-700"
    else if status == Shipped then "bg-blue-100 text-blue-700"
    else "bg-amber-100 text-amber-700"
  }

  /** The badge uses the back office's colours for paid, shipped and pending
      orders, and shows every other status, delivered and cancelled included,
      in the pending colour. */
  lemma BadgeMatchesBackOffice(status: string)
    ensures status == PendingPayment || status == Paid || status == Shipped ==>
              BadgeClass(status) == AdminOrders.GetStatusColor(status)
    ensures status != Paid && status != Shipped ==>
              BadgeClass(status) == AdminOrders.GetStatusColor(PendingPayment)
  {
    AdminOrders.StatusColorsOfCommonStatuses();
  }

  class CustomerDashboardPage {
    var recentOrders: seq<Order>
    var stats: Stats

    constructor ()
      ensures recentOrders == [] && stats == Stats(0, 0)
    {
      recentOrders, stats := [], Stats(0, 0);
    }

    /** `loadDashboardData` for `user`, with the reply of `getAll`; a failure changes nothing. */
    method LoadDashboardData(user: Option<User>, reply: Response<Option<seq<Order>>>)
      modifies this
      ensures reply.Failed? ==> recentOrders == old(recentOrders) && stats == old(stats)
      ensures reply.Ok? ==>
                recentOrders == Take(UserOrders(OrEmpty(reply.data), user), RecentCount)
                && stats == CustomerStats(OrEmpty(reply.data), user)
    {
      if reply.Failed? {
        return;
      }
      var mine := UserOrders(OrEmpty(reply.data), user);
      recentOrders := Take(mine, RecentCount);
      stats := Stats(|mine|, AdminDashboard.Revenue(mine));
    }
  }
}

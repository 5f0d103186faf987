/** The back-office order list (src/pages/admin/AdminOrders.tsx): every order,
    a detail dialog, and a status selector that updates an order. */
module AdminOrders {
  import opened Common
  import opened Api

  datatype StatusOption = StatusOption(value: string, caption: string, color: string)

  /** `statusOptions`, in the order the selector lists them. */
  function StatusOptions(): seq<StatusOption>
  {
    [StatusOption(PendingPayment, "Pending Payment", "bg-amber-100 text-amber-700"),
     StatusOption(Paid, "Paid", "bg-green-100 text-green-700"),
     StatusOption(Shipped, "Shipped", "bg-blue-100 text-blue-700"),
     StatusOption(Delivered, "Delivered", "bg-primary/10 text-primary"),
     StatusOption(Cancelled, "Cancelled", "bg-destructive/10 text-destructive")]
  }

  /** The selector lists the five statuses in the order an order moves through them. */
  lemma StatusOptionsOrder()
    ensures |StatusOptions()| == 5
    ensures StatusOptions()[0].value == PendingPayment && StatusOptions()[1].value == Paid
    ensures StatusOptions()[2].value == Shipped && StatusOptions()[3].value == Delivered
    ensures StatusOptions()[4].value == Cancelled
  {
  }

  /** `options.find(s => s.value === status)`. */
  function FindOption(options: seq<StatusOption>, status: string): (r: Option<StatusOption>)
    ensures r.None? <==> forall i :: 0 <= i < |options| ==> options[i].value != status
    ensures r.Some? ==> r.value in options && r.value.value == status
  {
    if options == [] then None
    else if options[0].value == status then Some(options[0])
    else FindOption(options[1..], status)
  }

  const NeutralColor: string := "bg-muted text-muted-foreground"

  /** `getStatusColor(status)`: the colour of the matching option, or the neutral one. */
  function GetStatusColor(status: string): (c: string)
    ensures c != ""
    ensures c == NeutralColor <==> status !in OrderStatuses
  {
    KnownStatusColors(status);
    match FindOption(StatusOptions(), status)
    case Some(option) => OrElse(option.color, NeutralColor)
    case None => NeutralColor
  }

  /** The selector offers exactly the known statuses, and none of their
      colours is empty or the neutral one. */
  lemma KnownStatusColors(status: string)
    ensures FindOption(StatusOptions(), status).Some? <==> status in OrderStatuses
    ensures FindOption(StatusOptions(), status).Some? ==>
              FindOption(StatusOptions(), status).value.color != NeutralColor
              && FindOption(StatusOptions(), status).value.color != ""
  {
    if status in OrderStatuses {
      KnownStatusFound(status);
    } else {
      UnknownStatusMissing(status);
    }
  }

  lemma KnownStatusFound(status: string)
    requires status in OrderStatuses
    ensures FindOption(StatusOptions(), status).Some?
    ensures FindOption(StatusOptions(), status).value.color != NeutralColor
    ensures FindOption(StatusOptions(), status).value.color != ""
  {
    var i := OptionIndex(status);
    OptionFoundAt(i);
  }

  /** The position of a known status among the options. */
  function OptionIndex(status: string): (i: nat)
    requires status in OrderStatuses
    ensures i < |StatusOptions()| && StatusOptions()[i].value == status
  {
    if status == PendingPayment then 0
    else if status == Paid then 1
    else if status == Shipped then 2
    else if status == Delivered then 3
    else 4
  }

  lemma OptionFoundAt(i: nat)
    requires i < |StatusOptions()|
    ensures FindOption(StatusOptions(), StatusOptions()[i].value) == Some(StatusOptions()[i])
    ensures StatusOptions()[i].color != NeutralColor && StatusOptions()[i].color != ""
  {
    var opts := StatusOptions();
    FindOptionAt(opts, i, opts[i].value);
  }

  lemma UnknownStatusMissing(status: string)
    requires status !in OrderStatuses
    ensures FindOption(StatusOptions(), status).None?
  {
    var opts := StatusOptions();
    assert forall i :: 0 <= i < |opts| ==> opts[i].value in OrderStatuses;
  }

  /** The colours shown for the statuses a customer's orders usually have. */
  lemma StatusColorsOfCommonStatuses()
    ensures GetStatusColor(PendingPayment) == "bg-amber-100 text-amber-700"
    ensures GetStatusColor(Paid) == "bg-green-100 text-green-700"
    ensures GetStatusColor(Shipped) == "bg-blue-100 text-blue-700"
  {
    FindOptionAt(StatusOptions(), 0, PendingPayment);
    FindOptionAt(StatusOptions(), 1, Paid);
    FindOptionAt(StatusOptions(), 2, Shipped);
  }

  lemma {:induction false} FindOptionAt(options: seq<StatusOption>, i: nat, status: string)
    requires i < |options| && options[i].value == status
    requires forall j :: 0 <= j < i ==> options[j].value != status
    ensures FindOption(options, status) == Some(options[i])
  {
    if i > 0 {
      FindOptionAt(options[1..], i - 1, status);
    }
  }

  const UpdateFailed: string := "Failed to update status"

  /** The detail dialog after a status change of `orderId` succeeded: showing
      that order, it shows the new status; showing another, it is unchanged. */
  function SelectedAfterUpdate(selected: Option<Order>, orderId: string, newStatus: string): (r: Option<Order>)
    ensures r.Some? <==> selected.Some?
    ensures selected.Some? && selected.value.id == orderId ==> r == Some(selected.value.(status := newStatus))
    ensures selected.Some? && selected.value.id != orderId ==> r == selected
  {
    if selected.Some? && selected.value.id == orderId then Some(selected.value.(status := newStatus)) else selected
  }

  class AdminOrdersPage {
    var orders: seq<Order>
    var isLoading: bool
    var selectedOrder: Option<Order>
    var isUpdating: bool

    constructor ()
      ensures orders == [] && isLoading && selectedOrder == None && !isUpdating
    {
      orders, isLoading, selectedOrder, isUpdating := [], true, None, false;
    }

    /** `loadOrders`, with the reply of `getAll`. */
    method LoadOrders(reply: Response<Option<seq<Order>>>)
      modifies this
      ensures !isLoading && selectedOrder == old(selectedOrder) && isUpdating == old(isUpdating)
      ensures reply.Ok? ==> orders == OrEmpty(reply.data)
      ensures reply.Failed? ==> orders == old(orders)
    {
      if reply.Ok? {
        orders := OrEmpty(reply.data);
      }
      isLoading := false;
    }

    /** The eye button of a row, and the dialog's close. */
    method SetSelectedOrder(o: Option<Order>)
      modifies this
      ensures selectedOrder == o && orders == old(orders)
      ensures isLoading == old(isLoading) && isUpdating == old(isUpdating)
    {
      selectedOrder := o;
    }

    /** `handleStatusChange(orderId, newStatus)`, with the reply of
        `updateStatus`. A success starts a reload of the list and updates the
        open dialog if it shows that order; a failure reports the error. */
    method HandleStatusChange(orderId: string, newStatus: string, reply: Response<()>)
      returns (reloadStarted: bool, error: Option<string>)
      requires !isUpdating
      modifies this
      ensures !isUpdating && orders == old(orders) && isLoading == old(isLoading)
      ensures reply.Ok? ==>
                reloadStarted && error == None
                && selectedOrder == SelectedAfterUpdate(old(selectedOrder), orderId, newStatus)
      ensures reply.Failed? ==>
                !reloadStarted && error == Some(OrElse(reply.message, UpdateFailed))
                && selectedOrder == old(selectedOrder)
    {
      isUpdating := true;
      if reply.Ok? {
        reloadStarted, error := true, None;
        if selectedOrder.Some? && selectedOrder.value.id == orderId {
          selectedOrder := Some(selectedOrder.value.(status := newStatus));
        }
      } else {
        reloadStarted, error := false, Some(OrElse(reply.message, UpdateFailed));
      }
      isUpdating := false;
    }
  }
}

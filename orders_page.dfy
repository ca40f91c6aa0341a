/**
 * The admin orders page: the enquiry list with one filter tab per status,
 * a detail panel for the selected enquiry, status changes and deletion.
 */
module OrdersPage {
  import opened Wrappers
  import opened Seqs
  import opened Store
  import opened Client

  /** The selected tab: every enquiry, or those with one status. */
  datatype StatusFilter = All | Only(status: OrderStatus)

  /** The status choices, in the order of the tabs and of the status menu. */
  const StatusOptions: seq<OrderStatus> := [OrderStatus.Pending, Contacted, Completed, Cancelled]

  /** The menu offers every status exactly once. */
  lemma StatusOptionsListEachOnce(s: OrderStatus)
    ensures multiset(StatusOptions)[s] == 1
  {
  }

  const StatusUpdated := "Status updated!"
  const Deleted := "Order deleted."

  /** The tab condition `o.status === s`. */
  function WithStatus(s: OrderStatus): Row<OrderInquiry> -> bool {
    (o: Row<OrderInquiry>) => o.data.status == s
  }

  /** The count shown on a status tab. */
  function TabCount(orders: seq<Row<OrderInquiry>>, s: OrderStatus): (n: nat)
    ensures n <= |orders|
  {
    Count(orders, WithStatus(s))
  }

  /** The enquiries listed under a tab. */
  function Filtered(orders: seq<Row<OrderInquiry>>, filter: StatusFilter): (r: seq<Row<OrderInquiry>>)
    ensures filter.All? ==> r == orders
    ensures filter.Only? ==>
      && (forall i :: 0 <= i < |r| ==> r[i] in orders && r[i].data.status == filter.status)
      && (forall i :: 0 <= i < |orders| && orders[i].data.status == filter.status ==> orders[i] in r)
      && |r| == TabCount(orders, filter.status)
  {
    match filter
    case All => orders
    case Only(s) =>
      CountIsFilterLength(orders, WithStatus(s));
      Filter(orders, WithStatus(s))
  }

  /** Every enquiry is under exactly one status tab, so the four tab counts add up to the total. */
  lemma {:induction false} TabCountsSum(orders: seq<Row<OrderInquiry>>)
    ensures TabCount(orders, StatusOptions[0]) + TabCount(orders, StatusOptions[1])
          + TabCount(orders, StatusOptions[2]) + TabCount(orders, StatusOptions[3]) == |orders|
  {
    if orders != [] {
      TabCountsSum(orders[1..]);
    }
  }

  class Page {
    var orders: seq<Row<OrderInquiry>>
    var filter: StatusFilter
    var selected: Option<Row<OrderInquiry>>
    var toast: Option<Toast>

    constructor ()
      ensures orders == [] && filter == All && selected.None? && toast.None?
    {
      orders, filter, selected, toast := [], All, None, None;
    }

    /** The rows the list shows: `Filtered` applied to the current tab. */
    function Shown(): (r: seq<Row<OrderInquiry>>)
      reads this
      ensures |r| <= |orders|
      ensures filter.All? ==> r == orders
      ensures filter.Only? ==> |r| == TabCount(orders, filter.status)
      ensures filter.Only? ==> forall i :: 0 <= i < |r| ==> r[i] in orders && r[i].data.status == filter.status
      ensures filter.Only? ==> forall i :: 0 <= i < |orders| && orders[i].data.status == filter.status ==> orders[i] in r
    {
      Filtered(orders, filter)
    }

    /** `fetchOrders`: the list as the orders route returned it (None when no list came back). */
    method Refresh(data: Option<seq<Row<OrderInquiry>>>)
      modifies this`orders
      ensures orders == data.GetOr(old(orders))
    {
      if data.Some? {
        orders := data.value;
      }
    }

    /** A tab was clicked. */
    method SetFilter(f: StatusFilter)
      modifies this`filter
      ensures filter == f
    {
      filter := f;
    }

    /** A row was clicked, or the detail panel closed (None). */
    method Select(o: Option<Row<OrderInquiry>>)
      modifies this`selected
      ensures selected == o
    {
      selected := o;
    }

    /**
     * `updateStatus`: the PUT is always sent; only a successful answer
     * shows the toast, reloads the list and, when the enquiry is the one
     * in the detail panel, updates the panel's status and nothing else.
     */
    method UpdateStatus(id: nat, newStatus: OrderStatus, outcome: FetchOutcome, refreshed: Option<seq<Row<OrderInquiry>>>)
      returns (req: Request<OrderStatus>)
      modifies this`orders, this`selected, this`toast
      ensures req == Request(PUT, Item(id), newStatus)
      ensures !Succeeded(outcome) ==> orders == old(orders) && selected == old(selected) && toast == old(toast)
      ensures Succeeded(outcome) ==>
        && toast == Some(Toast(Success, StatusUpdated))
        && orders == refreshed.GetOr(old(orders))
        && (old(selected).Some? && old(selected).value.id == id ==>
              && selected.Some? && selected.value.data.status == newStatus
              && selected.value == old(selected).value.(data := old(selected).value.data.(status := newStatus)))
        && (old(selected).None? || old(selected).value.id != id ==> selected == old(selected))
    {
      req := Request(PUT, Item(id), newStatus);
      if Succeeded(outcome) {
        toast := Some(Toast(Success, StatusUpdated));
        Refresh(refreshed);
        if selected.Some? && selected.value.id == id {
          selected := Some(selected.value.(data := selected.value.data.(status := newStatus)));
        }
      }
    }

    /** `deleteOrder`: after confirmation the DELETE; success shows the toast, reloads and closes the panel. */
    method DeleteOrder(id: nat, confirmed: bool, outcome: FetchOutcome, refreshed: Option<seq<Row<OrderInquiry>>>)
      returns (req: Option<Request<()>>)
      modifies this`orders, this`selected, this`toast
      ensures req == (if confirmed then Some(Request(DELETE, Item(id), ())) else None)
      ensures confirmed && Succeeded(outcome) ==>
        toast == Some(Toast(Success, Deleted)) && orders == refreshed.GetOr(old(orders)) && selected.None?
      ensures !(confirmed && Succeeded(outcome)) ==>
        orders == old(orders) && selected == old(selected) && toast == old(toast)
    {
      if !confirmed {
        return None;
      }
      req := Some(Request(DELETE, Item(id), ()));
      if Succeeded(outcome) {
        toast := Some(Toast(Success, Deleted));
        Refresh(refreshed);
        selected := None;
      }
    }
  }
}

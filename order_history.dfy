/** The order history screen of the FoodKiosk app: the status filter chips with their
    counts, the status colour/icon/label mappings, the single expanded order, and the
    small display rules of an order card. */
module OrderHistory {
  import opened Wrappers
  import opened Seqs

  datatype OrderLine = OrderLine(name: string, quantity: int, price: real)

  /** An order; `estimatedTime` and `paymentMethod` are optional. */
  datatype Order = Order(id: string, orderNumber: string, date: string, time: string,
                         items: seq<OrderLine>, total: real, status: string,
                         estimatedTime: Option<string>, paymentMethod: Option<string>)

  const Completed: string := "completed"
  const Preparing: string := "preparing"
  const Ready: string := "ready"
  const Cancelled: string := "cancelled"

  /** The chip that selects every order. */
  const AllOrders: string := "all"

  const MockOrders: seq<Order> := [
    Order("1", "ORD-001", "2024-01-15", "12:30 PM",
      [OrderLine("Big Mac", 2, 7.99), OrderLine("Coca-Cola", 1, 2.49)],
      20.47, Preparing, Some("10 mins"), Some("Card")),
    Order("2", "ORD-002", "2024-01-15", "11:15 AM",
      [OrderLine("Quarter Pounder", 1, 9.49), OrderLine("Chicken McNuggets", 1, 6.99),
       OrderLine("Apple Pie", 2, 1.99)],
      20.46, Ready, Some("Ready"), Some("Cash")),
    Order("3", "ORD-003", "2024-01-14", "2:45 PM",
      [OrderLine("Big Mac", 1, 7.99), OrderLine("McFlurry Oreo", 1, 3.49)],
      12.36, Completed, None, Some("Card")),
    Order("4", "ORD-004", "2024-01-13", "7:20 PM",
      [OrderLine("Chicken McNuggets", 2, 6.99), OrderLine("Coca-Cola", 2, 2.49)],
      19.94, Completed, None, Some("Card"))]

  function HasStatus(status: string): Order -> bool
  {
    (order: Order) => order.status == status
  }

  /** `filteredOrders`: every order for the "all" chip, otherwise the orders whose
      status is the chip's id. */
  function FilteredOrders(orders: seq<Order>, filter: string): (r: seq<Order>)
    ensures |r| <= |orders|
  {
    if filter == AllOrders then orders else Filter(orders, HasStatus(filter))
  }

  /** The "all" chip lists every order; any other chip lists exactly the orders with
      its status, each as often as in the history, in their original order. */
  lemma FilteredOrdersSpec(orders: seq<Order>, filter: string)
    ensures filter == AllOrders ==> FilteredOrders(orders, filter) == orders
    ensures filter != AllOrders ==>
      (forall i :: 0 <= i < |FilteredOrders(orders, filter)| ==> FilteredOrders(orders, filter)[i].status == filter)
    ensures filter != AllOrders ==>
      (forall i :: 0 <= i < |orders| && orders[i].status == filter ==> orders[i] in FilteredOrders(orders, filter))
    ensures forall x :: (multiset(FilteredOrders(orders, filter))[x] ==
      if filter == AllOrders || x.status == filter then multiset(orders)[x] else 0)
    ensures IsSubsequence(FilteredOrders(orders, filter), orders)
  {
    FilterMembers(orders, HasStatus(filter));
    FilterCounts(orders, HasStatus(filter));
    if filter == AllOrders {
      SubsequenceOfItself(orders);
    }
  }

  lemma {:induction false} SubsequenceOfItself<T>(s: seq<T>)
    ensures IsSubsequence(s, s)
    decreases |s|
  {
    if |s| > 0 {
      SubsequenceOfItself(s[1..]);
    }
  }

  /** A filter chip with the number of orders it lists. */
  datatype FilterChip = FilterChip(id: string, name: string, count: nat)

  /** `filters`: the chips in display order. There is no chip for cancelled orders. */
  function Filters(orders: seq<Order>): seq<FilterChip>
  {
    [FilterChip(AllOrders, "All Orders", |orders|),
     FilterChip(Preparing, "Preparing", |Filter(orders, HasStatus(Preparing))|),
     FilterChip(Ready, "Ready", |Filter(orders, HasStatus(Ready))|),
     FilterChip(Completed, "Completed", |Filter(orders, HasStatus(Completed))|)]
  }

  /** Each chip's badge counts exactly the orders it lists when selected. */
  lemma ChipCountsMatchLists(orders: seq<Order>)
    ensures forall c :: c in Filters(orders) ==> c.count == |FilteredOrders(orders, c.id)|
  {
  }

  predicate KnownStatus(status: string)
  {
    status in {Completed, Preparing, Ready, Cancelled}
  }

  /** When every order has one of the four statuses, the "all" count is the sum of the
      three status chips plus the cancelled orders, which no chip counts. */
  lemma {:induction false} ChipCountsPartition(orders: seq<Order>)
    requires forall i :: 0 <= i < |orders| ==> KnownStatus(orders[i].status)
    ensures Filters(orders)[0].count ==
      Filters(orders)[1].count + Filters(orders)[2].count + Filters(orders)[3].count
      + |Filter(orders, HasStatus(Cancelled))|
    decreases |orders|
  {
    if |orders| > 0 {
      ChipCountsPartition(orders[1..]);
    }
  }

  /** `getStatusColor`. */
  function StatusColor(status: string): string
  {
    if status == Completed then "#4CAF50"
    else if status == Preparing then "#FF9800"
    else if status == Ready then "#2196F3"
    else if status == Cancelled then "#FF4500"
    else "#666"
  }

  /** `getStatusIcon`. */
  function StatusIcon(status: string): string
  {
    if status == Completed then "check-circle"
    else if status == Preparing then "schedule"
    else if status == Ready then "notifications"
    else if status == Cancelled then "cancel"
    else "help"
  }

  /** `getStatusText`. */
  function StatusText(status: string): string
  {
    if status == Completed then "Completed"
    else if status == Preparing then "Preparing"
    else if status == Ready then "Ready for Pickup"
    else if status == Cancelled then "Cancelled"
    else status
  }

  /** The mappings are total: an unknown status gets the grey colour, the help icon
      and its own text; the four known statuses get pairwise different colours, icons
      and texts, none of them the default colour or icon. */
  lemma StatusMappings(status: string, other: string)
    ensures !KnownStatus(status) ==>
      StatusColor(status) == "#666" && StatusIcon(status) == "help" && StatusText(status) == status
    ensures KnownStatus(status) ==> StatusColor(status) != "#666" && StatusIcon(status) != "help"
    ensures KnownStatus(status) && KnownStatus(other) && status != other ==>
      StatusColor(status) != StatusColor(other) && StatusIcon(status) != StatusIcon(other)
      && StatusText(status) != StatusText(other)
  {
  }

  /** `toggleOrderDetails`: tapping the expanded order collapses it; tapping any other
      order expands that one instead. */
  function Toggle(expanded: Option<string>, id: string): (r: Option<string>)
    ensures r == None <==> expanded == Some(id)
    ensures r != None ==> r == Some(id)
  {
    if expanded == Some(id) then None else Some(id)
  }

  /** Tapping the same order twice restores the previous state exactly when nothing or
      that same order was expanded before. */
  lemma ToggleTwice(expanded: Option<string>, id: string)
    ensures Toggle(Toggle(expanded, id), id) == expanded <==> expanded == None || expanded == Some(id)
  {
  }

  function IsExpanded(expanded: Option<string>): Order -> bool
  {
    (order: Order) => expanded == Some(order.id)
  }

  ghost predicate DistinctIds(orders: seq<Order>)
  {
    forall i, j :: 0 <= i < j < |orders| ==> orders[i].id != orders[j].id
  }

  /** With distinct order ids at most one card shows its details. */
  lemma {:induction false} AtMostOneExpanded(orders: seq<Order>, expanded: Option<string>)
    requires DistinctIds(orders)
    ensures |Filter(orders, IsExpanded(expanded))| <= 1
    decreases |orders|
  {
    if |orders| > 0 {
      AtMostOneExpanded(orders[1..], expanded);
      if IsExpanded(expanded)(orders[0]) {
        forall i | 0 <= i < |orders[1..]| ensures !IsExpanded(expanded)(orders[1..][i]) {
          assert orders[1..][i] == orders[i + 1];
        }
        FilterDropsAll(orders[1..], IsExpanded(expanded));
      }
    }
  }

  /** The "item"/"items" label of an order card, after the count. */
  function ItemsWord(order: Order): (word: string)
    ensures word == "items" <==> |order.items| > 1
    ensures word == "item" <==> |order.items| <= 1
  {
    "item" + (if |order.items| > 1 then "s" else "")
  }

  /** The estimated time is shown when it is present and not empty (an empty string is
      falsy), unless the order is completed. */
  predicate ShowsEstimatedTime(order: Order)
  {
    order.estimatedTime.Some? && order.estimatedTime.value != "" && order.status != Completed
  }

  /** The two open orders show their estimated time, the completed ones do not; the
      chip counts are 4, 1, 1 and 2. */
  lemma MockOrdersDisplay()
    ensures ShowsEstimatedTime(MockOrders[0]) && ShowsEstimatedTime(MockOrders[1])
    ensures !ShowsEstimatedTime(MockOrders[2]) && !ShowsEstimatedTime(MockOrders[3])
    ensures forall i :: 0 <= i < |MockOrders| ==> ItemsWord(MockOrders[i]) == "items"
    ensures [Filters(MockOrders)[0].count, Filters(MockOrders)[1].count,
             Filters(MockOrders)[2].count, Filters(MockOrders)[3].count] == [4, 1, 1, 2]
  {
    FilterDropsAll(MockOrders[1..], HasStatus(Preparing));
    FilterDropsAll(MockOrders[2..], HasStatus(Ready));
    FilterDropsAll(MockOrders[..2], HasStatus(Completed));
    assert MockOrders[..2] + MockOrders[2..] == MockOrders;
    FilterKeepsAll(MockOrders[2..], HasStatus(Completed));
    FilterAppend(MockOrders[..2], MockOrders[2..], HasStatus(Completed));
    assert |Filter(MockOrders, HasStatus(Preparing))| == 1;
    assert Filter(MockOrders[1..], HasStatus(Ready)) == [MockOrders[1]] + Filter(MockOrders[2..], HasStatus(Ready));
    assert |Filter(MockOrders, HasStatus(Completed))| == 2;
  }

  /** The state of the order history screen. */
  class OrderHistoryScreen {
    var selectedFilter: string
    var expandedOrder: Option<string>

    constructor ()
      ensures selectedFilter == AllOrders && expandedOrder == None
      ensures Listed() == MockOrders
    {
      selectedFilter := AllOrders;
      expandedOrder := None;
    }

    /** The orders currently listed. */
    function Listed(): seq<Order>
      reads this
    {
      FilteredOrders(MockOrders, selectedFilter)
    }

    /** Tapping a filter chip. */
    method SelectFilter(id: string)
      modifies this
      ensures selectedFilter == id && expandedOrder == old(expandedOrder)
      ensures Listed() == FilteredOrders(MockOrders, id)
    {
      selectedFilter := id;
    }

    /** Tapping an order card's header. */
    method ToggleOrderDetails(orderId: string)
      modifies this
      ensures expandedOrder == Toggle(old(expandedOrder), orderId)
      ensures selectedFilter == old(selectedFilter) && Listed() == old(Listed())
    {
      if expandedOrder == Some(orderId) {
        expandedOrder := None;
      } else {
        expandedOrder := Some(orderId);
      }
    }
  }
}

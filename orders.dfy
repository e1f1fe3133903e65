/** The order view: a search over order number and customer, and an order-status filter. */
module Orders {
  import opened Text
  import opened Filtering

  datatype Order = Order(
    orderNumber: string,
    customer: string,
    products: string,
    quantity: int,
    status: string,
    origin: string,
    destination: string,
    eta: string,
    ets: string,
    trackingNumber: string,
    value: string)

  /** The order number or the customer contains the search term, ignoring case. */
  predicate MatchesSearch(order: Order, searchTerm: string) {
    IncludesIgnoringCase(order.orderNumber, searchTerm) || IncludesIgnoringCase(order.customer, searchTerm)
  }

  /** The status filter is "all" or names the order's status exactly. */
  predicate MatchesStatus(order: Order, statusFilter: string) {
    statusFilter == "all" || order.status == statusFilter
  }

  /** `filteredOrders`: the rows the orders table shows. */
  function FilteredOrders(orders: seq<Order>, searchTerm: string, statusFilter: string): seq<Order> {
    Filter(orders, (order: Order) => MatchesSearch(order, searchTerm) && MatchesStatus(order, statusFilter))
  }

  /** The table keeps the orders' order and only drops rows. */
  lemma FilteredOrdersIsSubsequence(orders: seq<Order>, searchTerm: string, statusFilter: string)
    ensures IsSubsequence(FilteredOrders(orders, searchTerm, statusFilter), orders)
  {
    FilterIsSubsequence(orders, (order: Order) => MatchesSearch(order, searchTerm) && MatchesStatus(order, statusFilter));
  }

  /** An order is shown exactly when it is in the list and passes both the search and the status filter. */
  lemma FilteredOrdersMembership(orders: seq<Order>, searchTerm: string, statusFilter: string, x: Order)
    ensures x in FilteredOrders(orders, searchTerm, statusFilter) <==>
            x in orders && MatchesSearch(x, searchTerm) && MatchesStatus(x, statusFilter)
  {
    FilterMembership(orders, (order: Order) => MatchesSearch(order, searchTerm) && MatchesStatus(order, statusFilter), x);
  }

  /** With nothing typed and "all" selected, every order is shown. */
  lemma EmptySearchShowsAll(orders: seq<Order>)
    ensures FilteredOrders(orders, "", "all") == orders
  {
    forall i | 0 <= i < |orders|
      ensures MatchesSearch(orders[i], "") && MatchesStatus(orders[i], "all")
    {
      IncludesEmpty(Lower(orders[i].orderNumber));
    }
    FilterKeepsAll(orders, (order: Order) => MatchesSearch(order, "") && MatchesStatus(order, "all"));
  }

  /** Search terms that differ only in letter case show the same rows. */
  lemma SearchIgnoresCase(orders: seq<Order>, t1: string, t2: string, statusFilter: string)
    requires Lower(t1) == Lower(t2)
    ensures FilteredOrders(orders, t1, statusFilter) == FilteredOrders(orders, t2, statusFilter)
  {
    FilterCongruence(orders,
      (order: Order) => MatchesSearch(order, t1) && MatchesStatus(order, statusFilter),
      (order: Order) => MatchesSearch(order, t2) && MatchesStatus(order, statusFilter));
  }

  /** In particular, typing the term in upper or lower case makes no difference. */
  lemma LowerCasedSearchIsSame(orders: seq<Order>, searchTerm: string, statusFilter: string)
    ensures FilteredOrders(orders, Lower(searchTerm), statusFilter) == FilteredOrders(orders, searchTerm, statusFilter)
  {
    LowerIdempotent(searchTerm);
    SearchIgnoresCase(orders, Lower(searchTerm), searchTerm, statusFilter);
  }

  /** Filtering the shown rows again with the same inputs changes nothing. */
  lemma FilteredOrdersIdempotent(orders: seq<Order>, searchTerm: string, statusFilter: string)
    ensures FilteredOrders(FilteredOrders(orders, searchTerm, statusFilter), searchTerm, statusFilter) ==
            FilteredOrders(orders, searchTerm, statusFilter)
  {
    FilterIdempotent(orders, (order: Order) => MatchesSearch(order, searchTerm) && MatchesStatus(order, statusFilter));
  }
}

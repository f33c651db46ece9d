/** The delivery driver's dashboard: the loaded orders, the tabs, the title and the action button. */
module DeliveryDashboard {
  import opened OrderStatus
  import opened Wrappers
  import Seqs

  /** `loadOrders` keeps only the orders that are ready or already out for delivery. */
  function LoadedOrders(response: seq<Order>): (r: seq<Order>)
    ensures forall o :: o in r <==> o in response && o.status in {Ready, Delivering}
  {
    Seqs.Filter(response, IsReadyOrDelivering)
  }

  datatype FilterTab = All | ReadyTab | DeliveringTab

  function OnTab(tab: FilterTab, o: Order): bool {
    match tab
    case All => true
    case ReadyTab => IsReady(o)
    case DeliveringTab => IsDelivering(o)
  }

  /** `getFilteredOrders`. */
  function FilteredOrders(tab: FilterTab, orders: seq<Order>): (r: seq<Order>)
    ensures tab == All ==> r == orders
    ensures forall o :: o in r <==> o in orders && OnTab(tab, o)
  {
    match tab
    case All => orders
    case ReadyTab => Seqs.Filter(orders, IsReady)
    case DeliveringTab => Seqs.Filter(orders, IsDelivering)
  }

  /** Every tab keeps the loaded orders in their order. */
  lemma FilteredOrdersKeepOrder(tab: FilterTab, orders: seq<Order>)
    ensures Seqs.IsSubsequence(FilteredOrders(tab, orders), orders)
  {
    match tab
    case All => Seqs.SubsequenceReflexive(orders);
    case ReadyTab => Seqs.FilterIsSubsequence(orders, IsReady);
    case DeliveringTab => Seqs.FilterIsSubsequence(orders, IsDelivering);
  }

  /** Over what `loadOrders` keeps, the 'all' count is the ready count plus the delivering count. */
  lemma AllCountAddsUp(response: seq<Order>)
    ensures |FilteredOrders(All, LoadedOrders(response))| ==
      |FilteredOrders(ReadyTab, LoadedOrders(response))| + |FilteredOrders(DeliveringTab, LoadedOrders(response))|
  {
    var loaded := LoadedOrders(response);
    Seqs.FilterAll(loaded, IsReadyOrDelivering);
    ReadyOrDeliveringSplits(loaded);
    Seqs.FilterLength(loaded, IsReadyOrDelivering);
    Seqs.FilterLength(loaded, IsReady);
    Seqs.FilterLength(loaded, IsDelivering);
  }

  /** `getPageTitle`. */
  function PageTitle(tab: FilterTab): (t: string)
    ensures t in {"Prontos para Entrega", "Em Entrega", "Entregas Disponíveis"}
  {
    match tab
    case ReadyTab => "Prontos para Entrega"
    case DeliveringTab => "Em Entrega"
    case All => "Entregas Disponíveis"
  }

  /** Each tab has its own title. */
  lemma PageTitleInjective(a: FilterTab, b: FilterTab)
    requires PageTitle(a) == PageTitle(b)
    ensures a == b
  {
  }

  /** The status the order's button sends: start delivering a ready order, deliver one in transit. */
  function NextStatus(s: Status): (next: Option<Status>)
    ensures next.Some? <==> s in {Ready, Delivering}
    ensures next.Some? ==> Rank(next.value) == Rank(s) + 1
  {
    match s
    case Ready => Some(Delivering)
    case Delivering => Some(Delivered)
    case _ => None
  }

  /**
    * After the update the list is loaded again, so an order the button moved on to
    * 'delivered' leaves the dashboard, and one moved to 'delivering' stays.
    */
  lemma DeliveredOrderLeaves(o: Order)
    requires NextStatus(o.status).Some?
    ensures Order(o.id, NextStatus(o.status).value) in LoadedOrders([Order(o.id, NextStatus(o.status).value)])
      <==> o.status == Ready
  {
  }
}

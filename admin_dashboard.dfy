/** The administrator's order tabs and the counts on their buttons. */
module AdminDashboard {
  import opened OrderStatus
  import Seqs

  /** The tab state only ever holds one of these three, so the switch's default is dead. */
  datatype OrderTab = PendingTab | InProgress | Completed

  function OnTab(tab: OrderTab, o: Order): bool {
    match tab
    case PendingTab => IsPending(o)
    case InProgress => IsInProgress(o)
    case Completed => IsCompleted(o)
  }

  /** `getFilteredOrders`. */
  function FilteredOrders(tab: OrderTab, orders: seq<Order>): (r: seq<Order>)
    ensures forall o :: o in r <==> o in orders && OnTab(tab, o)
    ensures tab == PendingTab ==> forall o :: o in r ==> o.status == Pending
    ensures tab == InProgress ==> forall o :: o in r ==> o.status in {Preparing, Ready, Delivering}
    ensures tab == Completed ==> forall o :: o in r ==> o.status in {Delivered, Cancelled}
  {
    match tab
    case PendingTab => Seqs.Filter(orders, IsPending)
    case InProgress => Seqs.Filter(orders, IsInProgress)
    case Completed => Seqs.Filter(orders, IsCompleted)
  }

  /** The number a tab button shows. */
  function TabCount(tab: OrderTab, orders: seq<Order>): nat {
    match tab
    case PendingTab => |Seqs.Filter(orders, IsPending)|
    case InProgress => |Seqs.Filter(orders, IsInProgress)|
    case Completed => |Seqs.Filter(orders, IsCompleted)|
  }

  /** Every selectable status lands on exactly one tab; an unknown status on none. */
  lemma TabsPartition(o: Order)
    ensures o.status in Selectable ==> exists tab :: OnTab(tab, o)
    ensures forall t1, t2 :: OnTab(t1, o) && OnTab(t2, o) ==> t1 == t2
    ensures o.status.Other? ==> forall tab :: !OnTab(tab, o)
  {
    TabsPartitionSelectable(o);
    if o.status in Selectable {
      if IsPending(o) {
        assert OnTab(PendingTab, o);
      } else if IsInProgress(o) {
        assert OnTab(InProgress, o);
      } else {
        assert OnTab(Completed, o);
      }
    }
  }

  function IsSelectable(o: Order): bool {
    o.status in Selectable
  }

  function IsPendingOrInProgress(o: Order): bool {
    IsPending(o) || IsInProgress(o)
  }

  /**
    * Each button's count is its tab's length, and the three counts add up to the number of
    * orders whose status is one of the six selectable ones.
    */
  lemma TabCountsAddUp(orders: seq<Order>)
    ensures forall tab :: TabCount(tab, orders) == |FilteredOrders(tab, orders)|
    ensures TabCount(PendingTab, orders) + TabCount(InProgress, orders) + TabCount(Completed, orders) ==
      Seqs.CountWhere(orders, IsSelectable)
  {
    Seqs.FilterLength(orders, IsPending);
    Seqs.FilterLength(orders, IsInProgress);
    Seqs.FilterLength(orders, IsCompleted);
    Seqs.CountDisjointUnion(orders, IsPending, IsInProgress, IsPendingOrInProgress);
    Seqs.CountDisjointUnion(orders, IsPendingOrInProgress, IsCompleted, IsSelectable);
  }
}

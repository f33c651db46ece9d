/**
  * Order statuses as the three dashboards read them from the back end's strings, and the
  * status sets their tabs filter on. Any other string is kept as `Other`.
  */
module OrderStatus {
  import Seqs

  datatype Status = Pending | Preparing | Ready | Delivering | Delivered | Cancelled | Other(name: string)

  /** The back end's status string. */
  function Name(s: Status): string {
    match s
    case Pending => "pending"
    case Preparing => "preparing"
    case Ready => "ready"
    case Delivering => "delivering"
    case Delivered => "delivered"
    case Cancelled => "cancelled"
    case Other(n) => n
  }

  const KnownNames: seq<string> := ["pending", "preparing", "ready", "delivering", "delivered", "cancelled"]

  /** Reading a status string: the six known names, anything else as itself. */
  function Parse(name: string): (s: Status)
    ensures name !in KnownNames <==> s.Other?
    ensures s.Other? ==> s.name == name
  {
    if name == "pending" then Pending
    else if name == "preparing" then Preparing
    else if name == "ready" then Ready
    else if name == "delivering" then Delivering
    else if name == "delivered" then Delivered
    else if name == "cancelled" then Cancelled
    else Other(name)
  }

  /** A status as `Parse` produces it: `Other` never holds a known name. */
  predicate Canonical(s: Status) {
    s.Other? ==> s.name !in KnownNames
  }

  /** Reading the string back gives the same string, and the same canonical status. */
  lemma ParseRoundTrip(name: string, s: Status)
    ensures Name(Parse(name)) == name
    ensures Canonical(Parse(name))
    ensures Canonical(s) ==> Parse(Name(s)) == s
  {
  }

  datatype Order = Order(id: int, status: Status)

  /** `['pending', 'preparing', 'ready', 'delivering'].includes(order.status)`. */
  function IsActive(o: Order): bool {
    o.status in {Pending, Preparing, Ready, Delivering}
  }

  function IsPending(o: Order): bool {
    o.status == Pending
  }

  /** `['preparing', 'ready', 'delivering'].includes(order.status)`. */
  function IsInProgress(o: Order): bool {
    o.status in {Preparing, Ready, Delivering}
  }

  /** `['delivered', 'cancelled'].includes(order.status)`. */
  function IsCompleted(o: Order): bool {
    o.status in {Delivered, Cancelled}
  }

  function IsReady(o: Order): bool {
    o.status == Ready
  }

  function IsDelivering(o: Order): bool {
    o.status == Delivering
  }

  /** `['ready', 'delivering'].includes(order.status)`. */
  function IsReadyOrDelivering(o: Order): bool {
    o.status in {Ready, Delivering}
  }

  /** Active orders are the pending ones plus the ones in progress, and none is completed. */
  lemma ActiveSplits(orders: seq<Order>)
    ensures Seqs.CountWhere(orders, IsActive) == Seqs.CountWhere(orders, IsPending) + Seqs.CountWhere(orders, IsInProgress)
    ensures Seqs.Filter(Seqs.Filter(orders, IsActive), IsCompleted) == []
  {
    Seqs.CountDisjointUnion(orders, IsPending, IsInProgress, IsActive);
    Seqs.FilterNone(Seqs.Filter(orders, IsActive), IsCompleted);
  }

  /** Ready-or-delivering orders are the ready ones plus the delivering ones. */
  lemma ReadyOrDeliveringSplits(orders: seq<Order>)
    ensures Seqs.CountWhere(orders, IsReadyOrDelivering) ==
      Seqs.CountWhere(orders, IsReady) + Seqs.CountWhere(orders, IsDelivering)
  {
    Seqs.CountDisjointUnion(orders, IsReady, IsDelivering, IsReadyOrDelivering);
  }

  /** The six statuses an administrator can select. */
  const Selectable: set<Status> := {Pending, Preparing, Ready, Delivering, Delivered, Cancelled}

  /** Pending, in progress and completed split the selectable statuses with no overlap. */
  lemma TabsPartitionSelectable(o: Order)
    ensures o.status in Selectable <==> IsPending(o) || IsInProgress(o) || IsCompleted(o)
    ensures !(IsPending(o) && IsInProgress(o)) && !(IsPending(o) && IsCompleted(o)) && !(IsInProgress(o) && IsCompleted(o))
  {
  }

  /** The position of a status along pending, preparing, ready, delivering, delivered. */
  function Rank(s: Status): (r: int)
    ensures r == -1 <==> s.Cancelled? || s.Other?
    ensures -1 <= r <= 4
  {
    match s
    case Pending => 0
    case Preparing => 1
    case Ready => 2
    case Delivering => 3
    case Delivered => 4
    case _ => -1
  }
}

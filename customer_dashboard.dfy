/**
  * The customer dashboard: the order tabs and their counts, the status text, the order
  * timeline and the product search.
  */
module CustomerDashboard {
  import opened OrderStatus
  import Seqs
  import Strings

  datatype OrderTab = All | Active | PendingTab | InProgress | Completed

  /** Whether an order belongs on a tab. */
  function OnTab(tab: OrderTab, o: Order): bool {
    match tab
    case All => true
    case Active => IsActive(o)
    case PendingTab => IsPending(o)
    case InProgress => IsInProgress(o)
    case Completed => IsCompleted(o)
  }

  /** `getFilteredOrders`: 'all' is the identity, every other tab a filter. */
  function FilteredOrders(tab: OrderTab, orders: seq<Order>): (r: seq<Order>)
    ensures tab == All ==> r == orders
    ensures forall o :: o in r <==> o in orders && OnTab(tab, o)
    ensures |r| <= |orders|
  {
    match tab
    case All => orders
    case Active => Seqs.Filter(orders, IsActive)
    case PendingTab => Seqs.Filter(orders, IsPending)
    case InProgress => Seqs.Filter(orders, IsInProgress)
    case Completed => Seqs.Filter(orders, IsCompleted)
  }

  /** Every tab shows a sublist of the orders, in their order. */
  lemma FilteredOrdersKeepOrder(tab: OrderTab, orders: seq<Order>)
    ensures Seqs.IsSubsequence(FilteredOrders(tab, orders), orders)
  {
    match tab
    case All => Seqs.SubsequenceReflexive(orders);
    case Active => Seqs.FilterIsSubsequence(orders, IsActive);
    case PendingTab => Seqs.FilterIsSubsequence(orders, IsPending);
    case InProgress => Seqs.FilterIsSubsequence(orders, IsInProgress);
    case Completed => Seqs.FilterIsSubsequence(orders, IsCompleted);
  }

  /** The `get*OrdersCount` helpers. */
  function ActiveCount(orders: seq<Order>): nat { |Seqs.Filter(orders, IsActive)| }
  function PendingCount(orders: seq<Order>): nat { |Seqs.Filter(orders, IsPending)| }
  function InProgressCount(orders: seq<Order>): nat { |Seqs.Filter(orders, IsInProgress)| }
  function CompletedCount(orders: seq<Order>): nat { |Seqs.Filter(orders, IsCompleted)| }

  /**
    * Each count is the length of the matching tab, the active count is the pending count
    * plus the in-progress count, and active and completed orders never overlap.
    */
  lemma CountsMatchTabs(orders: seq<Order>)
    ensures ActiveCount(orders) == |FilteredOrders(Active, orders)|
    ensures PendingCount(orders) == |FilteredOrders(PendingTab, orders)|
    ensures InProgressCount(orders) == |FilteredOrders(InProgress, orders)|
    ensures CompletedCount(orders) == |FilteredOrders(Completed, orders)|
    ensures ActiveCount(orders) == PendingCount(orders) + InProgressCount(orders)
    ensures ActiveCount(orders) + CompletedCount(orders) <= |orders|
    ensures forall o :: !(o in FilteredOrders(Active, orders) && o in FilteredOrders(Completed, orders))
  {
    ActiveSplits(orders);
    Seqs.FilterLength(orders, IsActive);
    Seqs.FilterLength(orders, IsPending);
    Seqs.FilterLength(orders, IsInProgress);
    Seqs.FilterLength(orders, IsCompleted);
    Seqs.FilterLength(orders, IsActiveOrCompleted);
    Seqs.CountDisjointUnion(orders, IsActive, IsCompleted, IsActiveOrCompleted);
  }

  function IsActiveOrCompleted(o: Order): bool {
    IsActive(o) || IsCompleted(o)
  }

  /** `isOrderActive`, on the raw status string. */
  function IsOrderActive(status: string): bool {
    status in ["pending", "preparing", "ready", "delivering"]
  }

  /** The string test and the active tab agree on every status string. */
  lemma IsOrderActiveAgreesWithTab(id: int, status: string)
    ensures IsOrderActive(status) <==> IsActive(Order(id, Parse(status)))
    ensures IsOrderActive(status) <==> Order(id, Parse(status)) in FilteredOrders(Active, [Order(id, Parse(status))])
  {
  }

  /** `getStatusText`. */
  function StatusText(s: Status): (t: string)
    ensures s.Cancelled? || s.Other? ==> t == Name(s)
  {
    match s
    case Pending => "Pendente"
    case Preparing => "Preparando"
    case Ready => "Pronto"
    case Delivering => "Em entrega"
    case Delivered => "Entregue"
    case _ => Name(s)
  }

  /** Only 'cancelled' and unknown statuses are shown untranslated. */
  lemma StatusTextUntranslated(s: Status)
    ensures StatusText(s) == Name(s) <==> s.Cancelled? || s.Other?
  {
  }

  /** Steps 2 to 5 of the timeline: preparing, ready, out for delivery, delivered. */
  function StepLit(step: int, s: Status): bool
    requires 2 <= step <= 5
  {
    if step == 2 then s in {Preparing, Ready, Delivering, Delivered}
    else if step == 3 then s in {Ready, Delivering, Delivered}
    else if step == 4 then s in {Delivering, Delivered}
    else s == Delivered
  }

  /**
    * A step is lit exactly when the order has reached it, so a lit step lights every
    * earlier one, and a cancelled order lights none.
    */
  lemma TimelineFollowsRank(step: int, earlier: int, s: Status)
    requires 2 <= earlier <= step <= 5
    ensures StepLit(step, s) <==> Rank(s) >= step - 1
    ensures StepLit(step, s) ==> StepLit(earlier, s)
    ensures s.Cancelled? ==> !StepLit(step, s)
  {
  }

  datatype Light = Yellow | Green | Gray

  /** The first step: yellow while pending, green once confirmed, gray otherwise. */
  function Step1Light(s: Status): (l: Light)
    ensures l == Yellow <==> s == Pending
    ensures l == Green <==> StepLit(2, s)
    ensures l == Gray <==> s.Cancelled? || s.Other?
  {
    if s == Pending then Yellow
    else if s in {Preparing, Ready, Delivering, Delivered} then Green
    else Gray
  }

  datatype Product = Product(id: int, name: string, description: string)

  /** A product matches when the search term occurs, case-folded, in its name or description. */
  function Matches(term: string, p: Product): (b: bool)
    ensures b <==> (
      (exists i: nat :: Strings.OccursAt(Strings.Lower(p.name), Strings.Lower(term), i)) ||
      (exists i: nat :: Strings.OccursAt(Strings.Lower(p.description), Strings.Lower(term), i)))
  {
    Strings.Contains(Strings.Lower(p.name), Strings.Lower(term))
      || Strings.Contains(Strings.Lower(p.description), Strings.Lower(term))
  }

  /** `filteredProducts`, before sorting. */
  function SearchResults(products: seq<Product>, term: string): (r: seq<Product>)
    ensures forall p :: p in r <==> p in products && Matches(term, p)
  {
    Seqs.Filter(products, p => Matches(term, p))
  }

  /** An empty search keeps every product, in order. */
  lemma EmptySearchKeepsAll(products: seq<Product>)
    ensures SearchResults(products, "") == products
  {
    forall p | p in products ensures Matches("", p) {
      Strings.ContainsEmpty(Strings.Lower(p.name));
    }
    Seqs.FilterAll(products, p => Matches("", p));
  }

  /** The search is case-insensitive: two terms that fold to the same string find the same products. */
  lemma SearchIgnoresCase(products: seq<Product>, a: string, b: string)
    requires Strings.Lower(a) == Strings.Lower(b)
    ensures SearchResults(products, a) == SearchResults(products, b)
  {
    Seqs.FilterExtensional(products, p => Matches(a, p), p => Matches(b, p));
  }
}

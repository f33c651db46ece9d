/**
  * The cart page: the quantity buttons, the cart -> address -> confirmation steps and the
  * order it places. The cart is emptied only once the order was created.
  */
module CartPage {
  import opened Wrappers
  import opened Browser
  import opened CartStore

  datatype Step = CartStep | AddressStep | ConfirmationStep

  /** What "Voltar" does; there is no such button on the cart step. */
  function Back(step: Step): (r: Option<Step>)
    ensures r.None? <==> step == CartStep
  {
    match step
    case CartStep => None
    case AddressStep => Some(CartStep)
    case ConfirmationStep => Some(AddressStep)
  }

  datatype ContinueAction = GoTo(next: Step) | PlaceOrder

  /** What the main button does: step forward, or place the order on the confirmation step. */
  function Continue(step: Step): (a: ContinueAction)
    ensures a.PlaceOrder? <==> step == ConfirmationStep
    ensures a.GoTo? ==> Back(a.next) == Some(step)
  {
    match step
    case CartStep => GoTo(AddressStep)
    case AddressStep => GoTo(ConfirmationStep)
    case ConfirmationStep => PlaceOrder
  }

  /** Going back undoes the step forward that led to a step. */
  lemma BackUndoesContinue(step: Step)
    requires step != CartStep
    ensures Continue(Back(step).value) == GoTo(step)
  {
  }

  /**
    * `handleQuantityUpdate(p, delta)`: a product not in the cart is left alone; otherwise its
    * first line's quantity plus delta is written back, and the product is removed when that
    * is not positive.
    */
  function QuantityUpdate(items: seq<CartItem>, p: int, delta: int): (r: seq<CartItem>)
    ensures !Has(items, p) ==> r == items
    ensures forall x: CartItem :: x.productId != p ==> (x in r <==> x in items)
  {
    match Find(items, p)
    case None => items
    case Some(current) =>
      var q := current.quantity + delta;
      if q > 0 then
        SetKeepsOthers(items, p, q);
        UpdatedItems(items, p, q)
      else UpdatedItems(items, p, q)
  }

  /** The product's first line ends at its quantity plus delta, or the product is gone. */
  lemma QuantityUpdateEffect(items: seq<CartItem>, p: int, delta: int)
    requires Has(items, p)
    ensures Find(items, p).value.quantity + delta > 0 ==>
      |QuantityUpdate(items, p, delta)| == |items| &&
      Find(QuantityUpdate(items, p, delta), p) == Some(CartItem(p, Find(items, p).value.quantity + delta))
    ensures Find(items, p).value.quantity + delta <= 0 ==> !Has(QuantityUpdate(items, p, delta), p)
  {
    var q := Find(items, p).value.quantity + delta;
    if q > 0 {
      UpdatedFind(items, p, q);
    }
  }

  /** A positive update leaves the lines of every other product where they were. */
  lemma SetKeepsOthers(items: seq<CartItem>, p: int, q: int)
    requires q > 0
    ensures forall x: CartItem :: x.productId != p ==> (x in UpdatedItems(items, p, q) <==> x in items)
  {
    var r := UpdatedItems(items, p, q);
    forall x: CartItem | x.productId != p
      ensures x in r <==> x in items
    {
      if x in items {
        var k :| 0 <= k < |items| && items[k] == x;
        assert r[k] == x;
      }
      if x in r {
        var k :| 0 <= k < |r| && r[k] == x;
        assert items[k] == x;
      }
    }
  }

  /** With one line per product and positive quantities, a button press keeps both. */
  lemma QuantityUpdateKeepsInvariants(items: seq<CartItem>, p: int, delta: int)
    requires UniqueIds(items) && AllPositive(items)
    ensures UniqueIds(QuantityUpdate(items, p, delta)) && AllPositive(QuantityUpdate(items, p, delta))
  {
    if Find(items, p).Some? {
      UpdateKeepsInvariants(items, p, Find(items, p).value.quantity + delta);
    }
  }

  /** One `{product_id, quantity}` entry of the order. */
  datatype OrderLine = OrderLine(productId: int, quantity: int)

  /** The order's items: one entry per cart line, in cart order. */
  function Payload(items: seq<CartItem>): (lines: seq<OrderLine>)
    ensures |lines| == |items|
    ensures forall k :: 0 <= k < |items| ==> lines[k].productId == items[k].productId && lines[k].quantity == items[k].quantity
  {
    seq(|items|, k requires 0 <= k < |items| => OrderLine(items[k].productId, items[k].quantity))
  }

  /** The cart lines an order's entries stand for. */
  function LinesToItems(lines: seq<OrderLine>): (items: seq<CartItem>)
    ensures |items| == |lines|
  {
    seq(|lines|, k requires 0 <= k < |lines| => CartItem(lines[k].productId, lines[k].quantity))
  }

  /** The order loses nothing of the cart: its entries give the cart back. */
  lemma PayloadRoundTrip(items: seq<CartItem>)
    ensures LinesToItems(Payload(items)) == items
  {
  }

  /** What `createOrder` did with the order. */
  datatype OrderOutcome = Created | Rejected(message: string)

  const EmptyCartAlert: string := "Carrinho vazio!"
  const SuccessAlert: string := "Pedido realizado com sucesso!"

  /** The alert shown when the order is rejected. */
  function FailureAlert(message: string): (a: string)
    ensures message != "" ==> a == "Erro ao fazer pedido: " + message
    ensures message == "" ==> a == "Erro ao fazer pedido: Tente novamente"
  {
    "Erro ao fazer pedido: " + (if message != "" then message else "Tente novamente")
  }

  /**
    * The alert names the rejection: a non-empty message is read back from the end of the alert,
    * so different messages give different alerts; an empty one falls back to "Tente novamente".
    */
  lemma FailureAlertNamesMessage(m1: string, m2: string)
    ensures m1 != "" ==> FailureAlert(m1)[|FailureAlert(m1)| - |m1|..] == m1
    ensures m1 != "" && m2 != "" && m1 != m2 ==> FailureAlert(m1) != FailureAlert(m2)
    ensures FailureAlert("") == FailureAlert("Tente novamente")
  {
    var prefix := "Erro ao fazer pedido: ";
    if m1 != "" {
      assert FailureAlert(m1) == prefix + m1;
      assert (prefix + m1)[|prefix|..] == m1;
      if m2 != "" && m1 != m2 {
        assert FailureAlert(m2) == prefix + m2;
        assert (prefix + m2)[|prefix|..] == m2;
      }
    }
  }

  class CartPageState {
    var step: Step
    var ordering: bool
    const cart: Cart

    constructor (cart: Cart)
      ensures this.cart == cart && step == CartStep && !ordering
    {
      this.cart := cart;
      step := CartStep;
      ordering := false;
    }

    /** The -1 and +1 buttons of a line. */
    method ChangeQuantity(p: int, delta: int)
      requires cart.Persisted()
      modifies cart, cart.storage
      ensures cart.items == QuantityUpdate(old(cart.items), p, delta) && cart.Persisted()
      ensures cart.storage.authToken == old(cart.storage.authToken) && cart.storage.token == old(cart.storage.token)
    {
      var current := Find(cart.items, p);
      if current.Some? {
        var q := current.value.quantity + delta;
        if q > 0 {
          cart.UpdateQuantity(p, q);
        } else {
          cart.RemoveFromCart(p);
          assert cart.items == UpdatedItems(old(cart.items), p, q);
        }
      }
    }

    /**
      * `handleCheckout`: nothing is sent for an empty cart. Otherwise the order is sent while
      * `ordering` is set, and the cart is cleared only when the order was created.
      */
    method HandleCheckout(outcome: OrderOutcome) returns (sent: Option<seq<OrderLine>>, alert: string, navigateTo: Option<string>)
      requires cart.Persisted()
      modifies this, cart, cart.storage
      ensures step == old(step) && cart.Persisted()
      ensures ordering == (old(cart.items) == [] && old(ordering))
      ensures old(cart.items) == [] ==> sent.None? && alert == EmptyCartAlert && navigateTo.None?
      ensures old(cart.items) == [] ==> cart.items == [] && cart.storage.cart == old(cart.storage.cart)
      ensures old(cart.items) != [] ==> sent == Some(Payload(old(cart.items)))
      ensures old(cart.items) != [] && outcome.Created? ==>
        cart.items == [] && cart.storage.cart.None? && alert == SuccessAlert && navigateTo == Some("/customer")
      ensures old(cart.items) != [] && outcome.Rejected? ==>
        cart.items == old(cart.items) && cart.storage.cart == old(cart.storage.cart) &&
        alert == FailureAlert(outcome.message) && navigateTo.None?
      ensures cart.storage.authToken == old(cart.storage.authToken) && cart.storage.token == old(cart.storage.token)
    {
      if cart.items == [] {
        return None, EmptyCartAlert, None;
      }
      ordering := true;
      sent := Some(Payload(cart.items));
      match outcome {
        case Created =>
          cart.ClearCart();
          alert, navigateTo := SuccessAlert, Some("/customer");
        case Rejected(message) =>
          alert, navigateTo := FailureAlert(message), None;
      }
      ordering := false;
    }

    /** The main button; it is disabled while an order is being placed. */
    method PressContinue(outcome: OrderOutcome) returns (sent: Option<seq<OrderLine>>)
      requires cart.Persisted()
      modifies this, cart, cart.storage
      ensures old(ordering) ==> sent.None? && step == old(step) && ordering && cart.items == old(cart.items)
      ensures !old(ordering) && Continue(old(step)).GoTo? ==>
        step == Continue(old(step)).next && sent.None? && !ordering && cart.items == old(cart.items)
      ensures old(ordering) || Continue(old(step)).GoTo? ==> cart.storage.cart == old(cart.storage.cart)
      ensures !old(ordering) && old(step) == ConfirmationStep ==> step == old(step) && !ordering
      ensures !old(ordering) && old(step) == ConfirmationStep && old(cart.items) != [] ==> sent == Some(Payload(old(cart.items)))
      ensures !old(ordering) && old(step) == ConfirmationStep && old(cart.items) != [] && outcome.Created? ==>
        cart.items == [] && cart.storage.cart.None?
      ensures !old(ordering) && old(step) == ConfirmationStep && (old(cart.items) == [] || outcome.Rejected?) ==>
        cart.items == old(cart.items) && cart.storage.cart == old(cart.storage.cart)
      ensures cart.Persisted()
      ensures cart.storage.authToken == old(cart.storage.authToken) && cart.storage.token == old(cart.storage.token)
    {
      sent := None;
      if ordering {
        return;
      }
      match Continue(step)
      case GoTo(next) =>
        step := next;
      case PlaceOrder =>
        var alert, navigateTo;
        sent, alert, navigateTo := HandleCheckout(outcome);
    }

    method PressBack()
      requires step != CartStep
      modifies this
      ensures step == Back(old(step)).value && ordering == old(ordering)
    {
      step := Back(step).value;
    }
  }
}

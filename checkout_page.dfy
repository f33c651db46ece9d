/**
  * The checkout page: the address and phone checks, the order it sends with trimmed fields,
  * and clearing the cart only after the order was created.
  */
module CheckoutPage {
  import opened Wrappers
  import opened Browser
  import opened CartStore
  import CartPage
  import ProductJoin
  import Strings

  /** The check `handleSubmit` starts with: both trimmed fields are non-empty. */
  predicate CanSubmit(address: string, phone: string) {
    Strings.Trim(address) != "" && Strings.Trim(phone) != ""
  }

  /** Submission goes ahead exactly when neither the address nor the phone is blank. */
  lemma CanSubmitIffNotBlank(address: string, phone: string)
    ensures CanSubmit(address, phone) <==> !Strings.AllSpace(address) && !Strings.AllSpace(phone)
  {
  }

  datatype OrderRequest = OrderRequest(lines: seq<CartPage.OrderLine>, address: string, phone: string,
                                       paymentMethod: string, notes: string)

  /** A field trimmed of the white space at both ends. */
  predicate Trimmed(s: string) {
    s == [] || (!Strings.IsSpace(s[0]) && !Strings.IsSpace(s[|s| - 1]))
  }

  /**
    * The order: every cart line, whether or not its product is in the catalogue, and the
    * three text fields trimmed.
    */
  function Request(items: seq<CartItem>, address: string, phone: string, paymentMethod: string,
                   notes: string): OrderRequest
  {
    OrderRequest(CartPage.Payload(items), Strings.Trim(address), Strings.Trim(phone), paymentMethod, Strings.Trim(notes))
  }

  /** The order gives the cart back line for line, and its text fields have no white space at the ends. */
  lemma RequestContents(items: seq<CartItem>, address: string, phone: string, paymentMethod: string, notes: string)
    ensures CartPage.LinesToItems(Request(items, address, phone, paymentMethod, notes).lines) == items
    ensures Trimmed(Request(items, address, phone, paymentMethod, notes).address)
    ensures Trimmed(Request(items, address, phone, paymentMethod, notes).phone)
    ensures Trimmed(Request(items, address, phone, paymentMethod, notes).notes)
    ensures Request(items, address, phone, paymentMethod, notes).paymentMethod == paymentMethod
  {
    CartPage.PayloadRoundTrip(items);
  }

  /** The order can hold more lines than the summary, which drops unknown products. */
  lemma RequestCoversSummary(items: seq<CartItem>, products: seq<ProductJoin.Product>, address: string,
                             phone: string, paymentMethod: string, notes: string)
    ensures |ProductJoin.DetailedItems(items, products)| <= |Request(items, address, phone, paymentMethod, notes).lines|
    ensures products == [] && items != [] ==>
      |ProductJoin.DetailedItems(items, products)| < |Request(items, address, phone, paymentMethod, notes).lines|
  {
    if products == [] {
      ProductJoin.DetailedItemsNoneKnown(items, products);
    }
  }

  const DefaultPaymentMethod: string := "cash"
  const MissingFieldsAlert: string := "Por favor, preencha todos os campos obrigatórios."
  const SuccessAlert: string := "Pedido realizado com sucesso! Acompanhe o status na aba \"Meus Pedidos\"."
  const FailureAlert: string := "Erro ao processar pedido. Tente novamente."

  class CheckoutForm {
    var address: string
    var phone: string
    var paymentMethod: string
    var notes: string
    var submitting: bool
    const cart: Cart

    constructor (cart: Cart)
      ensures this.cart == cart && address == "" && phone == "" && notes == ""
      ensures paymentMethod == DefaultPaymentMethod && !submitting
    {
      this.cart := cart;
      address, phone, notes := "", "", "";
      paymentMethod := DefaultPaymentMethod;
      submitting := false;
    }

    /**
      * `handleSubmit`, given whether `createOrder` succeeded. A blank address or phone sends
      * nothing; otherwise the order is sent and the cart cleared only on success.
      */
    method HandleSubmit(created: bool) returns (sent: Option<OrderRequest>, alert: string, navigateTo: Option<string>)
      requires cart.Persisted()
      modifies this, cart, cart.storage
      ensures address == old(address) && phone == old(phone) && notes == old(notes)
      ensures paymentMethod == old(paymentMethod) && cart.Persisted()
      ensures !CanSubmit(old(address), old(phone)) ==>
        sent.None? && alert == MissingFieldsAlert && navigateTo.None? && submitting == old(submitting) &&
        cart.items == old(cart.items) && cart.storage.cart == old(cart.storage.cart)
      ensures CanSubmit(old(address), old(phone)) ==>
        !submitting && sent == Some(Request(old(cart.items), old(address), old(phone), old(paymentMethod), old(notes)))
      ensures CanSubmit(old(address), old(phone)) && created ==>
        cart.items == [] && cart.storage.cart.None? && alert == SuccessAlert && navigateTo == Some("/")
      ensures CanSubmit(old(address), old(phone)) && !created ==>
        cart.items == old(cart.items) && cart.storage.cart == old(cart.storage.cart) &&
        alert == FailureAlert && navigateTo.None?
      ensures cart.storage.authToken == old(cart.storage.authToken) && cart.storage.token == old(cart.storage.token)
    {
      if !CanSubmit(address, phone) {
        return None, MissingFieldsAlert, None;
      }
      submitting := true;
      var request := Request(cart.items, address, phone, paymentMethod, notes);
      sent := Some(request);
      SendAndClear(created);
      alert, navigateTo := if created then SuccessAlert else FailureAlert, if created then Some("/") else None;
      submitting := false;
    }

    /** After `createOrder` returns: clear the cart on success only. */
    method SendAndClear(created: bool)
      requires cart.Persisted()
      modifies cart, cart.storage
      ensures cart.Persisted()
      ensures created ==> cart.items == [] && cart.storage.cart.None?
      ensures !created ==> cart.items == old(cart.items) && cart.storage.cart == old(cart.storage.cart)
      ensures cart.storage.authToken == old(cart.storage.authToken) && cart.storage.token == old(cart.storage.token)
    {
      if created {
        cart.ClearCart();
      }
    }
  }
}

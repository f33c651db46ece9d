/** The cart dropdown: the header count, the -1/+1 buttons, the footer and "Limpar". */
module CartDropdown {
  import opened Wrappers
  import opened Browser
  import opened CartStore
  import opened ProductJoin

  /** The header count: every cart line, whether or not its product is known. */
  function HeaderCount(items: seq<CartItem>): (n: int)
    ensures n == TotalItems(items)
    ensures items == [] ==> n == 0
  {
    TotalItems(items)
  }

  /** The footer, with its total and buttons, only appears when some line has a known product. */
  predicate FooterShown(items: seq<CartItem>, products: seq<Product>) {
    |DetailedItems(items, products)| > 0
  }

  /**
    * Lines whose product is not in the catalogue still count in the header: when no product is
    * known, the header holds the whole total (positive for a non-empty cart) and no footer is shown.
    */
  lemma UnknownProductsCountedNotShown(items: seq<CartItem>, products: seq<Product>)
    requires forall it :: it in items ==> Lookup(products, it.productId).None?
    ensures HeaderCount(items) == TotalItems(items)
    ensures !FooterShown(items, products)
    ensures AllPositive(items) && items != [] ==> HeaderCount(items) > 0
  {
    DetailedItemsNoneKnown(items, products);
    if AllPositive(items) && items != [] {
      TotalItemsPositive(items);
    }
  }

  /** The minus button: `updateQuantity(id, quantity - 1)`. */
  function MinusClicked(items: seq<CartItem>, d: Detailed): seq<CartItem> {
    UpdatedItems(items, d.item.productId, d.item.quantity - 1)
  }

  /** The plus button: `updateQuantity(id, quantity + 1)`. */
  function PlusClicked(items: seq<CartItem>, d: Detailed): seq<CartItem> {
    UpdatedItems(items, d.item.productId, d.item.quantity + 1)
  }

  /** Minus on a line holding one item removes its product from the cart. */
  lemma MinusAtOneRemoves(items: seq<CartItem>, products: seq<Product>, d: Detailed)
    requires d in DetailedItems(items, products) && d.item.quantity == 1
    ensures !Has(MinusClicked(items, d), d.item.productId)
  {
  }

  /** Plus raises the line's quantity by one. */
  lemma PlusStepsUp(items: seq<CartItem>, products: seq<Product>, d: Detailed)
    requires d in DetailedItems(items, products) && d.item.quantity >= 0
    ensures Find(PlusClicked(items, d), d.item.productId) == Some(CartItem(d.item.productId, d.item.quantity + 1))
  {
    assert d.item in items;
    UpdatedFind(items, d.item.productId, d.item.quantity + 1);
  }

  /** Minus above one lowers the line's quantity by one. */
  lemma MinusStepsDown(items: seq<CartItem>, products: seq<Product>, d: Detailed)
    requires d in DetailedItems(items, products) && d.item.quantity > 1
    ensures Find(MinusClicked(items, d), d.item.productId) == Some(CartItem(d.item.productId, d.item.quantity - 1))
  {
    assert d.item in items;
    UpdatedFind(items, d.item.productId, d.item.quantity - 1);
  }

  /** With one line per product, plus raises the header count by exactly one. */
  lemma PlusRaisesHeaderCount(items: seq<CartItem>, products: seq<Product>, d: Detailed)
    requires UniqueIds(items) && d in DetailedItems(items, products) && d.item.quantity >= 0
    ensures HeaderCount(PlusClicked(items, d)) == HeaderCount(items) + 1
  {
    SetTotal(items, d.item, d.item.quantity + 1);
  }

  /** With one line per product, setting a line's quantity to q moves the total by the difference. */
  lemma {:induction false} SetTotal(items: seq<CartItem>, x: CartItem, q: int)
    requires UniqueIds(items) && x in items && q > 0
    ensures TotalItems(UpdatedItems(items, x.productId, q)) == TotalItems(items) - x.quantity + q
    decreases |items|
  {
    var r := UpdatedItems(items, x.productId, q);
    var rest := UpdatedItems(items[1..], x.productId, q);
    assert r[1..] == rest;
    if items[0] == x {
      assert !Has(items[1..], x.productId) by {
        forall y | y in items[1..] ensures y.productId != x.productId {
          var j :| 0 <= j < |items[1..]| && items[1..][j] == y;
          assert items[j + 1] == y;
        }
      }
      RetuneAbsent(items[1..], x.productId, SetTo(q));
      assert rest == items[1..];
    } else {
      assert x in items[1..];
      assert items[0].productId != x.productId by {
        var k :| 0 <= k < |items| && items[k] == x;
        assert k > 0;
      }
      assert UniqueIds(items[1..]) by {
        forall i, j | 0 <= i < j < |items[1..]| ensures items[1..][i].productId != items[1..][j].productId {
          assert items[1..][i] == items[i + 1] && items[1..][j] == items[j + 1];
        }
      }
      SetTotal(items[1..], x, q);
    }
  }

  /** The parent's open flag and the cart the dropdown works on. */
  class Dropdown {
    var isOpen: bool
    const cart: Cart

    constructor (cart: Cart)
      ensures this.cart == cart && isOpen
    {
      this.cart := cart;
      isOpen := true;
    }

    /** "Limpar": empty the cart and close. */
    method Clear()
      modifies this, cart, cart.storage
      ensures cart.items == [] && cart.storage.cart.None? && cart.Persisted() && !isOpen
      ensures HeaderCount(cart.items) == 0
      ensures cart.storage.authToken == old(cart.storage.authToken) && cart.storage.token == old(cart.storage.token)
    {
      cart.ClearCart();
      isOpen := false;
    }

    /** "Finalizar": close and go to the checkout page; the cart is left as it is. */
    method GoToCheckout() returns (navigateTo: string)
      modifies this
      ensures !isOpen && navigateTo == "/checkout"
    {
      isOpen := false;
      navigateTo := "/checkout";
    }
  }
}

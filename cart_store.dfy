/**
  * The cart hook (`useCart`): a list of (productId, quantity) lines mirrored into the 'cart'
  * storage record. The list algebra is stated on pure functions; the class `Cart` is one
  * mounted instance of the hook, and several instances share one `Storage`.
  */
module CartStore {
  import opened Wrappers
  import opened Browser

  /** A missing record reads as '[]'; an unparsable one is caught and also gives []. */
  function LoadedItems(record: Option<CartRecord>): (items: seq<CartItem>)
    ensures record.Some? && record.value.Encoded? ==> items == record.value.items
    ensures record.None? || record == Some(Unparsable) ==> items == []
  {
    match record
    case Some(Encoded(xs)) => xs
    case _ => []
  }

  /** `getTotalItems`: the reduce that sums the quantities. */
  function TotalItems(items: seq<CartItem>): int
    decreases |items|
  {
    if items == [] then 0 else items[0].quantity + TotalItems(items[1..])
  }

  lemma {:induction false} TotalItemsConcat(a: seq<CartItem>, b: seq<CartItem>)
    ensures TotalItems(a + b) == TotalItems(a) + TotalItems(b)
    decreases |a|
  {
    if a == [] {
      assert a + b == b;
    } else {
      assert (a + b)[1..] == a[1..] + b;
      TotalItemsConcat(a[1..], b);
    }
  }

  /** The total is the sum of all quantities: appending one line adds its quantity. */
  lemma TotalItemsAppend(items: seq<CartItem>, x: CartItem)
    ensures TotalItems(items + [x]) == TotalItems(items) + x.quantity
    ensures TotalItems([]) == 0
  {
    TotalItemsConcat(items, [x]);
  }

  /** Every line holds at least one item. */
  predicate AllPositive(items: seq<CartItem>) {
    forall x :: x in items ==> x.quantity >= 1
  }

  /** A non-empty cart of positive lines has a total of at least its number of lines. */
  lemma {:induction false} TotalItemsPositive(items: seq<CartItem>)
    requires AllPositive(items)
    ensures TotalItems(items) >= |items|
    decreases |items|
  {
    if items != [] {
      assert items[0] in items;
      assert forall x :: x in items[1..] ==> x in items;
      TotalItemsPositive(items[1..]);
    }
  }

  predicate Has(items: seq<CartItem>, p: int) {
    exists x :: x in items && x.productId == p
  }

  /** At most one line per product. */
  ghost predicate UniqueIds(items: seq<CartItem>) {
    forall i, j :: 0 <= i < j < |items| ==> items[i].productId != items[j].productId
  }

  /** How many lines name product p. */
  function CountOf(items: seq<CartItem>, p: int): (n: nat)
    ensures n <= |items|
    ensures n == 0 <==> !Has(items, p)
    decreases |items|
  {
    if items == [] then 0
    else
      var rest := CountOf(items[1..], p);
      assert forall x :: x in items <==> x == items[0] || x in items[1..];
      (if items[0].productId == p then 1 else 0) + rest
  }

  lemma {:induction false} CountOfUnique(items: seq<CartItem>, p: int)
    requires UniqueIds(items)
    ensures CountOf(items, p) == if Has(items, p) then 1 else 0
    decreases |items|
  {
    if items != [] {
      assert UniqueIds(items[1..]) by {
        forall i, j | 0 <= i < j < |items| - 1
          ensures items[1..][i].productId != items[1..][j].productId
        {
          assert items[1..][i] == items[i + 1] && items[1..][j] == items[j + 1];
        }
      }
      CountOfUnique(items[1..], p);
      if items[0].productId == p {
        assert !Has(items[1..], p) by {
          forall x | x in items[1..] ensures x.productId != p {
            var k :| 0 <= k < |items[1..]| && items[1..][k] == x;
            assert items[k + 1] == x;
          }
        }
      }
    }
  }

  /** The sum of the quantities on lines that name product p. */
  function QuantityOf(items: seq<CartItem>, p: int): int
    decreases |items|
  {
    if items == [] then 0
    else (if items[0].productId == p then items[0].quantity else 0) + QuantityOf(items[1..], p)
  }

  /** `find`: the first line that names product p. */
  function Find(items: seq<CartItem>, p: int): (r: Option<CartItem>)
    ensures r.None? <==> !Has(items, p)
    ensures r.Some? ==> exists k :: 0 <= k < |items| && items[k] == r.value && r.value.productId == p
                                    && forall j :: 0 <= j < k ==> items[j].productId != p
    decreases |items|
  {
    if items == [] then None
    else if items[0].productId == p then Some(items[0])
    else
      var rest := Find(items[1..], p);
      assert forall x :: x in items <==> x == items[0] || x in items[1..];
      if rest.Some? then
        var k :| 0 <= k < |items[1..]| && items[1..][k] == rest.value && rest.value.productId == p
                 && forall j :: 0 <= j < k ==> items[1..][j].productId != p;
        assert items[k + 1] == rest.value;
        assert forall j :: 0 <= j < k + 1 ==> items[j].productId != p by {
          forall j | 0 <= j < k + 1 ensures items[j].productId != p {
            if j > 0 { assert items[j] == items[1..][j - 1]; }
          }
        }
        rest
      else rest
  }

  /** The two ways the hook rewrites the quantity of matching lines. */
  datatype QuantityChange = IncreaseBy(amount: int) | SetTo(value: int)

  function Apply(c: QuantityChange, quantity: int): int {
    match c
    case IncreaseBy(amount) => quantity + amount
    case SetTo(value) => value
  }

  /** `cartItems.map(item => item.productId === p ? { ...item, quantity: ... } : item)`. */
  function Retune(items: seq<CartItem>, p: int, c: QuantityChange): (r: seq<CartItem>)
    ensures |r| == |items|
    ensures forall k :: 0 <= k < |items| ==>
      r[k] == if items[k].productId == p then CartItem(p, Apply(c, items[k].quantity)) else items[k]
    decreases |items|
  {
    if items == [] then []
    else
      var head := if items[0].productId == p then CartItem(p, Apply(c, items[0].quantity)) else items[0];
      [head] + Retune(items[1..], p, c)
  }

  lemma RetuneAbsent(items: seq<CartItem>, p: int, c: QuantityChange)
    requires !Has(items, p)
    ensures Retune(items, p, c) == items
  {
    var r := Retune(items, p, c);
    forall k | 0 <= k < |items| ensures r[k] == items[k] {
      assert items[k] in items;
    }
  }

  /** An increase of every matching line by q adds q once per matching line to the total. */
  lemma {:induction false} TotalIncrease(items: seq<CartItem>, p: int, q: int)
    ensures TotalItems(Retune(items, p, IncreaseBy(q))) == TotalItems(items) + q * CountOf(items, p)
    decreases |items|
  {
    if items != [] {
      TotalIncrease(items[1..], p, q);
      var tail := Retune(items[1..], p, IncreaseBy(q));
      var r := Retune(items, p, IncreaseBy(q));
      assert r[1..] == tail;
      StepArith(r[0].quantity, items[0].quantity, TotalItems(tail), TotalItems(items[1..]),
                q, CountOf(items[1..], p), CountOf(items, p), items[0].productId == p);
    }
  }

  /** The arithmetic of one step of `TotalIncrease`. */
  lemma StepArith(hq: int, iq: int, tt: int, it: int, q: int, c: int, n: int, matched: bool)
    requires tt == it + q * c
    requires hq == if matched then iq + q else iq
    requires n == (if matched then 1 else 0) + c
    ensures hq + tt == iq + it + q * n
  {
    if matched {
      assert q * (1 + c) == q + q * c;
    }
  }

  /** `addToCart(p, q)`: grow the existing line, or append a new one. */
  function AddedItems(items: seq<CartItem>, p: int, q: int): (r: seq<CartItem>)
    ensures Has(items, p) ==> |r| == |items| && forall k :: 0 <= k < |items| ==>
      r[k] == if items[k].productId == p then CartItem(p, items[k].quantity + q) else items[k]
    ensures !Has(items, p) ==> r == items + [CartItem(p, q)]
    ensures Has(r, p)
  {
    if Find(items, p).Some? then
      var r := Retune(items, p, IncreaseBy(q));
      var x :| x in items && x.productId == p;
      var k :| 0 <= k < |items| && items[k] == x;
      assert r[k] in r;
      r
    else
      assert items + [CartItem(p, q)] == items + [CartItem(p, q)];
      assert CartItem(p, q) in items + [CartItem(p, q)];
      items + [CartItem(p, q)]
  }

  /** `removeFromCart(p)`: the filter that keeps every other line. */
  function Without(items: seq<CartItem>, p: int): (r: seq<CartItem>)
    ensures forall x :: x in r <==> x in items && x.productId != p
    ensures |r| <= |items|
    decreases |items|
  {
    if items == [] then []
    else
      var rest := Without(items[1..], p);
      assert forall x :: x in items <==> x == items[0] || x in items[1..];
      if items[0].productId == p then rest else [items[0]] + rest
  }

  /** The filter keeps the surviving lines in their order, and is the identity when p is absent. */
  lemma {:induction false} WithoutConcat(a: seq<CartItem>, b: seq<CartItem>, p: int)
    ensures Without(a + b, p) == Without(a, p) + Without(b, p)
    decreases |a|
  {
    if a == [] {
      assert a + b == b;
    } else {
      WithoutConcat(a[1..], b, p);
      assert a + b == [a[0]] + (a[1..] + b);
      assert a == [a[0]] + a[1..];
      WithoutConcatStep(a[0], a[1..], b, p);
    }
  }

  /** The inductive step of `WithoutConcat`: one more line in front. */
  lemma WithoutConcatStep(x: CartItem, t: seq<CartItem>, b: seq<CartItem>, p: int)
    requires Without(t + b, p) == Without(t, p) + Without(b, p)
    ensures Without([x] + (t + b), p) == Without([x] + t, p) + Without(b, p)
  {
    WithoutCons(x, t + b, p);
    WithoutCons(x, t, p);
  }

  /** One step of the filter. */
  lemma WithoutCons(x: CartItem, rest: seq<CartItem>, p: int)
    ensures Without([x] + rest, p) == (if x.productId == p then [] else [x]) + Without(rest, p)
  {
    assert ([x] + rest)[1..] == rest;
  }

  /** The filter drops exactly the lines that name p. */
  lemma {:induction false} WithoutLength(items: seq<CartItem>, p: int)
    ensures |Without(items, p)| == |items| - CountOf(items, p)
    decreases |items|
  {
    if items != [] {
      WithoutLength(items[1..], p);
    }
  }

  lemma {:induction false} WithoutAbsent(items: seq<CartItem>, p: int)
    requires !Has(items, p)
    ensures Without(items, p) == items
    decreases |items|
  {
    if items != [] {
      assert !Has(items[1..], p) by {
        forall x | x in items[1..] ensures x.productId != p {
          assert x in items;
        }
      }
      WithoutAbsent(items[1..], p);
      assert items[0] in items;
    }
  }

  /** Removing product p takes exactly its quantities out of the total. */
  lemma {:induction false} TotalWithout(items: seq<CartItem>, p: int)
    ensures TotalItems(Without(items, p)) == TotalItems(items) - QuantityOf(items, p)
    decreases |items|
  {
    if items != [] {
      TotalWithout(items[1..], p);
      if items[0].productId != p {
        var rest := Without(items[1..], p);
        assert ([items[0]] + rest)[1..] == rest;
      }
    }
  }

  /** `updateQuantity(p, q)`: q <= 0 removes the product, otherwise sets the quantity in place. */
  function UpdatedItems(items: seq<CartItem>, p: int, q: int): (r: seq<CartItem>)
    ensures q <= 0 ==> r == Without(items, p)
    ensures q > 0 ==> |r| == |items| && forall k :: 0 <= k < |items| ==>
      r[k] == if items[k].productId == p then CartItem(p, q) else items[k]
    ensures q > 0 ==> (Has(r, p) <==> Has(items, p))
  {
    if q <= 0 then Without(items, p)
    else
      var r := Retune(items, p, SetTo(q));
      assert Has(r, p) ==> Has(items, p) by {
        if Has(r, p) {
          var x :| x in r && x.productId == p;
          var k :| 0 <= k < |r| && r[k] == x;
          assert items[k] in items && items[k].productId == p;
        }
      }
      assert Has(items, p) ==> Has(r, p) by {
        if Has(items, p) {
          var x :| x in items && x.productId == p;
          var k :| 0 <= k < |items| && items[k] == x;
          assert r[k] in r;
        }
      }
      r
  }

  /** After a positive update of a product in the cart, its first line holds the new quantity. */
  lemma UpdatedFind(items: seq<CartItem>, p: int, q: int)
    requires q > 0 && Has(items, p)
    ensures Find(UpdatedItems(items, p, q), p) == Some(CartItem(p, q))
  {
    var r := UpdatedItems(items, p, q);
    var k :| 0 <= k < |r| && r[k] == Find(r, p).value && r[k].productId == p;
    assert items[k].productId == p;
  }

  /** With one line per product, adding q items raises the header count by exactly q. */
  lemma AddTotal(items: seq<CartItem>, p: int, q: int)
    requires UniqueIds(items)
    ensures TotalItems(AddedItems(items, p, q)) == TotalItems(items) + q
  {
    if Has(items, p) {
      CountOfUnique(items, p);
      TotalIncrease(items, p, q);
      assert AddedItems(items, p, q) == Retune(items, p, IncreaseBy(q));
    } else {
      TotalItemsAppend(items, CartItem(p, q));
    }
  }

  /** Adding keeps at most one line per product. */
  lemma AddKeepsUnique(items: seq<CartItem>, p: int, q: int)
    requires UniqueIds(items)
    ensures UniqueIds(AddedItems(items, p, q))
  {
    var r := AddedItems(items, p, q);
    if !Has(items, p) {
      forall i, j | 0 <= i < j < |r| ensures r[i].productId != r[j].productId {
        if j == |items| {
          assert r[i] == items[i] && items[i] in items;
        } else {
          assert r[i] == items[i] && r[j] == items[j];
        }
      }
    }
  }

  /** Adding a positive amount keeps every quantity positive; no guard stops a q < 1. */
  lemma AddKeepsPositive(items: seq<CartItem>, p: int, q: int)
    requires AllPositive(items) && q >= 1
    ensures AllPositive(AddedItems(items, p, q))
  {
    var r := AddedItems(items, p, q);
    forall x | x in r ensures x.quantity >= 1 {
      var k :| 0 <= k < |r| && r[k] == x;
      if k < |items| {
        assert items[k] in items;
      }
    }
  }

  /** A non-positive amount added to a new product yields a line with quantity below 1. */
  lemma AddNonPositiveBreaksPositive(items: seq<CartItem>, p: int, q: int)
    requires !Has(items, p) && q < 1
    ensures !AllPositive(AddedItems(items, p, q))
  {
    assert AddedItems(items, p, q)[|items|] in AddedItems(items, p, q);
  }

  lemma {:induction false} WithoutKeepsUnique(items: seq<CartItem>, p: int)
    requires UniqueIds(items)
    ensures UniqueIds(Without(items, p))
    decreases |items|
  {
    if items != [] {
      assert UniqueIds(items[1..]) by {
        forall i, j | 0 <= i < j < |items| - 1
          ensures items[1..][i].productId != items[1..][j].productId
        {
          assert items[1..][i] == items[i + 1] && items[1..][j] == items[j + 1];
        }
      }
      WithoutKeepsUnique(items[1..], p);
      var rest := Without(items[1..], p);
      if items[0].productId != p {
        var r := [items[0]] + rest;
        forall i, j | 0 <= i < j < |r| ensures r[i].productId != r[j].productId {
          if i == 0 {
            assert r[j] in rest;
            assert r[j] in items[1..];
            var k :| 0 <= k < |items[1..]| && items[1..][k] == r[j];
            assert items[k + 1] == r[j];
          } else {
            assert r[i] == rest[i - 1] && r[j] == rest[j - 1];
          }
        }
      }
    }
  }

  /** Updating keeps at most one line per product and every quantity positive. */
  lemma UpdateKeepsInvariants(items: seq<CartItem>, p: int, q: int)
    requires UniqueIds(items) && AllPositive(items)
    ensures UniqueIds(UpdatedItems(items, p, q)) && AllPositive(UpdatedItems(items, p, q))
  {
    var r := UpdatedItems(items, p, q);
    if q <= 0 {
      WithoutKeepsUnique(items, p);
    } else {
      forall x | x in r ensures x.quantity >= 1 {
        var k :| 0 <= k < |r| && r[k] == x;
        assert items[k] in items;
      }
    }
  }

  /** One mounted `useCart` instance: its `cartItems` state over a storage shared with the others. */
  class Cart {
    var items: seq<CartItem>
    const storage: Storage

    /** The in-memory list is what the 'cart' record loads as. */
    predicate Persisted()
      reads this, storage
    {
      LoadedItems(storage.cart) == items
    }

    /** Mount: `useState([])` followed by the effect's `loadCart`. */
    constructor (storage: Storage)
      ensures this.storage == storage
      ensures items == LoadedItems(storage.cart) && Persisted()
    {
      this.storage := storage;
      items := LoadedItems(storage.cart);
    }

    /** The 'cartUpdated' and 'storage' listeners: reload from the record. */
    method Reload()
      modifies this
      ensures items == LoadedItems(storage.cart) && Persisted()
    {
      items := LoadedItems(storage.cart);
    }

    method AddToCart(productId: int, quantity: int)
      modifies this, storage
      ensures items == AddedItems(old(items), productId, quantity)
      ensures storage.cart == Some(Encoded(items)) && Persisted()
      ensures storage.authToken == old(storage.authToken) && storage.token == old(storage.token)
    {
      items := AddedItems(items, productId, quantity);
      storage.cart := Some(Encoded(items));
    }

    method RemoveFromCart(productId: int)
      modifies this, storage
      ensures items == Without(old(items), productId)
      ensures storage.cart == Some(Encoded(items)) && Persisted()
      ensures storage.authToken == old(storage.authToken) && storage.token == old(storage.token)
    {
      items := Without(items, productId);
      storage.cart := Some(Encoded(items));
    }

    method UpdateQuantity(productId: int, quantity: int)
      modifies this, storage
      ensures items == UpdatedItems(old(items), productId, quantity)
      ensures storage.cart == Some(Encoded(items)) && Persisted()
      ensures storage.authToken == old(storage.authToken) && storage.token == old(storage.token)
    {
      if quantity <= 0 {
        RemoveFromCart(productId);
        return;
      }
      items := Retune(items, productId, SetTo(quantity));
      storage.cart := Some(Encoded(items));
    }

    method ClearCart()
      modifies this, storage
      ensures items == [] && storage.cart == None && Persisted()
      ensures TotalItems(items) == 0
      ensures storage.authToken == old(storage.authToken) && storage.token == old(storage.token)
    {
      items := [];
      storage.cart := None;
    }
  }

  /** Two instances over one storage agree once the second reloads after the first changes. */
  method SiblingSync(a: Cart, b: Cart, productId: int, quantity: int)
    requires a.storage == b.storage && a != b
    modifies a, b, a.storage
    ensures b.items == a.items == AddedItems(old(a.items), productId, quantity)
  {
    a.AddToCart(productId, quantity);
    b.Reload();
  }
}

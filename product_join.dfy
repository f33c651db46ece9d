/**
  * `getCartItemsWithDetails`, written the same way in the checkout page and the cart
  * dropdown: each cart line is joined with the first product of its id, and lines whose
  * product is not in the catalogue are dropped.
  */
module ProductJoin {
  import opened Wrappers
  import opened Browser
  import Seqs

  datatype Product = Product(id: int, name: string)

  /** `products.find(p => p.ID === id)`. */
  function Lookup(products: seq<Product>, id: int): (r: Option<Product>)
    ensures r.None? <==> forall p :: p in products ==> p.id != id
    ensures r.Some? ==> r.value in products && r.value.id == id
    ensures r.Some? ==>
      exists j :: 0 <= j < |products| && products[j] == r.value && forall k :: 0 <= k < j ==> products[k].id != id
    decreases |products|
  {
    if products == [] then None
    else if products[0].id == id then Some(products[0])
    else
      assert forall p :: p in products <==> p == products[0] || p in products[1..];
      var rest := Lookup(products[1..], id);
      if rest.Some? then
        var j :|
          0 <= j < |products[1..]| && products[1..][j] == rest.value && forall k :: 0 <= k < j ==> products[1..][k].id != id;
        assert products[j + 1] == rest.value;
        assert forall k :: 0 <= k < j + 1 ==> products[k].id != id by {
          forall k | 0 <= k < j + 1 ensures products[k].id != id {
            if k > 0 { assert products[k] == products[1..][k - 1]; }
          }
        }
        rest
      else rest
  }

  datatype Detailed = Detailed(item: CartItem, product: Product)

  /** The cart lines whose product is known, each with that product, in cart order. */
  function DetailedItems(items: seq<CartItem>, products: seq<Product>): (r: seq<Detailed>)
    ensures |r| <= |items|
    ensures forall d :: d in r ==> d.item in items && Lookup(products, d.item.productId) == Some(d.product)
    ensures forall x :: x in items && Lookup(products, x.productId).Some? ==>
      Detailed(x, Lookup(products, x.productId).value) in r
    decreases |items|
  {
    if items == [] then []
    else
      var rest := DetailedItems(items[1..], products);
      assert forall x :: x in items <==> x == items[0] || x in items[1..];
      match Lookup(products, items[0].productId)
      case Some(p) => [Detailed(items[0], p)] + rest
      case None => rest
  }

  /** The cart lines a joined list was made from. */
  function ItemsOf(ds: seq<Detailed>): (r: seq<CartItem>)
    ensures |r| == |ds| && forall k :: 0 <= k < |ds| ==> r[k] == ds[k].item
  {
    seq(|ds|, k requires 0 <= k < |ds| => ds[k].item)
  }

  /** The join keeps the cart's order. */
  lemma {:induction false} DetailedItemsKeepOrder(items: seq<CartItem>, products: seq<Product>)
    ensures Seqs.IsSubsequence(ItemsOf(DetailedItems(items, products)), items)
    decreases |items|
  {
    if items != [] {
      DetailedItemsKeepOrder(items[1..], products);
      var rest := DetailedItems(items[1..], products);
      var r := ItemsOf(DetailedItems(items, products));
      if Lookup(products, items[0].productId).Some? {
        assert r[0] == items[0] && r[1..] == ItemsOf(rest);
      }
    }
  }

  /** When every line's product is known, the join drops nothing. */
  lemma {:induction false} DetailedItemsAllKnown(items: seq<CartItem>, products: seq<Product>)
    requires forall x :: x in items ==> Lookup(products, x.productId).Some?
    ensures ItemsOf(DetailedItems(items, products)) == items
    decreases |items|
  {
    if items != [] {
      assert forall x :: x in items[1..] ==> x in items;
      DetailedItemsAllKnown(items[1..], products);
      assert items[0] in items;
      var p := Lookup(products, items[0].productId).value;
      var rest := DetailedItems(items[1..], products);
      assert DetailedItems(items, products) == [Detailed(items[0], p)] + rest;
      ItemsOfCons(Detailed(items[0], p), rest);
    }
  }

  /** When no line's product is known, the join is empty. */
  lemma {:induction false} DetailedItemsNoneKnown(items: seq<CartItem>, products: seq<Product>)
    requires forall x :: x in items ==> Lookup(products, x.productId).None?
    ensures DetailedItems(items, products) == []
    decreases |items|
  {
    if items != [] {
      assert forall x :: x in items[1..] ==> x in items;
      DetailedItemsNoneKnown(items[1..], products);
      assert items[0] in items;
    }
  }

  lemma ItemsOfCons(d: Detailed, ds: seq<Detailed>)
    ensures ItemsOf([d] + ds) == [d.item] + ItemsOf(ds)
  {
  }
}

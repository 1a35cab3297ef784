/** Client-side price arithmetic shared by the cart and checkout pages
    (frontend/src/pages/CartPage.js and CheckoutPage.js): effective price,
    subtotal over the lines whose product was fetched, shipping and total,
    and the product map both pages build from their product fetches. */
module Pricing {
  import opened Common
  import opened Models
  import Server

  // ---------------------------------------------------------------------------
  // Effective price and subtotal
  // ---------------------------------------------------------------------------

  /** Whether `offer_price` is truthy in JavaScript: present and non-zero. */
  predicate HasOffer(p: Product) {
    p.offerPrice.Some? && p.offerPrice.value != 0
  }

  /** `product.offer_price || product.price`. */
  function EffectivePrice(p: Product): int {
    if HasOffer(p) then p.offerPrice.value else p.price
  }

  /** The effective price is one of the product's two prices; an offer of 0
      is not an offer, and an offer below the list price lowers it. */
  lemma EffectivePriceChoice(p: Product)
    ensures EffectivePrice(p) == p.price || Some(EffectivePrice(p)) == p.offerPrice
    ensures p.offerPrice == Some(0) ==> EffectivePrice(p) == p.price
    ensures p.offerPrice.Some? && 0 < p.offerPrice.value <= p.price ==>
      0 < EffectivePrice(p) <= p.price
  {
  }

  /** The products fetched for the cart lines, keyed by product id. */
  type ProductMap = map<string, Product>

  /** The amount a cart line adds: price × quantity for a resolved product, 0 otherwise. */
  function LineAmount(products: ProductMap, line: CartItem): int {
    if line.productId in products then EffectivePrice(products[line.productId]) * line.quantity else 0
  }

  /** `calculateSubtotal`: the `reduce` over the lines, left to right. */
  function Subtotal(products: ProductMap, items: seq<CartItem>): int
    decreases |items|
  {
    if |items| == 0 then 0
    else Subtotal(products, items[..|items| - 1]) + LineAmount(products, items[|items| - 1])
  }

  /** `cart.items?.reduce(...) || 0`: a cart without items sums to 0. */
  function CartSubtotal(products: ProductMap, items: Option<seq<CartItem>>): (r: int)
    ensures items.None? ==> r == 0
    ensures items.Some? ==> r == Subtotal(products, items.value)
  {
    if items.Some? then Subtotal(products, items.value) else 0
  }

  /** The subtotal of two carts laid end to end is the sum of their subtotals. */
  lemma {:induction false} SubtotalAppend(products: ProductMap, a: seq<CartItem>, b: seq<CartItem>)
    ensures Subtotal(products, a + b) == Subtotal(products, a) + Subtotal(products, b)
    decreases |b|
  {
    if |b| == 0 {
      assert a + b == a;
    } else {
      var b' := b[..|b| - 1];
      assert (a + b)[..|a + b| - 1] == a + b';
      SubtotalAppend(products, a, b');
    }
  }

  /** Lines whose product is not in the map add nothing. */
  lemma {:induction false} SubtotalSkipsUnresolved(products: ProductMap, items: seq<CartItem>)
    requires forall k :: 0 <= k < |items| ==> items[k].productId !in products
    ensures Subtotal(products, items) == 0
    decreases |items|
  {
    if |items| > 0 {
      SubtotalSkipsUnresolved(products, items[..|items| - 1]);
    }
  }

  /** With non-negative prices and quantities the subtotal is non-negative. */
  lemma {:induction false} SubtotalNonNegative(products: ProductMap, items: seq<CartItem>)
    requires forall id :: id in products ==> EffectivePrice(products[id]) >= 0
    requires forall k :: 0 <= k < |items| ==> items[k].quantity >= 0
    ensures Subtotal(products, items) >= 0
    decreases |items|
  {
    if |items| > 0 {
      SubtotalNonNegative(products, items[..|items| - 1]);
    }
  }

  /** The subtotal splits around any one line. */
  lemma SubtotalAround(products: ProductMap, items: seq<CartItem>, i: nat)
    requires i < |items|
    ensures Subtotal(products, items) ==
      Subtotal(products, items[..i]) + LineAmount(products, items[i]) + Subtotal(products, items[i + 1..])
  {
    assert items == items[..i] + [items[i]] + items[i + 1..];
    SubtotalAppend(products, items[..i] + [items[i]], items[i + 1..]);
    SubtotalAppend(products, items[..i], [items[i]]);
    assert [items[i]][..0] == [];
  }

  /** Replacing one line changes the subtotal by the difference of the two line amounts. */
  lemma SubtotalReplaceLine(products: ProductMap, items: seq<CartItem>, i: nat, line: CartItem)
    requires i < |items|
    ensures Subtotal(products, items[i := line]) ==
      Subtotal(products, items) - LineAmount(products, items[i]) + LineAmount(products, line)
  {
    var replaced := items[i := line];
    SubtotalAround(products, items, i);
    SubtotalAround(products, replaced, i);
    assert replaced[..i] == items[..i] && replaced[i + 1..] == items[i + 1..];
  }

  /** A line's amount is linear in its quantity. */
  lemma LineAmountAdds(products: ProductMap, line: CartItem, extra: int)
    ensures LineAmount(products, line.(quantity := line.quantity + extra)) ==
      LineAmount(products, line) + LineAmount(products, CartItem(line.productId, extra))
  {
    if line.productId in products {
      var price := EffectivePrice(products[line.productId]);
      assert price * (line.quantity + extra) == price * line.quantity + price * extra;
    }
  }

  /** Adding a quantity of a product on the server raises the subtotal the
      cart page shows by that quantity times the product's effective price
      (nothing when the product is not resolved), whether the line is merged
      or appended. */
  lemma SubtotalOfMerged(products: ProductMap, items: seq<CartItem>, item: CartItem)
    ensures Subtotal(products, Server.Merged(items, item)) == Subtotal(products, items) + LineAmount(products, item)
  {
    match Server.FirstIndex(items, item.productId)
    case None =>
      SubtotalAppend(products, items, [item]);
      assert [item][..0] == [];
    case Some(i) =>
      SubtotalReplaceLine(products, items, i, items[i].(quantity := items[i].quantity + item.quantity));
      LineAmountAdds(products, items[i], item.quantity);
  }

  // ---------------------------------------------------------------------------
  // Shipping and total
  // ---------------------------------------------------------------------------

  const FreeShippingAbove: int := 500
  const ShippingFee: int := 50

  function Shipping(subtotal: int): int {
    if subtotal > FreeShippingAbove then 0 else ShippingFee
  }

  /** The three figures of the order summary. */
  datatype Summary = Summary(subtotal: int, shipping: int, total: int)

  function Summarize(subtotal: int): (s: Summary)
    ensures s.subtotal == subtotal && s.total == s.subtotal + s.shipping
    ensures s.shipping == 0 <==> subtotal > FreeShippingAbove
    ensures s.shipping == 0 || s.shipping == ShippingFee
  {
    Summary(subtotal, Shipping(subtotal), subtotal + Shipping(subtotal))
  }

  /** The total is never below the subtotal and at most one fee above it; a
      larger cart can cost less in total, right across the threshold. */
  lemma TotalBounds(subtotal: int)
    ensures subtotal <= Summarize(subtotal).total <= subtotal + ShippingFee
    ensures Summarize(FreeShippingAbove).total > Summarize(FreeShippingAbove + 1).total
  {
  }

  /** A cart of 2 × 200 and 1 × (80 on offer, 100 list) costs 480 + 50; adding
      3 more of the first product crosses the threshold: 1080 with free shipping. */
  lemma ThresholdExample(x: Product, y: Product)
    requires x.id == "x" && x.price == 200 && x.offerPrice == None
    requires y.id == "y" && y.price == 100 && y.offerPrice == Some(80)
    ensures Summarize(Subtotal(map["x" := x, "y" := y], [CartItem("x", 2), CartItem("y", 1)])) == Summary(480, 50, 530)
    ensures Summarize(Subtotal(map["x" := x, "y" := y],
              Server.Merged([CartItem("x", 2), CartItem("y", 1)], CartItem("x", 3)))) == Summary(1080, 0, 1080)
  {
    var m := map["x" := x, "y" := y];
    var items := [CartItem("x", 2), CartItem("y", 1)];
    assert items[..1] == [CartItem("x", 2)] && items[..1][..0] == [];
    assert Subtotal(m, items) == 480;
    SubtotalOfMerged(m, items, CartItem("x", 3));
  }

  // ---------------------------------------------------------------------------
  // The product map built from the product fetches
  // ---------------------------------------------------------------------------

  /** `productsMap[response.data.id] = response.data` for each response in
      order: a later response for the same id wins. */
  function MapOf(responses: seq<Product>): (m: ProductMap)
    ensures forall id :: id in m ==> m[id].id == id
    ensures forall id :: id in m <==> exists k :: 0 <= k < |responses| && responses[k].id == id
    decreases |responses|
  {
    if |responses| == 0 then map[]
    else
      var last := responses[|responses| - 1];
      var m := MapOf(responses[..|responses| - 1]);
      assert forall k :: 0 <= k < |responses| - 1 ==> responses[..|responses| - 1][k] == responses[k];
      m[last.id := last]
  }

  /** Every fetched product is in the map under its own id (the only one
      when ids are distinct). */
  lemma {:induction false} MapOfHolds(responses: seq<Product>, k: nat)
    requires k < |responses|
    requires forall j :: k < j < |responses| ==> responses[j].id != responses[k].id
    ensures MapOf(responses)[responses[k].id] == responses[k]
    decreases |responses|
  {
    if k < |responses| - 1 {
      MapOfHolds(responses[..|responses| - 1], k);
    }
  }

  /** The product fetches for the cart lines, `Promise.all` style: one failed
      fetch and no map is built. `fetch` stands for `GET /products/{id}`. */
  function FetchProducts(items: seq<CartItem>, fetch: string -> Result<Product>): (r: Option<ProductMap>)
    ensures r.None? <==> exists k :: 0 <= k < |items| && fetch(items[k].productId).Failure?
    ensures r.Some? ==> forall id :: id in r.value ==> r.value[id].id == id
  {
    if forall k :: 0 <= k < |items| ==> fetch(items[k].productId).Ok? then
      Some(MapOf(seq(|items|, k requires 0 <= k < |items| => fetch(items[k].productId).value)))
    else None
  }

  /** When every fetch returns the product with the id asked for, each line's
      product is resolved, so the subtotal skips nothing. */
  lemma FetchResolvesEveryLine(items: seq<CartItem>, fetch: string -> Result<Product>)
    requires forall k :: 0 <= k < |items| ==>
      fetch(items[k].productId).Ok? && fetch(items[k].productId).value.id == items[k].productId
    ensures FetchProducts(items, fetch).Some?
    ensures forall k :: 0 <= k < |items| ==> items[k].productId in FetchProducts(items, fetch).value
  {
    var responses := seq(|items|, k requires 0 <= k < |items| => fetch(items[k].productId).value);
    forall k | 0 <= k < |items| ensures items[k].productId in MapOf(responses) {
      assert responses[k].id == items[k].productId;
    }
  }
}

/** The cart page (frontend/src/pages/CartPage.js): what it shows for the
    fetched cart, the quantity stepper's guard and the coupon check. */
module CartView {
  import opened Common
  import opened Models
  import opened Text
  import opened Pricing
  import Server

  /** One rendered cart line: a line whose product is known, with its amount. */
  datatype ShownLine = ShownLine(item: CartItem, product: Product, amount: int)

  /** The lines the page renders, in cart order; a line whose product was not
      fetched renders nothing. */
  function ShownLines(products: ProductMap, items: seq<CartItem>): (r: seq<ShownLine>)
    ensures |r| <= |items|
    ensures forall k :: 0 <= k < |r| ==>
      r[k].item in items && r[k].item.productId in products &&
      r[k].product == products[r[k].item.productId] &&
      r[k].amount == EffectivePrice(r[k].product) * r[k].item.quantity
    decreases |items|
  {
    if |items| == 0 then []
    else
      var init := ShownLines(products, items[..|items| - 1]);
      var last := items[|items| - 1];
      assert forall x :: x in items[..|items| - 1] ==> x in items;
      if last.productId in products
      then init + [ShownLine(last, products[last.productId], EffectivePrice(products[last.productId]) * last.quantity)]
      else init
  }

  function AmountSum(lines: seq<ShownLine>): int
    decreases |lines|
  {
    if |lines| == 0 then 0 else AmountSum(lines[..|lines| - 1]) + lines[|lines| - 1].amount
  }

  lemma AmountSumSnoc(lines: seq<ShownLine>, line: ShownLine)
    ensures AmountSum(lines + [line]) == AmountSum(lines) + line.amount
  {
    assert (lines + [line])[..|lines + [line]| - 1] == lines;
  }

  /** The line amounts on screen add up to the subtotal in the summary. */
  lemma {:induction false} ShownAmountsMakeSubtotal(products: ProductMap, items: seq<CartItem>)
    ensures AmountSum(ShownLines(products, items)) == Subtotal(products, items)
    decreases |items|
  {
    if |items| > 0 {
      ShownAmountsMakeSubtotal(products, items[..|items| - 1]);
      var last := items[|items| - 1];
      if last.productId in products {
        AmountSumSnoc(ShownLines(products, items[..|items| - 1]),
          ShownLine(last, products[last.productId], EffectivePrice(products[last.productId]) * last.quantity));
      }
    }
  }

  /** What the page shows. */
  datatype View =
    | Loading
    | EmptyCart
    | Priced(lines: seq<ShownLine>, summary: Summary)

  /** The page for a cart `items` (absent when the reply had none) and the
      fetched products. */
  function ViewOf(loading: bool, items: Option<seq<CartItem>>, products: ProductMap): (v: View)
    ensures loading <==> v == Loading
    ensures v == EmptyCart <==> !loading && (items.None? || items.value == [])
    ensures v.Priced? ==> v.lines == ShownLines(products, items.value)
    ensures v.Priced? ==> v.summary == Summarize(CartSubtotal(products, items))
  {
    if loading then Loading
    else if items.None? || items.value == [] then EmptyCart
    else Priced(ShownLines(products, items.value), Summarize(Subtotal(products, items.value)))
  }

  /** `updateQuantity`'s guard: the `PUT` for a quantity below 1 is never sent. */
  function QuantityRequest(productId: string, newQuantity: int): (r: Option<CartItem>)
    ensures r.Some? <==> newQuantity >= 1
    ensures r.Some? ==> r.value == CartItem(productId, newQuantity)
  {
    if newQuantity < 1 then None else Some(CartItem(productId, newQuantity))
  }

  /** The stepper can never remove a line: pressing minus on a line of
      quantity 1 sends nothing, and any request that is sent keeps every
      product of the cart. */
  lemma StepperNeverRemoves(items: seq<CartItem>, line: CartItem, p: string)
    requires Server.UniqueProducts(items)
    ensures line.quantity == 1 ==> QuantityRequest(line.productId, line.quantity - 1).None?
    ensures QuantityRequest(line.productId, line.quantity - 1).Some? ==>
      (Server.HasProduct(Server.Updated(items, line.productId, line.quantity - 1), p) <==> Server.HasProduct(items, p))
    ensures QuantityRequest(line.productId, line.quantity + 1).Some? ==>
      (Server.HasProduct(Server.Updated(items, line.productId, line.quantity + 1), p) <==> Server.HasProduct(items, p))
  {
    if line.quantity - 1 >= 1 {
      Server.UpdateSetsQuantity(items, line.productId, line.quantity - 1);
      KeepsProducts(items, line.productId, line.quantity - 1, p);
    }
    if line.quantity + 1 >= 1 {
      Server.UpdateSetsQuantity(items, line.productId, line.quantity + 1);
      KeepsProducts(items, line.productId, line.quantity + 1, p);
    }
  }

  lemma KeepsProducts(items: seq<CartItem>, pid: string, quantity: int, p: string)
    requires Server.UniqueProducts(items) && quantity > 0
    ensures Server.HasProduct(Server.Updated(items, pid, quantity), p) <==> Server.HasProduct(items, p)
  {
    var r := Server.Updated(items, pid, quantity);
    Server.UpdateSetsQuantity(items, pid, quantity);
    assert forall k :: 0 <= k < |items| ==> r[k].productId == items[k].productId;
    if Server.HasProduct(items, p) {
      var k :| 0 <= k < |items| && items[k].productId == p;
      assert r[k].productId == p;
    }
    if Server.HasProduct(r, p) {
      var k :| 0 <= k < |r| && r[k].productId == p;
      assert items[k].productId == p;
    }
  }

  const CouponCode: string := "save10"

  /** `applyCoupon`'s test: the code, lower-cased, is `save10`. */
  function CouponAccepted(code: string): (ok: bool)
    ensures ok <==> |code| == |CouponCode| && forall i :: 0 <= i < |code| ==> LowerChar(code[i]) == CouponCode[i]
  {
    Lower(code) == CouponCode
  }

  /** The check ignores case only. */
  lemma CouponIgnoresCase()
    ensures CouponAccepted("SAVE10") && CouponAccepted("Save10") && CouponAccepted("save10")
    ensures !CouponAccepted("save 10") && !CouponAccepted("SAVE20") && !CouponAccepted("")
  {
    assert Lower("save 10")[4] == ' ';
    assert Lower("SAVE20")[4] == '2';
  }

  /** How `applyCoupon` ends: only a toast, no discount anywhere. */
  datatype CouponToast = CouponApplied | InvalidCoupon

  class CartPage {
    /** `cart.items`; absent when the cart reply carried no list. */
    var items: Option<seq<CartItem>>
    var products: ProductMap
    var loading: bool
    var couponCode: string

    constructor ()
      ensures items == Some([]) && products == map[] && loading && couponCode == ""
    {
      items, products, loading, couponCode := Some([]), map[], true, "";
    }

    function Shown(): View
      reads this
    {
      ViewOf(loading, items, products)
    }

    /** `fetchCart`: store the cart, then the product map if every product
        fetch succeeded; loading ends whatever happens. */
    method FetchCart(cart: Result<Option<seq<CartItem>>>, fetch: string -> Result<Product>)
      modifies this`items, this`products, this`loading
      ensures !loading
      ensures items == if cart.Ok? then cart.value else old(items)
      ensures cart.Ok? && FetchProducts(cart.value.GetOr([]), fetch).Some? ==>
        products == FetchProducts(cart.value.GetOr([]), fetch).value
      ensures cart.Failure? || FetchProducts(cart.value.GetOr([]), fetch).None? ==> products == old(products)
    {
      if cart.Ok? {
        items := cart.value;
        var fetched := FetchProducts(cart.value.GetOr([]), fetch);
        if fetched.Some? {
          products := fetched.value;
        }
      }
      loading := false;
    }

    method SetCouponCode(code: string)
      modifies this`couponCode
      ensures couponCode == code
    {
      couponCode := code;
    }

    /** `applyCoupon`: touches no state, so the totals stay as they were. */
    method ApplyCoupon() returns (toast: CouponToast)
      ensures toast == CouponApplied <==> Lower(couponCode) == CouponCode
    {
      toast := if CouponAccepted(couponCode) then CouponApplied else InvalidCoupon;
    }
  }

  /** Entering and applying a coupon leaves the page as it was. */
  method CouponKeepsTotals(page: CartPage, code: string) returns (toast: CouponToast)
    modifies page`couponCode
    ensures page.Shown() == old(page.Shown())
    ensures toast == CouponApplied <==> CouponAccepted(code)
  {
    page.SetCouponCode(code);
    toast := page.ApplyCoupon();
  }
}

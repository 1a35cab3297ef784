/** The checkout page (frontend/src/pages/CheckoutPage.js): address list and
    selection, the order request it composes from the cart, and what placing
    the order leads to. */
module Checkout {
  import opened Common
  import opened Models
  import opened Pricing
  import Server

  /** The frozen copy of a cart line sent with the order: current name and
      effective price of its product, both absent when it was not fetched. */
  function SnapshotLine(products: ProductMap, item: CartItem): OrderItem {
    if item.productId in products then
      var p := products[item.productId];
      OrderItem(item.productId, Some(p.name), item.quantity, Some(EffectivePrice(p)))
    else OrderItem(item.productId, None, item.quantity, None)
  }

  /** `cart.items.map(...)`: one entry per cart line, in cart order. Unlike
      the subtotal, a line whose product is unknown is kept. */
  function Snapshot(products: ProductMap, items: seq<CartItem>): (r: seq<OrderItem>)
    ensures |r| == |items|
    ensures forall k :: 0 <= k < |r| ==>
      r[k].productId == items[k].productId && r[k].quantity == items[k].quantity &&
      (r[k].price.Some? <==> items[k].productId in products) &&
      (r[k].price.Some? ==> r[k].price.value == EffectivePrice(products[items[k].productId]))
  {
    seq(|items|, k requires 0 <= k < |items| => SnapshotLine(products, items[k]))
  }

  /** What the ordered items cost at their frozen prices; an item without a
      price counts nothing. */
  function ItemsTotal(items: seq<OrderItem>): int
    decreases |items|
  {
    if |items| == 0 then 0
    else
      var last := items[|items| - 1];
      ItemsTotal(items[..|items| - 1]) + (if last.price.Some? then last.price.value * last.quantity else 0)
  }

  /** The snapshot prices exactly the subtotal the page showed. */
  lemma {:induction false} SnapshotPricesSubtotal(products: ProductMap, items: seq<CartItem>)
    ensures ItemsTotal(Snapshot(products, items)) == Subtotal(products, items)
    decreases |items|
  {
    if |items| > 0 {
      var init := items[..|items| - 1];
      assert Snapshot(products, items)[..|items| - 1] == Snapshot(products, init);
      SnapshotPricesSubtotal(products, init);
    }
  }

  /** `handlePlaceOrder`'s request: refused without a selected address (and
      without a cart item list, where `map` would throw); otherwise the
      snapshot, the page's total, the address and the payment method. */
  function ComposeOrder(items: Option<seq<CartItem>>, products: ProductMap, selected: Option<Address>,
                        paymentMethod: string): (r: Option<OrderRequest>)
    ensures r.None? <==> selected.None? || items.None?
    ensures r.Some? ==> r.value.address == selected.value && r.value.paymentMethod == paymentMethod
    ensures r.Some? ==> r.value.items == Snapshot(products, items.value)
    ensures r.Some? ==> r.value.totalAmount == Summarize(CartSubtotal(products, items)).total
  {
    if selected.None? || items.None? then None
    else
      var total := Summarize(Subtotal(products, items.value)).total;
      Some(OrderRequest(Snapshot(products, items.value), total, selected.value, paymentMethod))
  }

  /** The order the backend stores from a composed request charges exactly
      its items at their frozen prices plus shipping, starts `placed` and
      keeps the chosen address. */
  lemma StoredOrderIsConsistent(items: seq<CartItem>, products: ProductMap, address: Address,
                                paymentMethod: string, id: string, uid: string)
    ensures ComposeOrder(Some(items), products, Some(address), paymentMethod).Some?
    ensures var o := Server.NewOrder(id, uid, ComposeOrder(Some(items), products, Some(address), paymentMethod).value);
      o.totalAmount == Summarize(ItemsTotal(o.items)).total &&
      o.orderStatus == InitialOrderStatus && o.address == address && |o.items| == |items|
  {
    SnapshotPricesSubtotal(products, items);
  }

  /** Where the page sends the browser. */
  datatype Destination = Stay | GoTo(path: string)

  /** An empty cart (no item list, or no lines) sends the visitor to the cart page. */
  function Redirect(items: Option<seq<CartItem>>): (d: Destination)
    ensures d == GoTo("/cart") <==> items.None? || |items.value| == 0
    ensures d != GoTo("/cart") ==> d == Stay
  {
    if items.None? || |items.value| == 0 then GoTo("/cart") else Stay
  }

  /** The outcome of pressing "Place Order". */
  datatype PlaceOutcome = SelectAddressFirst | OrderFailed | Placed(next: Destination)

  /** The keys of the body `handleAddAddress` posts: the address form's state. */
  const AddressFormFields: set<string> :=
    {"name", "phone", "address_line1", "address_line2", "city", "state", "pincode", "is_default"}

  /** As written, the backend refuses every address the form posts, since the
      form carries no `user_id`. */
  lemma AddressFormRejected()
    ensures Server.AddressBodyStatus(AddressFormFields) == 422
  {
    assert "user_id" in Server.AddressRequiredFields && "user_id" !in AddressFormFields;
  }

  /** Under the intended rule the form's body is accepted. */
  lemma AddressFormAccepted()
    ensures Server.IntendedAddressBodyStatus(AddressFormFields) == 200
  {
  }

  class CheckoutPage {
    var items: Option<seq<CartItem>>
    var products: ProductMap
    var addresses: seq<Address>
    var selected: Option<Address>
    var paymentMethod: string
    var loading: bool

    constructor ()
      ensures items == Some([]) && products == map[] && addresses == [] && selected == None
      ensures paymentMethod == "online" && !loading
    {
      items, products, addresses, selected := Some([]), map[], [], None;
      paymentMethod, loading := "online", false;
    }

    /** `fetchCart`: as on the cart page, without a loading flag. */
    method FetchCart(cart: Result<Option<seq<CartItem>>>, fetch: string -> Result<Product>)
      modifies this`items, this`products
      ensures items == if cart.Ok? then cart.value else old(items)
      ensures cart.Ok? && FetchProducts(cart.value.GetOr([]), fetch).Some? ==>
        products == FetchProducts(cart.value.GetOr([]), fetch).value
      ensures cart.Failure? || FetchProducts(cart.value.GetOr([]), fetch).None? ==> products == old(products)
    {
      if cart.Ok? {
        items := cart.value;
        var fetched := FetchProducts(cart.value.GetOr([]), fetch);
        if fetched.Some? {
          products := fetched.value;
        }
      }
    }

    /** `fetchAddresses`: the first saved address is preselected. */
    method FetchAddresses(reply: Result<seq<Address>>)
      modifies this`addresses, this`selected
      ensures addresses == if reply.Ok? then reply.value else old(addresses)
      ensures selected == if reply.Ok? && |reply.value| > 0 then Some(reply.value[0]) else old(selected)
    {
      if reply.Ok? {
        addresses := reply.value;
        if |reply.value| > 0 {
          selected := Some(reply.value[0]);
        }
      }
    }

    /** `handleAddAddress`: the saved address joins the list and is selected. */
    method AddAddress(reply: Result<Address>)
      modifies this`addresses, this`selected
      ensures reply.Ok? ==> addresses == old(addresses) + [reply.value] && selected == Some(reply.value)
      ensures reply.Failure? ==> addresses == old(addresses) && selected == old(selected)
    {
      if reply.Ok? {
        addresses := addresses + [reply.value];
        selected := Some(reply.value);
      }
    }

    method SelectAddress(address: Address)
      modifies this`selected
      ensures selected == Some(address)
    {
      selected := Some(address);
    }

    method SetPaymentMethod(paymentMethod: string)
      modifies this`paymentMethod
      ensures this.paymentMethod == paymentMethod
    {
      this.paymentMethod := paymentMethod;
    }

    /** `handlePlaceOrder`: `reply` is the `POST /orders` reply (the new
        order id). Without an address nothing is sent. */
    method PlaceOrder(reply: Result<string>) returns (outcome: PlaceOutcome, sent: Option<OrderRequest>)
      modifies this`loading
      ensures loading == (old(loading) && selected.None?)
      ensures sent == ComposeOrder(items, products, selected, paymentMethod)
      ensures selected.None? ==> outcome == SelectAddressFirst
      ensures selected.Some? && items.Some? && reply.Ok? ==> outcome == Placed(GoTo("/order-success/" + reply.value))
      ensures selected.Some? && (items.None? || reply.Failure?) ==> outcome == OrderFailed
    {
      if selected.None? {
        return SelectAddressFirst, None;
      }
      loading := true;
      sent := ComposeOrder(items, products, selected, paymentMethod);
      if sent.Some? && reply.Ok? {
        outcome := Placed(GoTo("/order-success/" + reply.value));
      } else {
        outcome := OrderFailed;
      }
      loading := false;
    }
  }
}

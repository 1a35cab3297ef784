/** The admin dashboard (frontend/src/pages/AdminDashboard.js): the figures
    it shows, the product form and how it is encoded on save and filled on
    edit, and the order-status control. */
module Admin {
  import opened Common
  import opened Models
  import opened Text
  import Server

  // ---------------------------------------------------------------------------
  // Statistics
  // ---------------------------------------------------------------------------

  /** The sum of `total_amount` over the orders, left to right. */
  function Revenue(orders: seq<Order>): int
    decreases |orders|
  {
    if |orders| == 0 then 0 else Revenue(orders[..|orders| - 1]) + orders[|orders| - 1].totalAmount
  }

  datatype Stats = Stats(totalProducts: nat, totalOrders: nat, totalRevenue: int)

  function ComputeStats(products: seq<Product>, orders: seq<Order>): (s: Stats)
    ensures s.totalProducts == |products| && s.totalOrders == |orders|
    ensures s.totalRevenue == Revenue(orders)
  {
    Stats(|products|, |orders|, Revenue(orders))
  }

  /** A newly stored order raises the revenue by its own total. */
  lemma RevenueOfNewOrder(orders: seq<Order>, o: Order)
    ensures Revenue(orders + [o]) == Revenue(orders) + o.totalAmount
  {
    assert (orders + [o])[..|orders|] == orders;
  }

  /** Changing an order's status, even to `cancelled`, never changes the
      revenue: every order counts whatever its status. */
  lemma {:induction false} RevenueIgnoresStatus(orders: seq<Order>, oid: string, status: string)
    ensures Revenue(Server.WithStatus(orders, oid, status)) == Revenue(orders)
    decreases |orders|
  {
    var r := Server.WithStatus(orders, oid, status);
    if |orders| > 0 {
      var n := |orders| - 1;
      var init := orders[..n];
      var r' := Server.WithStatus(init, oid, status);
      assert r[..n] == r'[..n] by {
        forall k | 0 <= k < n ensures r[k] == r'[k] {
          WithStatusPrefix(orders, n, oid, status, k);
        }
      }
      assert r'[..n] == r';
      RevenueIgnoresStatus(init, oid, status);
    }
  }

  /** `WithStatus` acts on each order on its own past the prefix it depends on. */
  lemma {:induction false} WithStatusPrefix(orders: seq<Order>, n: nat, oid: string, status: string, k: nat)
    requires k < n <= |orders|
    ensures Server.WithStatus(orders, oid, status)[k] == Server.WithStatus(orders[..n], oid, status)[k]
    decreases k
  {
    if orders[0].id != oid && k > 0 {
      assert orders[..n][1..] == orders[1..][..n - 1];
      WithStatusPrefix(orders[1..], n - 1, oid, status, k - 1);
    }
  }

  /** The choices of the status control; nothing else restricts the change. */
  const StatusOptions: seq<string> := ["placed", "processing", "shipped", "delivered", "cancelled"]

  /** The request of `handleUpdateOrderStatus`: any option, from any status. */
  datatype StatusRequest = StatusRequest(orderId: string, status: string)

  /** A delivered order can be set back to placed, and a placed one straight
      to delivered: the control allows every transition. */
  lemma AnyTransitionAllowed(orders: seq<Order>, k: nat, status: string)
    requires k < |orders| && Server.IsFirstWithId(orders, orders[k].id, k)
    requires status in StatusOptions
    ensures Server.WithStatus(orders, orders[k].id, status)[k].orderStatus == status
  {
    Server.WithStatusSetsFirst(orders, orders[k].id, status);
  }

  // ---------------------------------------------------------------------------
  // The product form
  // ---------------------------------------------------------------------------

  /** The form's text fields. */
  datatype ProductForm = ProductForm(
    name: string, description: string, price: string, offerPrice: string, category: string,
    concern: string, images: string, ingredients: string, howToUse: string)

  /** The form of a new product, and after every successful save. */
  const BlankForm: ProductForm := ProductForm("", "", "", "", "skincare", "", "", "", "")

  /** The body sent on save. A number that parses to `NaN` is sent as JSON
      `null`, shown here as `None`. Text fields are sent as typed, empty or not. */
  datatype ProductPayload = ProductPayload(
    name: string, description: string, price: Option<int>, offerPrice: Option<int>, category: string,
    concern: string, images: seq<string>, ingredients: string, howToUse: string)

  /** `handleSaveProduct`'s encoding: numbers parsed, an empty offer is null,
      images split on commas and trimmed. */
  function Encode(form: ProductForm): (p: ProductPayload)
    ensures p.price == ParseNumber(form.price)
    ensures p.offerPrice == if form.offerPrice == "" then None else ParseNumber(form.offerPrice)
    ensures p.images == TrimAll(SplitComma(form.images))
  {
    ProductPayload(form.name, form.description, ParseNumber(form.price),
                   if form.offerPrice == "" then None else ParseNumber(form.offerPrice),
                   form.category, form.concern, TrimAll(SplitComma(form.images)),
                   form.ingredients, form.howToUse)
  }

  /** Whatever was typed, the saved image list is non-empty and each URL is
      trimmed and free of commas. */
  lemma EncodedImagesAreClean(form: ProductForm)
    ensures |Encode(form).images| >= 1
    ensures forall i :: 0 <= i < |Encode(form).images| ==>
      IsTrimmed(Encode(form).images[i]) && ',' !in Encode(form).images[i]
  {
    var pieces := SplitComma(form.images);
    forall i | 0 <= i < |pieces| ensures ',' !in Trim(pieces[i]) {
      TrimKeepsCommaFree(pieces[i]);
    }
  }

  lemma TrimKeepsCommaFree(s: string)
    requires ',' !in s
    ensures ',' !in Trim(s)
  {
    var t := Trim(s);
    assert forall c :: c in TrimStart(s) ==> c in s;
    assert forall c :: c in t ==> c in TrimStart(s);
  }

  /** `handleEditProduct`'s filling: numbers printed, absent optional fields
      as empty text, images joined with `", "`. */
  function FormOf(p: Product): ProductForm {
    ProductForm(p.name, p.description, ShowNumber(p.price),
                if p.offerPrice.Some? then ShowNumber(p.offerPrice.value) else "",
                p.category, p.concern.GetOr(""), Join(p.images, ", "),
                p.ingredients.GetOr(""), p.howToUse.GetOr(""))
  }

  /** How the backend answers a payload it cannot build a product from.
      `create_product` declares its body as a `Product`, so the framework
      rejects it with 422 before the handler runs. `update_product` takes a
      plain dict and builds the `Product` inside the handler, where the
      unhandled validation error becomes a 500. */
  const CreateRejected: nat := 422
  const UpdateRejected: nat := 500

  /** The product the backend builds from a payload (`Product(**data)` in
      `create_product`, `Product(id=..., **data)` in `update_product`):
      a null price is refused with `rejected`; fields the payload lacks take
      the model's defaults. */
  function Validate(id: string, payload: ProductPayload, rejected: nat): (r: Result<Product>)
    ensures r.Failure? <==> payload.price.None?
    ensures r.Failure? ==> r.status == rejected
    ensures r.Ok? ==> (r.value.id == id && r.value.price == payload.price.value &&
      r.value.offerPrice == payload.offerPrice && r.value.images == payload.images)
    ensures r.Ok? ==> r.value.rating == 4.5 && r.value.reviewCount == 0 && r.value.inStock
  {
    if payload.price.None? then Failure(rejected)
    else Ok(Product(id, payload.name, payload.description, payload.price.value, payload.offerPrice,
                    payload.category, Some(payload.concern), payload.images, 4.5, 0,
                    Some(payload.ingredients), Some(payload.howToUse), true))
  }

  /** Images that are trimmed, comma-free and at least one come back
      unchanged through edit then save. */
  lemma ImagesRoundTrip(images: seq<string>)
    requires |images| >= 1
    requires forall i :: 0 <= i < |images| ==> IsTrimmed(images[i]) && ',' !in images[i]
    ensures TrimAll(SplitComma(Join(images, ", "))) == images
  {
    JoinThenSplitTrim(images);
    TrimAllOfTrimmed(images);
  }

  /** An empty image list does not survive: it comes back as one empty URL. */
  lemma EmptyImagesBecomeBlank()
    ensures TrimAll(SplitComma(Join([], ", "))) == [""]
  {
  }

  /** Editing a product and saving the form unchanged stores the same
      prices, images and text, with absent optional texts now empty, and
      rating, review count and stock reset to the model's defaults. */
  lemma EditThenSaveRoundTrip(p: Product, newId: string)
    requires |p.images| >= 1
    requires forall i :: 0 <= i < |p.images| ==> IsTrimmed(p.images[i]) && ',' !in p.images[i]
    ensures Stored(SaveRequestFor(Some(p), FormOf(p)), newId) ==
      Ok(p.(concern := Some(p.concern.GetOr("")),
            ingredients := Some(p.ingredients.GetOr("")),
            howToUse := Some(p.howToUse.GetOr("")),
            rating := 4.5, reviewCount := 0, inStock := true))
  {
    ParseShowNumber(p.price);
    if p.offerPrice.Some? {
      ParseShowNumber(p.offerPrice.value);
    }
    ImagesRoundTrip(p.images);
  }

  // ---------------------------------------------------------------------------
  // The dashboard
  // ---------------------------------------------------------------------------

  /** What a save sends: an update of the product being edited, or a creation. */
  datatype SaveRequest = Put(productId: string, payload: ProductPayload) | Post(payload: ProductPayload)

  function SaveRequestFor(editing: Option<Product>, form: ProductForm): (r: SaveRequest)
    ensures editing.Some? <==> r.Put?
    ensures r.Put? ==> r.productId == editing.value.id
    ensures r.payload == Encode(form)
  {
    if editing.Some? then Put(editing.value.id, Encode(form)) else Post(Encode(form))
  }

  /** The backend's answer to a save: an update keeps the path's id and
      answers 500 for a null price; a creation takes the generated `newId`
      and answers 422. */
  function Stored(req: SaveRequest, newId: string): (r: Result<Product>)
    ensures r.Failure? <==> req.payload.price.None?
    ensures r.Failure? ==> r.status == if req.Put? then UpdateRejected else CreateRejected
    ensures r.Ok? ==> r.value.id == if req.Put? then req.productId else newId
  {
    match req
    case Put(pid, payload) => Validate(pid, payload, UpdateRejected)
    case Post(payload) => Validate(newId, payload, CreateRejected)
  }

  class AdminDashboard {
    var products: seq<Product>
    var orders: seq<Order>
    var stats: Stats
    var editing: Option<Product>
    var form: ProductForm
    var showModal: bool

    constructor ()
      ensures products == [] && orders == [] && stats == Stats(0, 0, 0)
      ensures editing == None && form == BlankForm && !showModal
    {
      products, orders, stats := [], [], Stats(0, 0, 0);
      editing, form, showModal := None, BlankForm, false;
    }

    /** `fetchData`: a failed order list counts as empty; a failed product
        list leaves everything as it was. */
    method FetchData(productsReply: Result<seq<Product>>, ordersReply: Result<seq<Order>>)
      modifies this`products, this`orders, this`stats
      ensures productsReply.Failure? ==> products == old(products) && orders == old(orders) && stats == old(stats)
      ensures productsReply.Ok? ==>
        var fetched := if ordersReply.Ok? then ordersReply.value else [];
        products == productsReply.value && orders == fetched && stats == ComputeStats(products, orders)
    {
      if productsReply.Ok? {
        var fetched := if ordersReply.Ok? then ordersReply.value else [];
        products := productsReply.value;
        orders := fetched;
        stats := ComputeStats(products, orders);
      }
    }

    /** The "Add Product" button. */
    method NewProduct()
      modifies this`editing, this`form, this`showModal
      ensures editing == None && form == BlankForm && showModal
    {
      editing, form, showModal := None, BlankForm, true;
    }

    /** `handleEditProduct`. */
    method EditProduct(p: Product)
      modifies this`editing, this`form, this`showModal
      ensures editing == Some(p) && form == FormOf(p) && showModal
    {
      editing, form, showModal := Some(p), FormOf(p), true;
    }

    /** `handleSaveProduct`: `reply` is the backend's answer to the request
        sent; only a successful save closes and resets the form. */
    method SaveProduct(reply: Result<Product>) returns (sent: SaveRequest)
      modifies this`editing, this`form, this`showModal
      ensures sent == SaveRequestFor(old(editing), old(form))
      ensures reply.Ok? ==> editing == None && form == BlankForm && !showModal
      ensures reply.Failure? ==> editing == old(editing) && form == old(form) && showModal == old(showModal)
    {
      sent := SaveRequestFor(editing, form);
      if reply.Ok? {
        editing, form, showModal := None, BlankForm, false;
      }
    }

    /** `handleUpdateOrderStatus`: the request sent. Once the backend has
        applied it, the first order with the id shows the chosen status,
        every other order keeps its own, and the revenue card, when it
        matches the list, shows the same figure after the refetch. */
    method UpdateOrderStatus(orderId: string, status: string) returns (sent: StatusRequest)
      ensures sent == StatusRequest(orderId, status)
      ensures forall k :: 0 <= k < |orders| ==>
        Server.WithStatus(orders, sent.orderId, sent.status)[k].orderStatus ==
          if Server.IsFirstWithId(orders, orderId, k) then status else orders[k].orderStatus
      ensures stats == ComputeStats(products, orders) ==>
        ComputeStats(products, Server.WithStatus(orders, sent.orderId, sent.status)) == stats
    {
      sent := StatusRequest(orderId, status);
      Server.WithStatusSetsFirst(orders, orderId, status);
      RevenueIgnoresStatus(orders, orderId, status);
    }
  }
}

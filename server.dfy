/** The routes of backend/server.py over in-memory tables: each Mongo
    collection becomes a field of `Store`; `find_one`/`update_one`/`delete_one`
    act on the first matching document. Authentication is not modelled: every
    route receives the id of the signed-in user. */
module Server {
  import opened Common
  import opened Models

  // ===========================================================================
  // Cart lines
  // ===========================================================================

  predicate HasProduct(items: seq<CartItem>, pid: string) {
    exists k :: 0 <= k < |items| && items[k].productId == pid
  }

  /** No two lines of a cart name the same product. */
  predicate UniqueProducts(items: seq<CartItem>) {
    forall i, j :: 0 <= i < j < |items| ==> items[i].productId != items[j].productId
  }

  predicate PositiveQuantities(items: seq<CartItem>) {
    forall k :: 0 <= k < |items| ==> items[k].quantity >= 1
  }

  /** Index of the first line for `pid`: where the backend's scans stop. */
  function FirstIndex(items: seq<CartItem>, pid: string): (r: Option<nat>)
    ensures r.Some? ==> r.value < |items| && items[r.value].productId == pid
    ensures r.Some? ==> forall k :: 0 <= k < r.value ==> items[k].productId != pid
    ensures r.None? <==> !HasProduct(items, pid)
    decreases |items|
  {
    if |items| == 0 then None
    else if items[0].productId == pid then Some(0)
    else
      var rest := FirstIndex(items[1..], pid);
      assert rest.Some? ==> items[1..][rest.value] == items[rest.value + 1];
      assert rest.None? ==> forall k :: 1 <= k < |items| ==> items[1..][k - 1] == items[k];
      if rest.Some? then Some(rest.value + 1) else None
  }

  /** `add_to_cart` on an existing cart: the first line for the product grows
      by the added quantity, or the item is appended. */
  function Merged(items: seq<CartItem>, item: CartItem): seq<CartItem> {
    match FirstIndex(items, item.productId)
    case Some(i) => items[i := items[i].(quantity := items[i].quantity + item.quantity)]
    case None => items + [item]
  }

  /** `update_cart_item` on an existing cart: the first line for the product is
      dropped when the quantity is not positive, otherwise its quantity is
      overwritten; an absent product leaves the lines alone. */
  function Updated(items: seq<CartItem>, pid: string, quantity: int): seq<CartItem> {
    match FirstIndex(items, pid)
    case None => items
    case Some(i) =>
      if quantity <= 0 then items[..i] + items[i + 1..]
      else items[i := items[i].(quantity := quantity)]
  }

  /** `$pull: {items: {product_id: pid}}`: every line for the product goes. */
  function Pulled(items: seq<CartItem>, pid: string): (r: seq<CartItem>)
    ensures |r| <= |items|
    ensures !HasProduct(r, pid)
    decreases |items|
  {
    if |items| == 0 then []
    else
      var rest := Pulled(items[1..], pid);
      if items[0].productId == pid then rest
      else
        assert forall k :: 1 <= k < |rest| + 1 ==> ([items[0]] + rest)[k] == rest[k - 1];
        [items[0]] + rest
  }

  /** The scan loop of `add_to_cart` (server.py:216-224), over a local copy of
      the lines. */
  method MergeLine(items: seq<CartItem>, item: CartItem) returns (merged: seq<CartItem>)
    ensures merged == Merged(items, item)
  {
    merged := items;
    var found := false;
    var i := 0;
    while i < |merged|
      invariant 0 <= i <= |merged| && merged == items
      invariant forall k :: 0 <= k < i ==> items[k].productId != item.productId
    {
      if merged[i].productId == item.productId {
        merged := merged[i := merged[i].(quantity := merged[i].quantity + item.quantity)];
        found := true;
        break;
      }
      i := i + 1;
    }
    if !found {
      merged := merged + [item];
    }
  }

  /** The scan loop of `update_cart_item` (server.py:239-246). */
  method ApplyQuantity(items: seq<CartItem>, pid: string, quantity: int) returns (updated: seq<CartItem>)
    ensures updated == Updated(items, pid, quantity)
  {
    updated := items;
    var i := 0;
    while i < |updated|
      invariant 0 <= i <= |updated| && updated == items
      invariant forall k :: 0 <= k < i ==> items[k].productId != pid
    {
      if updated[i].productId == pid {
        if quantity <= 0 {
          updated := updated[..i] + updated[i + 1..];
        } else {
          updated := updated[i := updated[i].(quantity := quantity)];
        }
        return;
      }
      i := i + 1;
    }
  }

  // ---------------------------------------------------------------------------
  // Properties of the cart operations
  // ---------------------------------------------------------------------------

  /** Adding a product the cart already holds grows that line by the added
      quantity and leaves every other line, and the number of lines, alone. */
  lemma MergeIntoExistingLine(items: seq<CartItem>, item: CartItem)
    requires UniqueProducts(items) && HasProduct(items, item.productId)
    ensures |Merged(items, item)| == |items|
    ensures forall k :: 0 <= k < |items| ==> Merged(items, item)[k].productId == items[k].productId
    ensures forall k :: 0 <= k < |items| && items[k].productId == item.productId ==>
      Merged(items, item)[k].quantity == items[k].quantity + item.quantity
    ensures forall k :: 0 <= k < |items| && items[k].productId != item.productId ==>
      Merged(items, item)[k] == items[k]
  {
  }

  /** Adding a product the cart does not hold appends it at the end. */
  lemma MergeNewLine(items: seq<CartItem>, item: CartItem)
    requires !HasProduct(items, item.productId)
    ensures Merged(items, item) == items + [item]
  {
  }

  /** Merging keeps product ids unique, and the cart afterwards holds exactly
      the products it held plus the added one. */
  lemma MergedKeepsUnique(items: seq<CartItem>, item: CartItem)
    requires UniqueProducts(items)
    ensures UniqueProducts(Merged(items, item))
    ensures forall p :: HasProduct(Merged(items, item), p) <==> HasProduct(items, p) || p == item.productId
  {
    var r := Merged(items, item);
    if !HasProduct(items, item.productId) {
      assert r == items + [item];
      forall p | HasProduct(items, p) ensures HasProduct(r, p) {
        var k :| 0 <= k < |items| && items[k].productId == p;
        assert r[k] == items[k];
      }
      assert r[|items|] == item;
    } else {
      forall p | HasProduct(r, p) ensures HasProduct(items, p) {
        var k :| 0 <= k < |r| && r[k].productId == p;
        assert items[k].productId == p;
      }
      forall p | HasProduct(items, p) ensures HasProduct(r, p) {
        var k :| 0 <= k < |items| && items[k].productId == p;
        assert r[k].productId == p;
      }
    }
  }

  /** Lines stay positive when a positive quantity is added. */
  lemma MergedKeepsPositive(items: seq<CartItem>, item: CartItem)
    requires PositiveQuantities(items) && item.quantity >= 1
    ensures PositiveQuantities(Merged(items, item))
  {
  }

  /** Setting a positive quantity overwrites exactly the product's line. */
  lemma UpdateSetsQuantity(items: seq<CartItem>, pid: string, quantity: int)
    requires UniqueProducts(items) && quantity > 0
    ensures |Updated(items, pid, quantity)| == |items|
    ensures forall k :: 0 <= k < |items| && items[k].productId == pid ==>
      Updated(items, pid, quantity)[k] == CartItem(pid, quantity)
    ensures forall k :: 0 <= k < |items| && items[k].productId != pid ==>
      Updated(items, pid, quantity)[k] == items[k]
  {
  }

  /** Whatever quantity is requested, no line ends up with a quantity below 1:
      a non-positive request removes the line instead of storing it. */
  lemma UpdatedKeepsPositive(items: seq<CartItem>, pid: string, quantity: int)
    requires PositiveQuantities(items)
    ensures PositiveQuantities(Updated(items, pid, quantity))
  {
    match FirstIndex(items, pid)
    case None =>
    case Some(i) =>
      if quantity <= 0 {
        var r := items[..i] + items[i + 1..];
        assert forall k :: 0 <= k < |r| ==> r[k] == if k < i then items[k] else items[k + 1];
      }
  }

  lemma UpdatedKeepsUnique(items: seq<CartItem>, pid: string, quantity: int)
    requires UniqueProducts(items)
    ensures UniqueProducts(Updated(items, pid, quantity))
  {
    match FirstIndex(items, pid)
    case None =>
    case Some(i) =>
      if quantity <= 0 {
        DroppedKeepsUnique(items, i);
      }
  }

  /** Dropping one line keeps the product ids unique. */
  lemma DroppedKeepsUnique(items: seq<CartItem>, i: nat)
    requires UniqueProducts(items) && i < |items|
    ensures UniqueProducts(items[..i] + items[i + 1..])
  {
    var r := items[..i] + items[i + 1..];
    assert forall k :: 0 <= k < |r| ==> r[k] == if k < i then items[k] else items[k + 1];
  }

  /** `$pull` distributes over concatenation: the surviving lines keep their order. */
  lemma {:induction false} PulledAppend(a: seq<CartItem>, b: seq<CartItem>, pid: string)
    ensures Pulled(a + b, pid) == Pulled(a, pid) + Pulled(b, pid)
    decreases |a|
  {
    if |a| > 0 {
      assert (a + b)[1..] == a[1..] + b;
      PulledAppend(a[1..], b, pid);
    } else {
      assert a + b == b;
    }
  }

  /** A line survives `$pull` exactly when it is for another product. */
  lemma {:induction false} PulledMembership(items: seq<CartItem>, pid: string, line: CartItem)
    ensures line in Pulled(items, pid) <==> line in items && line.productId != pid
    decreases |items|
  {
    if |items| > 0 {
      PulledMembership(items[1..], pid, line);
      assert items == [items[0]] + items[1..];
    }
  }

  /** Pulling a product the cart does not hold changes nothing. */
  lemma {:induction false} PulledAbsent(items: seq<CartItem>, pid: string)
    requires !HasProduct(items, pid)
    ensures Pulled(items, pid) == items
    decreases |items|
  {
    if |items| > 0 {
      assert forall k :: 0 <= k < |items| - 1 ==> items[1..][k] == items[k + 1];
      PulledAbsent(items[1..], pid);
      assert items == [items[0]] + items[1..];
    }
  }

  /** In a cart with unique product ids, updating a line to a non-positive
      quantity and removing the product agree. */
  lemma PullAgreesWithUpdateToZero(items: seq<CartItem>, pid: string, quantity: int)
    requires UniqueProducts(items) && quantity <= 0
    ensures Updated(items, pid, quantity) == Pulled(items, pid)
  {
    match FirstIndex(items, pid)
    case None =>
      PulledAbsent(items, pid);
    case Some(i) =>
      PulledAtUniqueLine(items, pid, i);
  }

  /** With the product's only line at `i`, `$pull` cuts out exactly that line. */
  lemma PulledAtUniqueLine(items: seq<CartItem>, pid: string, i: nat)
    requires UniqueProducts(items) && i < |items| && items[i].productId == pid
    ensures Pulled(items, pid) == items[..i] + items[i + 1..]
  {
    var before, line, after := items[..i], items[i], items[i + 1..];
    OnlyLine(items, pid, i);
    calc {
      Pulled(items, pid);
      { assert items == (before + [line]) + after; }
      Pulled((before + [line]) + after, pid);
      { PulledAppend(before + [line], after, pid); }
      Pulled(before + [line], pid) + Pulled(after, pid);
      { PulledAppend(before, [line], pid); assert [line][1..] == []; }
      Pulled(before, pid) + Pulled(after, pid);
      { PulledAbsent(before, pid); PulledAbsent(after, pid); }
      before + after;
    }
  }

  /** In a cart with unique product ids, no line but the `i`-th is for its product. */
  lemma OnlyLine(items: seq<CartItem>, pid: string, i: nat)
    requires UniqueProducts(items) && i < |items| && items[i].productId == pid
    ensures !HasProduct(items[..i], pid) && !HasProduct(items[i + 1..], pid)
  {
    var before, after := items[..i], items[i + 1..];
    assert forall k :: 0 <= k < |before| ==> before[k] == items[k];
    assert forall k :: 0 <= k < |after| ==> after[k] == items[i + 1 + k];
  }

  // ===========================================================================
  // Wishlists
  // ===========================================================================

  predicate Distinct(ids: seq<string>) {
    forall i, j :: 0 <= i < j < |ids| ==> ids[i] != ids[j]
  }

  /** `$addToSet`: append only if not yet present. */
  function AddedToSet(ids: seq<string>, pid: string): seq<string> {
    if pid in ids then ids else ids + [pid]
  }

  /** `$pull` of one id from `product_ids`. */
  function PulledId(ids: seq<string>, pid: string): (r: seq<string>)
    ensures pid !in r
    decreases |ids|
  {
    if |ids| == 0 then []
    else if ids[0] == pid then PulledId(ids[1..], pid)
    else [ids[0]] + PulledId(ids[1..], pid)
  }

  /** Adding to the wishlist twice is the same as adding once. */
  lemma AddToSetIdempotent(ids: seq<string>, pid: string)
    ensures AddedToSet(AddedToSet(ids, pid), pid) == AddedToSet(ids, pid)
  {
  }

  /** The wishlist never holds an id twice, and holds exactly the old ids plus the new one. */
  lemma AddToSetMembers(ids: seq<string>, pid: string)
    requires Distinct(ids)
    ensures Distinct(AddedToSet(ids, pid))
    ensures forall x :: x in AddedToSet(ids, pid) <==> x in ids || x == pid
  {
  }

  /** Removing an id keeps every other id and nothing else. */
  lemma {:induction false} PulledIdMembers(ids: seq<string>, pid: string, x: string)
    ensures x in PulledId(ids, pid) <==> x in ids && x != pid
    decreases |ids|
  {
    if |ids| > 0 {
      PulledIdMembers(ids[1..], pid, x);
      assert ids == [ids[0]] + ids[1..];
    }
  }

  // ===========================================================================
  // Addresses
  // ===========================================================================

  /** `delete_one({id, user_id})`: drop the first address with that id owned by that user. */
  function WithoutAddress(addrs: seq<Address>, aid: string, uid: string): (r: seq<Address>)
    ensures |r| <= |addrs|
    ensures forall a :: a in r ==> a in addrs
    ensures forall a :: a in addrs && !(a.id == aid && a.userId == uid) ==> a in r
    decreases |addrs|
  {
    if |addrs| == 0 then []
    else if addrs[0].id == aid && addrs[0].userId == uid then
      assert forall a :: a in addrs && !(a.id == aid && a.userId == uid) ==> a in addrs[1..];
      addrs[1..]
    else
      assert forall a :: a in addrs ==> a == addrs[0] || a in addrs[1..];
      [addrs[0]] + WithoutAddress(addrs[1..], aid, uid)
  }

  /** `find({user_id})`: the addresses of one user, all of them, in stored order. */
  function AddressesOf(addrs: seq<Address>, uid: string): (r: seq<Address>)
    ensures |r| <= |addrs|
    ensures forall a :: a in r <==> a in addrs && a.userId == uid
    decreases |addrs|
  {
    if |addrs| == 0 then []
    else
      assert forall a :: a in addrs ==> a == addrs[0] || a in addrs[1..];
      if addrs[0].userId == uid then [addrs[0]] + AddressesOf(addrs[1..], uid)
      else AddressesOf(addrs[1..], uid)
  }

  /** The filter distributes over concatenation, so it keeps the stored order. */
  lemma {:induction false} AddressesOfAppend(a: seq<Address>, b: seq<Address>, uid: string)
    ensures AddressesOf(a + b, uid) == AddressesOf(a, uid) + AddressesOf(b, uid)
    decreases |a|
  {
    if |a| == 0 {
      assert a + b == b;
    } else {
      assert (a + b)[1..] == a[1..] + b;
      AddressesOfAppend(a[1..], b, uid);
    }
  }

  /** A newly created address is listed last among its owner's. */
  lemma CreatedAddressComesLast(addrs: seq<Address>, saved: Address)
    ensures AddressesOf(addrs + [saved], saved.userId) == AddressesOf(addrs, saved.userId) + [saved]
  {
    AddressesOfAppend(addrs, [saved], saved.userId);
    assert AddressesOf([saved], saved.userId) == [saved] + AddressesOf([saved][1..], saved.userId);
  }

  /** Deleting from the table deletes from the user's own list: the user's
      list loses its first address with the id, and nothing else. */
  lemma {:induction false} DeleteAddressFromOwnList(addrs: seq<Address>, aid: string, uid: string)
    ensures AddressesOf(WithoutAddress(addrs, aid, uid), uid) == WithoutAddress(AddressesOf(addrs, uid), aid, uid)
    decreases |addrs|
  {
    if |addrs| > 0 {
      var own := AddressesOf(addrs[1..], uid);
      if addrs[0].id == aid && addrs[0].userId == uid {
        assert ([addrs[0]] + own)[1..] == own;
      } else {
        var rest := WithoutAddress(addrs[1..], aid, uid);
        DeleteAddressFromOwnList(addrs[1..], aid, uid);
        assert ([addrs[0]] + rest)[1..] == rest;
        if addrs[0].userId == uid {
          assert ([addrs[0]] + own)[1..] == own;
        }
      }
    }
  }

  /** Address ids are generated uuids, so no two stored addresses share one. */
  predicate UniqueAddressIds(addrs: seq<Address>) {
    forall i, j :: 0 <= i < j < |addrs| ==> addrs[i].id != addrs[j].id
  }

  /** With unique ids, the user's address with the id is gone after the delete. */
  lemma {:induction false} DeleteAddressRemovesIt(addrs: seq<Address>, aid: string, uid: string)
    requires UniqueAddressIds(addrs)
    ensures forall a :: a in WithoutAddress(addrs, aid, uid) ==> !(a.id == aid && a.userId == uid)
    decreases |addrs|
  {
    if |addrs| > 0 {
      var tail := addrs[1..];
      assert forall j :: 0 <= j < |tail| ==> tail[j] == addrs[j + 1];
      if addrs[0].id == aid && addrs[0].userId == uid {
        forall a | a in tail ensures a.id != aid {
          var j :| 0 <= j < |tail| && tail[j] == a;
          assert addrs[0].id != addrs[j + 1].id;
        }
      } else {
        DeleteAddressRemovesIt(tail, aid, uid);
      }
    }
  }

  /** Deleting an address of one user never touches another user's addresses. */
  lemma {:induction false} DeleteAddressSparesOthers(addrs: seq<Address>, aid: string, uid: string, other: string)
    requires other != uid
    ensures AddressesOf(WithoutAddress(addrs, aid, uid), other) == AddressesOf(addrs, other)
    decreases |addrs|
  {
    if |addrs| > 0 && !(addrs[0].id == aid && addrs[0].userId == uid) {
      DeleteAddressSparesOthers(addrs[1..], aid, uid, other);
      assert ([addrs[0]] + WithoutAddress(addrs[1..], aid, uid))[1..] == WithoutAddress(addrs[1..], aid, uid);
    }
  }

  /** At most one address goes, and exactly one when the user owns one with that id. */
  lemma {:induction false} DeleteAddressRemovesOne(addrs: seq<Address>, aid: string, uid: string)
    ensures |WithoutAddress(addrs, aid, uid)| ==
      if exists k :: 0 <= k < |addrs| && addrs[k].id == aid && addrs[k].userId == uid then |addrs| - 1 else |addrs|
    decreases |addrs|
  {
    if |addrs| > 0 {
      DeleteAddressRemovesOne(addrs[1..], aid, uid);
      if !(addrs[0].id == aid && addrs[0].userId == uid) {
        assert forall k :: 1 <= k < |addrs| ==> addrs[1..][k - 1] == addrs[k];
      }
    }
  }

  /** The body fields the `Address` model requires: those without a default,
      `user_id` among them. */
  const AddressRequiredFields: set<string> := {"user_id", "name", "phone", "address_line1", "city", "state", "pincode"}

  /** `create_address` as written: its body is validated as an `Address`
      before the handler runs, so a body without a required field is refused
      with 422, and the handler's own `user_id` stamp is never reached. */
  function AddressBodyStatus(fields: set<string>): (status: nat)
    ensures status == 200 || status == 422
    ensures status == 200 <==> AddressRequiredFields <= fields
  {
    if AddressRequiredFields <= fields then 200 else 422
  }

  /** The evident intent: the handler stamps `user_id` from the caller, so the
      body need not carry it; a body is then accepted exactly when it would be
      accepted with `user_id` added. */
  function IntendedAddressBodyStatus(fields: set<string>): (status: nat)
    ensures status == 200 <==> AddressRequiredFields - {"user_id"} <= fields
    ensures status == AddressBodyStatus(fields + {"user_id"})
  {
    if AddressRequiredFields - {"user_id"} <= fields then 200 else 422
  }

  // ===========================================================================
  // Orders
  // ===========================================================================

  /** The mock payment of `create_order`: only `online` counts as paid. */
  function PaymentStatusFor(paymentMethod: string): (s: string)
    ensures s == "success" <==> paymentMethod == "online"
    ensures s == "success" || s == DefaultPaymentStatus
  {
    if paymentMethod == "online" then "success"
    else if paymentMethod == "cod" then "pending"
    else DefaultPaymentStatus
  }

  /** The order document `create_order` stores. */
  function NewOrder(id: string, uid: string, req: OrderRequest): Order {
    Order(id, uid, req.items, req.totalAmount, req.address, req.paymentMethod,
          PaymentStatusFor(req.paymentMethod), InitialOrderStatus)
  }

  /** A created order always starts `placed`, and is paid exactly for `online`. */
  lemma NewOrderIsPlaced(id: string, uid: string, req: OrderRequest)
    ensures NewOrder(id, uid, req).orderStatus == "placed"
    ensures NewOrder(id, uid, req).paymentStatus == (if req.paymentMethod == "online" then "success" else "pending")
  {
  }

  predicate IsFirstWithId(orders: seq<Order>, oid: string, k: int) {
    0 <= k < |orders| && orders[k].id == oid && forall j :: 0 <= j < k ==> orders[j].id != oid
  }

  /** `update_order_status`: `$set` of `order_status` on the first order with the id. */
  function WithStatus(orders: seq<Order>, oid: string, status: string): (r: seq<Order>)
    ensures |r| == |orders|
    ensures forall k :: 0 <= k < |r| ==> r[k] == orders[k].(orderStatus := r[k].orderStatus)
    decreases |orders|
  {
    if |orders| == 0 then []
    else if orders[0].id == oid then [orders[0].(orderStatus := status)] + orders[1..]
    else [orders[0]] + WithStatus(orders[1..], oid, status)
  }

  /** Any status is accepted, with no transition check: the first order with
      the id takes it, every other order keeps its own. */
  lemma {:induction false} WithStatusSetsFirst(orders: seq<Order>, oid: string, status: string)
    ensures forall k :: 0 <= k < |orders| ==>
      WithStatus(orders, oid, status)[k].orderStatus ==
        if IsFirstWithId(orders, oid, k) then status else orders[k].orderStatus
    decreases |orders|
  {
    if |orders| > 0 && orders[0].id != oid {
      WithStatusSetsFirst(orders[1..], oid, status);
      forall k | 1 <= k < |orders|
        ensures IsFirstWithId(orders, oid, k) == IsFirstWithId(orders[1..], oid, k - 1)
      {
        if IsFirstWithId(orders[1..], oid, k - 1) {
          assert forall j :: 1 <= j < k ==> orders[j] == orders[1..][j - 1];
        }
      }
    }
  }

  // ===========================================================================
  // Products
  // ===========================================================================

  /** The filters `get_products` puts in its Mongo query. */
  datatype Query = Query(category: Option<string>, concern: Option<string>, search: Option<string>)

  /** Python truthiness of an optional string parameter. */
  predicate Given(s: Option<string>) {
    s.Some? && s.value != ""
  }

  /** `get_products`' query: a parameter becomes a filter only when truthy. */
  function BuildQuery(category: Option<string>, concern: Option<string>, search: Option<string>): (q: Query)
    ensures q.category.Some? <==> Given(category)
    ensures q.concern.Some? <==> Given(concern)
    ensures q.search.Some? <==> Given(search)
    ensures q.category.Some? ==> q.category == category
    ensures q.concern.Some? ==> q.concern == concern
    ensures q.search.Some? ==> q.search == search
  {
    Query(if Given(category) then category else None,
          if Given(concern) then concern else None,
          if Given(search) then search else None)
  }

  /** Whether a product satisfies a query. `regex(pattern, text)` stands for
      Mongo's case-insensitive `$regex` test, which is not interpreted here. */
  predicate Matches(p: Product, q: Query, regex: (string, string) -> bool) {
    && (q.category.Some? ==> p.category == q.category.value)
    && (q.concern.Some? ==> p.concern == Some(q.concern.value))
    && (q.search.Some? ==> regex(q.search.value, p.name) || regex(q.search.value, p.description))
  }

  /** The products matching a query, in stored order. */
  function Selected(products: seq<Product>, q: Query, regex: (string, string) -> bool): (r: seq<Product>)
    ensures forall p :: p in r ==> p in products && Matches(p, q, regex)
    decreases |products|
  {
    if |products| == 0 then []
    else if Matches(products[0], q, regex) then [products[0]] + Selected(products[1..], q, regex)
    else Selected(products[1..], q, regex)
  }

  const ProductListLimit: nat := 1000

  /** `get_products`: the matching products, at most 1000 of them. */
  function GetProducts(products: seq<Product>, category: Option<string>, concern: Option<string>,
                       search: Option<string>, regex: (string, string) -> bool): (r: seq<Product>)
    ensures |r| <= ProductListLimit
    ensures forall p :: p in r ==> p in products && Matches(p, BuildQuery(category, concern, search), regex)
  {
    Take(Selected(products, BuildQuery(category, concern, search), regex), ProductListLimit)
  }

  /** Every matching product is selected. */
  lemma {:induction false} SelectedComplete(products: seq<Product>, q: Query, regex: (string, string) -> bool, p: Product)
    requires p in products && Matches(p, q, regex)
    ensures p in Selected(products, q, regex)
    decreases |products|
  {
    if products[0] != p {
      assert p in products[1..];
      SelectedComplete(products[1..], q, regex, p);
    }
  }

  /** With no filter, `get_products` lists the catalog, capped at 1000. */
  lemma {:induction false} GetProductsUnfiltered(products: seq<Product>, regex: (string, string) -> bool)
    ensures GetProducts(products, None, None, None, regex) == Take(products, ProductListLimit)
  {
    SelectedAll(products, Query(None, None, None), regex);
  }

  lemma {:induction false} SelectedAll(products: seq<Product>, q: Query, regex: (string, string) -> bool)
    requires q == Query(None, None, None)
    ensures Selected(products, q, regex) == products
    decreases |products|
  {
    if |products| > 0 {
      SelectedAll(products[1..], q, regex);
      assert products == [products[0]] + products[1..];
    }
  }

  /** `get_product`: the first product with the id, or 404. */
  function GetProduct(products: seq<Product>, id: string): (r: Result<Product>)
    ensures r.Ok? ==> r.value in products && r.value.id == id
    ensures r.Failure? <==> forall p :: p in products ==> p.id != id
    ensures r.Failure? ==> r.status == 404
    decreases |products|
  {
    if |products| == 0 then Failure(404)
    else if products[0].id == id then Ok(products[0])
    else
      assert forall p :: p in products ==> p == products[0] || p in products[1..];
      GetProduct(products[1..], id)
  }

  // ---------------------------------------------------------------------------
  // Catalog seed (init_products)
  // ---------------------------------------------------------------------------

  /** One sample product of `init_products`, without its generated id. */
  datatype SeedRow = SeedRow(name: string, price: int, offer: int, category: string,
                             concern: string, image: string, rating: real, reviews: int)

  const SeedRows: seq<SeedRow> := [
    SeedRow("Vitamin C Brightening Serum", 899, 699, "skincare", "dark_spots",
            "https://images.unsplash.com/photo-1613803745799-ba6c10aace85", 4.7, 234),
    SeedRow("Hyaluronic Acid Hydrating Cream", 749, 599, "skincare", "dry_skin",
            "https://images.unsplash.com/photo-1580870069867-74c57ee1bb07", 4.6, 189),
    SeedRow("Tea Tree Acne Control Serum", 649, 499, "skincare", "acne",
            "https://images.unsplash.com/photo-1591130901921-3f0652bb3915", 4.5, 156),
    SeedRow("Retinol Anti-Aging Night Cream", 1299, 999, "skincare", "aging",
            "https://images.pexels.com/photos/19797381/pexels-photo-19797381.jpeg", 4.8, 312),
    SeedRow("Biotin Hair Growth Shampoo", 599, 449, "haircare", "hair_fall",
            "https://images.unsplash.com/photo-1647920155220-538f9bf35586", 4.5, 278),
    SeedRow("Anti-Dandruff Tea Tree Shampoo", 549, 399, "haircare", "dandruff",
            "https://images.unsplash.com/photo-1624939461078-66a124b3539c", 4.6, 201),
    SeedRow("Argan Oil Hair Serum", 799, 649, "haircare", "frizzy_hair",
            "https://images.unsplash.com/photo-1734892494600-c0b59a3f7cdb", 4.7, 167),
    SeedRow("Deep Conditioning Hair Mask", 699, 549, "haircare", "damaged_hair",
            "https://images.pexels.com/photos/3738341/pexels-photo-3738341.jpeg", 4.8, 245),
    SeedRow("Coconut Body Butter", 849, 699, "bodycare", "dry_skin",
            "https://images.unsplash.com/photo-1610551745215-1a4b5f36de8f", 4.7, 198),
    SeedRow("Vitamin E Body Lotion", 599, 449, "bodycare", "dull_skin",
            "https://images.unsplash.com/photo-1598662957563-ee4965d4d72c", 4.5, 134),
    SeedRow("Coffee Body Scrub", 549, 399, "bodycare", "dull_skin",
            "https://images.unsplash.com/photo-1526947425960-945c6e72858f", 4.6, 223),
    SeedRow("Lavender Bath Salts", 499, 349, "bodycare", "stress",
            "https://images.pexels.com/photos/4202325/pexels-photo-4202325.jpeg", 4.8, 145)
  ]

  function Seeded(id: string, row: SeedRow): Product {
    Product(id, row.name, "", row.price, Some(row.offer), row.category, Some(row.concern),
            [row.image], row.rating, row.reviews, None, None, true)
  }

  /** The sample products, one per row; `ids` are the generated uuids. */
  function SeedProducts(ids: seq<string>): (r: seq<Product>)
    requires |ids| == |SeedRows|
    ensures |r| == |SeedRows| && r != []
    ensures forall k :: 0 <= k < |r| ==> r[k].id == ids[k] && r[k].offerPrice == Some(SeedRows[k].offer)
  {
    seq(|ids|, k requires 0 <= k < |ids| => Seeded(ids[k], SeedRows[k]))
  }

  /** Every sample product is on offer below its list price. */
  lemma SeedOffersBelowPrice()
    ensures forall k :: 0 <= k < |SeedRows| ==> 0 < SeedRows[k].offer < SeedRows[k].price
  {
  }

  /** The catalog after `init_products`: seeded only when empty. */
  function Initialized(products: seq<Product>, ids: seq<string>): seq<Product>
    requires |ids| == |SeedRows|
  {
    if |products| > 0 then products else SeedProducts(ids)
  }

  /** Seeding twice is seeding once. */
  lemma InitIdempotent(products: seq<Product>, ids: seq<string>, ids': seq<string>)
    requires |ids| == |SeedRows| && |ids'| == |SeedRows|
    ensures Initialized(Initialized(products, ids), ids') == Initialized(products, ids)
  {
  }

  /** `update_product`: replace the first product with the id. */
  function Replaced(products: seq<Product>, pid: string, p: Product): (r: seq<Product>)
    ensures |r| == |products|
    decreases |products|
  {
    if |products| == 0 then []
    else if products[0].id == pid then [p] + products[1..]
    else [products[0]] + Replaced(products[1..], pid, p)
  }

  /** `delete_product`: drop the first product with the id. */
  function WithoutProduct(products: seq<Product>, pid: string): (r: seq<Product>)
    ensures |r| == if GetProduct(products, pid).Ok? then |products| - 1 else |products|
    ensures forall p :: p in r ==> p in products
    ensures forall p :: p in products && p.id != pid ==> p in r
    decreases |products|
  {
    if |products| == 0 then []
    else if products[0].id == pid then
      assert forall p :: p in products && p.id != pid ==> p in products[1..];
      products[1..]
    else
      assert forall p :: p in products ==> p == products[0] || p in products[1..];
      [products[0]] + WithoutProduct(products[1..], pid)
  }

  /** Product ids are generated uuids, so no two stored products share one. */
  predicate UniqueProductIds(products: seq<Product>) {
    forall i, j :: 0 <= i < j < |products| ==> products[i].id != products[j].id
  }

  /** With unique ids, `get_product` answers 404 after `delete_product`. */
  lemma {:induction false} DeleteThenGet(products: seq<Product>, pid: string)
    requires UniqueProductIds(products)
    ensures GetProduct(WithoutProduct(products, pid), pid) == Failure(404)
    decreases |products|
  {
    if |products| > 0 {
      var tail := products[1..];
      assert forall j :: 0 <= j < |tail| ==> tail[j] == products[j + 1];
      if products[0].id == pid {
        forall p | p in tail ensures p.id != pid {
          var j :| 0 <= j < |tail| && tail[j] == p;
          assert products[0].id != products[j + 1].id;
        }
      } else {
        DeleteThenGet(tail, pid);
      }
    }
  }

  /** After `update_product` on a stored id, `get_product` returns the
      submitted product under that id. */
  lemma {:induction false} UpdateThenGet(products: seq<Product>, pid: string, p: Product)
    requires GetProduct(products, pid).Ok?
    ensures GetProduct(Replaced(products, pid, p.(id := pid)), pid) == Ok(p.(id := pid))
    decreases |products|
  {
    if products[0].id != pid {
      UpdateThenGet(products[1..], pid, p);
    }
  }

  /** `update_product` and `delete_product` leave every other id's product as it was. */
  lemma {:induction false} ProductEditsSpareOthers(products: seq<Product>, pid: string, p: Product, other: string)
    requires other != pid
    ensures GetProduct(Replaced(products, pid, p.(id := pid)), other) == GetProduct(products, other)
    ensures GetProduct(WithoutProduct(products, pid), other) == GetProduct(products, other)
    decreases |products|
  {
    if |products| > 0 && products[0].id != pid {
      ProductEditsSpareOthers(products[1..], pid, p, other);
    }
  }

  // ===========================================================================
  // The store
  // ===========================================================================

  /** Outcome of `update_cart_item`. */
  datatype Reply = Done | NotFound

  /** Outcome of `init_products`. */
  datatype InitReply = AlreadyInitialized | Inserted(count: nat)

  const AddressListLimit: nat := 100

  class Store {
    var products: seq<Product>
    var carts: map<string, seq<CartItem>>
    var wishlists: map<string, seq<string>>
    var addresses: seq<Address>
    var orders: seq<Order>

    constructor ()
      ensures products == [] && carts == map[] && wishlists == map[] && addresses == [] && orders == []
    {
      products, carts, wishlists, addresses, orders := [], map[], map[], [], [];
    }

    /** `get_cart`: the user's lines, or none when there is no cart. */
    function GetCart(uid: string): (r: seq<CartItem>)
      reads this
      ensures uid in carts ==> r == carts[uid]
      ensures uid !in carts ==> r == []
    {
      if uid in carts then carts[uid] else []
    }

    /** `add_to_cart`: a first add creates a cart holding just the item. */
    method AddToCart(uid: string, item: CartItem)
      modifies this`carts
      ensures uid !in old(carts) ==> carts == old(carts)[uid := [item]]
      ensures uid in old(carts) ==> carts == old(carts)[uid := Merged(old(carts)[uid], item)]
      ensures GetCart(uid) == Merged(old(GetCart(uid)), item)
    {
      if uid !in carts {
        carts := carts[uid := [item]];
      } else {
        var items := MergeLine(carts[uid], item);
        carts := carts[uid := items];
      }
    }

    /** `update_cart_item`: 404 without a cart. */
    method UpdateCartItem(uid: string, pid: string, quantity: int) returns (r: Reply)
      modifies this`carts
      ensures uid !in old(carts) ==> r == NotFound && carts == old(carts)
      ensures uid in old(carts) ==> r == Done && carts == old(carts)[uid := Updated(old(carts)[uid], pid, quantity)]
    {
      if uid !in carts {
        return NotFound;
      }
      var items := ApplyQuantity(carts[uid], pid, quantity);
      carts := carts[uid := items];
      r := Done;
    }

    /** `remove_from_cart`: without a cart the update matches nothing. */
    method RemoveFromCart(uid: string, pid: string)
      modifies this`carts
      ensures carts == if uid in old(carts) then old(carts)[uid := Pulled(old(carts)[uid], pid)] else old(carts)
    {
      if uid in carts {
        carts := carts[uid := Pulled(carts[uid], pid)];
      }
    }

    /** `add_to_wishlist`: a first add creates a wishlist holding just the id. */
    method AddToWishlist(uid: string, pid: string)
      modifies this`wishlists
      ensures wishlists == old(wishlists)[uid := if uid in old(wishlists) then AddedToSet(old(wishlists)[uid], pid) else [pid]]
    {
      if uid !in wishlists {
        wishlists := wishlists[uid := [pid]];
      } else {
        wishlists := wishlists[uid := AddedToSet(wishlists[uid], pid)];
      }
    }

    /** `remove_from_wishlist`. */
    method RemoveFromWishlist(uid: string, pid: string)
      modifies this`wishlists
      ensures wishlists == if uid in old(wishlists) then old(wishlists)[uid := PulledId(old(wishlists)[uid], pid)] else old(wishlists)
    {
      if uid in wishlists {
        wishlists := wishlists[uid := PulledId(wishlists[uid], pid)];
      }
    }

    /** `get_addresses`: the user's addresses, at most 100. */
    function GetAddresses(uid: string): (r: seq<Address>)
      reads this
      ensures |r| == Min(|AddressesOf(addresses, uid)|, AddressListLimit)
      ensures r <= AddressesOf(addresses, uid)
      ensures forall a :: a in r ==> a in addresses && a.userId == uid
      ensures |AddressesOf(addresses, uid)| <= AddressListLimit ==>
        forall a :: a in addresses && a.userId == uid ==> a in r
    {
      Take(AddressesOf(addresses, uid), AddressListLimit)
    }

    /** `create_address`: the address is stamped with the caller's id and stored. */
    method CreateAddress(uid: string, address: Address) returns (saved: Address)
      modifies this`addresses
      ensures saved == address.(userId := uid)
      ensures addresses == old(addresses) + [saved]
      ensures AddressesOf(addresses, uid) == AddressesOf(old(addresses), uid) + [saved]
    {
      saved := address.(userId := uid);
      CreatedAddressComesLast(addresses, saved);
      addresses := addresses + [saved];
    }

    /** `delete_address`. */
    method DeleteAddress(uid: string, aid: string)
      modifies this`addresses
      ensures addresses == WithoutAddress(old(addresses), aid, uid)
      ensures AddressesOf(addresses, uid) == WithoutAddress(AddressesOf(old(addresses), uid), aid, uid)
    {
      DeleteAddressFromOwnList(addresses, aid, uid);
      addresses := WithoutAddress(addresses, aid, uid);
    }

    /** `create_order`: store the order, then delete the user's cart. */
    method CreateOrder(uid: string, oid: string, req: OrderRequest) returns (orderId: string)
      modifies this`orders, this`carts
      ensures orders == old(orders) + [NewOrder(oid, uid, req)]
      ensures carts == old(carts) - {uid}
      ensures orderId == oid
    {
      orders := orders + [NewOrder(oid, uid, req)];
      carts := carts - {uid};
      orderId := oid;
    }

    /** `update_order_status`. */
    method UpdateOrderStatus(oid: string, status: string)
      modifies this`orders
      ensures orders == WithStatus(old(orders), oid, status)
    {
      orders := WithStatus(orders, oid, status);
    }

    /** `create_product`. */
    method CreateProduct(p: Product)
      modifies this`products
      ensures products == old(products) + [p]
    {
      products := products + [p];
    }

    /** `update_product`: the stored document takes the path's id. */
    method UpdateProduct(pid: string, p: Product)
      modifies this`products
      ensures products == Replaced(old(products), pid, p.(id := pid))
    {
      products := Replaced(products, pid, p.(id := pid));
    }

    /** `delete_product`: orders keep their own snapshot of the product. */
    method DeleteProduct(pid: string)
      modifies this`products
      ensures products == WithoutProduct(old(products), pid)
    {
      products := WithoutProduct(products, pid);
    }

    /** `init_products`: seeds only an empty catalog. */
    method InitProducts(ids: seq<string>) returns (r: InitReply)
      requires |ids| == |SeedRows|
      modifies this`products
      ensures products == Initialized(old(products), ids)
      ensures r == if |old(products)| > 0 then AlreadyInitialized else Inserted(|SeedRows|)
    {
      if |products| > 0 {
        return AlreadyInitialized;
      }
      products := SeedProducts(ids);
      r := Inserted(|SeedRows|);
    }
  }
}

/** The product detail page (frontend/src/pages/ProductDetailPage.js): the
    quantity stepper, the related-products strip, the login guards of the
    cart buttons and the wishlist toggle. */
module ProductDetail {
  import opened Common
  import opened Models
  import Server

  // ---------------------------------------------------------------------------
  // Related products
  // ---------------------------------------------------------------------------

  /** `filter(p => p.id !== id)`: the fetched list without the product on show. */
  function Others(products: seq<Product>, id: string): (r: seq<Product>)
    ensures |r| <= |products|
    ensures forall p :: p in r ==> p in products && p.id != id
    decreases |products|
  {
    if |products| == 0 then []
    else (if products[0].id != id then [products[0]] else []) + Others(products[1..], id)
  }

  /** The filter distributes over concatenation, so it keeps the fetched order. */
  lemma {:induction false} OthersAppend(a: seq<Product>, b: seq<Product>, id: string)
    ensures Others(a + b, id) == Others(a, id) + Others(b, id)
    decreases |a|
  {
    if |a| == 0 {
      assert a + b == b;
    } else {
      assert (a + b)[1..] == a[1..] + b;
      OthersAppend(a[1..], b, id);
    }
  }

  /** Every fetched product with another id is kept. */
  lemma {:induction false} OthersComplete(products: seq<Product>, id: string, p: Product)
    requires p in products && p.id != id
    ensures p in Others(products, id)
    decreases |products|
  {
    if products[0] != p {
      assert p in products[1..];
      OthersComplete(products[1..], id, p);
    }
  }

  const RelatedLimit: nat := 4

  /** `filter(p => p.id !== id).slice(0, 4)`. */
  function Related(products: seq<Product>, id: string): (r: seq<Product>)
    ensures |r| == Min(|Others(products, id)|, RelatedLimit)
    ensures r <= Others(products, id)
    ensures forall p :: p in r ==> p in products && p.id != id
  {
    var r := Take(Others(products, id), RelatedLimit);
    assert forall p :: p in r ==> p in Others(products, id) by {
      forall p | p in r ensures p in Others(products, id) {
        var k :| 0 <= k < |r| && r[k] == p;
        assert Others(products, id)[k] == p;
      }
    }
    r
  }

  /** Fetched with the shown product's category, the strip holds at most four
      other products of that category, provided the category is non-empty. */
  lemma RelatedShareCategory(catalog: seq<Product>, shown: Product, regex: (string, string) -> bool)
    requires shown.category != ""
    ensures var r := Related(Server.GetProducts(catalog, Some(shown.category), None, None, regex), shown.id);
      |r| <= RelatedLimit &&
      forall p :: p in r ==> p in catalog && p.id != shown.id && p.category == shown.category
  {
  }

  /** An empty category is not a filter for the backend: the strip is then
      taken from the whole catalog. */
  lemma RelatedWithBlankCategory(catalog: seq<Product>, regex: (string, string) -> bool)
    ensures Server.GetProducts(catalog, Some(""), None, None, regex) == Take(catalog, Server.ProductListLimit)
  {
    Server.GetProductsUnfiltered(catalog, regex);
  }

  // ---------------------------------------------------------------------------
  // Quantity stepper
  // ---------------------------------------------------------------------------

  datatype Press = Minus | Plus

  /** The stepper buttons: minus is `Math.max(1, quantity - 1)`, plus adds one. */
  function Step(quantity: int, press: Press): (r: int)
    ensures press == Minus ==> r >= 1 && (quantity > 1 ==> r == quantity - 1) && (quantity <= 1 ==> r == 1)
    ensures press == Plus ==> r == quantity + 1
  {
    match press
    case Minus => if quantity - 1 > 1 then quantity - 1 else 1
    case Plus => quantity + 1
  }

  /** The quantity after a run of presses. */
  function AfterPresses(quantity: int, presses: seq<Press>): int
    decreases |presses|
  {
    if |presses| == 0 then quantity else AfterPresses(Step(quantity, presses[0]), presses[1..])
  }

  /** From any quantity of at least 1, no run of presses leaves it below 1
      or raises it by more than one per press. */
  lemma {:induction false} PressesKeepQuantityPositive(quantity: int, presses: seq<Press>)
    requires quantity >= 1
    ensures 1 <= AfterPresses(quantity, presses) <= quantity + |presses|
    decreases |presses|
  {
    if |presses| > 0 {
      PressesKeepQuantityPositive(Step(quantity, presses[0]), presses[1..]);
    }
  }

  /** Minus undoes plus. */
  lemma MinusUndoesPlus(quantity: int)
    requires quantity >= 1
    ensures Step(Step(quantity, Plus), Minus) == quantity
  {
  }

  // ---------------------------------------------------------------------------
  // Wishlist
  // ---------------------------------------------------------------------------

  /** The request of the wishlist toggle. */
  datatype WishlistRequest = Add(productId: string) | Remove(productId: string)

  function WishlistRequestFor(isWishlisted: bool, productId: string): (r: WishlistRequest)
    ensures r.Remove? <==> isWishlisted
    ensures r.productId == productId
  {
    if isWishlisted then Remove(productId) else Add(productId)
  }

  /** The user's stored wishlist after the backend served the request (absent
      when the user has none yet). */
  function WishlistAfter(wishlist: Option<seq<string>>, request: WishlistRequest): Option<seq<string>> {
    match request
    case Add(pid) => Some(if wishlist.Some? then Server.AddedToSet(wishlist.value, pid) else [pid])
    case Remove(pid) => if wishlist.Some? then Some(Server.PulledId(wishlist.value, pid)) else None
  }

  predicate Member(wishlist: Option<seq<string>>, pid: string) {
    wishlist.Some? && pid in wishlist.value
  }

  /** Whatever the flag and the stored wishlist were, after a successful
      toggle the stored membership is the new flag, and no other product's
      membership changed. */
  lemma ToggleSyncsFlag(wishlist: Option<seq<string>>, isWishlisted: bool, pid: string)
    ensures Member(WishlistAfter(wishlist, WishlistRequestFor(isWishlisted, pid)), pid) == !isWishlisted
    ensures forall x :: x != pid ==>
      (Member(WishlistAfter(wishlist, WishlistRequestFor(isWishlisted, pid)), x) <==> Member(wishlist, x))
  {
    if isWishlisted && wishlist.Some? {
      forall x | x != pid
        ensures x in Server.PulledId(wishlist.value, pid) <==> x in wishlist.value
      {
        Server.PulledIdMembers(wishlist.value, pid, x);
      }
    }
  }

  // ---------------------------------------------------------------------------
  // The page
  // ---------------------------------------------------------------------------

  /** How a button press ends, by its toast. */
  datatype Outcome = LoginRequired | Succeeded | Failed

  class ProductDetailPage {
    /** The `:id` route parameter. */
    const id: string
    var product: Option<Product>
    var related: seq<Product>
    var quantity: int
    var loading: bool
    var isWishlisted: bool

    /** The quantity shown is never below 1. */
    predicate Valid()
      reads this
    {
      quantity >= 1
    }

    constructor (id: string)
      ensures Valid() && this.id == id
      ensures product == None && related == [] && quantity == 1 && loading && !isWishlisted
    {
      this.id := id;
      product, related, quantity, loading, isWishlisted := None, [], 1, true, false;
    }

    /** `fetchProduct`: `reply` answers `GET /products/{id}`; the related
        list is then requested with that product's category (returned) and
        `relatedReply` answers it. Either failure stops there. */
    method FetchProduct(reply: Result<Product>, relatedReply: Result<seq<Product>>) returns (relatedCategory: Option<string>)
      modifies this`product, this`related, this`loading
      ensures !loading
      ensures reply.Failure? ==> product == old(product) && related == old(related) && relatedCategory == None
      ensures reply.Ok? ==> product == Some(reply.value) && relatedCategory == Some(reply.value.category)
      ensures reply.Ok? ==> related == if relatedReply.Ok? then Related(relatedReply.value, id) else old(related)
    {
      relatedCategory := None;
      if reply.Ok? {
        product := Some(reply.value);
        relatedCategory := Some(reply.value.category);
        if relatedReply.Ok? {
          related := Related(relatedReply.value, id);
        }
      }
      loading := false;
    }

    method Decrement()
      requires Valid()
      modifies this`quantity
      ensures Valid() && quantity == Step(old(quantity), Minus)
    {
      quantity := Step(quantity, Minus);
    }

    method Increment()
      requires Valid()
      modifies this`quantity
      ensures Valid() && quantity == Step(old(quantity), Plus)
    {
      quantity := Step(quantity, Plus);
    }

    /** `handleAddToCart`: refused without a user, nothing sent; otherwise
        the shown product with the chosen quantity is posted and `reply`
        answers it (a success also refreshes the cart badge). Without a
        product, reading its id throws inside the `try` and the press fails. */
    method AddToCart(user: Option<User>, reply: Result<()>) returns (outcome: Outcome, sent: Option<CartItem>)
      requires Valid()
      ensures user.None? ==> outcome == LoginRequired && sent == None
      ensures user.Some? && product.None? ==> outcome == Failed && sent == None
      ensures user.Some? && product.Some? ==>
        sent == Some(CartItem(product.value.id, quantity)) && sent.value.quantity >= 1 &&
        outcome == if reply.Ok? then Succeeded else Failed
    {
      if user.None? {
        return LoginRequired, None;
      }
      if product.None? {
        return Failed, None;
      }
      sent := Some(CartItem(product.value.id, quantity));
      outcome := if reply.Ok? then Succeeded else Failed;
    }

    /** `handleBuyNow`: the same guard, then the add, then `/checkout`
        whether or not the add succeeded. */
    method BuyNow(user: Option<User>, reply: Result<()>) returns (outcome: Outcome, sent: Option<CartItem>, next: Option<string>)
      requires Valid()
      ensures user.None? ==> outcome == LoginRequired && sent == None && next == None
      ensures user.Some? ==> next == Some("/checkout") && outcome != LoginRequired
      ensures user.Some? && product.Some? ==> sent == Some(CartItem(product.value.id, quantity))
    {
      if user.None? {
        return LoginRequired, None, None;
      }
      outcome, sent := AddToCart(user, reply);
      next := Some("/checkout");
    }

    /** `handleWishlist`: refused without a user; otherwise removes when the
        flag is set and adds when it is clear, and a success flips the flag. */
    method ToggleWishlist(user: Option<User>, reply: Result<()>) returns (outcome: Outcome, sent: Option<WishlistRequest>)
      modifies this`isWishlisted
      ensures user.None? || product.None? ==> sent == None && isWishlisted == old(isWishlisted)
      ensures user.None? ==> outcome == LoginRequired
      ensures user.Some? && product.None? ==> outcome == Failed
      ensures user.Some? && product.Some? ==> sent == Some(WishlistRequestFor(old(isWishlisted), product.value.id))
      ensures user.Some? && product.Some? && reply.Ok? ==> isWishlisted == !old(isWishlisted) && outcome == Succeeded
      ensures user.Some? && product.Some? && reply.Failure? ==> isWishlisted == old(isWishlisted) && outcome == Failed
    {
      if user.None? {
        return LoginRequired, None;
      }
      if product.None? {
        return Failed, None;
      }
      sent := Some(WishlistRequestFor(isWishlisted, product.value.id));
      if reply.Ok? {
        isWishlisted := !isWishlisted;
        outcome := Succeeded;
      } else {
        outcome := Failed;
      }
    }
  }
}

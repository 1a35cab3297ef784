/** The session state of frontend/src/App.js: the signed-in user, the stored
    token and the cart badge count, plus the route guards. Replies of the
    backend are parameters. */
module Session {
  import opened Common
  import opened Models
  import Server

  /** The sum of the line quantities, left to right. */
  function QuantitySum(items: seq<CartItem>): int
    decreases |items|
  {
    if |items| == 0 then 0 else QuantitySum(items[..|items| - 1]) + items[|items| - 1].quantity
  }

  /** `response.data.items?.reduce(...) || 0`: no item list counts 0. */
  function CartCount(items: Option<seq<CartItem>>): (r: int)
    ensures items.None? ==> r == 0
    ensures items.Some? ==> r == QuantitySum(items.value)
  {
    if items.Some? then QuantitySum(items.value) else 0
  }

  lemma {:induction false} QuantitySumAppend(a: seq<CartItem>, b: seq<CartItem>)
    ensures QuantitySum(a + b) == QuantitySum(a) + QuantitySum(b)
    decreases |b|
  {
    if |b| == 0 {
      assert a + b == a;
    } else {
      assert (a + b)[..|a + b| - 1] == a + b[..|b| - 1];
      QuantitySumAppend(a, b[..|b| - 1]);
    }
  }

  /** Positive lines give a count at least the number of lines. */
  lemma {:induction false} QuantitySumAtLeastLines(items: seq<CartItem>)
    requires Server.PositiveQuantities(items)
    ensures QuantitySum(items) >= |items|
    decreases |items|
  {
    if |items| > 0 {
      QuantitySumAtLeastLines(items[..|items| - 1]);
    }
  }

  lemma QuantitySumReplace(items: seq<CartItem>, i: nat, line: CartItem)
    requires i < |items|
    ensures QuantitySum(items[i := line]) == QuantitySum(items) - items[i].quantity + line.quantity
  {
    var replaced := items[i := line];
    assert items == items[..i] + [items[i]] + items[i + 1..];
    assert replaced == items[..i] + [line] + items[i + 1..];
    QuantitySumAppend(items[..i] + [items[i]], items[i + 1..]);
    QuantitySumAppend(items[..i], [items[i]]);
    QuantitySumAppend(items[..i] + [line], items[i + 1..]);
    QuantitySumAppend(items[..i], [line]);
    assert [line][..0] == [] && [items[i]][..0] == [];
  }

  /** After `add_to_cart` the badge grows by exactly the quantity added. */
  lemma MergedRaisesCount(items: seq<CartItem>, item: CartItem)
    ensures QuantitySum(Server.Merged(items, item)) == QuantitySum(items) + item.quantity
  {
    match Server.FirstIndex(items, item.productId)
    case None =>
      QuantitySumAppend(items, [item]);
      assert [item][..0] == [];
    case Some(i) =>
      QuantitySumReplace(items, i, items[i].(quantity := items[i].quantity + item.quantity));
  }

  /** The routes only a signed-in user may open. */
  predicate Protected(path: string) {
    path == "/checkout" || path == "/account"
  }

  /** Where the router sends a visitor: a protected route without a user
      goes to the home page. */
  function RouteTarget(path: string, signedIn: bool): (r: string)
    ensures Protected(r) ==> signedIn && r == path
    ensures !Protected(path) ==> r == path
    ensures signedIn ==> r == path
    ensures Protected(path) && !signedIn ==> r == "/"
  {
    if Protected(path) && !signedIn then "/" else path
  }

  class Session {
    var user: Option<User>
    var cartCount: int
    /** `localStorage` `token`. */
    var storedToken: Option<string>
    /** The `Authorization` bearer token on every request. */
    var authHeader: Option<string>
    var loading: bool

    /** A signed-in user always has a stored token that is also sent. */
    predicate Valid()
      reads this
    {
      user.Some? ==> storedToken.Some? && authHeader == storedToken
    }

    constructor (storedToken: Option<string>)
      ensures Valid()
      ensures user == None && cartCount == 0 && authHeader == None && loading
      ensures this.storedToken == storedToken
    {
      user, cartCount, authHeader, loading := None, 0, None, true;
      this.storedToken := storedToken;
    }

    /** `fetchCartCount`: `reply` is the `GET /cart` reply's item list; a
        failed request resets the count to 0. */
    method FetchCartCount(reply: Result<Option<seq<CartItem>>>)
      modifies this`cartCount
      ensures cartCount == if reply.Ok? then CartCount(reply.value) else 0
    {
      if reply.Ok? {
        cartCount := CartCount(reply.value);
      } else {
        cartCount := 0;
      }
    }

    /** `fetchUser`, which runs only at start-up, once a stored token is being sent: a
        rejected token is dropped; loading ends either way. */
    method FetchUser(me: Result<User>)
      requires user.None? && storedToken.Some? && authHeader == storedToken
      modifies this`user, this`storedToken, this`authHeader, this`loading
      ensures Valid() && !loading
      ensures me.Ok? ==> user == Some(me.value) && storedToken == old(storedToken) && authHeader == old(authHeader)
      ensures me.Failure? ==> user == None && storedToken == None && authHeader == None
    {
      if me.Ok? {
        user := Some(me.value);
      } else {
        storedToken := None;
        authHeader := None;
      }
      loading := false;
    }

    /** The mount effect: with a stored token, send it and fetch the user;
        then fetch the cart count. */
    method Start(me: Result<User>, cart: Result<Option<seq<CartItem>>>)
      requires Valid() && user.None?
      modifies this
      ensures Valid() && !loading
      ensures cartCount == if cart.Ok? then CartCount(cart.value) else 0
      ensures old(storedToken).None? ==> user == None && storedToken == None && authHeader == old(authHeader)
      ensures old(storedToken).Some? && me.Ok? ==> user == Some(me.value) && storedToken == old(storedToken) && authHeader == old(storedToken)
      ensures old(storedToken).Some? && me.Failure? ==> user == None && storedToken == None && authHeader == None
    {
      if storedToken.Some? {
        authHeader := storedToken;
        FetchUser(me);
      } else {
        loading := false;
      }
      FetchCartCount(cart);
    }

    /** `login`: store and send the token, set the user, refresh the count. */
    method Login(token: string, userData: User, cart: Result<Option<seq<CartItem>>>)
      modifies this`storedToken, this`authHeader, this`user, this`cartCount
      ensures Valid()
      ensures storedToken == Some(token) && authHeader == Some(token) && user == Some(userData)
      ensures cartCount == if cart.Ok? then CartCount(cart.value) else 0
    {
      storedToken := Some(token);
      authHeader := Some(token);
      user := Some(userData);
      FetchCartCount(cart);
    }

    /** `logout`: forget the token and the user; the badge shows 0. */
    method Logout()
      modifies this`storedToken, this`authHeader, this`user, this`cartCount
      ensures Valid()
      ensures storedToken == None && authHeader == None && user == None && cartCount == 0
    {
      storedToken, authHeader, user, cartCount := None, None, None, 0;
    }
  }
}

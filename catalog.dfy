/** The product list page (frontend/src/pages/ProductListPage.js): filter
    state, the query parameters it sends, and the in-place sort of the
    fetched list. */
module Catalog {
  import opened Common
  import opened Models
  import Pricing
  import Server

  /** The page's filter state; `sort` is one of the four options, or empty
      when a fetch is made without one. */
  datatype Filters = Filters(category: string, concern: string, search: string, sort: string)

  const DefaultFilters: Filters := Filters("", "", "", "featured")

  /** `params.get(name) || ''`: a missing URL parameter reads as empty. */
  function UrlParam(value: Option<string>): (r: string)
    ensures value.None? ==> r == ""
    ensures value.Some? ==> r == value.value
  {
    value.GetOr("")
  }

  /** `fetchProducts`' `params`: exactly the non-empty text filters. */
  function QueryParams(f: Filters): (params: map<string, string>)
    ensures "category" in params <==> f.category != ""
    ensures "concern" in params <==> f.concern != ""
    ensures "search" in params <==> f.search != ""
    ensures "category" in params ==> params["category"] == f.category
    ensures "concern" in params ==> params["concern"] == f.concern
    ensures "search" in params ==> params["search"] == f.search
    ensures forall k :: k in params ==> k == "category" || k == "concern" || k == "search"
  {
    var p0: map<string, string> := map[];
    var p1 := if f.category != "" then p0["category" := f.category] else p0;
    var p2 := if f.concern != "" then p1["concern" := f.concern] else p1;
    if f.search != "" then p2["search" := f.search] else p2
  }

  /** How the backend reads one query parameter. */
  function Lookup(params: map<string, string>, name: string): Option<string> {
    if name in params then Some(params[name]) else None
  }

  /** The backend filters on exactly the fields the page has set: the page's
      empty-means-absent rule and the backend's truthiness rule agree. */
  lemma ParamsReachQuery(f: Filters)
    ensures var params := QueryParams(f);
      Server.BuildQuery(Lookup(params, "category"), Lookup(params, "concern"), Lookup(params, "search")) ==
      Server.Query(if f.category != "" then Some(f.category) else None,
                   if f.concern != "" then Some(f.concern) else None,
                   if f.search != "" then Some(f.search) else None)
  {
  }

  // ---------------------------------------------------------------------------
  // Sorting
  // ---------------------------------------------------------------------------

  /** Non-decreasing by `key`. */
  predicate SortedBy(s: seq<Product>, key: Product -> real) {
    forall i, j :: 0 <= i < j < |s| ==> key(s[i]) <= key(s[j])
  }

  function PriceKey(p: Product): real {
    Pricing.EffectivePrice(p) as real
  }

  function NegPriceKey(p: Product): real {
    -(Pricing.EffectivePrice(p) as real)
  }

  function NegRatingKey(p: Product): real {
    -p.rating
  }

  /** What each sort option promises of the list it produces. */
  predicate OrderedFor(s: seq<Product>, sort: string) {
    && (sort == "price-low" ==> forall i, j :: 0 <= i < j < |s| ==>
          Pricing.EffectivePrice(s[i]) <= Pricing.EffectivePrice(s[j]))
    && (sort == "price-high" ==> forall i, j :: 0 <= i < j < |s| ==>
          Pricing.EffectivePrice(s[i]) >= Pricing.EffectivePrice(s[j]))
    && (sort == "rating" ==> forall i, j :: 0 <= i < j < |s| ==> s[i].rating >= s[j].rating)
  }

  predicate Sorts(sort: string) {
    sort == "price-low" || sort == "price-high" || sort == "rating"
  }

  /** Exchange two neighbours. */
  method Swap(a: array<Product>, j: int)
    requires 0 < j < a.Length
    modifies a
    ensures a[..] == old(a[..])[j - 1 := old(a[j])][j := old(a[j - 1])]
    ensures multiset(a[..]) == multiset(old(a[..]))
  {
    a[j - 1], a[j] := a[j], a[j - 1];
  }

  /** One insertion step: `a[i]` moves left past every larger key. */
  method InsertNext(a: array<Product>, i: int, key: Product -> real)
    requires 0 < i < a.Length && SortedBy(a[..i], key)
    modifies a
    ensures SortedBy(a[..i + 1], key)
    ensures multiset(a[..]) == multiset(old(a[..]))
  {
    var j := i;
    assert forall m :: 0 <= m < i ==> a[..i][m] == a[m];
    while j > 0 && key(a[j - 1]) > key(a[j])
      invariant 0 <= j <= i
      invariant forall m, n :: 0 <= m < n <= i && m != j && n != j ==> key(a[m]) <= key(a[n])
      invariant forall n :: j < n <= i ==> key(a[j]) <= key(a[n])
      invariant multiset(a[..]) == multiset(old(a[..]))
    {
      Swap(a, j);
      j := j - 1;
    }
    assert forall m, n :: 0 <= m < n <= i ==> key(a[m]) <= key(a[n]);
  }

  /** `Array.prototype.sort` with a comparator on `key`, as an insertion sort. */
  method SortBy(a: array<Product>, key: Product -> real)
    modifies a
    ensures SortedBy(a[..], key)
    ensures multiset(a[..]) == multiset(old(a[..]))
  {
    if a.Length == 0 {
      return;
    }
    var i := 1;
    while i < a.Length
      invariant 1 <= i <= a.Length
      invariant SortedBy(a[..i], key)
      invariant multiset(a[..]) == multiset(old(a[..]))
    {
      InsertNext(a, i, key);
      i := i + 1;
    }
    assert a[..a.Length] == a[..];
  }

  /** The sort step of `fetchProducts`; any other option keeps the server order. */
  method SortFor(a: array<Product>, sort: string)
    modifies a
    ensures OrderedFor(a[..], sort)
    ensures multiset(a[..]) == multiset(old(a[..]))
    ensures !Sorts(sort) ==> a[..] == old(a[..])
  {
    if sort == "price-low" {
      SortBy(a, PriceKey);
    } else if sort == "price-high" {
      SortBy(a, NegPriceKey);
    } else if sort == "rating" {
      SortBy(a, NegRatingKey);
    }
  }

  class ProductListPage {
    var products: seq<Product>
    var loading: bool
    var filters: Filters

    constructor ()
      ensures products == [] && loading && filters == DefaultFilters
    {
      products, loading, filters := [], true, DefaultFilters;
    }

    /** `fetchProducts(args)`: `reply` answers the request with `params`; a
        failed request keeps the shown list. */
    method FetchProducts(args: Filters, reply: Result<seq<Product>>) returns (params: map<string, string>)
      modifies this`products, this`loading
      ensures params == QueryParams(args) && !loading
      ensures reply.Failure? ==> products == old(products)
      ensures reply.Ok? ==> multiset(products) == multiset(reply.value) && OrderedFor(products, args.sort)
      ensures reply.Ok? && !Sorts(args.sort) ==> products == reply.value
    {
      loading := true;
      params := QueryParams(args);
      if reply.Ok? {
        var a := new Product[|reply.value|](i requires 0 <= i < |reply.value| => reply.value[i]);
        assert a[..] == reply.value;
        SortFor(a, args.sort);
        products := a[..];
      }
      loading := false;
    }

    /** The URL effect: take the text filters from the URL (missing ones
        empty) and fetch without a sort, so the server order is shown. */
    method LoadFromUrl(category: Option<string>, concern: Option<string>, search: Option<string>,
                       reply: Result<seq<Product>>) returns (params: map<string, string>)
      modifies this`products, this`loading, this`filters
      ensures filters == old(filters).(category := UrlParam(category), concern := UrlParam(concern), search := UrlParam(search))
      ensures params == QueryParams(Filters(UrlParam(category), UrlParam(concern), UrlParam(search), ""))
      ensures reply.Ok? ==> products == reply.value
      ensures reply.Failure? ==> products == old(products)
    {
      filters := filters.(category := UrlParam(category), concern := UrlParam(concern), search := UrlParam(search));
      params := FetchProducts(Filters(UrlParam(category), UrlParam(concern), UrlParam(search), ""), reply);
    }

    /** `handleSortChange`. */
    method ChangeSort(sort: string, reply: Result<seq<Product>>) returns (params: map<string, string>)
      modifies this`products, this`loading, this`filters
      ensures filters == old(filters).(sort := sort)
      ensures params == QueryParams(filters)
      ensures reply.Ok? ==> multiset(products) == multiset(reply.value) && OrderedFor(products, sort)
      ensures reply.Failure? ==> products == old(products)
    {
      filters := filters.(sort := sort);
      params := FetchProducts(filters, reply);
    }

    /** A category radio button. */
    method SelectCategory(category: string, reply: Result<seq<Product>>) returns (params: map<string, string>)
      modifies this`products, this`loading, this`filters
      ensures filters == old(filters).(category := category)
      ensures params == QueryParams(filters)
      ensures reply.Ok? ==> multiset(products) == multiset(reply.value) && OrderedFor(products, filters.sort)
      ensures reply.Failure? ==> products == old(products)
    {
      filters := filters.(category := category);
      params := FetchProducts(filters, reply);
    }

    /** A concern radio button. */
    method SelectConcern(concern: string, reply: Result<seq<Product>>) returns (params: map<string, string>)
      modifies this`products, this`loading, this`filters
      ensures filters == old(filters).(concern := concern)
      ensures params == QueryParams(filters)
      ensures reply.Ok? ==> multiset(products) == multiset(reply.value) && OrderedFor(products, filters.sort)
      ensures reply.Failure? ==> products == old(products)
    {
      filters := filters.(concern := concern);
      params := FetchProducts(filters, reply);
    }

    /** `clearFilters`: back to the defaults, fetched with no parameter. */
    method ClearFilters(reply: Result<seq<Product>>) returns (params: map<string, string>)
      modifies this`products, this`loading, this`filters
      ensures filters == DefaultFilters && params == map[]
      ensures reply.Ok? ==> products == reply.value
      ensures reply.Failure? ==> products == old(products)
    {
      filters := DefaultFilters;
      params := FetchProducts(DefaultFilters, reply);
    }
  }
}

/** The shop's product list: filters, pages, and the dialog that adds a
    product to the cart or steps the quantity of its line. */
module UserProductsPage {
  import opened Outcomes
  import opened Types
  import opened Sequences
  import opened QueryParams
  import opened Pagination
  import opened CartProvider
  import CartPage

  const FetchError: string := "Gagal fetch data products"

  predicate NameIs(name: string, item: CartItem) {
    item.name == name
  }

  /** `cart.find(item => item.name === selectedProduct?.name)`: the first line
      with the selected product's name; none when nothing is selected. */
  function CartItemFor(cart: seq<CartItem>, selected: Option<Product>): (r: Option<CartItem>)
    ensures selected.None? ==> r.None?
    ensures selected.Some? && r.None? ==> forall i :: 0 <= i < |cart| ==> cart[i].name != selected.value.name
    ensures selected.Some? && r.Some? ==> r.value.name == selected.value.name
    ensures selected.Some? && r.Some? ==>
      exists k :: 0 <= k < |cart| && cart[k] == r.value && forall j :: 0 <= j < k ==> cart[j].name != selected.value.name
  {
    if selected.None? then None
    else match FirstIndex(cart, item => NameIs(selected.value.name, item))
      case None => None
      case Some(k) => Some(cart[k])
  }

  /** `{ ...selectedProduct, quantity: 1 }`, as far as a cart line reads it. */
  function AsCartItem(p: Product): (item: CartItem)
    ensures item.name == p.name && item.picture == p.picture && item.price == p.price && item.quantity == 1
  {
    CartItem(p.id, p.name, p.picture, p.price, 1)
  }

  ghost predicate DistinctNames(a: CartItem, b: CartItem) {
    a.name != b.name
  }

  /** No two lines share a name. */
  ghost predicate UniqueNames(cart: seq<CartItem>) {
    Pairwise(cart, DistinctNames)
  }

  /** The dialog offers "Add to Cart" only when the product has no line, so an
      add through this page never makes a second line with the same name. */
  lemma {:induction false} AddKeepsNamesUnique(s: CartState, p: Product)
    requires UniqueNames(s.cart)
    requires CartItemFor(s.cart, Some(p)).None?
    ensures UniqueNames(Added(s, AsCartItem(p)).cart)
  {
    var r := Added(s, AsCartItem(p)).cart;
    forall i, j | 0 <= i < j < |r| ensures DistinctNames(r[i], r[j]) {
      assert r[j] == s.cart[j - 1];
      if i > 0 {
        assert r[i] == s.cart[i - 1];
      }
    }
  }

  /** The `+` and `-` buttons of the dialog keep the names unique as well. */
  lemma {:induction false} StepperKeepsNamesUnique(s: CartState, id: int, currentQty: int)
    requires UniqueNames(s.cart)
    ensures UniqueNames(CartPage.Increased(s, id, currentQty).cart)
    ensures UniqueNames(CartPage.Decreased(s, id, currentQty).cart)
  {
    forall q ensures UniqueNames(QuantityUpdated(s, id, q).cart) {
      var r := QuantityUpdated(s, id, q).cart;
      forall i, j | 0 <= i < j < |r| ensures DistinctNames(r[i], r[j]) {
        assert DistinctNames(s.cart[i], s.cart[j]);
      }
    }
    FilterOutPairwise(s.cart, item => HasId(id, item), DistinctNames);
  }

  /** The request of the product list: price bounds only when filled in. */
  function ProductQuery(sortBy: string, orderBy: string, minPrice: string, maxPrice: string,
                        limit: int, page: int): (r: seq<Param>)
    ensures Keys(r) == {"sortBy", "orderBy", "limit", "page"}
      + (if minPrice == "" then {} else {"minPrice"})
      + (if maxPrice == "" then {} else {"maxPrice"})
    ensures SendsOnly(r, "sortBy", Text(sortBy)) && SendsOnly(r, "orderBy", Text(orderBy))
    ensures SendsOnly(r, "limit", Number(limit)) && SendsOnly(r, "page", Number(page))
    ensures minPrice != "" ==> SendsOnly(r, "minPrice", Text(minPrice))
    ensures maxPrice != "" ==> SendsOnly(r, "maxPrice", Text(maxPrice))
  {
    SortedWithBounds(sortBy, orderBy, "minPrice", minPrice, "maxPrice", maxPrice, limit, page)
  }

  class ProductsView {
    var products: seq<Product>
    var loading: bool
    var selectedProduct: Option<Product>
    var sortBy: string
    var orderBy: string
    var minPrice: string
    var maxPrice: string
    var errorMsg: Option<string>
    const pager: Pager

    ghost predicate Valid()
      reads this, pager
    {
      pager.Valid()
    }

    constructor ()
      ensures Valid() && fresh(pager)
      ensures products == [] && loading && selectedProduct.None? && errorMsg.None?
      ensures sortBy == "price" && orderBy == "asc" && minPrice == "" && maxPrice == ""
      ensures pager.page == 1 && pager.limit == 10 && pager.totalPages == 1
    {
      products, loading, selectedProduct := [], true, None;
      sortBy, orderBy, minPrice, maxPrice := "price", "asc", "", "";
      errorMsg := None;
      pager := new Pager();
    }

    function Query(): seq<Param>
      reads this, pager
    {
      ProductQuery(sortBy, orderBy, minPrice, maxPrice, pager.limit, pager.page)
    }

    /** The fetch effect, given the outcome of `GET /product/`; it returns the
        request parameters it sends. */
    method FetchPosts(response: Outcome<Listing<Product>>) returns (params: seq<Param>)
      requires Valid()
      modifies this, pager
      ensures Valid()
      ensures params == old(Query())
      ensures response.Success? ==>
        && products == response.value.items
        && pager.totalPages == TotalPages(response.value.total, pager.limit)
        && errorMsg == Some("")
      ensures response.Failure? ==>
        && products == old(products) && pager.totalPages == old(pager.totalPages)
        && errorMsg == Some(FetchError)
      ensures !loading && selectedProduct == old(selectedProduct)
      ensures sortBy == old(sortBy) && orderBy == old(orderBy)
      ensures minPrice == old(minPrice) && maxPrice == old(maxPrice)
      ensures pager.page == old(pager.page) && pager.limit == old(pager.limit)
    {
      params := Query();
      match response {
        case Success(listing) =>
          products := listing.items;
          pager.ApplyTotal(listing.total);
          errorMsg := Some("");
        case Failure(_, _) =>
          errorMsg := Some(FetchError);
      }
      loading := false;
    }

    /** A click on a product card opens its dialog. */
    method Select(p: Product)
      modifies this
      ensures selectedProduct == Some(p)
      ensures products == old(products) && loading == old(loading) && errorMsg == old(errorMsg)
      ensures sortBy == old(sortBy) && orderBy == old(orderBy)
      ensures minPrice == old(minPrice) && maxPrice == old(maxPrice)
    {
      selectedProduct := Some(p);
    }

    /** Whether the dialog shows "Add to Cart" rather than the `-`/`+` pair. */
    function OffersAdd(cart: seq<CartItem>): (b: bool)
      reads this
      ensures b <==> selectedProduct.None? || forall i :: 0 <= i < |cart| ==> cart[i].name != selectedProduct.value.name
    {
      CartItemFor(cart, selectedProduct).None?
    }

    /** `handleAddToCart`: the dialog only opens on a selected product. */
    method HandleAddToCart(store: CartStore)
      requires store.Valid() && selectedProduct.Some?
      modifies store
      ensures store.Valid()
      ensures store.State() == Added(old(store.State()), AsCartItem(selectedProduct.value))
      ensures old(OffersAdd(store.cart)) && old(UniqueNames(store.cart)) ==> UniqueNames(store.cart)
    {
      if OffersAdd(store.cart) && UniqueNames(store.cart) {
        AddKeepsNamesUnique(store.State(), selectedProduct.value);
      }
      store.AddItem(AsCartItem(selectedProduct.value));
    }
  }
}

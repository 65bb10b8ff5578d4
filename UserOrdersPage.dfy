/** The shopper's order history, priced from the product list. */
module UserOrdersPage {
  import opened Outcomes
  import opened Types
  import opened Sequences
  import opened QueryParams
  import opened Pagination

  predicate ProductNamed(name: string, p: Product) {
    p.name == name
  }

  /** `k` is the index of the first product called `name`. */
  predicate IsFirstNamed(products: seq<Product>, name: string, k: nat) {
    k < |products| && products[k].name == name && forall j :: 0 <= j < k ==> products[j].name != name
  }

  /** `products.find(p => p.name === name)?.price ?? 0`. */
  function ItemPrice(products: seq<Product>, name: string): (r: int)
    ensures (forall i :: 0 <= i < |products| ==> products[i].name != name) ==> r == 0
    ensures forall k: nat :: IsFirstNamed(products, name, k) ==> r == products[k].price
  {
    match FirstIndex(products, p => ProductNamed(name, p))
    case None => 0
    case Some(k) => products[k].price
  }

  /** The amount shown beside a line: its product's price times its quantity;
      0 for a product that is not in the list. */
  function LineAmount(products: seq<Product>, item: CartItem): (r: int)
    ensures (forall i :: 0 <= i < |products| ==> products[i].name != item.name) ==> r == 0
    ensures forall k: nat :: IsFirstNamed(products, item.name, k) ==> r == products[k].price * item.quantity
  {
    ItemPrice(products, item.name) * item.quantity
  }

  /** The request of `GET /order/my-orders`: total bounds only when filled in. */
  function MyOrdersQuery(sortBy: string, orderBy: string, minTotal: string, maxTotal: string,
                         limit: int, page: int): (r: seq<Param>)
    ensures Keys(r) == {"sortBy", "orderBy", "limit", "page"}
      + (if minTotal == "" then {} else {"minTotal"})
      + (if maxTotal == "" then {} else {"maxTotal"})
    ensures SendsOnly(r, "sortBy", Text(sortBy)) && SendsOnly(r, "orderBy", Text(orderBy))
    ensures SendsOnly(r, "limit", Number(limit)) && SendsOnly(r, "page", Number(page))
    ensures minTotal != "" ==> SendsOnly(r, "minTotal", Text(minTotal))
    ensures maxTotal != "" ==> SendsOnly(r, "maxTotal", Text(maxTotal))
  {
    SortedWithBounds(sortBy, orderBy, "minTotal", minTotal, "maxTotal", maxTotal, limit, page)
  }

  class MyOrdersView {
    var products: seq<Product>
    var orders: seq<Order>
    var loading: bool
    var sortBy: string
    var orderBy: string
    var minTotal: string
    var maxTotal: string
    const pager: Pager

    ghost predicate Valid()
      reads this, pager
    {
      pager.Valid()
    }

    constructor ()
      ensures Valid() && fresh(pager)
      ensures products == [] && orders == [] && !loading
      ensures sortBy == "createdAt" && orderBy == "desc" && minTotal == "" && maxTotal == ""
      ensures pager.page == 1 && pager.limit == 10 && pager.totalPages == 1
    {
      products, orders, loading := [], [], false;
      sortBy, orderBy, minTotal, maxTotal := "createdAt", "desc", "", "";
      pager := new Pager();
    }

    function Query(): seq<Param>
      reads this, pager
    {
      MyOrdersQuery(sortBy, orderBy, minTotal, maxTotal, pager.limit, pager.page)
    }

    /** The product effect, given the outcome of `GET /product`; a failure is
        only logged. The page never raises `loading`; this only lowers it. */
    method FetchProducts(response: Outcome<Listing<Product>>)
      requires Valid()
      modifies this
      ensures Valid()
      ensures products == if response.Success? then response.value.items else old(products)
      ensures orders == old(orders) && !loading
      ensures sortBy == old(sortBy) && orderBy == old(orderBy)
      ensures minTotal == old(minTotal) && maxTotal == old(maxTotal)
    {
      if response.Success? {
        products := response.value.items;
      }
      loading := false;
    }

    /** The order effect, given the outcome of `GET /order/my-orders`; it returns
        the request parameters it sends. */
    method FetchOrders(response: Outcome<Listing<Order>>) returns (params: seq<Param>)
      requires Valid()
      modifies this, pager
      ensures Valid()
      ensures params == old(Query())
      ensures response.Success? ==>
        orders == response.value.items && pager.totalPages == TotalPages(response.value.total, pager.limit)
      ensures response.Failure? ==> orders == old(orders) && pager.totalPages == old(pager.totalPages)
      ensures products == old(products) && !loading
      ensures sortBy == old(sortBy) && orderBy == old(orderBy)
      ensures minTotal == old(minTotal) && maxTotal == old(maxTotal)
      ensures pager.page == old(pager.page) && pager.limit == old(pager.limit)
    {
      params := Query();
      match response {
        case Success(listing) =>
          orders := listing.items;
          pager.ApplyTotal(listing.total);
        case Failure(_, _) =>
      }
      loading := false;
    }
  }
}

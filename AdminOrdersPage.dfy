/** The admin order table: filters, pages, and the item count of each order. */
module AdminOrdersPage {
  import opened Outcomes
  import opened Types
  import opened QueryParams
  import opened Pagination

  const FetchError: string := "Gagal fetch data orders"

  /** `order.cart.map(item => item.quantity).reduce((a, b) => a + b, 0)`. */
  function ItemCount(cart: seq<CartItem>): int {
    if cart == [] then 0 else cart[0].quantity + ItemCount(cart[1..])
  }

  /** The count is additive over any split of the cart, 0 for an empty cart,
      and at least the number of lines when every quantity is positive. */
  lemma {:induction false} ItemCountConcat(a: seq<CartItem>, b: seq<CartItem>)
    ensures ItemCount(a + b) == ItemCount(a) + ItemCount(b)
  {
    if a == [] {
      assert a + b == b;
    } else {
      assert (a + b)[1..] == a[1..] + b;
      ItemCountConcat(a[1..], b);
    }
  }

  lemma {:induction false} ItemCountBounds(cart: seq<CartItem>)
    requires forall i :: 0 <= i < |cart| ==> cart[i].quantity >= 1
    ensures ItemCount(cart) >= |cart|
    ensures ItemCount(cart) == 0 <==> cart == []
  {
    if cart != [] {
      ItemCountBounds(cart[1..]);
    }
  }

  /** The example of two lines with quantities 2 and 1. */
  lemma ItemCountExample()
    ensures ItemCount([CartItem(2, "A", "", 1000, 2), CartItem(1, "B", "", 500, 1)]) == 3
  {
  }

  function OrderFilters(minTotal: string, maxTotal: string, startDate: string, endDate: string): seq<Param> {
    IfNotEmpty("minTotal", minTotal) + IfNotEmpty("maxTotal", maxTotal)
      + IfNotEmpty("startDate", startDate) + IfNotEmpty("endDate", endDate)
  }

  /** The filter keys are those of the filled-in fields. */
  lemma OrderFilterKeys(minTotal: string, maxTotal: string, startDate: string, endDate: string)
    ensures Keys(OrderFilters(minTotal, maxTotal, startDate, endDate)) ==
      (if minTotal == "" then {} else {"minTotal"})
      + (if maxTotal == "" then {} else {"maxTotal"})
      + (if startDate == "" then {} else {"startDate"})
      + (if endDate == "" then {} else {"endDate"})
  {
    var a, b := IfNotEmpty("minTotal", minTotal), IfNotEmpty("maxTotal", maxTotal);
    var c, d := IfNotEmpty("startDate", startDate), IfNotEmpty("endDate", endDate);
    KeysConcat(a, b);
    KeysConcat(a + b, c);
    KeysConcat(a + b + c, d);
    KeysOfOne("minTotal", minTotal);
    KeysOfOne("maxTotal", maxTotal);
    KeysOfOne("startDate", startDate);
    KeysOfOne("endDate", endDate);
  }

  /** The request of `GET /order`: each bound and date only when filled in. */
  function OrderQuery(sortBy: string, orderBy: string, minTotal: string, maxTotal: string,
                      startDate: string, endDate: string, limit: int, page: int): (r: seq<Param>)
    ensures Keys(r) == {"sortBy", "orderBy", "limit", "page"}
      + (if minTotal == "" then {} else {"minTotal"})
      + (if maxTotal == "" then {} else {"maxTotal"})
      + (if startDate == "" then {} else {"startDate"})
      + (if endDate == "" then {} else {"endDate"})
    ensures minTotal != "" ==> Param("minTotal", Text(minTotal)) in r
    ensures maxTotal != "" ==> Param("maxTotal", Text(maxTotal)) in r
    ensures startDate != "" ==> Param("startDate", Text(startDate)) in r
    ensures endDate != "" ==> Param("endDate", Text(endDate)) in r
    ensures SendsOnly(r, "sortBy", Text(sortBy)) && SendsOnly(r, "orderBy", Text(orderBy))
    ensures SendsOnly(r, "limit", Number(limit)) && SendsOnly(r, "page", Number(page))
  {
    var filters := OrderFilters(minTotal, maxTotal, startDate, endDate);
    OrderFilterKeys(minTotal, maxTotal, startDate, endDate);
    SortedKeys(sortBy, orderBy, filters, limit, page);
    OrderFiltersAvoidFixed(minTotal, maxTotal, startDate, endDate);
    SortedSends(sortBy, orderBy, filters, limit, page);
    OrderFiltersSent(sortBy, orderBy, minTotal, maxTotal, startDate, endDate, limit, page);
    Sorted(sortBy, orderBy, filters, limit, page)
  }

  /** No filter of the order table reuses one of the four fixed keys. */
  lemma OrderFiltersAvoidFixed(minTotal: string, maxTotal: string, startDate: string, endDate: string)
    ensures Keys(OrderFilters(minTotal, maxTotal, startDate, endDate)) * FixedKeys == {}
  {
    OrderFilterKeys(minTotal, maxTotal, startDate, endDate);
    var ks := Keys(OrderFilters(minTotal, maxTotal, startDate, endDate));
    assert ks <= {"minTotal", "maxTotal", "startDate", "endDate"};
  }

  /** Each filled-in bound and date is sent with its text. */
  lemma OrderFiltersSent(sortBy: string, orderBy: string, minTotal: string, maxTotal: string,
                         startDate: string, endDate: string, limit: int, page: int)
    ensures var r := Sorted(sortBy, orderBy, OrderFilters(minTotal, maxTotal, startDate, endDate), limit, page);
      && (minTotal != "" ==> Param("minTotal", Text(minTotal)) in r)
      && (maxTotal != "" ==> Param("maxTotal", Text(maxTotal)) in r)
      && (startDate != "" ==> Param("startDate", Text(startDate)) in r)
      && (endDate != "" ==> Param("endDate", Text(endDate)) in r)
  {
  }

  class AdminOrdersView {
    var orders: seq<Order>
    var loading: bool
    var sortBy: string
    var orderBy: string
    var minTotal: string
    var maxTotal: string
    var startDate: string
    var endDate: string
    var errorMsg: string
    const pager: Pager

    ghost predicate Valid()
      reads this, pager
    {
      pager.Valid()
    }

    constructor ()
      ensures Valid() && fresh(pager)
      ensures orders == [] && !loading && errorMsg == ""
      ensures sortBy == "createdAt" && orderBy == "desc"
      ensures minTotal == "" && maxTotal == "" && startDate == "" && endDate == ""
      ensures pager.page == 1 && pager.limit == 10 && pager.totalPages == 1
    {
      orders, loading, errorMsg := [], false, "";
      sortBy, orderBy := "createdAt", "desc";
      minTotal, maxTotal, startDate, endDate := "", "", "", "";
      pager := new Pager();
    }

    function Query(): seq<Param>
      reads this, pager
    {
      OrderQuery(sortBy, orderBy, minTotal, maxTotal, startDate, endDate, pager.limit, pager.page)
    }

    /** The fetch effect, given the outcome of `GET /order`; it returns the
        request parameters it sends. */
    method FetchOrders(response: Outcome<Listing<Order>>) returns (params: seq<Param>)
      requires Valid()
      modifies this, pager
      ensures Valid()
      ensures params == old(Query())
      ensures response.Success? ==>
        && orders == response.value.items
        && pager.totalPages == TotalPages(response.value.total, pager.limit)
        && errorMsg == ""
      ensures response.Failure? ==>
        orders == old(orders) && pager.totalPages == old(pager.totalPages) && errorMsg == FetchError
      ensures !loading && pager.page == old(pager.page) && pager.limit == old(pager.limit)
      ensures sortBy == old(sortBy) && orderBy == old(orderBy)
      ensures minTotal == old(minTotal) && maxTotal == old(maxTotal)
      ensures startDate == old(startDate) && endDate == old(endDate)
    {
      params := Query();
      Receive(response);
    }

    /** What the fetch does with the response once the request is sent. */
    method Receive(response: Outcome<Listing<Order>>)
      requires Valid()
      modifies this, pager
      ensures Valid()
      ensures response.Success? ==>
        && orders == response.value.items
        && pager.totalPages == TotalPages(response.value.total, pager.limit)
        && errorMsg == ""
      ensures response.Failure? ==>
        orders == old(orders) && pager.totalPages == old(pager.totalPages) && errorMsg == FetchError
      ensures !loading && pager.page == old(pager.page) && pager.limit == old(pager.limit)
      ensures sortBy == old(sortBy) && orderBy == old(orderBy)
      ensures minTotal == old(minTotal) && maxTotal == old(maxTotal)
      ensures startDate == old(startDate) && endDate == old(endDate)
    {
      loading := true;
      match response {
        case Success(listing) =>
          orders := listing.items;
          pager.ApplyTotal(listing.total);
          errorMsg := "";
        case Failure(_, _) =>
          errorMsg := FetchError;
      }
      loading := false;
    }
  }
}

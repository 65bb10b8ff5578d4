/** The admin summary of orders per user. */
module OrdersGroupByPage {
  import opened Outcomes
  import opened Types
  import opened QueryParams
  import opened Pagination

  const FetchError: string := "Gagal fetch data orders"

  /** The request of `GET /order/group-by-user`: only the page size and page. */
  function GroupQuery(limit: int, page: int): (r: seq<Param>)
    ensures Keys(r) == {"limit", "page"}
    ensures Param("limit", Number(limit)) in r && Param("page", Number(page)) in r
  {
    var r := [Param("limit", Number(limit)), Param("page", Number(page))];
    assert r[0].key == "limit" && r[1].key == "page";
    r
  }

  class OrdersByUserView {
    var orders: seq<GroupedOrders>
    var loading: bool
    var errorMsg: string
    const pager: Pager

    ghost predicate Valid()
      reads this, pager
    {
      pager.Valid()
    }

    constructor ()
      ensures Valid() && fresh(pager)
      ensures orders == [] && !loading && errorMsg == ""
      ensures pager.page == 1 && pager.limit == 10 && pager.totalPages == 1
    {
      orders, loading, errorMsg := [], false, "";
      pager := new Pager();
    }

    function Query(): seq<Param>
      reads pager
    {
      GroupQuery(pager.limit, pager.page)
    }

    /** The fetch effect, given the outcome of `GET /order/group-by-user`; it
        returns the request parameters it sends. */
    method FetchOrders(response: Outcome<Listing<GroupedOrders>>) returns (params: seq<Param>)
      requires Valid()
      modifies this, pager
      ensures Valid()
      ensures params == old(Query())
      ensures response.Success? ==>
        && orders == response.value.items
        && pager.totalPages == TotalPages(response.value.total, pager.limit)
        && errorMsg == ""
      ensures response.Failure? ==>
        orders == old(orders) && pager.totalPages == old(pager.totalPages) && errorMsg == FetchError
      ensures !loading && pager.page == old(pager.page) && pager.limit == old(pager.limit)
    {
      params := Query();
      loading := true;
      match response {
        case Success(listing) =>
          orders := listing.items;
          pager.ApplyTotal(listing.total);
          errorMsg := "";
        case Failure(_, _) =>
          errorMsg := FetchError;
      }
      loading := false;
    }
  }
}

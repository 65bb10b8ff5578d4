/** The admin table of deleted products: fetch a page, restore a product. */
module DeletedProductsPage {
  import opened Outcomes
  import opened Types
  import opened QueryParams
  import opened Pagination
  import AdminProductsPage

  /** The number in the first column: `index + 1`, with no page offset. */
  function RowNumber(index: nat): int {
    index + 1
  }

  /** The numbering restarts at 1 on every page: on any page after the first it
      differs from the offset numbering of the product table. */
  lemma RowNumberRestarts(index: nat, page: int, limit: int)
    requires limit >= 1 && page >= 2
    ensures RowNumber(index) == Pagination.RowNumber(index, 1, limit)
    ensures RowNumber(index) < Pagination.RowNumber(index, page, limit)
  {
  }

  class DeletedProductsView {
    var deletedProducts: seq<Product>
    var loading: bool
    var sortBy: string
    var orderBy: string
    const pager: Pager

    ghost predicate Valid()
      reads this, pager
    {
      pager.Valid()
    }

    constructor ()
      ensures Valid() && fresh(pager)
      ensures deletedProducts == [] && !loading && sortBy == "name" && orderBy == "asc"
      ensures pager.page == 1 && pager.limit == 10 && pager.totalPages == 1
    {
      deletedProducts, loading, sortBy, orderBy := [], false, "name", "asc";
      pager := new Pager();
    }

    /** The request of `GET /product/deleted`: the same four entries as the
        product table. */
    function Query(): seq<Param>
      reads this, pager
    {
      AdminProductsPage.ProductQuery(sortBy, orderBy, pager.limit, pager.page)
    }

    /** `fetchDeletedProducts`, given the outcome of `GET /product/deleted`; it
        returns the request parameters it sends. */
    method FetchDeletedProducts(response: Outcome<Listing<Product>>) returns (params: seq<Param>)
      requires Valid()
      modifies this, pager
      ensures Valid()
      ensures params == old(Query())
      ensures response.Success? ==>
        deletedProducts == response.value.items && pager.totalPages == TotalPages(response.value.total, pager.limit)
      ensures response.Failure? ==> deletedProducts == old(deletedProducts) && pager.totalPages == old(pager.totalPages)
      ensures !loading && pager.page == old(pager.page) && pager.limit == old(pager.limit)
      ensures sortBy == old(sortBy) && orderBy == old(orderBy)
    {
      params := Query();
      loading := true;
      match response {
        case Success(listing) =>
          deletedProducts := listing.items;
          pager.ApplyTotal(listing.total);
        case Failure(_, _) =>
      }
      loading := false;
    }

    /** `handleRestore(id)`, given the answer to the confirmation and the outcome
        of `PATCH /product/{id}/restore`; a failure is only logged. */
    method HandleRestore(id: int, confirmed: bool, response: Outcome<()>) returns (requested: bool)
      modifies this
      ensures requested == confirmed
      ensures !confirmed ==> deletedProducts == old(deletedProducts) && loading == old(loading)
      ensures confirmed && response.Success? ==>
        deletedProducts == AdminProductsPage.WithoutProduct(old(deletedProducts), id)
      ensures confirmed && response.Failure? ==> deletedProducts == old(deletedProducts)
      ensures confirmed ==> !loading
      ensures sortBy == old(sortBy) && orderBy == old(orderBy)
    {
      requested := confirmed;
      if !confirmed {
        return;
      }
      loading := true;
      if response.Success? {
        deletedProducts := AdminProductsPage.WithoutProduct(deletedProducts, id);
      }
      loading := false;
    }
  }
}

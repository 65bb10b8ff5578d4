/** The admin product table: fetch a page, delete a product. */
module AdminProductsPage {
  import opened Outcomes
  import opened Types
  import opened Sequences
  import opened QueryParams
  import opened Pagination

  const DeletePrefix: string := "failed to delete product: "

  predicate ProductHasId(id: int, p: Product) {
    p.id == id
  }

  /** `prev.filter(product => product.id !== id)`. */
  function WithoutProduct(products: seq<Product>, id: int): seq<Product> {
    FilterOut(products, p => ProductHasId(id, p))
  }

  /** The local list loses exactly the products with that id and keeps the
      others in their order. */
  lemma {:induction false} WithoutProductExactly(products: seq<Product>, id: int, front: seq<Product>, back: seq<Product>)
    ensures forall i :: 0 <= i < |WithoutProduct(products, id)| ==>
      WithoutProduct(products, id)[i].id != id && WithoutProduct(products, id)[i] in products
    ensures forall i :: 0 <= i < |products| && products[i].id != id ==> products[i] in WithoutProduct(products, id)
    ensures WithoutProduct(front + back, id) == WithoutProduct(front, id) + WithoutProduct(back, id)
    ensures WithoutProduct(WithoutProduct(products, id), id) == WithoutProduct(products, id)
  {
    FilterOutConcat(front, back, p => ProductHasId(id, p));
    FilterOutIdempotent(products, p => ProductHasId(id, p));
  }

  /** The request of the table: always the same four entries. */
  function ProductQuery(sortBy: string, orderBy: string, limit: int, page: int): (r: seq<Param>)
    ensures Keys(r) == {"sortBy", "orderBy", "limit", "page"}
    ensures SendsOnly(r, "sortBy", Text(sortBy)) && SendsOnly(r, "orderBy", Text(orderBy))
    ensures SendsOnly(r, "limit", Number(limit)) && SendsOnly(r, "page", Number(page))
  {
    SortedKeys(sortBy, orderBy, [], limit, page);
    assert Keys([]) == {};
    SortedSends(sortBy, orderBy, [], limit, page);
    Sorted(sortBy, orderBy, [], limit, page)
  }

  class AdminProductsView {
    var products: seq<Product>
    var loading: bool
    var sortBy: string
    var orderBy: string
    const pager: Pager

    ghost predicate Valid()
      reads this, pager
    {
      pager.Valid()
    }

    constructor ()
      ensures Valid() && fresh(pager)
      ensures products == [] && !loading && sortBy == "price" && orderBy == "asc"
      ensures pager.page == 1 && pager.limit == 10 && pager.totalPages == 1
    {
      products, loading, sortBy, orderBy := [], false, "price", "asc";
      pager := new Pager();
    }

    function Query(): seq<Param>
      reads this, pager
    {
      ProductQuery(sortBy, orderBy, pager.limit, pager.page)
    }

    /** `fetchProducts`, given the outcome of `GET /product/`: a failure keeps
        the list and the page count. It returns the request parameters. */
    method FetchProducts(response: Outcome<Listing<Product>>) returns (params: seq<Param>)
      requires Valid()
      modifies this, pager
      ensures Valid()
      ensures params == old(Query())
      ensures response.Success? ==>
        products == response.value.items && pager.totalPages == TotalPages(response.value.total, pager.limit)
      ensures response.Failure? ==> products == old(products) && pager.totalPages == old(pager.totalPages)
      ensures !loading && pager.page == old(pager.page) && pager.limit == old(pager.limit)
      ensures sortBy == old(sortBy) && orderBy == old(orderBy)
    {
      params := Query();
      loading := true;
      match response {
        case Success(listing) =>
          products := listing.items;
          pager.ApplyTotal(listing.total);
        case Failure(_, _) =>
      }
      loading := false;
    }

    /** `handleDelete(id)`, given the answer to the confirmation and the outcome
        of `DELETE /product/{id}/delete`. Returns whether the request was sent
        and the alert text shown on failure. */
    method HandleDelete(id: int, confirmed: bool, response: Outcome<()>)
      returns (requested: bool, alert: Option<string>)
      modifies this
      ensures requested == confirmed
      ensures !confirmed ==> products == old(products) && loading == old(loading) && alert.None?
      ensures confirmed && response.Success? ==> products == WithoutProduct(old(products), id) && alert.None?
      ensures confirmed && response.Failure? ==>
        products == old(products) && alert == Some(DeletePrefix + MessageOr(response.message, response.cause))
      ensures confirmed ==> !loading
      ensures sortBy == old(sortBy) && orderBy == old(orderBy)
    {
      requested, alert := confirmed, None;
      if !confirmed {
        return;
      }
      loading := true;
      match response {
        case Success(_) =>
          products := WithoutProduct(products, id);
        case Failure(message, cause) =>
          alert := Some(DeletePrefix + MessageOr(message, cause));
      }
      loading := false;
    }
  }
}

/**
 * The listing view's state: the loaded products, the search term, the
 * filtered list and the current page. The setters below each do what one
 * state update does together with the filter effect it triggers.
 */
module Listing {
  import opened Catalog
  import opened Paging
  import opened PageRange

  class ListingView {
    var products: seq<Product>
    var searchTerm: string
    var filteredProducts: seq<Product>
    var currentPage: int

    /**
     * The filtered list is always the products that match the term, and the
     * current page is a page of it (page 1 when there are no pages at all).
     */
    ghost predicate Valid()
      reads this
    {
      && filteredProducts == Filter(products, searchTerm)
      && 1 <= currentPage <= Max(1, PageCount())
    }

    /** `totalPages`. */
    function PageCount(): (r: nat)
      reads this
      ensures r == 0 <==> filteredProducts == []
      ensures (r - 1) * PageSize < |filteredProducts| <= r * PageSize
    {
      TotalPages(|filteredProducts|)
    }

    /** `currentItems`. */
    function Items(): (r: seq<Product>)
      reads this
      ensures |r| <= PageSize
      ensures forall p :: p in r ==> p in filteredProducts
      ensures Valid() && filteredProducts != [] ==> r != []
    {
      CurrentItems(filteredProducts, currentPage)
    }

    /** The initial state: nothing loaded, an empty search, page 1. */
    constructor ()
      ensures Valid()
      ensures products == [] && searchTerm == "" && filteredProducts == [] && currentPage == 1
    {
      products := [];
      searchTerm := "";
      filteredProducts := [];
      currentPage := 1;
    }

    /**
     * The loaded product list arrives (`setProducts`); the filter effect then
     * recomputes the filtered list with the current term and goes back to page 1.
     */
    method SetProducts(data: seq<Product>)
      modifies this
      ensures Valid()
      ensures products == data && searchTerm == old(searchTerm)
      ensures filteredProducts == Filter(data, searchTerm) && currentPage == 1
    {
      products := data;
      filteredProducts := data;
      ApplyFilter();
    }

    /**
     * The search box changes (`setSearchTerm`); the filter effect then
     * recomputes the filtered list and goes back to page 1.
     */
    method SetSearchTerm(term: string)
      modifies this
      ensures Valid()
      ensures searchTerm == term && products == old(products)
      ensures filteredProducts == Filter(products, term) && currentPage == 1
    {
      searchTerm := term;
      ApplyFilter();
    }

    /** The filter effect: filter the products by the lower-cased term, then show page 1. */
    method ApplyFilter()
      modifies this`filteredProducts, this`currentPage
      ensures Valid()
      ensures filteredProducts == Filter(products, searchTerm) && currentPage == 1
    {
      var filtered := Filter(products, searchTerm);
      filteredProducts := filtered;
      currentPage := 1;
    }

    /** `handlePageChange`: moves to `pageNumber` when it is a page, and ignores it otherwise. */
    method HandlePageChange(pageNumber: int)
      requires Valid()
      modifies this`currentPage
      ensures Valid()
      ensures currentPage == if 1 <= pageNumber <= PageCount() then pageNumber else old(currentPage)
    {
      if pageNumber >= 1 && pageNumber <= PageCount() {
        currentPage := pageNumber;
      }
    }

    /** The page picker's labels for the current state. */
    method PaginationLabels() returns (range: seq<RangeEntry>)
      requires Valid()
      ensures range == PaginationRange(PageCount(), currentPage)
      ensures |range| <= MaxListedPages
      ensures PageCount() > 0 ==> Num(currentPage) in range
      ensures forall i :: 0 <= i < |range| && range[i].Num? ==> 1 <= range[i].page <= PageCount()
    {
      range := GeneratePaginationRange(PageCount(), currentPage);
      RangeAtMostSeven(PageCount(), currentPage);
      if PageCount() > 0 {
        RangeNumbersValid(PageCount(), currentPage);
      }
    }
  }

  /**
   * Two products, owned by Alice and Bob: the term "ali" keeps only Alice's
   * widget (through its owner's name), and the page total is its price.
   */
  method SearchByOwnerExample()
  {
    var widget := Product(1, "Widget", 100, User(1, "Alice"));
    var gadget := Product(2, "Gadget", 250, User(2, "Bob"));
    var view := new ListingView();
    view.SetProducts([widget, gadget]);
    view.SetSearchTerm("ali");
    OwnerSearchExample();
    assert view.filteredProducts == [widget];
    assert view.Items() == [widget];
    assert TotalPrice(view.Items()) == 100;
  }
}

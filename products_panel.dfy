/**
  components/products-panel.tsx: twelve products per page, the page slice,
  the reset of an out-of-range page, the previous/next controls, and the grid's
  "Add to Bag" button, which adds with neither size nor colour.
 */
module Products {
  import opened Wrappers
  import opened Seqs
  import opened AgentTypes
  import opened CartLedger
  import opened Agent

  const ItemsPerPage: nat := 12

  /** `Math.ceil(n / itemsPerPage)`. */
  function TotalPages(n: nat): nat
  {
    (n + ItemsPerPage - 1) / ItemsPerPage
  }

  /** The page count is the least number of pages of twelve that hold `n` products. */
  lemma TotalPagesIsCeiling(n: nat)
    ensures TotalPages(n) * ItemsPerPage >= n
    ensures n > 0 ==> (TotalPages(n) - 1) * ItemsPerPage < n
    ensures TotalPages(n) == 0 <==> n == 0
  {
  }

  /** `currentProducts` for page `page` (counted from 1). */
  function PageSlice(products: seq<Product>, page: nat): seq<Product>
    requires page >= 1
  {
    var startIndex := (page - 1) * ItemsPerPage;
    Slice(products, startIndex, startIndex + ItemsPerPage)
  }

  /**
    A page holds at most twelve products, namely the ones from index
    `(page-1)*12` on, in order; every page from 1 to the page count is non-empty
    and every page past it is empty.
   */
  lemma PageSliceSpec(products: seq<Product>, page: nat)
    requires page >= 1
    ensures var s := PageSlice(products, page);
      && |s| <= ItemsPerPage
      && (forall i :: 0 <= i < |s| ==> s[i] == products[(page - 1) * ItemsPerPage + i])
      && (page <= TotalPages(|products|) ==> |s| > 0)
      && (page > TotalPages(|products|) ==> s == [])
  {
  }

  /** Pages 1 to `k`, one after another. */
  function PagesUpTo(products: seq<Product>, k: nat): seq<Product>
  {
    if k == 0 then [] else PagesUpTo(products, k - 1) + PageSlice(products, k)
  }

  lemma {:induction false} PagesUpToPrefix(products: seq<Product>, k: nat)
    ensures PagesUpTo(products, k) == products[..Min(k * ItemsPerPage, |products|)]
  {
    if k > 0 {
      PagesUpToPrefix(products, k - 1);
      var lo, hi := Min((k - 1) * ItemsPerPage, |products|), Min(k * ItemsPerPage, |products|);
      assert products[..hi] == products[..lo] + products[lo..hi];
    }
  }

  /** Reading the pages 1 to the page count in order gives back exactly the product list. */
  lemma PagesCoverProducts(products: seq<Product>)
    ensures PagesUpTo(products, TotalPages(|products|)) == products
  {
    PagesUpToPrefix(products, TotalPages(|products|));
    TotalPagesIsCeiling(|products|);
  }

  /** What the panel draws. */
  datatype View =
    | EmptyState
    | Grid(items: seq<Product>, page: nat, totalPages: nat, showPaging: bool, itemCount: nat)

  function PanelView(products: seq<Product>, page: nat): View
    requires page >= 1
  {
    if |products| == 0 then EmptyState
    else
      var totalPages := TotalPages(|products|);
      Grid(PageSlice(products, page), page, totalPages, totalPages > 1, |products|)
  }

  /** The empty state shows exactly for no products; the paging controls show exactly when there is more than one page, that is, more than twelve products. */
  lemma PanelViewSpec(products: seq<Product>, page: nat)
    requires page >= 1
    ensures PanelView(products, page).EmptyState? <==> products == []
    ensures PanelView(products, page).Grid? ==>
      && (PanelView(products, page).showPaging <==> |products| > ItemsPerPage)
      && |PanelView(products, page).items| <= ItemsPerPage
  {
    PageSliceSpec(products, page);
  }

  /** The line that the grid's "Add to Bag" creates or increments has the key `(id, no size, no colour)`. */
  lemma GridAddKey(cart: seq<CartLine>, product: Product)
    requires ValidCart(cart)
    ensures var r := CartLedger.AddToCart(cart, product, None, None);
      exists i :: 0 <= i < |r| && KeyOf(r[i]) == LineKey(product.id, None, None)
  {
    var k := LineKey(product.id, None, None);
    var r := CartLedger.AddToCart(cart, product, None, None);
    if HasKey(cart, k) {
      var i :| 0 <= i < |cart| && KeyOf(cart[i]) == k;
      AddExisting(cart, product, None, None, i);
      assert KeyOf(r[i]) == k;
    } else {
      assert KeyOf(r[|cart|]) == k;
    }
  }

  class ProductsPanel {
    var currentPage: nat
    /** The component that passes `filteredProducts` and `addToCart`. */
    const agent: FashionAgent

    ghost predicate Valid()
      reads this
    {
      currentPage >= 1
    }

    /** The `products` prop. */
    function Products(): seq<Product>
      reads this, agent
    {
      agent.FilteredProducts()
    }

    constructor (agent: FashionAgent)
      ensures Valid() && this.agent == agent && currentPage == 1
    {
      this.agent := agent;
      currentPage := 1;
    }

    /**
      One render: draw the current page, then, if the list is non-empty and the
      page lies past the last one, go back to page 1.
     */
    method Render() returns (view: View)
      requires Valid()
      modifies this`currentPage
      ensures Valid()
      ensures view == PanelView(Products(), old(currentPage))
      ensures |Products()| > 0 && old(currentPage) > TotalPages(|Products()|) ==> currentPage == 1
      ensures !(|Products()| > 0 && old(currentPage) > TotalPages(|Products()|)) ==> currentPage == old(currentPage)
    {
      var products := Products();
      var totalPages := TotalPages(|products|);
      var startIndex := (currentPage - 1) * ItemsPerPage;
      var endIndex := startIndex + ItemsPerPage;
      var currentProducts := Slice(products, startIndex, endIndex);
      if |products| > 0 && currentPage > totalPages {
        view := Grid(currentProducts, currentPage, totalPages, totalPages > 1, |products|);
        currentPage := 1;
      } else if |products| == 0 {
        view := EmptyState;
      } else {
        view := Grid(currentProducts, currentPage, totalPages, totalPages > 1, |products|);
      }
    }

    /** The previous-page control (shown only with more than one page): never below page 1. */
    method Prev()
      requires Valid() && TotalPages(|Products()|) > 1
      modifies this`currentPage
      ensures Valid()
      ensures currentPage == Max(1, old(currentPage) - 1)
      ensures old(currentPage) > 1 ==> currentPage == old(currentPage) - 1
    {
      currentPage := Max(1, currentPage - 1);
    }

    /** The next-page control (shown only with more than one page): never past the last page. */
    method Next()
      requires Valid() && TotalPages(|Products()|) > 1
      modifies this`currentPage
      ensures Valid()
      ensures currentPage == Min(TotalPages(|Products()|), old(currentPage) + 1)
      ensures currentPage <= TotalPages(|Products()|)
    {
      currentPage := Min(TotalPages(|Products()|), currentPage + 1);
    }

    /** "Add to Bag" on a card: `onAddToCart(product)`, with size and colour left out. */
    method AddToBag(product: Product)
      requires agent.Valid()
      modifies agent`cart, agent`isCartOpen
      ensures agent.Valid()
      ensures agent.cart == CartLedger.AddToCart(old(agent.cart), product, None, None)
      ensures agent.isCartOpen
    {
      agent.AddToCart(product, None, None);
    }
  }
}

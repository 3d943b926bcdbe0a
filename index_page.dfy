/** The storefront page: the category filter over the in-stock catalog and the cart badge. */
module IndexPage {
  import opened Seqs
  import opened Catalog
  import opened LocalStore
  import opened CartLines
  import opened Card

  /** The filter entry that shows every category; also what the empty-list fallback selects. */
  const AllCategory: string := "All"

  /** The list the page shows for the active category (the category-filter effect). */
  function FilteredVegetables(catalog: seq<VegetableItem>, activeCategory: string): (r: seq<VegetableItem>)
    ensures |r| <= |catalog|
    ensures forall i :: 0 <= i < |r| ==> r[i] in catalog && r[i].inStock
    ensures activeCategory != AllCategory ==> forall i :: 0 <= i < |r| ==> r[i].category == activeCategory
  {
    if activeCategory == AllCategory then AvailableVegetables(catalog)
    else Filter(AvailableVegetables(catalog), InCategory(activeCategory))
  }

  /** In stock and of category `c`, as a function value. */
  function AvailableIn(c: string): VegetableItem -> bool {
    (v: VegetableItem) => v.inStock && v.category == c
  }

  /**
   * For a category other than "All", the page shows the in-stock items of
   * exactly that category, in catalog order.
   */
  lemma FilteredIsCatalogSelection(catalog: seq<VegetableItem>, c: string)
    requires c != AllCategory
    ensures FilteredVegetables(catalog, c) == Filter(catalog, AvailableIn(c))
  {
    FilterFilter(catalog, IsInStock, InCategory(c), AvailableIn(c));
  }

  /** Every shown item is an in-stock catalog item, of the active category unless that is "All". */
  lemma FilteredNeverOutOfStock(catalog: seq<VegetableItem>, activeCategory: string, v: VegetableItem)
    requires v in FilteredVegetables(catalog, activeCategory)
    ensures v in catalog && v.inStock
    ensures activeCategory != AllCategory ==> v.category == activeCategory
  {
    if activeCategory == AllCategory {
      FilterMember(catalog, IsInStock, v);
    } else {
      FilteredIsCatalogSelection(catalog, activeCategory);
      FilterMember(catalog, AvailableIn(activeCategory), v);
    }
  }

  /**
   * The fallback button selects "All", which shows the whole in-stock list;
   * so whenever any item is in stock the fallback ends the empty view.
   */
  lemma FallbackShowsAllAvailable(catalog: seq<VegetableItem>, activeCategory: string)
    requires FilteredVegetables(catalog, activeCategory) == []
    ensures forall v :: v in catalog && v.inStock ==> v in FilteredVegetables(catalog, AllCategory)
    ensures (exists i :: 0 <= i < |catalog| && catalog[i].inStock) ==> FilteredVegetables(catalog, AllCategory) != []
  {
    if exists i :: 0 <= i < |catalog| && catalog[i].inStock {
      var i :| 0 <= i < |catalog| && catalog[i].inStock;
      FilterMember(catalog, IsInStock, catalog[i]);
    }
  }

  /** The cart badge: `cart.length`. */
  function CartCount(cart: seq<CartLine>): (r: nat)
    ensures r == 0 <==> cart == []
  {
    |cart|
  }

  /**
   * The badge counts lines, not quantity: adding an item already in the cart
   * leaves it unchanged, adding a new item raises it by one, whatever the
   * quantities.
   */
  lemma CartCountCountsLines(cart: seq<CartLine>, line: CartLine)
    ensures CartCount(MergeLine(cart, line)) == CartCount(cart) + (if IndexOf(cart, line.id) >= 0 then 0 else 1)
  {
  }
}

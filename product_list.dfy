/**
 * The product list view: the category filter over the service's product
 * list, the selected category it reads (initially 0, meaning "all"), and the
 * add action that forwards to the service.
 */
module ProductList {

  import opened Wrappers
  import opened ArrayOps
  import opened ProductTypes
  import opened ProductData

  /** The category selected before any selection is made: no filtering. */
  const InitialCategoryId: int := 0

  /**
   * The filter predicate: a zero (falsy) selection keeps everything, any
   * other selection keeps the products whose `categoryId` is that selection.
   */
  predicate InCategory(selectedCategoryId: int, p: Product)
    ensures InCategory(selectedCategoryId, p) <==> selectedCategoryId == 0 || p.categoryId == Some(selectedCategoryId)
  {
    if selectedCategoryId != 0 then p.categoryId == Some(selectedCategoryId) else true
  }

  /** The filter callback for a selected category. */
  function CategoryTest(selectedCategoryId: int): Product -> bool
  {
    (p: Product) => InCategory(selectedCategoryId, p)
  }

  function FilterByCategory(products: seq<Product>, selectedCategoryId: int): (r: seq<Product>)
    ensures selectedCategoryId == 0 ==> r == products
    ensures selectedCategoryId != 0 ==> forall i :: 0 <= i < |r| ==> r[i].categoryId == Some(selectedCategoryId)
    ensures forall i :: 0 <= i < |products| && products[i].categoryId == Some(selectedCategoryId) ==> products[i] in r
    ensures forall i :: 0 <= i < |r| ==> r[i] in products
    ensures forall x :: multiset(r)[x] == if InCategory(selectedCategoryId, x) then multiset(products)[x] else 0
    ensures IsSubsequence(r, products)
  {
    var keep := CategoryTest(selectedCategoryId);
    FilterIsSubsequence(products, keep);
    if selectedCategoryId == 0 then FilterKeepsAll(products, keep); Filter(products, keep)
    else Filter(products, keep)
  }

  lemma CategoryFilterIdempotent(products: seq<Product>, selectedCategoryId: int)
    ensures FilterByCategory(FilterByCategory(products, selectedCategoryId), selectedCategoryId)
         == FilterByCategory(products, selectedCategoryId)
  {
    FilterIdempotent(products, CategoryTest(selectedCategoryId));
  }

  /** Filtering the joined list is joining the filtered list: the join keeps every `categoryId`. */
  lemma FilterCommutesWithJoin(products: seq<Product>, categories: seq<ProductCategory>, selectedCategoryId: int)
    requires AllHaveCategory(products, categories)
    ensures var filtered := FilterByCategory(products, selectedCategoryId);
            AllHaveCategory(filtered, categories)
            && FilterByCategory(ProductsWithCategory(products, categories), selectedCategoryId)
               == ProductsWithCategory(filtered, categories)
  {
    JoinedFilterCommutes(products, categories, CategoryTest(selectedCategoryId));
  }

  lemma {:induction false} JoinedFilterCommutes(products: seq<Product>, categories: seq<ProductCategory>, keep: Product -> bool)
    requires AllHaveCategory(products, categories)
    requires forall i :: 0 <= i < |products| ==> keep(WithCategory(products[i], categories)) == keep(products[i])
    ensures AllHaveCategory(Filter(products, keep), categories)
    ensures Filter(ProductsWithCategory(products, categories), keep)
            == ProductsWithCategory(Filter(products, keep), categories)
  {
    if products != [] {
      JoinedFilterCommutes(products[1..], categories, keep);
      var joined := ProductsWithCategory(products, categories);
      assert joined == [joined[0]] + ProductsWithCategory(products[1..], categories);
      assert joined[1..] == ProductsWithCategory(products[1..], categories);
    }
  }

  class ProductListComponent {

    var selectedCategoryId: int

    constructor ()
      ensures selectedCategoryId == InitialCategoryId
    {
      selectedCategoryId := InitialCategoryId;
    }

    /** The current value of `products$` for the service's product list. */
    function Products(products: seq<Product>): (r: seq<Product>)
      reads this
      ensures selectedCategoryId == InitialCategoryId ==> r == products
      ensures forall i :: 0 <= i < |r| ==> r[i] in products && InCategory(selectedCategoryId, r[i])
      ensures forall i :: 0 <= i < |products| && InCategory(selectedCategoryId, products[i]) ==> products[i] in r
      ensures forall x :: multiset(r)[x] == if InCategory(selectedCategoryId, x) then multiset(products)[x] else 0
      ensures IsSubsequence(r, products)
    {
      FilterByCategory(products, selectedCategoryId)
    }

    method OnSelected(categoryId: int)
      modifies this
      ensures selectedCategoryId == categoryId
    {
      selectedCategoryId := categoryId;
    }

    /** The add button: inserts the placeholder product through the service. */
    method OnAdd(service: ProductService)
      requires service.Valid()
      modifies service`productsWithAdd, service`inserted
      ensures service.Valid()
      ensures service.productsWithAdd == old(service.productsWithAdd) + [FakeProduct()]
    {
      service.AddNewProduct(None);
    }
  }
}

/**
 * The product data service: the category join that enriches the fetched
 * products, the selected-product lookup, the append-only accumulator fed by
 * `addNewProduct`, the placeholder product and the supplier filter for the
 * selected product. The HTTP fetches and the reactive wiring are replaced by
 * their values: the fetched products, categories and suppliers are parameters.
 */
module ProductData {

  import opened Wrappers
  import opened ArrayOps
  import opened ProductTypes

  /** A product category as fetched from `api/productCategories`; only the fields the join reads. */
  datatype ProductCategory = ProductCategory(id: int, name: string)

  /** A supplier as fetched from `api/suppliers`; only the fields the service reads. */
  datatype Supplier = Supplier(id: int, name: string)

  /** The multiplier applied to every fetched price. */
  const PriceMarkup: real := 1.5

  /** The product id selected before any selection is made. */
  const InitialSelectedProductId: int := 1

  // ---------------------------------------------------------------------------
  // Enrichment join (`productsWithCategory$`)
  // ---------------------------------------------------------------------------

  /** The `find` over categories: the first category whose id is the product's `categoryId`. */
  function CategoryOf(p: Product, categories: seq<ProductCategory>): (r: Option<ProductCategory>)
    ensures r.None? <==> forall i :: 0 <= i < |categories| ==> p.categoryId != Some(categories[i].id)
    ensures r.Some? ==> p.categoryId == Some(r.value.id)
    ensures r.Some? ==> exists k :: 0 <= k < |categories| && categories[k] == r.value
                                    && forall j :: 0 <= j < k ==> p.categoryId != Some(categories[j].id)
  {
    Find(categories, (c: ProductCategory) => p.categoryId == Some(c.id))
  }

  /** The lookup for `p` succeeds, so reading `.name` does not throw. */
  predicate HasCategory(p: Product, categories: seq<ProductCategory>)
  {
    CategoryOf(p, categories).Some?
  }

  predicate AllHaveCategory(products: seq<Product>, categories: seq<ProductCategory>)
  {
    forall i :: 0 <= i < |products| ==> HasCategory(products[i], categories)
  }

  /** `undefined * 1.5` is `NaN`, which stays outside the model's numbers as `None`. */
  function MarkedUpPrice(price: Option<real>): (r: Option<real>)
    ensures r.Some? <==> price.Some?
    ensures r.Some? ==> r.value == price.value * 3.0 / 2.0
  {
    if price.Some? then Some(price.value * PriceMarkup) else None
  }

  /** The copy of one product made by the join: marked-up price, category name, search key. */
  function WithCategory(p: Product, categories: seq<ProductCategory>): (r: Product)
    requires HasCategory(p, categories)
    ensures r.id == p.id && r.productName == p.productName
    ensures r.price == MarkedUpPrice(p.price)
    ensures r.searchKey == Some([p.productName])
    ensures p.categoryId.Some? && r.category.Some?
    ensures exists k :: 0 <= k < |categories| && r.category.value == categories[k].name
                        && IsFirstMatch(categories, (c: ProductCategory) => c.id == p.categoryId.value, k)
    ensures r.(price := p.price, category := p.category, searchKey := p.searchKey) == p
  {
    var c := CategoryOf(p, categories).value;
    p.(price := MarkedUpPrice(p.price), category := Some(c.name), searchKey := Some([p.productName]))
  }

  /** `products.map(...)` under the assumption that every lookup succeeds. */
  function ProductsWithCategory(products: seq<Product>, categories: seq<ProductCategory>): (r: seq<Product>)
    requires AllHaveCategory(products, categories)
    ensures |r| == |products|
    ensures forall i :: 0 <= i < |r| ==> r[i] == WithCategory(products[i], categories)
  {
    if products == [] then []
    else [WithCategory(products[0], categories)] + ProductsWithCategory(products[1..], categories)
  }

  /**
   * The join as the source runs it: the unguarded `.name` throws on the first
   * product without a category, which is `None` here.
   */
  function TryProductsWithCategory(products: seq<Product>, categories: seq<ProductCategory>): (r: Option<seq<Product>>)
    ensures r.Some? <==> AllHaveCategory(products, categories)
    ensures r.Some? ==> r.value == ProductsWithCategory(products, categories)
  {
    if products == [] then Some([])
    else if !HasCategory(products[0], categories) then None
    else match TryProductsWithCategory(products[1..], categories)
      case None => None
      case Some(rest) => Some([WithCategory(products[0], categories)] + rest)
  }

  // ---------------------------------------------------------------------------
  // Selection (`selectedProduct$`)
  // ---------------------------------------------------------------------------

  /** `products.find(product => product.id === id)`. */
  function SelectProduct(products: seq<Product>, id: int): (r: Option<Product>)
    ensures r.None? <==> forall i :: 0 <= i < |products| ==> products[i].id != id
    ensures r.Some? ==> exists k :: 0 <= k < |products| && products[k] == r.value && r.value.id == id
                                    && forall j :: 0 <= j < k ==> products[j].id != id
  {
    var r := Find(products, (p: Product) => p.id == id);
    assert r.Some? ==> exists k :: 0 <= k < |products| && products[k] == r.value
                                   && IsFirstMatch(products, (p: Product) => p.id == id, k);
    r
  }

  /** Enrichment keeps ids and order, so selecting after the join selects the joined copy of the raw selection. */
  lemma {:induction false} SelectAfterJoin(products: seq<Product>, categories: seq<ProductCategory>, id: int)
    requires AllHaveCategory(products, categories)
    ensures SelectProduct(products, id).None? ==> SelectProduct(ProductsWithCategory(products, categories), id).None?
    ensures SelectProduct(products, id).Some? ==>
              SelectProduct(ProductsWithCategory(products, categories), id)
              == Some(WithCategory(SelectProduct(products, id).value, categories))
  {
    if products != [] {
      SelectAfterJoin(products[1..], categories, id);
      var enriched := ProductsWithCategory(products, categories);
      assert enriched[1..] == ProductsWithCategory(products[1..], categories);
      if products[0].id == id {
        assert enriched[0].id == id;
      } else {
        assert SelectProduct(products, id) == SelectProduct(products[1..], id);
        assert SelectProduct(enriched, id) == SelectProduct(enriched[1..], id);
      }
    }
  }

  // ---------------------------------------------------------------------------
  // Accumulator (`productsWithAdd$`) and `addNewProduct`
  // ---------------------------------------------------------------------------

  /** The `scan` step: the accumulated list with the new value at its end. */
  function Append<T>(acc: seq<T>, value: T): (r: seq<T>)
    ensures |r| == |acc| + 1
    ensures r[..|acc|] == acc && r[|acc|] == value
  {
    acc + [value]
  }

  /** `scan` seeded by its first emission and then fed `values` one at a time. */
  function Scan<T>(seed: seq<T>, values: seq<T>): (r: seq<T>)
    ensures |r| == |seed| + |values|
    ensures r[..|seed|] == seed
    decreases |values|
  {
    if values == [] then seed else Scan(Append(seed, values[0]), values[1..])
  }

  lemma {:induction false} ScanIsConcatenation<T>(seed: seq<T>, values: seq<T>)
    ensures Scan(seed, values) == seed + values
    decreases |values|
  {
    if values != [] {
      ScanIsConcatenation(Append(seed, values[0]), values[1..]);
      assert seed + [values[0]] + values[1..] == seed + values;
    }
  }

  /** The placeholder product inserted by `addNewProduct()` with no argument. */
  function FakeProduct(): (p: Product)
    ensures p.id == 42 && p.productName == "Another One" && p.productCode == Some("TBX-0042")
    ensures p.description == Some("Our new product") && p.price == Some(8.9)
    ensures p.categoryId == Some(3) && p.category == Some("Toolbox") && p.quantityInStock == Some(30)
    ensures p.searchKey.None? && p.supplierIds.None? && p.status.None?
  {
    Product(
      id := 42,
      productName := "Another One",
      productCode := Some("TBX-0042"),
      description := Some("Our new product"),
      price := Some(8.9),
      categoryId := Some(3),
      category := Some("Toolbox"),
      quantityInStock := Some(30),
      searchKey := None,
      supplierIds := None,
      status := None)
  }

  /** `product || this.fakeProduct()`: a product object is always truthy. */
  function NewProduct(product: Option<Product>): (r: Product)
    ensures product.Some? ==> r == product.value
    ensures product.None? ==> r == FakeProduct()
    ensures product.None? ==> r.id == 42 && r.productName == "Another One"
                              && r.categoryId == Some(3) && r.quantityInStock == Some(30)
  {
    if product.Some? then product.value else FakeProduct()
  }

  // ---------------------------------------------------------------------------
  // Suppliers of the selected product (`selectedProductSuppliers$`)
  // ---------------------------------------------------------------------------

  /** `suppliers.filter(supplier => selectedProduct.supplierIds.includes(supplier.id))`. */
  function SuppliersOf(selected: Product, suppliers: seq<Supplier>): (r: seq<Supplier>)
    requires selected.supplierIds.Some?
    ensures forall i :: 0 <= i < |r| ==> r[i] in suppliers && r[i].id in selected.supplierIds.value
    ensures forall i :: 0 <= i < |suppliers| && suppliers[i].id in selected.supplierIds.value ==> suppliers[i] in r
    ensures forall x :: multiset(r)[x] == if x.id in selected.supplierIds.value then multiset(suppliers)[x] else 0
    ensures IsSubsequence(r, suppliers)
  {
    var ids := selected.supplierIds.value;
    FilterIsSubsequence(suppliers, (s: Supplier) => s.id in ids);
    Filter(suppliers, (s: Supplier) => s.id in ids)
  }

  /**
   * The stream's value for a possibly undefined selection. The callback reads
   * `selectedProduct.supplierIds` only when there is a supplier to test: on an
   * empty supplier list the result is `[]` whatever the selection; otherwise
   * an undefined selection or undefined `supplierIds` throws, which is `None`.
   */
  function SelectedProductSuppliers(selected: Option<Product>, suppliers: seq<Supplier>): (r: Option<seq<Supplier>>)
    ensures r.Some? <==> suppliers == [] || (selected.Some? && selected.value.supplierIds.Some?)
    ensures suppliers == [] ==> r == Some([])
    ensures r.Some? && selected.Some? && selected.value.supplierIds.Some? ==> r.value == SuppliersOf(selected.value, suppliers)
  {
    if suppliers == [] then Some([])
    else if selected.Some? && selected.value.supplierIds.Some? then Some(SuppliersOf(selected.value, suppliers))
    else None
  }

  // ---------------------------------------------------------------------------
  // The service's state
  // ---------------------------------------------------------------------------

  /**
   * The service with its two pieces of state: the selected product id and the
   * list accumulated by `productsWithAdd$`. `inserted` records every product
   * inserted since the seed, in order.
   */
  class ProductService {

    const productsWithCategory: seq<Product>
    var selectedProductId: int
    var productsWithAdd: seq<Product>
    ghost var inserted: seq<Product>

    ghost predicate Valid()
      reads this
    {
      productsWithAdd == Scan(productsWithCategory, inserted)
    }

    /** The service once the products and categories have been fetched and joined. */
    constructor (products: seq<Product>, categories: seq<ProductCategory>)
      requires AllHaveCategory(products, categories)
      ensures Valid()
      ensures productsWithCategory == ProductsWithCategory(products, categories)
      ensures selectedProductId == InitialSelectedProductId
      ensures inserted == [] && productsWithAdd == productsWithCategory
    {
      productsWithCategory := ProductsWithCategory(products, categories);
      selectedProductId := InitialSelectedProductId;
      productsWithAdd := productsWithCategory;
      inserted := [];
    }

    /** The current value of `selectedProduct$`. */
    function SelectedProduct(): (r: Option<Product>)
      reads this
      ensures r.Some? ==> r.value in productsWithCategory && r.value.id == selectedProductId
      ensures r.Some? ==> exists k :: 0 <= k < |productsWithCategory| && productsWithCategory[k] == r.value
                                      && forall j :: 0 <= j < k ==> productsWithCategory[j].id != selectedProductId
      ensures r.None? <==> forall i :: 0 <= i < |productsWithCategory| ==> productsWithCategory[i].id != selectedProductId
    {
      SelectProduct(productsWithCategory, selectedProductId)
    }

    /** The current value of `selectedProductSuppliers$` for the fetched suppliers. */
    function SelectedSuppliers(suppliers: seq<Supplier>): (r: Option<seq<Supplier>>)
      reads this
      ensures r.Some? <==> suppliers == [] || (SelectedProduct().Some? && SelectedProduct().value.supplierIds.Some?)
      ensures suppliers == [] ==> r == Some([])
      ensures r.Some? && suppliers != [] ==> forall i :: 0 <= i < |r.value| ==>
                r.value[i] in suppliers && r.value[i].id in SelectedProduct().value.supplierIds.value
      ensures r.Some? && suppliers != [] ==> forall x ::
                multiset(r.value)[x] == if x.id in SelectedProduct().value.supplierIds.value then multiset(suppliers)[x] else 0
      ensures r.Some? ==> IsSubsequence(r.value, suppliers)
    {
      SelectedProductSuppliers(SelectedProduct(), suppliers)
    }

    method SelectedProductChanged(selectedProductId: int)
      requires Valid()
      modifies this`selectedProductId
      ensures Valid()
      ensures this.selectedProductId == selectedProductId
    {
      this.selectedProductId := selectedProductId;
    }

    /** Inserts `product`, or the placeholder when none is given, at the end of the accumulated list. */
    method AddNewProduct(product: Option<Product>)
      requires Valid()
      modifies this`productsWithAdd, this`inserted
      ensures Valid()
      ensures inserted == old(inserted) + [NewProduct(product)]
      ensures productsWithAdd == old(productsWithAdd) + [NewProduct(product)]
      ensures productsWithAdd == productsWithCategory + inserted
    {
      var newProduct := NewProduct(product);
      ScanIsConcatenation(productsWithCategory, inserted);
      productsWithAdd := Append(productsWithAdd, newProduct);
      inserted := inserted + [newProduct];
      ScanIsConcatenation(productsWithCategory, inserted);
    }
  }
}

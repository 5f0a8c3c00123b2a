/**
 * The product record shared by the data service and the list view.
 * Every optional property of the record is an `Option`; `None` is `undefined`.
 * JavaScript numbers used as identifiers, counts and category ids are `int`,
 * prices are `real`.
 */
module ProductTypes {

  import opened Wrappers

  /** The mutation status tag carried by a product. */
  datatype StatusCode = Unchanged | Added | Deleted | Updated

  datatype Product = Product(
    id: int,
    productName: string,
    productCode: Option<string>,
    description: Option<string>,
    price: Option<real>,
    categoryId: Option<int>,
    category: Option<string>,
    quantityInStock: Option<int>,
    searchKey: Option<seq<string>>,
    supplierIds: Option<seq<int>>,
    status: Option<StatusCode>)
}

# Product store data layer — a Dafny model

This project models the data logic of an Angular storefront's product
service and product list view. The service fetches products, product
categories and suppliers, and then:

- joins each product with its category, marking the price up by 1.5 and adding a search key;
- tracks a selected product id, initially 1, and looks up the selected product;
- keeps an append-only list seeded by the joined products and grown by `addNewProduct`, which inserts a fixed placeholder when called without a product;
- filters the suppliers down to those of the selected product;
- turns a failed request into one error message.

The list view filters the product list by a selected category, where 0 keeps everything.

The reactive streams are replaced by the values they carry. Each `map`,
`find`, `filter` and `scan` becomes a function over sequences. The state the
source keeps between events becomes fields of classes:

- the selected product id, held by `selectedProductSubject` (`ProductService.selectedProductId`);
- the list accumulated by the `scan` of `productsWithAdd$` (`ProductService.productsWithAdd`);
- the selected category, held by `categorySelectedSubject` (`ProductListComponent.selectedCategoryId`).

The third subject, `productInsertedSubject`, holds no value: each product
pushed into it is one call of `ProductService.AddNewProduct`.

The modules, one per source concern:

- `Wrappers`: `Option`. `None` has three meanings, and each member that returns one says which it uses:
  - JavaScript's `undefined`, for a missing property or a failed `find`;
  - "the source throws here", in `TryProductsWithCategory` and `SelectedProductSuppliers`;
  - `NaN`, in `MarkedUpPrice`.
- `ArrayOps`: `Array.prototype.find` and `Array.prototype.filter`, with an order-preserving subsequence relation.
- `ProductTypes`: the `Product` record and the `StatusCode` enum.
- `ProductData`: the product service.
- `HttpErrors`: the service's `handleError`.
- `ProductList`: the list view.

The list view reads `productsWithCRUD$` and calls `updateProduct` and
`deleteProduct` (src/app/products/product-list.component.ts lines 22, 61
and 65), but `src/app/products/product.service.ts` defines none of them.
The only accumulator the service defines is the append-only
`productsWithAdd$`, and that is the one modelled. No update, delete or
status normalisation is modelled.

## Model

| member | source | states |
|---|---|---|
| `ArrayOps.Find` | src/app/products/product.service.ts:38-40 | The result is undefined exactly when no element matches; otherwise it is the element at the first matching position. |
| `ArrayOps.Filter` | src/app/products/product.service.ts:82-84 | Every kept element is in the input and satisfies the predicate. Each element that satisfies it occurs in the output as many times as in the input; any other occurs zero times. The output is no longer than the input. |
| `ArrayOps.FilterIsSubsequence` | src/app/products/product-list.component.ts:26-28 | A filter's output is an order-preserving subsequence of its input. |
| `ArrayOps.FilterKeepsAll` | src/app/products/product-list.component.ts:27 | When every element passes the predicate, the filter returns its input unchanged. |
| `ArrayOps.FilterIdempotent` | src/app/products/product-list.component.ts:26-28 | Filtering a filtered list with the same predicate changes nothing. |
| `ProductData.MarkedUpPrice` | src/app/products/product.service.ts:37 | A defined price becomes 3/2 of itself. An undefined price gives `NaN` in the source, which the model represents as `None`. |
| `ProductData.CategoryOf` | src/app/products/product.service.ts:38-40 | The category lookup is undefined exactly when no category's id equals the product's `categoryId`. Otherwise it is the first category with that id. |
| `ProductData.WithCategory` | src/app/products/product.service.ts:35-42 | The joined copy keeps id and name, has the marked-up price and the search key `[productName]`, and has as category the name of the first category whose id equals the product's `categoryId`. No other property changes. |
| `ProductData.ProductsWithCategory` | src/app/products/product.service.ts:34-43 | When every product has a category, the join has the input's length and position i is the joined copy of input i. |
| `ProductData.TryProductsWithCategory` | src/app/products/product.service.ts:34-43 | The join as run, with the unguarded lookup. It yields a list exactly when every product's `categoryId` matches some category, and that list is `ProductsWithCategory`. Otherwise it fails. |
| `ProductData.SelectProduct` | src/app/products/product.service.ts:50-56 | The selected product is the first product with the selected id. The result is undefined, not an error, exactly when no product has that id. |
| `ProductData.SelectAfterJoin` | src/app/products/product.service.ts:50-56 | Selecting in the joined list gives the joined copy of the product selected in the raw list, or undefined when that is undefined. |
| `ProductData.Append` | src/app/products/product.service.ts:70 | One `scan` step grows the list by exactly one. It leaves the existing prefix unchanged and puts the new value last. |
| `ProductData.Scan` | src/app/products/product.service.ts:67-70 | Seeded by the first emission, the accumulated list has one more element per later value, and the seed stays as its prefix. |
| `ProductData.ScanIsConcatenation` | src/app/products/product.service.ts:67-70 | A seed S followed by insertions p1..pk accumulates to S + [p1..pk]. |
| `ProductData.FakeProduct` | src/app/products/product.service.ts:94-105 | The placeholder has id 42, name "Another One", code "TBX-0042", description "Our new product", price 8.9, category id 3, category "Toolbox" and 30 in stock. Its search key, supplier ids and status are undefined. |
| `ProductData.NewProduct` | src/app/products/product.service.ts:72-75 | A given product is inserted unchanged. With none, the placeholder of lines 94-105 is inserted: id 42, name "Another One", category id 3, 30 in stock. |
| `ProductData.SuppliersOf` | src/app/products/product.service.ts:81-85 | A supplier is kept if and only if its id is among the selected product's `supplierIds`, with every occurrence of it kept. The result is an order-preserving subsequence of the suppliers. |
| `ProductData.SelectedProductSuppliers` | src/app/products/product.service.ts:77-86 | The suppliers of a possibly undefined selection. With no suppliers the result is the empty list, whatever the selection, because the callback never runs. Otherwise it is `SuppliersOf` when a product is selected and its `supplierIds` is defined, and a failure (the source throws) when not. |
| `ProductData.ProductService.constructor` | src/app/products/product.service.ts:30-70 | The joined list is fixed and the selected id starts at 1. The accumulated list starts as the joined list, with nothing inserted. |
| `ProductData.ProductService.SelectedProduct` | src/app/products/product.service.ts:50-58 | The current selection is the first joined product with the selected id. It is undefined exactly when no joined product has that id. |
| `ProductData.ProductService.SelectedSuppliers` | src/app/products/product.service.ts:77-86 | With no fetched suppliers the current supplier list is empty, whatever the selection. Otherwise it is defined exactly when a product is selected and its `supplierIds` is defined. It is then the order-preserving subsequence of the fetched suppliers whose ids are in that `supplierIds`, with every occurrence kept. |
| `ProductData.ProductService.SelectedProductChanged` | src/app/products/product.service.ts:60-62 | The selected id becomes the given id. Nothing else changes, and the accumulated list stays the joined list followed by the insertions. |
| `ProductData.ProductService.AddNewProduct` | src/app/products/product.service.ts:64-75 | The new or placeholder product is appended to the accumulated list and to the record of insertions. The list stays equal to the joined list followed by every insertion in order. |
| `HttpErrors.IntToDecimalRoundTrip` | src/app/products/product.service.ts:112 | The status's decimal rendering reads back to the same status. |
| `HttpErrors.NatToDecimal` | src/app/products/product.service.ts:112 | The rendering of a non-negative status is a non-empty run of decimal digits, which starts with `0` only for zero. |
| `HttpErrors.IntToDecimal` | src/app/products/product.service.ts:112 | The rendering of any status is a non-empty canonical decimal text with no `':'`. It starts with `-` exactly when the status is negative. |
| `HttpErrors.CanonicalDecimalRoundTrip` | src/app/products/product.service.ts:112 | Every canonical decimal text (no leading zero, no `-0`) is the rendering of its own value. Together with `IntToDecimalRoundTrip`, rendering is a one-to-one correspondence between integers and canonical decimal texts. |
| `HttpErrors.HandleError` | src/app/products/product.service.ts:107-116 | A client-side error gives "An error occurred: " followed by its message. Any other error gives "Backend returned code ", the decimal status, ": " and the body's `error` text. |
| `HttpErrors.HandleErrorRoundTrip` | src/app/products/product.service.ts:107-116 | Each message reads back to exactly the error it came from: the kind, the message, or the status and the body's `error` text. |
| `HttpErrors.ParseErrorMessageInverse` | src/app/products/product.service.ts:107-116 | Every text that reads back as an error is exactly that error's message, so reading back and `handleError` are inverse to each other. |
| `HttpErrors.HandleErrorKindsDistinct` | src/app/products/product.service.ts:109-113 | A client-side error and a backend error never give the same message. |
| `ProductList.InCategory` | src/app/products/product-list.component.ts:27 | A product passes when the selected category is 0 (falsy), or when its `categoryId` equals the selected category. |
| `ProductList.FilterByCategory` | src/app/products/product-list.component.ts:25-29 | Category 0 returns the input unchanged. Any other category c keeps only products with `categoryId` c. Every occurrence of an input product with `categoryId` c is kept, and the result is an order-preserving subsequence of the input. |
| `ProductList.CategoryFilterIdempotent` | src/app/products/product-list.component.ts:26-28 | Filtering by a category twice is the same as filtering once. |
| `ProductList.FilterCommutesWithJoin` | src/app/products/product-list.component.ts:21-29 | Filtering the joined list equals joining the filtered list, because the join keeps every `categoryId`. |
| `ProductList.ProductListComponent.constructor` | src/app/products/product-list.component.ts:18 | The selected category starts at 0. |
| `ProductList.ProductListComponent.Products` | src/app/products/product-list.component.ts:21-29 | With the initial category the view shows the whole list. Otherwise it shows every occurrence of each listed product in the selected category, and nothing else, in list order. |
| `ProductList.ProductListComponent.OnSelected` | src/app/products/product-list.component.ts:56-58 | The selected category becomes the given id. |
| `ProductList.ProductListComponent.OnAdd` | src/app/products/product-list.component.ts:52-54 | The placeholder product is appended to the service's accumulated list. |

## Left out

- HTTP fetching of products, categories and suppliers: the fetched lists are parameters of the model.
- Reactive scheduling (`combineLatest`, `merge`, `shareReplay`, subjects): only the values these streams carry are modelled. Re-emission and late subscribers are not.
- A second emission of the joined list into `scan`: the source would append the whole array as one element. The model has one seed followed by single products.
- Add/update/delete reconciliation: `productsWithCRUD$`, `updateProduct`, `deleteProduct` and status normalisation are called from the list view (`onDelete`, `onUpdate`) but not defined in the service, so they are not modelled. `StatusCode` is carried as data only.
- The `categories$` and `vm$` streams of the list view, and `product-list-alt.component.ts`: view wiring without data logic.
- The `handleError` copies in `product-category.service.ts` and `supplier.service.ts` are identical to the product service's. It is modelled once.
- `console.error` logging, Angular decorators, templates and the `catchError` to `EMPTY` error display.
- The string-to-number conversion in `onSelected` (`+categoryId`): the category id is an `int` input, so the falsy `NaN` selection is not modelled.
- `HttpErrors.IntToDecimal`: renders every integer in plain decimal form. JavaScript writes numbers of magnitude 10^21 or more in exponent form (`1e+21`), which is not modelled.
- `ProductData.MarkedUpPrice`: NaN is represented as None. The joined copy of a product without a price has `price: NaN` in the source; the model gives it no price, so it does not tell NaN apart from an undefined price.
- JavaScript numbers are modelled as `int` (ids, counts, statuses) and `real` (prices). IEEE rounding of `price * 1.5` and non-integer ids are not modelled.
- `HttpErrors.HandleError`: the error object is reduced to a client-side message or a status and body text. A backend error without a `body` (a `TypeError` when `err.body.error` is read) is not modelled.
- The supplier and product category record files are not part of this model. Only their `id` and `name` are represented.

# Verified model of a session shopping cart and checkout

This project is a Dafny model of the core of a Spring Boot e-commerce backend:

- **the session cart**: add an item, display the cart, remove an item, modify an item, and check the cart out (`ProductController`);
- **the catalog checks and checkout** (`ProductServiceImpl`): look up a product, check that the requested quantity is in stock, sum the cart, write the new stock levels and save an order;
- **the cart-line builder** (`ProductMapper.toCartProductDTO`);
- **the two catalog queries** it relies on (`ProductRepository`);
- **the password rule checker** (`PasswordValidator`).

Modules follow the source files:

- `Model`: the value types, a Java `int` (`Int32`) and its wrapping subtraction.
- `ProductMapper`: building a cart line from a product and a request.
- `Repository`:
  - the catalog as a map from id to row;
  - `ProductRepository`, a class whose `rows` field is overwritten in place by the stock update;
  - `OrderRepository`, a class that appends saved orders.
- `Service`:
  - the lookups and the total as functions;
  - checkout as a method of `ProductService`. It reads one snapshot, then loops over the cart writing stock.
- `Controller`: `ProductController` holds the session's cart attribute as a field.
  - `None` is an absent attribute; `Some([])` is an empty list.
  - Each endpoint is a method that follows the handler step by step.
  - Each method's `ensures` ties its response and new cart to a pure step function (`AddToCart`, `ModifyCart`, `RemoveFromCart`, `CheckoutResponse`). The properties are proved as lemmas about those functions.
- `PasswordValidator`:
  - an `Errors` class collecting field errors in order, and `Validate`, which appends to it;
  - the regular expression is modelled as a one-pass scan of character classes, proved equal to a quantified description of the pattern.

Money (`BigDecimal`) is an exact unbounded integer. Stock levels and quantities are 32-bit Java `Integer`s. The checkout's `available - quantity` is Java `int` subtraction, so it wraps (`Int32Sub`).

Three behaviours of the code worth knowing:

- **Checkout rolls back.** `checkOutProductsInTheCart` is `@Transactional` (ProductServiceImpl.java:49). A cart line whose product the snapshot read did not return throws when `null` is unboxed. The transaction then undoes the stock writes already made, and no order is saved. The model restores the catalog and the controller answers 500.
- **Remove deletes every match.** `removeIf` deletes every line with the id, not just the first one.
- **Only an absent cart is "no content".** Checkout answers 204 only when the session has no cart attribute. An empty list goes to the service and yields a CONFIRMED order of total 0. The cart is not cleared after checkout.

## Model

| member | source | states |
|---|---|---|
| Model.Int32Sub | src/main/java/com/gd/springecommerce/service/ProductServiceImpl.java:59 | Java `int` subtraction: the exact difference when it fits, otherwise a different value congruent to it modulo 2^32 |
| ProductMapper.ToCartProductDto | src/main/java/com/gd/springecommerce/mapper/ProductMapper.java:13-17 | id and title come from the product and the quantity from the request; the subtotal is price times quantity; with quantity at least 1 and a non-negative price the subtotal is at least the price |
| ProductMapper.LineIdIgnoresRequestId | src/main/java/com/gd/springecommerce/mapper/ProductMapper.java:13 | the line's id never depends on the request's id: requests with equal quantities give equal lines |
| Repository.FindById | src/main/java/com/gd/springecommerce/service/ProductServiceImpl.java:36 | a product is found iff its id is stored, and it carries the stored columns |
| Repository.SetAvailable | src/main/java/com/gd/springecommerce/repository/ProductRepository.java:17-18 | the row's stock becomes exactly the given value, with no sign check; title, price, other rows and the key set are unchanged; an unknown id changes nothing |
| Repository.ProductRepository.UpdateProductAvailability | src/main/java/com/gd/springecommerce/repository/ProductRepository.java:15-18 | the table after the update is `SetAvailable` of the table before |
| Repository.FindQuantityByIds | src/main/java/com/gd/springecommerce/repository/ProductRepository.java:20-21 | exactly the stored products whose id is in the list, each exactly as stored, with at most one product per id |
| Repository.OrderRepository.Save | src/main/java/com/gd/springecommerce/service/ProductServiceImpl.java:62 | saving returns the order and appends it to the stored orders |
| Service.GetProductById | src/main/java/com/gd/springecommerce/service/ProductServiceImpl.java:34-37 | success iff the id is present and stored; then the result is the stored product; every failure is ProductNotFound (a null id included) |
| Service.GetProductIfValidToAddInCart | src/main/java/com/gd/springecommerce/service/ProductServiceImpl.java:39-46 | success iff stored with stock at least the quantity (equality passes); ProductNotFound iff not stored; InsufficientQuantity iff stored with less stock |
| Service.TotalBounds | src/main/java/com/gd/springecommerce/service/ProductServiceImpl.java:67-72 | with non-negative subtotals the total is non-negative and at least each subtotal |
| Service.TotalOfConcat | src/main/java/com/gd/springecommerce/service/ProductServiceImpl.java:67-72 | the sum splits over concatenation (zero for no subtotals) |
| Service.CartTotalOfAppend | src/main/java/com/gd/springecommerce/service/ProductServiceImpl.java:51 | the cart total grows by exactly the cached subtotal of an appended line |
| Service.AvailabilityById | src/main/java/com/gd/springecommerce/service/ProductServiceImpl.java:53-55 | the snapshot map's keys are the read products' ids, and each key maps to that product's stock |
| Service.Snapshot | src/main/java/com/gd/springecommerce/service/ProductServiceImpl.java:52-55 | the snapshot holds only cart ids that are stored, at their stored stock; a cart line's id is in it iff it is stored |
| Service.ApplyWrites | src/main/java/com/gd/springecommerce/service/ProductServiceImpl.java:56-61 | the per-line stock writes never add or drop a product |
| Service.CheckedOutCatalog | src/main/java/com/gd/springecommerce/service/ProductServiceImpl.java:49-61 | the catalog after checkout has the same products as before |
| Service.ApplyWritesStep | src/main/java/com/gd/springecommerce/service/ProductServiceImpl.java:57-60 | the writes for lines 0..i are those for lines 0..i-1 followed by line i's write of snapshot minus quantity |
| Service.ApplyWritesFrame | src/main/java/com/gd/springecommerce/service/ProductServiceImpl.java:56-61 | the writes keep titles and prices and leave untouched every product no line names |
| Service.ApplyWritesLastWins | src/main/java/com/gd/springecommerce/service/ProductServiceImpl.java:56-61 | a product's final stock is the snapshot stock minus the quantity of the last line naming it |
| Service.CheckOutOutcome | src/main/java/com/gd/springecommerce/service/ProductServiceImpl.java:50-62 | checkout succeeds iff every line's product is stored; the order's total is the sum of the cached subtotals and its status is CONFIRMED |
| Service.TotalIgnoresCatalog | src/main/java/com/gd/springecommerce/service/ProductServiceImpl.java:51 | the order does not depend on current prices: two catalogs that both succeed give the same order |
| Service.EmptyCartCheckOut | src/main/java/com/gd/springecommerce/service/ProductServiceImpl.java:50-62 | an empty cart gives a CONFIRMED order of total 0 and writes nothing |
| Service.FailedCheckOutWritesNothing | src/main/java/com/gd/springecommerce/service/ProductServiceImpl.java:49-61 | a failed checkout leaves the catalog as it was (transaction rollback) |
| Service.CheckOutFrame | src/main/java/com/gd/springecommerce/service/ProductServiceImpl.java:56-61 | checkout keeps every title and price and every product the cart does not name |
| Service.CheckOutLastWriteWins | src/main/java/com/gd/springecommerce/service/ProductServiceImpl.java:53-60 | for the last line naming a product, its final stock is the stock read at checkout minus that line's quantity (wrapping); when no wrap happens, it is the plain difference, possibly negative |
| Service.CheckOutDistinctIds | src/main/java/com/gd/springecommerce/service/ProductServiceImpl.java:56-61 | with distinct ids in the cart, each product loses exactly its line's quantity when the difference fits in an `int`; the wrapping case is `CheckOutLastWriteWins` |
| Service.CheckOutExample | src/test/java/com/gd/springecommerce/service/ProductServiceImplTest.java:107-153 | lines (1, 2, 250) and (2, 3, 150) against stock 5 and 7 give total 400 and stock 3 and 4 |
| Service.DuplicateLinesLastWriteWins | src/main/java/com/gd/springecommerce/service/ProductServiceImpl.java:53-60 | two lines of 2 for a product with stock 5 leave 3, not 1 |
| Service.CheckOutCanOversell | src/main/java/com/gd/springecommerce/service/ProductServiceImpl.java:59-60 | stock 1 and a line of 3 leave stock -2: no non-negativity check |
| Service.ProductService.CheckOutProductsInTheCart | src/main/java/com/gd/springecommerce/service/ProductServiceImpl.java:48-63 | the result is `CheckOut` of the catalog before; the catalog after is `CheckedOutCatalog`; exactly one order is saved on success and none on failure |
| Controller.BindingErrors | src/main/java/com/gd/springecommerce/dto/ProductDTO.java:14-18 | no errors iff id and quantity are present and the quantity is at least 1; each message is present iff its own condition holds (a null quantity is not also "at least 1") |
| Controller.RemoveAll | src/main/java/com/gd/springecommerce/controller/ProductController.java:104 | a line remains iff it was there and its id differs; the list never grows |
| Controller.ReplaceAll | src/main/java/com/gd/springecommerce/controller/ProductController.java:129 | same length; each position holds the replacement if its line had the id, else the old line |
| Controller.MalformedRequestRejected | src/main/java/com/gd/springecommerce/controller/ProductController.java:59-77 | add and modify with a missing id, a missing quantity or a quantity below 1 answer 400 with the messages, keep the cart, and give the same answer whatever the catalog |
| Controller.CatalogRejectionLeavesCart | src/main/java/com/gd/springecommerce/controller/ProductController.java:59-61 | add and modify of an unknown product or of more than the stock answer 409 with that reason and keep the cart |
| Controller.AddAppendsOneLine | src/main/java/com/gd/springecommerce/controller/ProductController.java:59-70 | a successful add answers the new line, built from the stored row, and the cart becomes the old lines (none if absent) plus that line |
| Controller.AddTwiceTwoLines | src/main/java/com/gd/springecommerce/controller/ProductController.java:63-69 | adding the same request twice yields two identical lines, with no merging; the product's line count grows by 2 |
| Controller.RemoveAllOfConcat | src/main/java/com/gd/springecommerce/controller/ProductController.java:104 | removal splits over concatenation, so the remaining lines keep their relative order |
| Controller.RemoveAllContents | src/main/java/com/gd/springecommerce/controller/ProductController.java:104 | lines with the id are all gone; every other line keeps its multiplicity; the size drops by the number of matches |
| Controller.RemoveAllAbsent | src/main/java/com/gd/springecommerce/controller/ProductController.java:104 | removing an id that no line has changes nothing |
| Controller.RemoveAllIdempotent | src/main/java/com/gd/springecommerce/controller/ProductController.java:104 | removing twice is the same as removing once |
| Controller.RemoveFromCartOutcome | src/main/java/com/gd/springecommerce/controller/ProductController.java:99-107 | delete always answers 200 with the remaining lines; an absent cart answers no lines and stays absent; a repeated delete changes nothing more |
| Controller.ModifiedCartCases | src/main/java/com/gd/springecommerce/controller/ProductController.java:118-131 | an absent cart becomes exactly the line; a cart without the path id gets the line appended; otherwise the size is kept and every matching position is replaced |
| Controller.ModifyLineFromBodyId | src/main/java/com/gd/springecommerce/controller/ProductController.java:117-119 | the line placed by a successful modify has the body's id and quantity and the body product's price times quantity |
| Controller.ReplaceAllTwice | src/main/java/com/gd/springecommerce/controller/ProductController.java:129 | replacing by a line that has the id, then replacing again, equals replacing once by the second line |
| Controller.ReplaceAllAfterAppend | src/main/java/com/gd/springecommerce/controller/ProductController.java:127-129 | after appending the only matching line, the replacement touches only that line |
| Controller.ModifyTwiceReplaces | src/main/java/com/gd/springecommerce/controller/ProductController.java:120-130 | modifying by the same id twice equals modifying once with the second line: replace, never accumulate |
| Controller.UpsertTwiceExample | src/main/java/com/gd/springecommerce/controller/ProductController.java:115-132 | quantity 2 then 5 of one product, starting with no cart, leaves exactly one line, of quantity 5 |
| Controller.ModifyWithOtherBodyId | src/main/java/com/gd/springecommerce/controller/ProductController.java:125-129 | when the body names another product than the path, no line has the path id afterwards, so the next such modify appends |
| Controller.CheckoutDispatch | src/main/java/com/gd/springecommerce/controller/ProductController.java:148-156 | no cart answers 204 with no writes; an empty list answers an order of 0 with no writes; a present cart answers 200 iff all its products are stored, with the cart total |
| Controller.ProductController.AddItemsToCart | src/main/java/com/gd/springecommerce/controller/ProductController.java:58-77 | the response and the new session cart are `AddToCart` of the catalog and the old cart |
| Controller.ProductController.DisplayCart | src/main/java/com/gd/springecommerce/controller/ProductController.java:84-91 | answers the cart as it is, or no lines when absent, and changes nothing |
| Controller.ProductController.RemoveProductFromCart | src/main/java/com/gd/springecommerce/controller/ProductController.java:98-107 | the response and the new session cart are `RemoveFromCart` of the old cart |
| Controller.ProductController.ModifyProductInCart | src/main/java/com/gd/springecommerce/controller/ProductController.java:114-140 | the response and the new session cart are `ModifyCart` of the catalog, the old cart and the path id |
| Controller.ProductController.CheckOutProductsInTheCart | src/main/java/com/gd/springecommerce/controller/ProductController.java:147-156 | the response and catalog are `CheckoutResponse`/`CheckoutCatalog`; one order is saved iff the answer is 200; the session cart is unchanged |
| PasswordValidator.FirstFieldError | src/test/java/com/gd/springecommerce/validator/PasswordValidatorTest.java:35 | `getFieldError`: none iff no error on the field, otherwise an error on the field with no earlier error on it |
| PasswordValidator.ScanMeaning | src/main/java/com/gd/springecommerce/validator/PasswordValidator.java:21 | each flag of the scan holds iff some character is of that class (all characters, for the allowed class) |
| PasswordValidator.MatchesPatternIff | src/main/java/com/gd/springecommerce/validator/PasswordValidator.java:21 | the pattern matches iff there are at least 8 characters, all allowed, with a lowercase letter, an uppercase letter, a digit and a special character |
| PasswordValidator.PasswordErrorsIff | src/main/java/com/gd/springecommerce/validator/PasswordValidator.java:18-22 | a size error is recorded iff the length is below 6 or above 15; a pattern error iff the pattern fails; nothing else is recorded |
| PasswordValidator.SizeErrorFirst | src/main/java/com/gd/springecommerce/validator/PasswordValidator.java:18-23 | a size failure is the first error on the field; with the pattern failing too, both errors are recorded, size first |
| PasswordValidator.AcceptedLength | src/main/java/com/gd/springecommerce/validator/PasswordValidator.java:18-21 | a password with no errors has 8 to 15 characters |
| PasswordValidator.ShortPasswordsFailPattern | src/main/java/com/gd/springecommerce/validator/PasswordValidator.java:18-22 | lengths 6 and 7 get exactly the pattern error |
| PasswordValidator.ShortExample | src/test/java/com/gd/springecommerce/validator/PasswordValidatorTest.java:30-38 | "aA@1G" gets the size error then the pattern error |
| PasswordValidator.LongExample | src/test/java/com/gd/springecommerce/validator/PasswordValidatorTest.java:30-38 | "aA@1aA@1aA@1aA@1" gets only the size error |
| PasswordValidator.NoLowerExample | src/test/java/com/gd/springecommerce/validator/PasswordValidatorTest.java:40-48 | "AA@1AA@1AA@1" gets only the pattern error |
| PasswordValidator.NoUpperExample | src/test/java/com/gd/springecommerce/validator/PasswordValidatorTest.java:40-48 | "aa@1aa@1aa@1" gets only the pattern error |
| PasswordValidator.NoDigitExample | src/test/java/com/gd/springecommerce/validator/PasswordValidatorTest.java:40-48 | "Aa@!Aa@!Aa@!" gets only the pattern error |
| PasswordValidator.NoSpecialExample | src/test/java/com/gd/springecommerce/validator/PasswordValidatorTest.java:40-48 | "Aa21Aa21Aa21" gets only the pattern error |
| PasswordValidator.AcceptedExample | src/test/java/com/gd/springecommerce/validator/PasswordValidatorTest.java:50-56 | "Aa@1Aa@1Aa@1" gets no error |
| PasswordValidator.Errors.RejectValue | src/main/java/com/gd/springecommerce/validator/PasswordValidator.java:19 | one error is appended after those already recorded |
| PasswordValidator.Errors.HasErrors | src/test/java/com/gd/springecommerce/validator/PasswordValidatorTest.java:36 | true iff some error is recorded |
| PasswordValidator.Validate | src/main/java/com/gd/springecommerce/validator/PasswordValidator.java:16-24 | the recorded errors become the earlier ones followed by `PasswordErrors` of the password; nothing recorded before is lost |

## Left out

- HTTP, JSON and Spring plumbing: the request-binding machinery (modelled as `BindingErrors`), `EcommerceResponse`, the exception handler's mechanics (modelled as `Response.Conflict`), and status codes beyond the outcome datatype.
- Concurrency: racing requests on one session and concurrent checkouts. The model has one sequential caller.
- Generated order ids and the order date (`LocalDate.now()`); an `Order` carries only its total and status.
- `getAllProducts`, a plain read-through of the table, and `ProductMapper.cartProductDTOToProduct`, which nothing calls.
- `PasswordValidator.supports`, a class check with no logic. User registration and login are not part of this model.
- `BigDecimal` scale and rounding: money is an exact integer.
- PasswordValidator.Validate: `String.length()` counts UTF-16 code units; the model counts characters, so passwords with characters outside the Basic Multilingual Plane may be measured differently.
- Repository.FindQuantityByIds: the query's result order is unspecified, so the model returns a set; duplicate ids in the input list are collapsed, as the `IN` clause does.
- The session's serialization (where `CartProductDTO.id` is `transient` and would be lost) is not modelled; the cart keeps its lines' ids.
- Service.GetProductById: a null id is modelled as "not found", which is what the repository answers in the unit test; a real JPA `findById(null)` throws an illegal-argument exception instead.

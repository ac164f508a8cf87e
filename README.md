# Product catalogue service: a Dafny model of its core

The service is a small REST API for one "product" resource. It keeps all products in a
single JSON file. Every request loads the whole collection, changes it in memory and
writes it back. This project models the logic of that cycle and proves properties of it:

- **ID allocation** (`GetNextID`). It is written three times with the same body: in the
  product repository, in the database `Client`, and in the test store `MockDB`. Each
  copy is a running-maximum loop. All three are proved equal to one specification
  function, `Collection.NextId`.
- **Load outcome classification** in the product repository and in the database
  `Client`. Each copy is modelled as its own file has it. The file read and the JSON
  decoder are inputs: a read outcome datatype and a decoder function.
- **Save**: the repository boxes each product for the base repository's `Save`. The
  `Client` either reports an encoding failure and writes nothing, or writes the
  encoded bytes.
- **Lookup by ID** over the fixed three-product seed of `internal/handlers/products.go`.
- **The error vocabulary** of `internal/handlers/errors.go`, and the `{"error": message}`
  response.
- **The in-memory store** `MockDB` (class `Store.ProductStore`), and the CRUD handlers
  that the handler and integration tests drive over such a store (class
  `ProductHandlers.ProductHandler`). Their test scenarios are proved as postconditions
  (module `Scenarios`).

Modelling notes:

- Go's `int` is 64 bits wide (`Models.Int64`). `maxID + 1` wraps around (`Models.AddInt64`).
  So "the next ID exceeds every ID" holds only when no ID is 2^63-1. `Collection.NextIdWraps`
  shows the wrap.
- `strconv.Atoi` is modelled as the base-10 syntax it accepts: an optional sign, then
  digits. The result must lie in the int64 range (`Decimal.Atoi`). `Decimal.Itoa` is its
  partner, and `Decimal.AtoiItoa` proves that the two round-trip.
- Through the real base repository, a missing file never reaches the not-exist branch
  of `ProductRepository.LoadProducts` (`internal/repositories/product_repository.go:24-25`).
  `base_repository.go:35-36` has already turned it into `(nil, nil)`, so the decoder
  receives empty input. `ProductRepository.LoadThroughBase` states this. The two files
  are modelled as written, not reconciled.
- There are two sets of handler messages. `errors.go` says "Invalid ID" and "Not found".
  `products.go` and every handler test say "Invalid product ID" and "Product not found".
  Each is kept where it is used.
- The handler bodies behind `NewProductHandler` are not in the files modelled here. The
  CRUD handlers in `ProductHandlers` are rebuilt from what the tests assert, and they
  agree with every asserted scenario. The rules beyond those scenarios are modelling
  choices:
  - Pagination clamps `start = offset` and `end = offset + limit` to the collection length.
  - A missing `limit` defaults to 10, a missing `offset` to 0, and negative values are
    refused with 400.
  - An unknown ID gives 404 "Product not found" for PUT, PATCH and DELETE too.
  - A patch value of the wrong type gives 400 "Invalid request body".
  - Load and save failures give the 500 errors of `errors.go` (`ProductHandlers.Finish` for a failed save).
- The integration tests seed a file through the product repository over the base
  repository, and their router serves from the same repository. Here the scenarios are
  stated over `Store.ProductStore`. The two agree as long as the JSON round trip is
  lossless: the repository stack then loads exactly what it saved
  (`ProductRepository.SaveThenLoad`).
- Every handler function returns exactly one response. The seed is a constant, so no
  path can change it.

## Model

| member | source | states |
|---|---|---|
| `Collection.MaxId` | internal/repositories/product_repository.go:56-62 | the running maximum is at least 0, is at least every ID, and is 0 or an ID of the collection |
| `Collection.MaxIdStep` | internal/repositories/product_repository.go:57-61 | one loop step: the maximum of a longer prefix is the larger of the old maximum and the new ID |
| `Collection.NextIdOfEmpty` | internal/repositories/product_repository.go:55-63 | the next ID of an empty collection is 1 |
| `Collection.NextIdExceedsAll` | internal/repositories/product_repository.go:56-62 | without wrap-around the next ID is max+1, is at least 1 and exceeds every ID |
| `Collection.NextIdIsLeast` | internal/repositories/product_repository.go:56-62 | without wrap-around the next ID is the least value at least 1 that exceeds every ID, i.e. 1 + max(0, IDs) |
| `Collection.NextIdOfNonPositive` | internal/repositories/product_repository.go:56-62 | when every ID is at most 0 the next ID is 1 |
| `Collection.NextIdWraps` | internal/repositories/product_repository.go:62 | an ID of 2^63-1 makes `maxID + 1` wrap to -2^63 |
| `Collection.NextIdExample` | internal/repositories/product_repository.go:55-63 | IDs 1, 5, 3 give 6 |
| `Collection.FindFirst` | internal/handlers/products.go:26-31 | the scan returns the index of the first product with the ID, or None exactly when no product has it |
| `Collection.FindFirstIsFirstMatch` | internal/handlers/products.go:26-31 | the first match is unique, so the scan returns it |
| `Collection.RemoveAt` | internal/handlers/products_test.go:211-227 | removal drops exactly one product, keeps the others in order, and keeps the multiset minus that product |
| `Collection.DenseIdsPosition` | internal/tests/integration_api_test.go:33-37 | with IDs 1..n in order, as seeded, ID k is at position k-1 |
| `Decimal.Atoi` | internal/handlers/products.go:20 | an optional sign, then one or more ASCII digits, with a value inside the int64 range, parses to that value (negated after `-`); everything else is None |
| `Decimal.DigitsValueOfNatDigits` | internal/handlers/products.go:20 | the parser's digit reading inverts the canonical digit writer behind `Itoa`, the partner of `Atoi` |
| `Decimal.AtoiItoa` | internal/handlers/products.go:20 | the ID parser reads back every int written in canonical decimal |
| `Decimal.AtoiRejectsNonDigit` | internal/handlers/products.go:20-24 | a non-digit (other than a leading sign) makes the parse fail, so "abc" gets 400 |
| `Decimal.AtoiRejectsEmpty` | internal/handlers/products.go:20-24 | the empty string and a lone sign do not parse |
| `HandlerErrors.NewError` | internal/handlers/errors.go:16-21 | the error has exactly the given code and message |
| `HandlerErrors.PredefinedTable` | internal/handlers/errors.go:24-32 | the seven predefined (status, message) pairs |
| `HandlerErrors.StatusClasses` | internal/handlers/errors.go:25-31 | client-input errors are all 400; a predefined error is 500 exactly when it is a load or save failure |
| `HandlerErrors.MessagesDistinct` | internal/handlers/errors.go:24-32 | no two predefined errors share a message |
| `HandlerErrors.HandleError` | internal/handlers/errors.go:35-37 | the response has status `err.Code`, and its body has the single key "error", mapped to `err.Message` |
| `HandlerErrors.ErrorOfHandleError` | internal/handlers/errors.go:35-37 | the error can be read back from the response HandleError writes |
| `HandlerErrors.HandleErrorOfErrorOf` | internal/handlers/errors.go:35-37 | every response of the error shape is the one HandleError writes for its error |
| `SeedHandler.GetProduct` | internal/handlers/products.go:19-34 | an unparsable ID gives 400 "Invalid product ID"; 200 exactly when some seed product has the ID, with the first such product; otherwise 404 "Product not found" |
| `SeedHandler.SeedShape` | internal/handlers/products.go:12-16 | the seed holds IDs 1, 2, 3 in order, and product 1 is "Laptop" |
| `SeedHandler.GetProductFindsSeed` | internal/handlers/products.go:26-31 | each seed ID k gives 200 with seed product k |
| `SeedHandler.GetProductMissing` | internal/handlers/products.go:33 | a parsed ID outside the seed gives 404 `{"error":"Product not found"}` |
| `SeedHandler.GetProductExamples` | handlers/products_test.go:14-67 | "1" gives 200 "Laptop", "999" gives 404, "abc" gives 400 |
| `ProductRepository.BaseLoad` | internal/repositories/base_repository.go:33-41 | a missing file becomes empty data with no error, a read passes its bytes on, and not-exist is never reported |
| `ProductRepository.LoadProducts` | internal/repositories/product_repository.go:21-42 | not-exist gives the empty collection; any other load error is returned; a decode error is returned; otherwise the decoded products come back in order, copied by index |
| `ProductRepository.LoadThroughBase` | internal/repositories/product_repository.go:22-41 | through the base repository a missing file yields exactly what decoding empty input yields; other read errors are returned; a successful read gives the decoder's error or its products |
| `ProductRepository.BaseSave` | internal/repositories/base_repository.go:45-55 | an encode failure is returned and nothing is written; otherwise the encoded bytes are written and the write's error is returned |
| `ProductRepository.Boxes` | internal/repositories/product_repository.go:46-49 | the boxed sequence has the model's length and boxes the i-th product at i |
| `ProductRepository.SaveThenLoad` | internal/repositories/product_repository.go:21-52 | with a lossless encoding and a successful write, saving through the base repository and reading the written file back loads the saved collection, and the save reports no error |
| `ProductRepository.SaveProducts` | internal/repositories/product_repository.go:45-52 | Save receives a sequence of the same length whose i-th element is the i-th product, and its result is returned |
| `ProductRepository.GetNextID` | internal/repositories/product_repository.go:55-63 | the loop computes NextId; without wrap-around the result is at least 1 and exceeds every ID |
| `Database.LoadProducts` | internal/database/database.go:28-46 | not-exist gives the empty collection; any other read error is returned; a decode failure is returned; a successful decode is returned unchanged |
| `Database.SaveProducts` | internal/database/database.go:49-59 | an encode failure is returned and nothing is written; otherwise the encoded bytes are written and the write's error is the result |
| `Database.SaveThenLoad` | internal/database/database.go:28-59 | with a lossless encoding and a successful write, loading what was saved gives the saved collection |
| `Database.FailedEncodeWritesNothing` | internal/database/database.go:53-58 | if nothing was written, encoding failed and its error was returned |
| `Database.GetNextID` | internal/database/database.go:62-70 | the loop computes NextId; without wrap-around the result is at least 1 and exceeds every ID |
| `Store.ProductStore.constructor` | internal/handlers/products_test.go:18-20 | the store starts with the given collection |
| `Store.ProductStore.LoadProducts` | internal/handlers/products_test.go:23-25 | Load returns exactly the stored collection and no error |
| `Store.ProductStore.SaveProducts` | internal/handlers/products_test.go:28-31 | Save replaces the stored collection wholesale, with no error |
| `Store.ProductStore.GetNextID` | internal/handlers/products_test.go:34-42 | the loop computes NextId; without wrap-around the result is at least 1 and exceeds every ID |
| `Store.SaveThenLoad` | internal/handlers/products_test.go:23-31 | a load after a save returns what was saved |
| `ProductHandlers.Finish` | internal/handlers/errors.go:30 | a reply plan, or a save that succeeded, gives the plan's reply; a failed save gives 500 `{"error":"Failed to save"}` |
| `ProductHandlers.GetProductResponse` | internal/handlers/products_test.go:57-99 | bad ID gives 400 "Invalid product ID"; load failure gives 500; 200 exactly when some product has the ID, with the first one; otherwise 404 "Product not found" |
| `ProductHandlers.Window` | internal/tests/integration_api_test.go:133-147 | the page holds min(limit, n - offset) products (none past the end), and its k-th product is product offset+k |
| `ProductHandlers.GetAllProductsResponse` | internal/handlers/products_test.go:101-119 | a bad or negative limit gives 400 "Invalid limit parameter", then likewise for offset; load failure gives 500; otherwise 200 with the window |
| `ProductHandlers.ListDefaults` | internal/handlers/products_test.go:101-119 | with no query parameters the list is the first ten products |
| `ProductHandlers.ListPastTheEnd` | internal/tests/integration_api_test.go:133-147 | an offset at or past the end gives 200 with an empty list |
| `ProductHandlers.ListNegativeLimit` | internal/handlers/errors.go:28 | a negative limit gives 400 "Invalid limit parameter" |
| `ProductHandlers.CreateProductPlan` | internal/handlers/products_test.go:121-149 | an unbindable body gives 400; load failure gives 500; otherwise the body with the next ID in place of its own is appended and returned with 201 |
| `ProductHandlers.CreateKeepsUniqueIds` | internal/tests/integration_api_test.go:159-182 | the created ID exceeds every stored ID, so unique IDs stay unique |
| `ProductHandlers.UpdateProductPlan` | internal/handlers/products_test.go:151-180 | bad ID 400; bad body 400; load failure 500; saved exactly when some product has the ID, when the first one is replaced by the body carrying the path ID and returned with 200; otherwise 404 |
| `ProductHandlers.UpdateKeepsUniqueIds` | internal/handlers/products_test.go:151-180 | an update keeps the length and unique IDs |
| `ProductHandlers.ApplyPatch` | internal/tests/integration_api_test.go:232-257 | the patch fails exactly when a named field has a value of the wrong type; otherwise each named field takes the given value, every other field and the ID keep theirs |
| `ProductHandlers.ApplyPatchIdempotent` | internal/tests/integration_api_test.go:232-257 | applying a patch twice equals applying it once |
| `ProductHandlers.ApplyEmptyPatch` | internal/handlers/products_test.go:182-209 | an empty patch changes nothing |
| `ProductHandlers.PatchProductPlan` | internal/handlers/products_test.go:182-209 | bad ID 400; bad body 400; load failure 500; saved exactly when the patch is well typed and some product has the ID, and then the first one is patched and returned with 200; otherwise 404 for a missing ID and 400 for a mistyped patch |
| `ProductHandlers.PatchKeepsUniqueIds` | internal/handlers/products_test.go:182-209 | a patch keeps the length and unique IDs |
| `ProductHandlers.PatchedSitsAtIdMinusOne` | internal/tests/integration_api_test.go:232-257 | with dense IDs 1..n the patched product is the one at position id-1 |
| `ProductHandlers.DeleteProductPlan` | internal/handlers/products_test.go:211-227 | bad ID 400; load failure 500; saved exactly when some product has the ID, when the first one is removed, the rest keep their order and the reply is 204 with no body; otherwise 404 |
| `ProductHandlers.DeleteKeepsUniqueIds` | internal/handlers/products_test.go:211-227 | a delete removes one product, keeps IDs unique and leaves no product with that ID |
| `ProductHandlers.Route` | internal/handlers/products_test.go:44-55 | only `/products` and `/products/:id` paths are routed |
| `ProductHandlers.Unrouted` | internal/tests/integration_api_test.go:55-65 | the router answers by itself exactly when no route matches: a redirect to the path without its trailing slash when that path is routed (301 for GET, 307 otherwise; `gin.Default()` enables it), else 404 |
| `ProductHandlers.TrailingSlashRedirects` | internal/tests/integration_api_test.go:55-65 | GET and POST on `/products/` are redirected to `/products`, and DELETE on `/products/<id>/` to `/products/<id>` with 307 |
| `ProductHandlers.ProductsPathRoutes` | internal/tests/integration_api_test.go:60-62 | `/products` is routed for GET (to the list) and POST (to create), and for no other verb |
| `ProductHandlers.UnregisteredPath` | internal/tests/integration_api_test.go:116-121 | `/api/v1/products/1` has no route, so the router answers it with 404 |
| `ProductHandlers.ProductIdRoute` | internal/tests/integration_api_test.go:61-65 | `/products/<id>` is routed for exactly GET, PUT, PATCH and DELETE, to GetProduct, UpdateProduct, PatchProduct and DeleteProduct of that id |
| `ProductHandlers.ProductHandler.constructor` | internal/handlers/products_test.go:47 | the handler works over the given store |
| `ProductHandlers.ProductHandler.Carry` | internal/handlers/products_test.go:28-31 | a save is made exactly when the plan asks for one, and the plan's reply is sent |
| `ProductHandlers.ProductHandler.GetProduct` | internal/handlers/products_test.go:57-99 | the reply is the lookup over the stored collection |
| `ProductHandlers.ProductHandler.GetAllProducts` | internal/handlers/products_test.go:101-119 | the reply is the window over the stored collection |
| `ProductHandlers.ProductHandler.CreateProduct` | internal/handlers/products_test.go:121-149 | the store gets the planned collection, with the store's next ID, and the planned reply is sent |
| `ProductHandlers.ProductHandler.UpdateProduct` | internal/handlers/products_test.go:151-180 | the store gets the planned collection and the planned reply is sent |
| `ProductHandlers.ProductHandler.PatchProduct` | internal/handlers/products_test.go:182-209 | the store gets the planned collection and the planned reply is sent |
| `ProductHandlers.ProductHandler.DeleteProduct` | internal/handlers/products_test.go:211-227 | the store gets the planned collection and the planned reply is sent |
| `Scenarios.PathIds` | internal/handlers/products_test.go:67-97 | "1" and "999" parse, "abc" does not |
| `Scenarios.SeededHandler` | internal/tests/integration_api_test.go:33-44 | after seeding through SaveProducts the store holds the three seed products |
| `Scenarios.GetProductOnOneItemStore` | internal/handlers/products_test.go:57-99 | ID 1 gives 200 "Laptop", 999 gives 404 "Product not found", "abc" gives 400 "Invalid product ID" |
| `Scenarios.ListWithoutQuery` | internal/handlers/products_test.go:101-119 | listing a two-item store with no query gives 200 with both items |
| `Scenarios.CreateOnEmptyStore` | internal/handlers/products_test.go:121-149 | create on an empty store gives 201 with ID 1 and the name, and the store then holds one product |
| `Scenarios.UpdateOnOneItemStore` | internal/handlers/products_test.go:151-180 | update of ID 1 returns the new name and category, and stored entry 0 has the new name |
| `Scenarios.PatchCategory` | internal/handlers/products_test.go:182-209 | patching the category changes only the category, in the reply and in the store |
| `Scenarios.DeleteOnlyItem` | internal/handlers/products_test.go:211-227 | deleting ID 1 from a one-item store gives 204 and leaves it empty |
| `Scenarios.SeededGetProduct` | internal/tests/integration_api_test.go:82-100 | after seeding, ID 1 gives 200 "Laptop" |
| `Scenarios.SeededListWindow` | internal/tests/integration_api_test.go:133-147 | limit=1, offset=1 over three products gives one product, with ID 2 |
| `Scenarios.SeededCreate` | internal/tests/integration_api_test.go:159-182 | create after seeding IDs 1..3 gives 201 with ID 4 and the name |
| `Scenarios.SeededUpdate` | internal/tests/integration_api_test.go:194-220 | PUT /products/1 gives 200 with the new name |
| `Scenarios.SeededPatch` | internal/tests/integration_api_test.go:232-257 | patching price, rating and category gives a product carrying all three, with name and ID unchanged |
| `Scenarios.SeededDelete` | internal/tests/integration_api_test.go:269-275 | DELETE /products/1 gives 204 and leaves products 2 and 3 |

## Left out

- File I/O (`os.ReadFile`, `os.WriteFile`, the `FileStore` and `Database` types) is not modelled. Reads, writes and their errors are inputs (`Models.ReadOutcome`, write functions).
- The mutexes in `database.go` and `base_repository.go` are not modelled. The model is sequential, so the race between two creates that the per-call locking allows cannot be stated.
- JSON encoding and decoding are not modelled; they are function parameters. Decoding a request body is modelled by its outcome: a bound Product or patch map, or None. The byte format and `MarshalIndent`'s layout are not modelled.
- The base repository's `Load` and `Save` are modelled over their outcomes (`ProductRepository.BaseLoad`, `ProductRepository.BaseSave`), and `ProductRepository.SaveProducts` takes `Save` as a parameter. The file store behind them and the bytes `MarshalIndent` lays out are not modelled.
- `Decimal.Atoi` models the syntax and the int64 range of `strconv.Atoi`, but not its error values. Both kinds of failure are None.
- `price` and `rating` are Go float64 values. They are modelled as `real` values that are only copied, never computed with, so float rounding plays no part.
- `ProductHandlers.Window`: `offset + limit` is computed without 64-bit wrap-around. The handler body that adds them is not part of this model.
- `ProductHandlers.PatchProductPlan`: the patched product is found and returned by its ID. A handler that returned the product at position id-1 would return the same product whenever the IDs are 1..n in order (`ProductHandlers.PatchedSitsAtIdMinusOne`).
- `ProductRepository.GetNextID`, `Database.GetNextID`, `Store.ProductStore.GetNextID`: "the result exceeds every ID" is proved only when no ID equals 2^63-1, because Go's `maxID + 1` wraps there (`Collection.NextIdWraps`).
- Gin wiring and startup, CORS and logging middleware, the health endpoint and configuration loading are not modelled. The `NoRoute` handler of `internal/server/app.go` (404 `{"error":"Not found"}`) is not modelled either: the routers in the tests do not install it, so `ProductHandlers.Unrouted` gives Gin's default 404 page instead. Of Gin's other defaults only the trailing-slash redirect is modelled; with `HandleMethodNotAllowed` off, a known path under another verb is a plain 404.
- `models/product.go`, `handlers/products_test.go` and `internal/tests/integration_test.go` are an older revision without `category`. They are used only as evidence for `internal/handlers/products.go`.
- `Store.ProductStore.LoadProducts`: `MockDB.LoadProducts` returns its own `products` slice, so a handler writing into the loaded slice would change the store before any save. The model returns a value sequence, so this aliasing is not modelled; the store changes only through `SaveProducts`.
- `Scenarios.SeededHandler`: the integration tests seed a temporary JSON file through the repository stack. The scenarios seed the in-memory store instead. The only link is `ProductRepository.SaveThenLoad`, which holds under a lossless JSON encoding and a successful write.
- `ProductHandlers.ProductHandler.Carry`: `Store.ProductStore.SaveProducts` never fails, so the 500 "Failed to save" branch of `ProductHandlers.Finish` is stated by `Finish` alone and no handler scenario reaches it.

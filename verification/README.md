# Electronic Store: cart, checkout and image upload

A Dafny model of the core of the Electronic Store backend, a Spring Boot
shop. Three services are modelled:

- The cart service (`CartServiceImp`). Adding a product merges into an
  existing line for that product or appends a new one. Lines are removed one
  at a time by their id. A cart can be cleared and read.
- The order service (`OrderServiceImp`). Checkout turns a cart into an
  order: one order line per cart line, the amount summed in Java `int`
  arithmetic, and the cart emptied. Orders can be removed and listed per
  user. The listing's sort-direction rule is modelled too.
- The file service (`FileServiceImp`). An upload takes the extension from
  the last `.` of the file name and checks it against a whitelist. The file
  is written to `path + name` and read back from `path + separator + name`.
  Paths name files after repeated separators are collapsed, as `java.io.File`
  and `java.nio.file.Path` do.

Files:

- `java_int.dfy` (`JavaInt`): Java's 32-bit `int`, with wrap-around on `*`
  and `+` written out.
- `outcome.dfy` (`Outcome`): `Option`, and `Result` with the service errors.
  `NotFound` is ResourceNotFoundException. `BadApiRequest` is
  BadApiRequestException. `Uncaught` is a Java runtime or library exception,
  named by its class.
- `store.dfy` (`Store`): the entities and the `Database` class, which stands
  for the user, product, cart, cart-item and order repositories. Its fields
  are:
  - `catalog`: product id to current discounted price;
  - `carts`;
  - `cartOf`: one cart per user;
  - `itemIndex`: the cart-item table, item id to owning cart;
  - `orders`.

  `Database.Valid()` is the consistency these tables keep.
- `cart_service.dfy`, `order_service.dfy`, `file_service.dfy`: the three
  services. Each operation is a method on the database (or on a
  `FileSystem`, a set of existing paths). Each is proved against functions
  on values (`AddLine`, `RemoveLine`, `OrderLines`, `Extension`, …), and the
  service's properties are lemmas about those functions.

Where the code behaves in ways a reader might not expect, the model follows
the code:

- **Checkout reprices.** Each order line's total is
  `cartItem.getQuantity() * cartItem.getProduct().getDiscountedPrice()`.
  That is the product's *current* price, not the total stored in the cart
  line (`OrderServiceImp.java:69`). See `CheckoutReprices`.
- **Reading the cart of a user who has none** passes `null` to ModelMapper,
  which throws IllegalArgumentException. It is not a NotFound.
- **Clearing the cart of a user who has none** dereferences `null`
  (NullPointerException).
- **The quantity is not validated.** Zero or negative quantities are stored
  as given.
- **`createOrder` does not check that the cart belongs to the user.** The
  order is made out to the requesting user, whoever owns the cart.
  `removeItemFromCart` likewise ignores its `userId`.
- **Amounts are Java `int`s.** Line totals and the order amount wrap around
  modulo 2^32. `AmountIsExactWhenInRange` shows that the amount is exact
  whenever the true sum fits in an `int`.

Generated ids and the clock are parameters, with freshness preconditions:
`newCartId`, `newItemId`, `newOrderId`, `now`.

## Model

| member | source | states |
|---|---|---|
| JavaInt.Wrap32 | src/main/java/com/shopping/electronic/store/service/OrderServiceImp.java:69-73 | the Java `int` result of an exact value is congruent to it modulo 2^32 and equals it when it is in range |
| JavaInt.WrapCongruent | src/main/java/com/shopping/electronic/store/service/OrderServiceImp.java:73 | exact values congruent modulo 2^32 wrap to the same `int` |
| JavaInt.AddCongruent | src/main/java/com/shopping/electronic/store/service/OrderServiceImp.java:73 | sums of congruent terms are congruent |
| JavaInt.WrapAdd | src/main/java/com/shopping/electronic/store/service/OrderServiceImp.java:73 | adding already-wrapped running values gives the same `int` as wrapping the exact sum once |
| Store.SaveCartConsistent | src/main/java/com/shopping/electronic/store/service/CartServiceImp.java:75-76 | saving a cart with well-formed lines for its user, with the item table re-pointed at its lines, keeps carts keyed by id and by user, lines well formed and the item table exact |
| Store.SaveCartKeyed | src/main/java/com/shopping/electronic/store/service/CartServiceImp.java:75-76 | saving a user's cart keeps one cart per user, keyed by its id |
| Store.SaveCartWellFormed | src/main/java/com/shopping/electronic/store/service/CartServiceImp.java:76 | saving a cart with well-formed lines keeps every cart's lines well formed |
| Store.SaveCartIndexed | src/main/java/com/shopping/electronic/store/service/CartServiceImp.java:76 | saving a cart with its lines re-indexed keeps the item table listing exactly each cart's lines |
| Store.CartIdsIndexed | src/main/java/com/shopping/electronic/store/service/CartServiceImp.java:82-84 | the item-table rows pointing at a cart are exactly that cart's line ids |
| Store.EmptyCartConsistent | src/main/java/com/shopping/electronic/store/service/CartServiceImp.java:91-93 | emptying a cart and dropping its item rows keeps the database consistent and removes exactly that cart's line ids |
| Store.Database.Valid | src/main/java/com/shopping/electronic/store/service/CartServiceImp.java:47-76 | the tables' consistency: one cart per user keyed by its id, distinct line ids, one line per product, lines only for catalog products, the cart-item table listing exactly each cart's lines, orders keyed by their id (kept by every operation's `ensures db.Valid()`) |
| CartService.Repriced | src/main/java/com/shopping/electronic/store/service/CartServiceImp.java:57-58 | an overwritten line keeps its id and product and takes the new quantity |
| CartService.Overwrite | src/main/java/com/shopping/electronic/store/service/CartServiceImp.java:55-62 | the setter pass keeps the number of lines and each line's id and product |
| CartService.AddLine | src/main/java/com/shopping/electronic/store/service/CartServiceImp.java:54-73 | merge or append; its effect is stated by AddLineEffect, AddLineCounts and AddLineWellFormed, and MergeOrAppend computes it |
| CartService.RemoveLine | src/main/java/com/shopping/electronic/store/service/CartServiceImp.java:82-84 | deleting a line by id leaves no line with that id and never adds lines |
| CartService.LinesForHasProduct | src/main/java/com/shopping/electronic/store/service/CartServiceImp.java:54-65 | a product has a line in the cart iff its line count is positive (the `updated` flag) |
| CartService.OneLinePerProductCount | src/main/java/com/shopping/electronic/store/service/CartServiceImp.java:55-73 | under the one-line-per-product invariant a product has at most one line |
| CartService.OverwriteKeepsCounts | src/main/java/com/shopping/electronic/store/service/CartServiceImp.java:55-62 | overwriting a product's lines changes no product's line count |
| CartService.AddLineCounts | src/main/java/com/shopping/electronic/store/service/CartServiceImp.java:55-73 | after an add, the product has one line if it had none and otherwise as many as before; other products keep their counts |
| CartService.AddLineEffect | src/main/java/com/shopping/electronic/store/service/CartServiceImp.java:55-73 | after an add, the product's line has the new quantity (replaced, not summed) and total quantity × price; the length grows by one exactly when no line matched; other lines, ids and products are unchanged; an appended line has the new id |
| CartService.AddLineWellFormed | src/main/java/com/shopping/electronic/store/service/CartServiceImp.java:55-76 | an add keeps distinct ids, one line per product and catalog products, and adds the new id exactly when it appends |
| CartService.AddTwiceMerges | src/main/java/com/shopping/electronic/store/service/CartServiceImp.java:55-62 | adding a product twice leaves exactly one line for it, with the second quantity and its total |
| CartService.AddTwoProducts | src/main/java/com/shopping/electronic/store/service/CartServiceImp.java:64-73 | adding two new products appends two lines, in order, each priced on its own |
| CartService.RemoveLineAt | src/main/java/com/shopping/electronic/store/service/CartServiceImp.java:82-84 | with distinct ids, deleting a line by id removes exactly that position and keeps the others in order |
| CartService.RemoveLineAbsent | src/main/java/com/shopping/electronic/store/service/CartServiceImp.java:82-84 | deleting an id no line carries changes nothing |
| CartService.DropWellFormed | src/main/java/com/shopping/electronic/store/service/CartServiceImp.java:84 | dropping one line keeps the lines well formed and removes exactly its id |
| CartService.RemoveLineWellFormed | src/main/java/com/shopping/electronic/store/service/CartServiceImp.java:82-84 | deleting by id keeps the lines well formed, removes exactly that id, and shortens the cart by one when the id is present |
| CartService.RemoveConsistent | src/main/java/com/shopping/electronic/store/service/CartServiceImp.java:82-84 | deleting an indexed line from the cart holding it keeps the database consistent and shortens that cart by one |
| CartService.AddConsistent | src/main/java/com/shopping/electronic/store/service/CartServiceImp.java:47-76 | saving the user's (existing or new) cart after an add keeps the database consistent |
| CartService.MergeOrAppend | src/main/java/com/shopping/electronic/store/service/CartServiceImp.java:54-73 | the scan yields `AddLine` of the lines, and `updated` is set iff some line had the product |
| CartService.AddItemToCart | src/main/java/com/shopping/electronic/store/service/CartServiceImp.java:40-78 | product not found, then user not found, with nothing changed; otherwise the user's cart (kept, or new with the fresh id and `now`) holds `AddLine` of its old lines at the current discounted price, is saved under its id and the user, the item table gains the new id exactly when a line was appended, and the database stays consistent |
| CartService.SaveLine | src/main/java/com/shopping/electronic/store/service/CartServiceImp.java:54-76 | the merged cart, with its user set, is saved under its id and the user; the item table gains the new id exactly when a line was appended |
| CartService.RemoveItemFromCart | src/main/java/com/shopping/electronic/store/service/CartServiceImp.java:81-85 | an unknown item id is NotFound with nothing changed; otherwise that line leaves the cart holding it (one line fewer) and the item table, and the database stays consistent |
| CartService.ClearCart | src/main/java/com/shopping/electronic/store/service/CartServiceImp.java:88-94 | unknown user is NotFound, a user without a cart is a NullPointerException, both with nothing changed; otherwise the cart stays but has no lines and the item table loses exactly its line ids |
| CartService.GetCartByUser | src/main/java/com/shopping/electronic/store/service/CartServiceImp.java:97-102 | unknown user is NotFound, a user without a cart an IllegalArgumentException; otherwise exactly the cart stored for that user (its id, date, user and lines), with one line per product |
| JavaInt.Mul32 | src/main/java/com/shopping/electronic/store/service/CartServiceImp.java:58 | Java `int` multiplication: the exact product whenever it fits in an `int` |
| JavaInt.Add32 | src/main/java/com/shopping/electronic/store/service/OrderServiceImp.java:73 | Java `int` addition: congruent to the exact sum modulo 2^32, and equal to it when it fits |
| OrderService.ToOrderItem | src/main/java/com/shopping/electronic/store/service/OrderServiceImp.java:66-71 | an order line keeps the cart line's product and quantity |
| OrderService.OrderLines | src/main/java/com/shopping/electronic/store/service/OrderServiceImp.java:64-75 | one order line per cart line, in order, with the same product and quantity |
| OrderService.OrdersOf | src/main/java/com/shopping/electronic/store/service/OrderServiceImp.java:98 | exactly the stored orders whose user is the given one |
| OrderService.SortDirection | src/main/java/com/shopping/electronic/store/service/OrderServiceImp.java:107 | ascending exactly when `sortDir` is "ASC", descending for every other string |
| OrderService.SumTotalsCongruent | src/main/java/com/shopping/electronic/store/service/OrderServiceImp.java:64-75 | the sum of the wrapped line totals is congruent modulo 2^32 to the exact sum of quantity × current price |
| OrderService.AmountIsExactWhenInRange | src/main/java/com/shopping/electronic/store/service/OrderServiceImp.java:63-78 | the order amount equals the exact sum of quantity × current price whenever that sum fits in an `int` |
| OrderService.OrderLinesKeepTotalsAtCurrentPrices | src/main/java/com/shopping/electronic/store/service/OrderServiceImp.java:64-75 | when every cart line was priced at the current price, the order lines carry the cart lines' products, quantities and totals unchanged, one per cart line |
| OrderService.CheckoutReprices | src/main/java/com/shopping/electronic/store/service/OrderServiceImp.java:69 | a cart line stored at an old price is repriced at checkout (1000 in the cart, 1200 in the order) |
| OrderService.OrdersOfAfterCreate | src/main/java/com/shopping/electronic/store/service/OrderServiceImp.java:82 | saving a new order adds exactly it to its user's listing |
| OrderService.OrdersOfAfterRemove | src/main/java/com/shopping/electronic/store/service/OrderServiceImp.java:88-91 | deleting an order removes exactly it from its user's listing and leaves other users' listings alone |
| OrderService.LastOrderLine | src/main/java/com/shopping/electronic/store/service/OrderServiceImp.java:69-73 | the order's running sum grows by the last line's `int` total and the exact reference sum by quantity × current price |
| OrderService.BuildOrderItems | src/main/java/com/shopping/electronic/store/service/OrderServiceImp.java:63-78 | the stream yields one order line per cart line, in order, and the running `int` amount equals the wrapped sum of the line totals and the wrapped exact sum of quantity × price |
| OrderService.CreateOrder | src/main/java/com/shopping/electronic/store/service/OrderServiceImp.java:42-85 | user not found, then cart not found, then an empty cart (BadApiRequest), each with nothing changed; otherwise an undelivered order dated `now` for the user, with the billing and status fields, the order lines and amount, is stored under the fresh id, the cart is emptied and its item rows dropped, the cart owner then has no lines, and the database stays consistent |
| OrderService.SaveOrder | src/main/java/com/shopping/electronic/store/service/OrderServiceImp.java:80-82 | the cart keeps its id, date and user but loses its lines, the cart-item table loses exactly their rows, the owner then has no lines, the order is stored under its id, and the database stays consistent |
| OrderService.RemoveOrder | src/main/java/com/shopping/electronic/store/service/OrderServiceImp.java:88-92 | an unknown id is NotFound with nothing changed; otherwise exactly that order is deleted |
| OrderService.GetAllOrdersOfUser | src/main/java/com/shopping/electronic/store/service/OrderServiceImp.java:95-103 | an unknown user is NotFound; otherwise exactly the stored orders of that user |
| FileService.LastIndexOf | src/main/java/com/shopping/electronic/store/service/FileServiceImp.java:26 | -1 exactly when the character is absent, otherwise a position holding it with no later occurrence |
| FileService.ExtensionIsLastDotSuffix | src/main/java/com/shopping/electronic/store/service/FileServiceImp.java:26 | a name without '.' makes `substring` throw; otherwise the extension is a non-empty suffix of the name that starts with '.' and holds no other '.' |
| FileService.ExtensionOfSuffix | src/main/java/com/shopping/electronic/store/service/FileServiceImp.java:26 | conversely, any '.'-led suffix without another '.' is the extension, whatever precedes it |
| FileService.AcceptedNamesEndInImageExtension | src/main/java/com/shopping/electronic/store/service/FileServiceImp.java:26-33 | a name whose extension passes the whitelist ends in ".png", ".jpg" or ".jpeg" |
| FileService.ExtensionCaseSensitive | src/main/java/com/shopping/electronic/store/service/FileServiceImp.java:26-32 | the whitelist is case-sensitive: for every stem, `stem + ".PNG"` has extension ".PNG", which is refused, and `stem + ".png"` has ".png", which is accepted |
| FileService.UploadThenRead | src/main/java/com/shopping/electronic/store/service/FileServiceImp.java:23-51 | for a name that neither starts nor ends with a separator, `getResource(path, name)` opens the file `uploadFile(…, path)` wrote exactly when `path` ends in a separator |
| FileService.Normalize | src/main/java/com/shopping/electronic/store/service/FileServiceImp.java:38-51 | the file a path names, with runs of separators collapsed: never longer than the path, same first character |
| FileService.NormalizeHasNoRuns | src/main/java/com/shopping/electronic/store/service/FileServiceImp.java:38-51 | a normalised path has no two separators in a row |
| FileService.NormalizeAppend | src/main/java/com/shopping/electronic/store/service/FileServiceImp.java:38-51 | normalising splits at a point where no two separators meet |
| FileService.NormalizeDoubled | src/main/java/com/shopping/electronic/store/service/FileServiceImp.java:50-51 | a doubled separator names the same file as a single one |
| FileService.UploadUnderSeparatorIsRead | src/main/java/com/shopping/electronic/store/service/FileServiceImp.java:23-51 | with `path` ending in a separator, the uploaded file and the file read are the same |
| FileService.UploadWithoutSeparatorIsNotRead | src/main/java/com/shopping/electronic/store/service/FileServiceImp.java:23-51 | otherwise (name not starting with a separator) the file read has a path one character longer than the uploaded one, so it is another file |
| FileService.UploadFile | src/main/java/com/shopping/electronic/store/service/FileServiceImp.java:21-46 | a null name returns "Invalid FileName !" and writes nothing; a name without '.' throws; a disallowed extension is a BadApiRequest naming it; an existing target file is FileAlreadyExistsException; otherwise the file `path + name` names is created and the name returned |
| FileService.GetResource | src/main/java/com/shopping/electronic/store/service/FileServiceImp.java:49-53 | succeeds exactly when the file `path + separator + name` names exists, and opens that file; otherwise FileNotFoundException |
| FileService.Substring | src/main/java/com/shopping/electronic/store/service/FileServiceImp.java:26 | `substring(begin)` succeeds exactly for `0 <= begin <= length`, giving the suffix from `begin`; otherwise StringIndexOutOfBoundsException |
| FileService.Extension | src/main/java/com/shopping/electronic/store/service/FileServiceImp.java:26 | the extension exists exactly when the name has a '.' (properties in ExtensionIsLastDotSuffix and ExtensionOfSuffix) |
| FileService.AllowedExtension | src/main/java/com/shopping/electronic/store/service/FileServiceImp.java:27-32 | the whitelist ".png", ".jpg", ".jpeg"; an accepted extension starts with '.' and has 4 or 5 characters |
| FileService.UploadTarget | src/main/java/com/shopping/electronic/store/service/FileServiceImp.java:23 | the upload path is `path` followed directly by the name, with no separator |
| FileService.ResourcePath | src/main/java/com/shopping/electronic/store/service/FileServiceImp.java:50 | the read path is `path`, one separator, then the name |

## Left out

- The REST controllers, the user/category/product CRUD services, security and configuration are not part of this model. Products and users are only looked up, through `Database.catalog` and `Database.users`, which no modelled operation writes.
- `getAllOrders` is modelled only as its sort-direction rule (`SortDirection`). Paging and sorting by `sortBy` are done by the repository and are not part of this model.
- The ModelMapper conversion to DTOs is the identity here: methods return the `Cart` and `Order` values themselves.
- OrderService.GetAllOrdersOfUser: returns a set, not a list; the repository's row order is not modelled.
- OrderService.CreateOrder: order lines have no ids of their own and no back-reference to the order. The request DTO is flattened into parameters.
- Generated ids (`UUID.randomUUID`, the database's cart-item ids) and `new Date()` are parameters with freshness preconditions.
- Transactions, concurrency and the JPA persistence context are not modelled. Each method is one atomic step.
- FileService.UploadFile: the stream contents, `mkdirs` and I/O failures other than an existing target are not modelled. `File.separator` is fixed to "/".
- FileService.GetResource: files are compared by their paths with repeated separators collapsed (`Normalize`); dropping a trailing separator, resolving `.` and `..` components or symbolic links, and relative paths against the working directory are not modelled. It returns the opened file's path rather than an `InputStream`.
- CartService.AddItemToCart: the product id comes from a request body that is not validated; a body without `productId` makes `productRepository.findById(null)` throw IllegalArgumentException before the not-found checks. The model's ids are never null, so that path is not modelled.
- OrderService.CreateOrder: likewise a request body without `userId` or `cartId` makes `findById(null)` throw IllegalArgumentException; the model's ids are never null, so that path is not modelled.
- The entity and DTO classes (`Cart`, `CartItem`, `Order`, `OrderItem`, `AddItemToCartRequest`, `CreateOrderRequest`) are not part of this model beyond the fields the services use.

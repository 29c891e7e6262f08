# Jusas storefront — a Dafny model

Jusas is a smoothie shop. An Express/Prisma backend serves products, carts, orders,
accounts, admin statistics and payment-proof uploads. A React frontend keeps the
signed-in user, the cart and the toasts in small stores, and its pages drive those stores.
This project models the backend's controllers and middleware, the image-URL migration
script, and the frontend's stores, pages and helpers. It then proves what they promise.

The model follows the source's own form:

- **Request handlers over the database** (`createOrder`, `addToCart`, `mergeCart`, the
  product CRUD, `register`, the migration loop) are methods on a `Database` class. It holds
  one `map` per table plus that table's next id. Each method modifies only the tables it
  writes, keeps the table invariants (`Database.Valid`), and is proved against a
  specification function (`Deduct`, `AddLine`, `MergeAll`, `Migrated`, `ChangedIds`).
  Lemmas then state what those functions mean.
- **Decisions without state** (the auth gates, `getOrderById`, `getOrders`'s scope, the
  route guard, the register checks, the file filter, the path builders) are functions.
  Each has a contract or a lemma stating its cases.
- **Stores** (`useCartStore`, `useAuthStore`, `useToastStore`) and the stateful pages (the
  dashboard lists, the checkout flags, the product quantity stepper) are classes. Their
  methods state the whole new state.
- **Outside inputs are parameters.** Server replies, the password hasher and comparer,
  the token signer and verifier, the `URL` parser, the clock and the random numbers are
  all given to the model. `None` stands for a request that failed.

One module per source file:

| module | file |
|---|---|
| `Db` | the Prisma tables the handlers use |
| `OrderController`, `CartController`, `ProductController`, `AuthController`, `AdminController` | `backend/src/controllers/*` |
| `AuthMiddleware`, `OrderMiddleware` | `backend/src/middleware/*` |
| `Upload` | `backend/src/routes/upload.ts` |
| `MigrateImages` | `backend/migrate_images.ts` |
| `BackendImageUtils`, `FrontendImageUtils` | the two `utils/imageUtils.ts` |
| `CartStore`, `AuthStore`, `ToastStore` | `frontend/src/store/*` |
| `CartPage`, `ProductDetails`, `AdminDashboard`, `RegisterPage`, `MenuPage` | `frontend/src/pages/*` |
| `ProtectedRoute` | `frontend/src/components/ProtectedRoute.tsx` |
| `Routes` | `frontend/src/config/routes.ts` |

`Text` holds the JavaScript string operations the code relies on. `Common` holds `Option`,
`Reply`, `Filter` and sums.

## Model

| member | source | states |
|---|---|---|
| OrderController.ShortfallIndex | backend/src/controllers/orderController.ts:14-19 | the first line whose product is missing or short of stock, measured against the stock before any deduction; `None` exactly when every line passes |
| OrderController.CheckStock | backend/src/controllers/orderController.ts:14-19 | the checking loop stops at exactly `ShortfallIndex` |
| OrderController.DeductStock | backend/src/controllers/orderController.ts:22-30 | the deduction loop leaves the product table equal to `Deduct` of the old table over the lines, in order |
| OrderController.Deduct | backend/src/controllers/orderController.ts:22-30 | the deduction neither adds nor removes products |
| OrderController.DeductEffect | backend/src/controllers/orderController.ts:22-30 | every product loses from stock, and gains in totalSold, exactly the total quantity the lines ask of it; its other fields stay as they were |
| OrderController.UnnamedProductUntouched | backend/src/controllers/orderController.ts:22-30 | a product no line names is left exactly as it was |
| OrderController.DistinctLineDeductsItsQuantity | backend/src/controllers/orderController.ts:22-30 | with one line per product, that line's product loses exactly its quantity and gains it in totalSold |
| OrderController.NonPositiveQuantityPasses | backend/src/controllers/orderController.ts:16 | a line with quantity ≤ 0 always passes the stock check |
| OrderController.OrderOwner | backend/src/controllers/orderController.ts:41 | `userId \|\| null`: a missing or zero id makes a guest order, any other id is kept |
| OrderController.OrderItems | backend/src/controllers/orderController.ts:44-48 | one order item per submitted line, carrying its id as productId, its quantity and its price |
| OrderController.CreateOrder | backend/src/controllers/orderController.ts:7-62 | the first short line aborts with 400 "Insufficient stock for product: <name>" and nothing changes; otherwise the stock is deducted, one PENDING order is inserted under the next id and 201 returns it |
| OrderController.PlaceOrder | backend/src/controllers/orderController.ts:21-55 | once the check has passed: products become `Deduct(old, lines)` and exactly one order is added |
| OrderController.DuplicateLinesOversell | backend/src/controllers/orderController.ts:14-30 | as written, two lines of one product with stock 1 both pass the check and the stock ends at -1 |
| OrderController.DemandCoveredPreventsOversell | backend/src/controllers/orderController.ts:14-30 | with the check aggregated per product, no non-negative stock is taken below zero |
| OrderController.DemandCoveredRejectsDuplicates | backend/src/controllers/orderController.ts:14-30 | the aggregated check refuses the duplicate-line order |
| OrderController.OrdersScope | backend/src/controllers/orderController.ts:65-97 | a non-admin is always scoped to their own id; an admin sees all orders, or those of `?userId=` when it is an integer; an admin's non-integer `?userId=` is answered with 500 |
| OrderController.NonAdminSeesOnlyOwnOrders | backend/src/controllers/orderController.ts:65-98 | every order in a non-admin's reply is theirs, whatever the query says |
| OrderController.GetOrderById | backend/src/controllers/orderController.ts:117-157 | 400 for an unparsable id, 404 for a missing order, 403 only for a non-admin who does not own it, otherwise the order |
| OrderController.UpdateOrderStatus | backend/src/controllers/orderController.ts:100-115 | the status and decline reason are overwritten with what the body carries (an absent field is kept); there is no transition check; a missing order or a status the enum does not name answers 500 and nothing changes |
| OrderMiddleware.UserIdOf | backend/src/middleware/orderMiddleware.ts:10 | an id exactly when a user is attached, and then that user's id |
| OrderMiddleware.EnsureOrderOwnership | backend/src/middleware/orderMiddleware.ts:5-42 | 401 without a user id, 400 for a non-numeric id, 404 for a missing order, 403 exactly for a non-admin non-owner; it passes exactly for an admin or the owner |
| OrderMiddleware.GuestOrderOnlyForAdmins | backend/src/middleware/orderMiddleware.ts:31 | an order without an owner passes the guard only for an admin |
| OrderMiddleware.GuardAgreesWithHandler | backend/src/middleware/orderMiddleware.ts:5-42 | whatever the guard lets through, `getOrderById` serves |
| CartController.LinesOf | backend/src/controllers/cartController.ts:152-155 | the rows of one cart, exactly: the `include: { items: true }` snapshot |
| CartController.FirstLine | backend/src/controllers/cartController.ts:63-65 | `findFirst`: the lowest row id of the cart for the product; `None` exactly when there is no such row |
| CartController.AddLine | backend/src/controllers/cartController.ts:62-76 | the next id grows by at most one |
| CartController.AddLineEffect | backend/src/controllers/cartController.ts:62-76 | adding keeps ids in range and one line per product, leaves a line for the product, raises its quantity by the added amount and changes no other (cart, product) quantity |
| CartController.RepeatedAddsAccumulate | backend/src/controllers/cartController.ts:49-83 | repeated adds of one product keep one line, holding the sum of the added quantities |
| CartController.GetOrCreateCart | backend/src/controllers/cartController.ts:56-60 | returns the user's cart, creating it under the next id only when the user has none |
| CartController.GetCart | backend/src/controllers/cartController.ts:7-46 | 401 without a user and nothing changes; otherwise the rows of the user's cart. An existing cart leaves the carts and their next id as they were; a missing one is created under the next cart id, which then grows by one, and has no rows |
| CartController.AddToCart | backend/src/controllers/cartController.ts:49-83 | 401 without a user and nothing changes; otherwise the rows become `AddLine` over the user's cart, and one line per product is kept. An existing cart leaves the carts and their next id alone; a missing one is created under the next cart id, which grows by one |
| CartController.AddToCartOf | backend/src/controllers/cartController.ts:62-76 | the write of `addToCart`: the rows and next id become `AddLine` of the old ones, and one line per product is kept |
| CartController.UpdateCartItem | backend/src/controllers/cartController.ts:86-117 | 401 without a user; 500 for an unparsable id; 403 unless the row exists and belongs to the caller's cart; a quantity ≤ 0 deletes the row, any other sets it; a refusal changes nothing |
| CartController.RemoveFromCart | backend/src/controllers/cartController.ts:120-141 | 401 without a user; 500 for an unparsable id; 403 unless the caller owns the row; otherwise exactly that row is deleted; a refusal changes nothing |
| CartController.OtherUsersLinesUntouched | backend/src/controllers/cartController.ts:100-111 | an owned update or delete never changes a row in another user's cart |
| CartController.MergeStep | backend/src/controllers/cartController.ts:167-188 | one guest entry adds at most one row |
| CartController.MergeAll | backend/src/controllers/cartController.ts:166-189 | the loop over the guest entries never lowers the next row id |
| CartController.MergeOne | backend/src/controllers/cartController.ts:167-188 | one loop turn: rows and next id become `MergeStep` of the old ones, looked up in the snapshot |
| CartController.MergeCart | backend/src/controllers/cartController.ts:144-200 | 401 without a user and nothing changes; otherwise the user has a cart and its rows become `MergeAll` against the snapshot taken before the loop; a missing guest cart merges nothing. An existing cart leaves the carts and their next id alone; a missing one is created under the next cart id, which grows by one |
| CartController.MergeInto | backend/src/controllers/cartController.ts:164-190 | the loop once the cart is known: rows and next id end at `MergeAll` over every entry |
| CartController.MergeAddsToExistingAndCreatesNew | backend/src/controllers/cartController.ts:166-189 | the server cart {A: 2} merged with the guest cart {A: 3, B: 1} becomes {A: 5, B: 1} |
| CartController.StaleMergeDuplicatesLines | backend/src/controllers/cartController.ts:152-188 | as written, two guest entries for a product the cart lacks create two lines for it |
| CartController.StaleMergeKeepsLastSum | backend/src/controllers/cartController.ts:167-178 | as written, guest entries 3 and 4 for a line of 2 leave 6, not 9 |
| CartController.StaleMergeLastEntryWins | backend/src/controllers/cartController.ts:167-178 | as written, a snapshot line ends at its snapshot quantity plus the last guest entry matched to it |
| CartController.MergeTwiceAddsTwice | backend/src/controllers/cartController.ts:144-200 | merging is not idempotent: a second merge of the same guest cart adds its quantities again |
| CartController.FreshMergeKeepsOneLinePerProduct | backend/src/controllers/cartController.ts:164-190 | merging against the current rows keeps one line per product and gives each product its server quantity plus all its guest quantities; other carts are untouched |
| CartController.DistinctMergeIsFresh | backend/src/controllers/cartController.ts:152-188 | when no product appears twice in the guest cart, the merge against the snapshot gives exactly the rows of the fresh merge |
| CartController.DistinctMergeAddsGuestQuantities | backend/src/controllers/cartController.ts:152-188 | for a guest cart that names each product at most once, the merge as written keeps one line per product and leaves each product with its server quantity plus its guest quantity; other carts keep theirs |
| CartController.FreshMergeLeavesOtherProducts | backend/src/controllers/cartController.ts:164-190 | guest entries that never name a product leave that product's lines in the cart exactly as they were |
| ProductController.QueryOf | backend/src/controllers/productController.ts:9-17 | only the exact string "true" turns on the featured filter or the bestseller order |
| ProductController.IdListing | backend/src/controllers/productController.ts:19-22 | the id-ordered listing is strictly ascending and holds exactly the selected products |
| ProductController.IdListingAnswersQuery | backend/src/controllers/productController.ts:7-28 | that listing is a valid reply to a query without the bestseller order |
| ProductController.FeaturedListingIsExactlyFeatured | backend/src/controllers/productController.ts:12-14 | `?featured=true` lists exactly the featured products |
| ProductController.BestsellerListingStartsWithTopSeller | backend/src/controllers/productController.ts:17 | a `?bestseller=true` reply starts with a product sold at least as often as any selected one |
| ProductController.GetProductById | backend/src/controllers/productController.ts:30-46 | a found product is returned; a missing one gets 404; a non-numeric id makes the lookup throw, which answers 500 |
| ProductController.NewProduct | backend/src/controllers/productController.ts:52-61 | the new row carries the given fields, totalSold 0, and isFeatured only when it is given as true |
| ProductController.CreateProduct | backend/src/controllers/productController.ts:49-66 | 201 with the new row, stored under the next id |
| ProductController.Updated | backend/src/controllers/productController.ts:73-83 | price and stock are overwritten; name, description, image URL and featured flag take the sent value when one is sent and keep the stored one otherwise; totalSold is never touched |
| ProductController.UpdateTwiceIsUpdateOnce | backend/src/controllers/productController.ts:73-83 | sending the same update twice leaves the row as one update did |
| ProductController.UpdateWithOwnFieldsIsIdentity | backend/src/controllers/productController.ts:73-83 | updating a product with its own fields leaves it as it was |
| ProductController.UpdateProduct | backend/src/controllers/productController.ts:69-88 | a missing product answers 500 and nothing changes; otherwise only that row is replaced by `Updated` |
| ProductController.DeleteProduct | backend/src/controllers/productController.ts:91-99 | 204 and exactly that row removed; a missing product answers 500 and nothing changes |
| ProductController.Toggled | backend/src/controllers/productController.ts:110-113 | only the featured flag changes, and it flips |
| ProductController.ToggleTwiceRestores | backend/src/controllers/productController.ts:102-118 | toggling twice restores the product |
| ProductController.FeatureProduct | backend/src/controllers/productController.ts:102-118 | 404 for a missing product and nothing changes; otherwise only that row's flag flips |
| ProductController.Copy | backend/src/controllers/productController.ts:130-136 | the copy differs from the original only in the name, which gains " (Copy)" |
| ProductController.DuplicateProduct | backend/src/controllers/productController.ts:121-141 | 404 for a missing product; otherwise 201 and the copy is stored under a new id |
| ProductController.DuplicateKeepsOriginal | backend/src/controllers/productController.ts:121-141 | duplicating never overwrites the original row |
| ProductController.ParseStockOp | backend/src/controllers/productController.ts:148-151 | exactly "increment" and "decrement" are accepted |
| ProductController.NewStock | backend/src/controllers/productController.ts:159-164 | an increment adds the amount; a decrement subtracts it but never goes below 0 |
| ProductController.DecrementThenIncrementRestores | backend/src/controllers/productController.ts:159-164 | decrementing by no more than the stock and then incrementing by the same amount restores the stock |
| ProductController.OverDecrementEmpties | backend/src/controllers/productController.ts:163 | decrementing by at least the stock empties it |
| ProductController.UpdateStock | backend/src/controllers/productController.ts:143-174 | 400 for an unknown operation and 404 for a missing product, both changing nothing; otherwise only that row's stock becomes `NewStock`, with the amount defaulting to 1 |
| AdminController.DayOf | backend/src/controllers/adminController.ts:41 | the day number of an instant is the day whose 86 400 000 ms contain it |
| AdminController.Revenue | backend/src/controllers/adminController.ts:10-14 | the revenue over a range of order ids is never negative when no order total in it is |
| AdminController.TotalOrders | backend/src/controllers/adminController.ts:17 | the count is 0 exactly when there are no orders, and at least 1 for any stored order |
| AdminController.CancellingRemovesItsTotal | backend/src/controllers/adminController.ts:10-14 | cancelling a counted order lowers revenue by exactly its total |
| AdminController.RevenueIgnoresOutside | backend/src/controllers/adminController.ts:10-14 | revenue over a range depends only on the orders in that range |
| AdminController.RevenueOfNewOrder | backend/src/controllers/adminController.ts:10-14 | a new order adds its total to revenue unless it is cancelled |
| AdminController.CancellingKeepsCount | backend/src/controllers/adminController.ts:17 | cancelled orders still count in `totalOrders` |
| AdminController.TakeFive | backend/src/controllers/adminController.ts:20-24 | at most five rows, the first ones of the listing |
| AdminController.TopFiveDominate | backend/src/controllers/adminController.ts:20-24 | from a listing sorted by totalSold descending, the five kept stay sorted and none left out sold more than one kept |
| AdminController.TopFiveOfTable | backend/src/controllers/adminController.ts:20-24 | over any listing of the product table by totalSold descending, the rows kept are the listed products' own name and totalSold, in totalSold order; no product left out sold more than one kept; with fewer than five kept, every product is kept |
| AdminController.RecentSales | backend/src/controllers/adminController.ts:29-35 | the chart reads exactly the sales of stored orders that are not cancelled and were created at or after the start of the week: every such order's sale is read, and nothing else |
| AdminController.RecentSalesIgnoreOutside | backend/src/controllers/adminController.ts:29-35 | the sales read depend only on the orders inside the scanned id range |
| AdminController.CancellingRemovesItsSale | backend/src/controllers/adminController.ts:29-42 | cancelling an order the chart counts lowers the week's charted total by exactly that order's total |
| AdminController.DaysInOrder | backend/src/controllers/adminController.ts:46 | `Object.keys`: each day that has a sale, exactly once |
| AdminController.GroupSalesByDate | backend/src/controllers/adminController.ts:39-43 | the day list is `DaysInOrder` of the rows, the map has exactly those days as keys, and each key holds the sum of that day's sales |
| AdminController.DayTotal | backend/src/controllers/adminController.ts:40-43 | a day without sales totals 0, and no day total is negative when no sale total is |
| AdminController.DayTotalOfAbsentDay | backend/src/controllers/adminController.ts:42 | a day without sales totals zero, so `salesByDate[date] \|\| 0` starts from the right value |
| AdminController.ChartAmountsSumToTotal | backend/src/controllers/adminController.ts:39-49 | the chart's amounts add up to the total of the week's sales |
| AdminController.InsertByDay | backend/src/controllers/adminController.ts:49 | insertion adds exactly the one entry |
| AdminController.InsertByDayKeepsOrder | backend/src/controllers/adminController.ts:49 | inserting into a day-ascending chart keeps it day-ascending |
| AdminController.SortByDay | backend/src/controllers/adminController.ts:49 | the sort returns a day-ascending permutation of its input |
| AdminController.SortKeepsEntries | backend/src/controllers/adminController.ts:49 | sorting keeps exactly the same entries |
| AdminController.SalesChart | backend/src/controllers/adminController.ts:39-49 | `recentSales`: sorted by day, one entry per day with a sale, each amount the sum of that day's sales |
| AdminController.GetDashboardStats | backend/src/controllers/adminController.ts:7-62 | revenue over non-cancelled orders, the count of all orders, the first min(5, n) products of the table's totalSold-descending listing (their own name and totalSold, in totalSold order, none left out having sold more, every product when fewer than five), and a chart sorted by day with exactly one entry per day that had a sale in the week, holding that day's total |
| AuthMiddleware.UpToSpace | backend/src/middleware/authMiddleware.ts:17 | the longest space-free prefix: `split(' ')` keeps exactly the text before the first space |
| AuthMiddleware.SelectToken | backend/src/middleware/authMiddleware.ts:14-18 | a truthy cookie wins; the header is read only when it starts with "Bearer " |
| AuthMiddleware.AuthenticateToken | backend/src/middleware/authMiddleware.ts:13-32 | 401 without a token, 403 when verification fails, otherwise passes with the verified claims |
| AuthMiddleware.UpToSpaceOfSpaceless | backend/src/middleware/authMiddleware.ts:17 | a token without spaces is read back whole |
| AuthMiddleware.BearerHeaderRoundTrip | backend/src/middleware/authMiddleware.ts:16-18 | without a cookie, the header "Bearer t" yields exactly t, for any space-free t |
| AuthMiddleware.DoubleSpaceHeaderRejected | backend/src/middleware/authMiddleware.ts:16-23 | "Bearer  abc" yields an empty token and gets 401 |
| AuthMiddleware.RequireAdmin | backend/src/middleware/authMiddleware.ts:34-41 | passes exactly when a user with role "admin" is attached; otherwise 403 |
| AuthController.PublicOf | backend/src/controllers/authController.ts:42 | the reply's user is the id with the stored email, name and role |
| AuthController.PublicOfIgnoresPassword | backend/src/controllers/authController.ts:92 | the public view of a user is the same whatever its password hash |
| AuthController.UserWithEmail | backend/src/controllers/authController.ts:21 | a found id lies in range and carries the email; `None` exactly when no user in range has it |
| AuthController.RegisterCheck | backend/src/controllers/authController.ts:15-25 | succeeds exactly when all three fields are present and non-empty and the email is free; the two failures answer 400 with their own messages |
| AuthController.SecondRegistrationRefused | backend/src/controllers/authController.ts:21-25 | registering an email that is already stored is refused |
| AuthController.Register | backend/src/controllers/authController.ts:10-48 | on success the user is stored with the hash and the default role, and only its public fields are returned; on failure nothing changes |
| AuthController.Login | backend/src/controllers/authController.ts:50-97 | given every user id below `bound` (the table's next id): 400 for a missing field; the email lookup finds a user exactly when one has that email; an unknown email and a wrong password get the same 401; success sets an http-only one-day cookie holding a token over {id, email, role} |
| AuthController.RegisteredUserCanLogIn | backend/src/controllers/authController.ts:10-97 | a freshly registered user can log in with their password and gets their own id back |
| AuthController.Logout | backend/src/controllers/authController.ts:99-102 | answers 200 and clears a cookie, whatever the request carries |
| AuthController.LogoutClearsLoginCookie | backend/src/controllers/authController.ts:84-100 | the cookie logout clears is the one login sets |
| Upload.LastDot | backend/src/routes/upload.ts:21 | the position of the last dot; `None` exactly when there is no dot |
| Upload.ExtName | backend/src/routes/upload.ts:21 | `path.extname`: empty, or a dotted suffix of the name with no further dot |
| Upload.ExtNameOf | backend/src/routes/upload.ts:21 | a non-empty stem plus a dotted suffix without further dots has that suffix as extension |
| Upload.FileFilter | backend/src/routes/upload.ts:27-37 | an accepted file has an extension of a dot and at least three more characters, and a type of at least three characters |
| Upload.GifvAccepted | backend/src/routes/upload.ts:28-30 | the pattern is unanchored, so "x.gifv" typed "image/gif" passes |
| Upload.ExtensionCaseIrrelevant | backend/src/routes/upload.ts:29 | upper- and lower-case extensions are filtered alike |
| Upload.NoExtensionRefused | backend/src/routes/upload.ts:27-37 | a name without an extension is refused whatever its type |
| Upload.StoredName | backend/src/routes/upload.ts:19-22 | the stored name starts with the field name and a dash and ends with the original extension |
| Upload.StoredNameKeepsExtension | backend/src/routes/upload.ts:19-29 | the stored file keeps the extension the filter examined |
| Upload.UploadReply | backend/src/routes/upload.ts:42-58 | 400 without a file; otherwise the URL "/uploads/" followed by the stored name |
| Upload.UploadRoute | backend/src/routes/upload.ts:15-58 | 400 without a file; a part under another field name, refused by the filter or over 5 MB is answered 500 "Something went wrong!" by the app's error handler (backend/src/index.ts:82-85); otherwise 200 with a URL under "/uploads/paymentProof-" keeping the file's extension |
| MigrateImages.CleanUrl | backend/migrate_images.ts:13-16 | the cleaned URL is no longer and holds no whitespace at all |
| MigrateImages.RemoveWhitespaceAbsent | backend/migrate_images.ts:16 | removing whitespace from a string without any changes nothing |
| MigrateImages.CleanOfSpaceless | backend/migrate_images.ts:13-16 | a URL without whitespace is already clean |
| MigrateImages.FinalizeOfClean | backend/migrate_images.ts:19-21 | on a clean URL without the "jpegeg" ending, only the "hoto-" rewrite acts |
| MigrateImages.FinalizeUrl | backend/migrate_images.ts:13-21 | as written: a clean URL without the "jpegeg" ending and without "hoto-" is kept; a "jpegeg" ending with no "hoto-" left becomes "jpeg", two characters shorter |
| MigrateImages.JpegegEndingRepaired | backend/migrate_images.ts:20 | a "jpegeg" ending becomes "jpeg", two characters shorter |
| MigrateImages.FinalizeCorruptsPhotoUrls | backend/migrate_images.ts:21 | as written, a sound URL whose first "hoto-" is inside "photo-" becomes "pphoto-" and is rewritten |
| MigrateImages.PexelsPhotoUrlCorrupted | backend/migrate_images.ts:21 | as written, "pexels-photo-1.jpeg" becomes "pexels-pphoto-1.jpeg" |
| MigrateImages.RepairUrl | backend/migrate_images.ts:18-21 | the intended repair: a clean URL without the "jpegeg" ending and without "pexels-hoto-" is kept; a "jpegeg" ending with no "pexels-hoto-" left becomes "jpeg" |
| MigrateImages.RepairLeavesSoundUrls | backend/migrate_images.ts:18-21 | the intended repair leaves a sound URL unchanged |
| MigrateImages.RepairFixesPexelsUrls | backend/migrate_images.ts:18-21 | the intended repair turns the first "pexels-hoto-" into "pexels-photo-" and leaves the rest |
| MigrateImages.Migrate | backend/migrate_images.ts:11-33 | every product keeps its id and gets its rewritten URL; the rows written are exactly those whose URL changed, in id order |
| MigrateImages.MigrateAll | backend/migrate_images.ts:11-33 | the loop ends with the table `Migrated` and the written ids `ChangedIds` |
| MigrateImages.MigrationResult | backend/migrate_images.ts:11-33 | once every id is migrated, every row holds its rewrite and the changed ids are exactly the rows it changes |
| MigrateImages.Migrated | backend/migrate_images.ts:11-33 | migrating a prefix of ids keeps the set of ids |
| MigrateImages.MigratedStep | backend/migrate_images.ts:23-32 | one turn extends the migrated prefix, writing the row only when it changes |
| MigrateImages.ChangedIds | backend/migrate_images.ts:23 | exactly the ids in range whose URL the rewrite changes, ascending |
| MigrateImages.MigrateOne | backend/migrate_images.ts:13-32 | a row is written, with its rewritten URL, exactly when the rewrite changes it |
| BackendImageUtils.Clean | backend/src/utils/imageUtils.ts:3 | cleaning never lengthens a URL |
| BackendImageUtils.CleanIsClean | backend/src/utils/imageUtils.ts:3 | a cleaned URL has no line break and no whitespace at either end |
| BackendImageUtils.CleanOfClean | backend/src/utils/imageUtils.ts:3 | a URL already in that shape is left as it is |
| BackendImageUtils.CleanIdempotent | backend/src/utils/imageUtils.ts:3 | cleaning twice is cleaning once |
| BackendImageUtils.SanitizeImageUrl | backend/src/utils/imageUtils.ts:1-4 | a missing or empty URL gives ""; any other result is no longer than the URL |
| BackendImageUtils.SanitizedIsClean | backend/src/utils/imageUtils.ts:1-4 | a sanitized URL has no line break and no outer whitespace |
| BackendImageUtils.SanitizeIdempotent | backend/src/utils/imageUtils.ts:1-4 | sanitizing twice is sanitizing once |
| FrontendImageUtils.SanitizeImageUrl | frontend/src/utils/imageUtils.ts:1-19 | a missing or empty URL gives the placeholder; any other result is no longer than the URL, and parses when it starts with "http" |
| FrontendImageUtils.SanitizedIsPlaceholderOrClean | frontend/src/utils/imageUtils.ts:1-19 | the result is the placeholder, or a clean URL that parses whenever it starts with "http" |
| FrontendImageUtils.PlaceholderIsClean | frontend/src/utils/imageUtils.ts:2 | the placeholder is clean and does not start with "http" |
| FrontendImageUtils.CleanUrlIsFixed | frontend/src/utils/imageUtils.ts:6-15 | a non-empty clean URL that parses whenever it starts with "http" is returned as it is |
| FrontendImageUtils.SanitizeIdempotent | frontend/src/utils/imageUtils.ts:1-19 | sanitizing a non-empty result again gives it back |
| FrontendImageUtils.EmptyResultNotFixed | frontend/src/utils/imageUtils.ts:2 | "" is falsy and becomes the placeholder |
| FrontendImageUtils.BlankUrlGivesEmpty | frontend/src/utils/imageUtils.ts:2-6 | a URL of blanks is truthy and comes back as "", not as the placeholder |
| CartStore.FirstIndex | frontend/src/store/useCartStore.ts:85 | `find`: the first line of the product; `None` exactly when there is none |
| CartStore.ServerIdOf | frontend/src/store/useCartStore.ts:85-88 | a server id is used exactly when the first line of the product carries a truthy one |
| CartStore.Bump | frontend/src/store/useCartStore.ts:69-73 | the product's lines grow by the added quantity; every other line is untouched |
| CartStore.SetQty | frontend/src/store/useCartStore.ts:113-115 | the product's lines take the new quantity, whatever it is; every other line is untouched |
| CartStore.QtyOfAppend | frontend/src/store/useCartStore.ts:77 | appending a line adds its quantity to its product's total |
| CartStore.QtyOfAbsent | frontend/src/store/useCartStore.ts:66 | a product without a line holds quantity 0 |
| CartStore.QtyOfBump | frontend/src/store/useCartStore.ts:69-73 | with one line per product, bumping raises that product's quantity by the amount and no other |
| CartStore.QtyOfSetQty | frontend/src/store/useCartStore.ts:113-115 | with one line per product, setting gives that product exactly the new quantity and no other change |
| CartStore.QtyOfGuestRemove | frontend/src/store/useCartStore.ts:96 | removal drops the product's quantity to 0 and keeps every other |
| CartStore.Synced | frontend/src/store/useCartStore.ts:36-43 | one line per server line, in order, with its server id, product, name, price and quantity; the image is the product's image URL when it has one and its legacy image otherwise |
| CartStore.GuestAdd | frontend/src/store/useCartStore.ts:64-78 | the product is in the cart afterwards, at most one line is added, and other products' lines stay where they were |
| CartStore.GuestRemove | frontend/src/store/useCartStore.ts:96 | no line of the product is left, and exactly the other lines remain |
| CartStore.GuestUpdate | frontend/src/store/useCartStore.ts:113-115 | as written: no line is added or removed, whatever the quantity; the product's lines take the new quantity and other lines are untouched |
| CartStore.GuestAddEffect | frontend/src/store/useCartStore.ts:64-78 | a guest add bumps an existing line or appends a new one at the end; it keeps one line per product and raises only that product's quantity |
| CartStore.GuestRemoveKeepsOrder | frontend/src/store/useCartStore.ts:96 | the lines that survive a guest removal keep their order |
| CartStore.GuestRemoveEffect | frontend/src/store/useCartStore.ts:96 | a guest removal drops every line of the product and keeps every other line; removing an absent product changes nothing |
| CartStore.GuestUpdateEffect | frontend/src/store/useCartStore.ts:113-115 | a guest update keeps the list's length and one line per product, and sets only that product's quantity |
| CartStore.GuestUpdateStoresZero | frontend/src/store/useCartStore.ts:113-115 | as written, updating a guest line to 0 keeps the line, with quantity 0 |
| CartStore.GuestUpdateDeleting | frontend/src/store/useCartStore.ts:113-115 | the corrected update: a quantity ≤ 0 leaves no line of the product; a positive one keeps the length |
| CartStore.GuestUpdateDeletingKeepsPositive | frontend/src/store/useCartStore.ts:113-115 | the update that deletes at quantity ≤ 0, as the server does, keeps every quantity positive |
| CartStore.LinesTotalAppend | frontend/src/store/useCartStore.ts:121-123 | the total of two lists is the sum of their totals |
| CartStore.NewProductRaisesTotal | frontend/src/store/useCartStore.ts:64-78 | a new product raises the total by its price × quantity |
| CartStore.LinesTotal | frontend/src/store/useCartStore.ts:121-123 | with non-negative prices and quantities the total is never negative |
| CartStore.CartStore.constructor | frontend/src/store/useCartStore.ts:30 | the store starts empty |
| CartStore.CartStore.SyncCart | frontend/src/store/useCartStore.ts:32-48 | the list becomes the server's lines, each keeping its row id as `cartItemId`; a failed fetch leaves the list as it was |
| CartStore.CartStore.AddItem | frontend/src/store/useCartStore.ts:50-80 | a guest adds locally; a signed-in user posts {productId, quantity} and re-syncs only after the post succeeds |
| CartStore.CartStore.RemoveItem | frontend/src/store/useCartStore.ts:82-98 | a guest filters locally; a signed-in user without a server id sends nothing and nothing changes, otherwise sends the delete and re-syncs |
| CartStore.CartStore.UpdateQuantity | frontend/src/store/useCartStore.ts:100-117 | like removal, with a PUT of the quantity for a signed-in user and a local set for a guest |
| CartStore.CartStore.ClearCart | frontend/src/store/useCartStore.ts:119 | the list becomes empty |
| CartStore.SyncedLinesCanBeRemoved | frontend/src/store/useCartStore.ts:32-91 | after a sync, a signed-in removal of any listed product is sent with that product's first server row id |
| AuthStore.AuthStore.constructor | frontend/src/store/useAuthStore.ts:26-29 | nobody is signed in, and the store is loading |
| AuthStore.AuthStore.Login | frontend/src/store/useAuthStore.ts:31-63 | a failed login changes nothing; otherwise the user is set, a non-empty cart is posted for merging, and the cart is re-synced whether or not the merge succeeded |
| AuthStore.AuthStore.Register | frontend/src/store/useAuthStore.ts:65-74 | no field changes, whatever the server answers |
| AuthStore.AuthStore.Logout | frontend/src/store/useAuthStore.ts:76-97 | no user, not authenticated, not loading, and an empty cart, whatever the server answers |
| AuthStore.AuthStore.CheckAuth | frontend/src/store/useAuthStore.ts:99-114 | a restored session sets the user and re-syncs the cart without merging it; a failed check signs out; loading ends either way |
| AuthStore.MergePayloadMirrorsLines | frontend/src/store/useAuthStore.ts:44-47 | the merge payload has one entry per local line, and names exactly the products held |
| ToastStore.ToastStore.constructor | frontend/src/store/useToastStore.ts:17 | no toasts at first |
| ToastStore.ToastStore.ShowToast | frontend/src/store/useToastStore.ts:19-23 | exactly one toast is appended; the duration defaults to 3000 ms |
| ToastStore.ToastStore.RemoveToast | frontend/src/store/useToastStore.ts:33-37 | the list loses the toasts with that id |
| ToastStore.WithoutDropsExactlyThatId | frontend/src/store/useToastStore.ts:35 | removal drops every toast with the id and keeps every other one |
| ToastStore.UnknownIdChangesNothing | frontend/src/store/useToastStore.ts:35 | removing an id no toast carries changes nothing |
| ToastStore.RemoveTwiceIsRemoveOnce | frontend/src/store/useToastStore.ts:26-36 | the timer's removal after a manual one changes nothing |
| ToastStore.ShowThenRemoveRestores | frontend/src/store/useToastStore.ts:19-30 | showing a toast under a fresh id and removing that id restores the list; removing another id does not disturb the new toast |
| CartPage.Payload | frontend/src/pages/Cart.tsx:93-102 | the lines as they are, their total plus shipping, the caller's id; the method name upper-cased; the address, contact and delivery time entered, exactly for cash on delivery; the proof URL, exactly when it is non-empty |
| CartPage.PaymentMethodReadsBack | frontend/src/pages/Cart.tsx:96 | lower-casing the method the order carries gives back the selector's value |
| CartPage.MinusQuantity | frontend/src/pages/Cart.tsx:157 | the minus button never asks for less than 1 |
| CartPage.ButtonsKeepQuantitiesPositive | frontend/src/pages/Cart.tsx:157-159 | the page's buttons keep every guest quantity positive |
| CartPage.CheckoutPage.constructor | frontend/src/pages/Cart.tsx:28-29 | not loading, not uploading |
| CartPage.CheckoutPage.HandleCheckout | frontend/src/pages/Cart.tsx:54-114 | an empty cart does nothing; a signed-out user is sent to login; a missing proof, a failed upload or missing delivery details stop before posting; an order is posted exactly when everything is in place; the cart is cleared only when the order is accepted; loading always ends |
| ProductDetails.QuantityStepper.constructor | frontend/src/pages/ProductDetails.tsx:24 | the stepper starts at 1 |
| ProductDetails.QuantityStepper.Decrement | frontend/src/pages/ProductDetails.tsx:120 | one less, never below 1 |
| ProductDetails.QuantityStepper.Increment | frontend/src/pages/ProductDetails.tsx:127 | one more, never above the stock; a quantity in [1, stock] stays in it |
| ProductDetails.HandleAddToCart | frontend/src/pages/ProductDetails.tsx:45-72 | signed-out users go to login; nothing happens without a product; over-stock is refused; otherwise exactly the chosen quantity is handed on |
| ProductDetails.StepperQuantityIsAddable | frontend/src/pages/ProductDetails.tsx:120-127 | any quantity the stepper reaches is added, never refused for stock |
| AdminDashboard.OfferedTransitions | frontend/src/pages/AdminDashboard.tsx:247-256 | only PENDING→APPROVED, PENDING→CANCELLED and APPROVED→DELIVERED are offered; a path of offered steps ends within two steps and never goes back |
| AdminDashboard.StatusUpdateTouchesOnlyThatOrder | frontend/src/pages/AdminDashboard.tsx:52 | only that order's status and reason change, and repeating the update changes nothing more |
| AdminDashboard.ToggleRevertRestores | frontend/src/pages/AdminDashboard.tsx:88-98 | flipping and then reverting gives back the list the click started from |
| AdminDashboard.DeleteEffect | frontend/src/pages/AdminDashboard.tsx:73 | exactly that id is removed, and ids stay unique |
| AdminDashboard.SaveEditKeepsIds | frontend/src/pages/AdminDashboard.tsx:104 | an edit replaces the row in place and keeps ids unique |
| AdminDashboard.AppendFreshKeepsIds | frontend/src/pages/AdminDashboard.tsx:82 | appending a copy with a fresh id keeps ids unique |
| AdminDashboard.Dashboard.constructor | frontend/src/pages/AdminDashboard.tsx:10-11 | both lists start empty |
| AdminDashboard.Dashboard.HandleStatusUpdate | frontend/src/pages/AdminDashboard.tsx:42-56 | a cancellation without a reason sends nothing; other statuses send a null reason; only a successful request updates the list |
| AdminDashboard.Dashboard.HandleDeleteProduct | frontend/src/pages/AdminDashboard.tsx:69-77 | only a confirmed and successful delete removes the row |
| AdminDashboard.Dashboard.HandleDuplicateProduct | frontend/src/pages/AdminDashboard.tsx:79-86 | the server's copy is appended at the end on success |
| AdminDashboard.Dashboard.HandleToggleFeature | frontend/src/pages/AdminDashboard.tsx:88-98 | the flag flips at once; on failure the list is rebuilt from the one the click started from |
| AdminDashboard.Dashboard.HandleSaveProduct | frontend/src/pages/AdminDashboard.tsx:100-112 | the server's copy replaces the edited row or is appended; a failure leaves the list alone |
| ProtectedRoute.Decide | frontend/src/components/ProtectedRoute.tsx:12-68 | a spinner while loading, a login redirect for signed-out visitors, a home redirect for non-admins on an admin page, and the page exactly otherwise |
| ProtectedRoute.AdminPageOnlyForAdmins | frontend/src/components/ProtectedRoute.tsx:40-65 | once loaded, an admin page is shown exactly to a signed-in admin, and any other page to every signed-in user |
| Text.Utf16Length | frontend/src/pages/Register.tsx:20 | JavaScript's `length`: between the number of characters and twice that, and equal to it when no character lies outside the Basic Multilingual Plane |
| RegisterPage.GetStrength | frontend/src/pages/Register.tsx:18-25 | a score from 0 to 4; 4 exactly when all four criteria hold; 0 exactly when none does; the length is counted in UTF-16 code units |
| RegisterPage.StrengthNeverDrops | frontend/src/pages/Register.tsx:18-25 | typing more characters never lowers the score |
| RegisterPage.StrengthLabel | frontend/src/pages/Register.tsx:28-33 | every score gets a label: "Weak" exactly at ≤ 1, "Medium" exactly at 2 and "Strong" exactly at ≥ 3 |
| RegisterPage.PasswordError | frontend/src/pages/Register.tsx:41-49 | a password is refused exactly when it is shorter than 8 UTF-16 code units and not strong; at 8 or more it always passes |
| RegisterPage.ShortStrongPasswordPasses | frontend/src/pages/Register.tsx:41-49 | the 4-character "Aa1!" scores 3 and passes |
| RegisterPage.FourEmojiPasswordPasses | frontend/src/pages/Register.tsx:41-49 | four emoji are 8 code units long, so the four-character password passes the check with a score of 2 |
| RegisterPage.HandleSubmit | frontend/src/pages/Register.tsx:37-58 | a refused password is not sent; success goes to login with its message; a failure shows the server's error as it is when there is a non-empty one, and "Registration failed" otherwise |
| MenuPage.Filtered | frontend/src/pages/Menu.tsx:34-36 | a product is shown exactly when it is listed and its name contains the term, ignoring ASCII case; the result is never longer than the list |
| MenuPage.ShownIffNameContainsTerm | frontend/src/pages/Menu.tsx:34-36 | a product is shown exactly when it is listed and its name contains the term, ignoring ASCII case |
| MenuPage.ShownInListedOrder | frontend/src/pages/Menu.tsx:34-36 | the results keep the listed order |
| MenuPage.EmptyTermShowsAll | frontend/src/pages/Menu.tsx:34-36 | an empty search shows every product |
| MenuPage.CaseOfTermIrrelevant | frontend/src/pages/Menu.tsx:35 | terms that differ only in case give the same result |
| MenuPage.RefiningTermNarrows | frontend/src/pages/Menu.tsx:34-36 | a longer term never brings a product back |
| Routes.GetProductPath | frontend/src/config/routes.ts:17 | the path is "/product/" followed by the id's text |
| Routes.GetOrderPath | frontend/src/config/routes.ts:18 | the order list exactly when the id is falsy; otherwise "/orders/" followed by the id's text |
| Routes.ProductPathReadsBack | frontend/src/config/routes.ts:17 | the product path is "/product/" followed by the id, so distinct ids get distinct paths |
| Routes.StoredOrderIdHasOwnPage | frontend/src/config/routes.ts:18 | any stored order id (ids start at 1) leads to its own page |
| Routes.OrderPathInjective | frontend/src/config/routes.ts:18 | distinct truthy ids get distinct order paths |
| Routes.ZeroIdGoesToList | frontend/src/config/routes.ts:18 | the id 0 is falsy and leads to the order list |

## Left out

- The Prisma schema is not part of this model. `Db` holds only the columns the handlers
  read and write. Autoincrement ids are a per-table counter starting at 1.
- Foreign-key failures are not modelled. Examples: an order line naming a missing product
  during the deduction, or a cart row of a deleted product.
- The product joins of `getCart`, `getOrders` and `getOrderById` are not modelled, nor the
  user join. Replies are row ids or rows.
- Transactions, concurrency and isolation are not modelled. Each handler runs alone, and
  `createOrder`'s transaction is all-or-nothing by construction.
- The database's own sort is not modelled. `getOrders`, the bestseller listing of
  `getProducts` and the one `getDashboardStats` reads are characterised by predicates on the
  reply; `take: 5` is `AdminController.TakeFive` over that listing.
- `getProducts`'s reply is computed only for the id order (`IdListing`). The bestseller
  order is stated as a property of the reply.
- Floating-point prices and totals are integers.
- `Number()` and `parseInt` of a path id are `Option<int>`: `None` is a non-numeric id.
  NaN request bodies are not modelled, except `?userId=` in `getOrders` and `status` in
  `updateOrderStatus`, which have their own cases.
- `me` (authController.ts:104-107) only echoes the attached user, so it has no model.
- Hashing, hash comparison, token signing and verification are parameters, and so is the
  `URL` constructor. JWT expiry is the "1d" passed to the signer, nothing more.
- `Date.now()`, `Math.random()`, the toast id and the week's start date are parameters.
- Local time is not modelled. A day is the UTC day number, which orders like the ISO date
  string.
- The timers are not modelled: the toast auto-removal (the same filter, run later), the
  100 ms check in `ProtectedRoute` (its flag is a parameter), the 500 ms add delay in
  `ProductDetails` and its `adding` flag, and the dashboard's five-second polling.
- Browser side effects are not modelled: `alert`, `prompt`, `confirm`,
  `localStorage.clear()`, the cookie loop and the hard redirect in `logout`, and the
  `persist` middleware's saved cart.
- Rendering is not modelled: JSX, the strength bar's width and colour, the chart's drawing.
- The multer middleware is left out beyond its field name, filter, size limit and naming
  rules (`Upload.UploadRoute`): the upload directory and the disk write are not modelled.
  A refused part never reaches the route's handler; multer hands the error to the app's last
  error handler, which answers 500 "Something went wrong!" (backend/src/index.ts:82-85).
- `path.extname` is modelled for names without a directory part.
- `toLowerCase` lowers ASCII letters only.
- `ProductDetails.QuantityStepper.Increment`: with stock 0 the quantity becomes 0; the add
  button is disabled then, so the bound [1, stock] is stated only for stock ≥ 1.
- The names under which one layer hands a line to the next are not reconciled.
  `ProductDetails` hands the product id under `id`. The cart store keys lines by
  `productId`. The Cart page passes `item.id` to the store's `removeItem` and
  `updateQuantity`. `createOrder` reads `item.id`. Each layer is modelled with the field
  it reads.
- Logging is not modelled, nor the error texts of the 500 replies beyond their status and
  message.

## Findings

| source | as written | input that shows it | evidently intended | confidence | as-written member | corrected member |
|---|---|---|---|---|---|---|
| backend/src/controllers/orderController.ts:14-30 | each line's quantity is checked against the stock before any deduction, so several lines of one product are never summed | stock 1 of "Mango Tango" and two lines of quantity 1 for it: both pass, and the stock ends at -1 | the stock covers the whole quantity the order asks of each product | high (not executed) | OrderController.DuplicateLinesOversell | OrderController.DemandCoveredPreventsOversell, OrderController.DemandCoveredRejectsDuplicates |
| backend/src/controllers/cartController.ts:152-188 | `mergeCart` looks guest entries up in the rows loaded before the loop, never in the rows it has just written | guest cart [{200, 1}, {200, 2}] into a cart without product 200 gives two lines for 200; [{100, 3}, {100, 4}] into a line {100: 2} gives 6, not 9 | each entry is added to the cart as it is now: one line per product holding the server quantity plus every guest quantity | medium (not executed; the login page sends one entry per local line, and the guest cart keeps one line per product) | CartController.StaleMergeDuplicatesLines, CartController.StaleMergeKeepsLastSum, CartController.StaleMergeLastEntryWins | CartController.FreshMergeKeepsOneLinePerProduct |
| backend/migrate_images.ts:21 | the unanchored pattern /hoto-/ also matches inside a sound "photo-" | "pexels-photo-1.jpeg" becomes "pexels-pphoto-1.jpeg", and the row is written | only the "pexels-hoto-" corruption named in the comment is repaired; sound URLs are left alone | high (not executed) | MigrateImages.PexelsPhotoUrlCorrupted, MigrateImages.FinalizeCorruptsPhotoUrls | MigrateImages.RepairLeavesSoundUrls, MigrateImages.RepairFixesPexelsUrls |
| frontend/src/store/useCartStore.ts:113-115 | a guest's `updateQuantity` stores any quantity, 0 included, while the server deletes the row at quantity ≤ 0 | a guest line updated to 0 stays in the cart with quantity 0 | a quantity ≤ 0 removes the line, as `updateCartItem` does | low (not executed; the Cart page clamps the minus button at 1) | CartStore.GuestUpdateStoresZero | CartStore.GuestUpdateDeletingKeepsPositive |

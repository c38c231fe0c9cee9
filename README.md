# Storefront cart, stock guards and admin list logic in Dafny

This project models the client-side logic of a small clothing storefront and its
admin screens (a React/TypeScript single-page app over a hosted database). It
covers the following parts.

- **The cart and wishlist store** (`cartStore.ts`). This is a Dafny class
  `CartStore.Store` with the fields `items`, `totalItems`, `totalPrice` and
  `wishlist`. Each store action is a method whose new state is given by a pure
  function on the line list: `AddLine`, `RemoveLine`, `UpdateLines`, `AddWish`
  and `RemoveWish`. Lemmas show that these functions keep ids unique and
  quantities at least 1. Persistence is the projection `Partialize`. Reloading
  is the constructor `Rehydrate`, which restores only the lines and the
  wishlist.
- **The stock guards of the UI handlers.** These are the product card, the
  product page, the side drawer, the cart page and the shipping form. Each
  handler is a method on the store. It either refuses and leaves the store
  unchanged, or it delegates to the store actions with a given stock limit.
- **The admin order status update** (`OrdersTab.tsx`). It is a read, decrement
  and write loop over the order's lines. The loop runs against a stock map, and
  a `Backend` value says which step fails. The order status/search filter sits
  beside it.
- **Catalogue filters and classifiers.**
  - the category and search filters;
  - the header's main/other category split;
  - inventory stock levels and their counts;
  - inquiry counting and the top-five ranking.
- **List and index logic.**
  - the recently viewed list;
  - the carousel reorder;
  - the bulk picker's capacity-limited add and drag-and-drop move (an in-place
    array shift);
  - the single image field's all-or-nothing batch upload;
  - the hero carousel's slide state machine with its transition lock.
- **Validators and paths**: image type/size checks, storage object paths, and
  the purchase form's name and phone rules.

A missing optional
string (`image_url`, `description`, `category_id`) is the empty string. Every
use in the code tests these fields for truthiness, and there `undefined` and
`""` behave alike. Lower-casing covers ASCII letters only.

Several behaviours of the code are modelled as written, though a reader might
expect otherwise:

- **Two screens are never mounted.** The router in `src/App.tsx` (lines
  237-278) has no route for '/order' and none for a search page, and no shown
  file renders `OrderForm` or `SearchResults`. So `ProductDetail.BuyNow`
  navigates to a path the shown router does not serve, and the `OrderForm.*`
  and `SearchResults.*` members model screens that nothing in the shown code
  displays.
- **No shipping-cost rule exists.** No total anywhere adds a shipping amount.
- **The checkout never stores the order.** The cart page builds an order object
  and never writes it anywhere. `CartPage.SubmitOrder` returns the object; the
  only state it changes is the cleared cart and form.
- **Any order status can follow any other.** A later move from pending to
  confirmed decrements stock again (`OrdersTab.ReconfirmRunsAgain`).
- **Stock decrements have no floor and no rollback.** A failure midway leaves
  the decrements already applied to earlier lines
  (`OrdersTab.DecrementHasNoFloor`, `OrdersTab.OrdersPanel.UpdateOrderStatus`).
- **Totals are stale after a reload.** Persistence restores only `items` and
  `wishlist` over the initial state, so `totalItems` and `totalPrice` are 0
  until the next cart action. That is why `Store.Valid` does not include the
  totals, and `TotalsExact` is proved after each action instead.
- **A quantity can exceed the stored stock.** Adding to an existing line clamps
  to the stock passed in by the caller, while the line keeps the stock it was
  first stored with.
- **A negative stored stock breaks the clamp.** `updateQuantity` clamps with
  `min(max(0, q), stock)`, so a negative stored stock gives a negative
  quantity (`CartStore.UpdateLinesNegativeStock`).
- **The product card treats a negative stock as in stock.** It adds such a
  product (`ProductCard.NegativeStockIsAdded`).
- **The drawer's '−' button can remove a line.** It is disabled only at
  quantity 1. On a line whose stored stock is 0, a press clamps the quantity to
  0 and removes the line (`SideDrawer.DecrementRemovesAtZeroStock`).
- **The order search matches the phone against the lower-cased query.** The
  code lower-cases the query once and uses that for the phone test too, so a
  phone is not matched against the query as typed (`OrdersTab.SearchMatches`).
- **A failed inquiry insert leaves the purchase form stuck.** The early return
  keeps `isSubmitting` true; only a thrown error clears it
  (`ProductModal.Submit`).
- **Auto-play turns one slide and then stalls.** The interval's callback keeps
  the `isTransitioning` of the render in which its effect last ran. That effect
  runs again only when the slide or the auto-play flag changes, and every slide
  change sets the lock in the same render. The 500 ms reset does not restart
  it, so later ticks do nothing until the auto-play flag changes, by a hover
  in and out or a touch
  (`HeroCarousel.Carousel.intervalSeesLock`, `HeroCarousel.AutoPlayStallsAfterOneSlide`).
- **A single-image batch that fails midway still records nothing.** The files
  uploaded before the failure stay in storage, but the URL list is unchanged
  (`ImageUpload.Uploader.HandleFileSelect`).

## Model

| member | source | states |
|---|---|---|
| CartStore.FindLine | src/store/cartStore.ts:245 | the lookup finds a line exactly when one has the id, and it is the first line with that id; with unique ids it is the line at every position holding that id |
| CartStore.AddLine | src/store/cartStore.ts:243-264 | an absent id appends a fresh line with quantity 1 (stock unchecked); when the first line with the id is at or above the passed stock nothing changes; otherwise every line with the id gains one from its own quantity, capped at that stock, and the other lines stay; with unique ids that is the one line raised by one |
| CartStore.AddLineBumpsEachDuplicate | src/store/cartStore.ts:254-258 | two lines with one id, as a reload can restore them, each gain one from their own quantity |
| CartStore.AddTimesClamps | src/store/cartStore.ts:247-264 | n successive adds of a new product leave one line at the end holding min(n, stock) |
| CartStore.AddLineKeepsLinesOk | src/store/cartStore.ts:245-264 | adding keeps ids unique and every quantity at least 1 |
| CartStore.RemoveLine | src/store/cartStore.ts:269-274 | the id is gone, the rest is an order-preserving subsequence, and exactly the other lines remain, as many as there are lines with another id |
| CartStore.RemoveLineAbsent | src/store/cartStore.ts:269-274 | removing an absent id changes nothing |
| CartStore.RemoveLineAt | src/store/cartStore.ts:269-274 | with unique ids, removing a line's id drops exactly its position |
| CartStore.RemoveLineKeepsLinesOk | src/store/cartStore.ts:269-274 | removal keeps ids unique and quantities at least 1 |
| CartStore.Clamp | src/store/cartStore.ts:283 | the clamped quantity lies in [0, stock] for a non-negative stock, is the request itself when already in range, 0 below it, the stock above it, and the (negative) stock itself when the stock is negative |
| CartStore.UpdateLines | src/store/cartStore.ts:276-299 | an absent id is a no-op; otherwise the request is clamped by the first matching line's stock, a clamp to 0 removes every line with the id, and any other value becomes the quantity of every line with the id, the rest unchanged; with unique ids that is removing or updating that one position |
| CartStore.UpdateLinesKeepsLinesOk | src/store/cartStore.ts:278-296 | with a non-negative stored stock, the update keeps ids unique and quantities at least 1 |
| CartStore.UpdateLinesNegativeStock | src/store/cartStore.ts:283 | with a negative stored stock the line takes that negative quantity |
| CartStore.SumsAppend | src/store/cartStore.ts:334-340 | the two sums grow by the appended line's quantity and amount |
| CartStore.SumsRemoveAt | src/store/cartStore.ts:334-340 | dropping a line lowers the sums by exactly its quantity and amount |
| CartStore.SumsUpdateAt | src/store/cartStore.ts:334-340 | changing one line's quantity moves the sums by the difference |
| CartStore.AddWish | src/store/cartStore.ts:306-313 | afterwards the id is present; an existing id changes nothing; otherwise the entry is appended with the timestamp; unique ids are kept |
| CartStore.AddWishIdempotent | src/store/cartStore.ts:306-313 | adding the same id twice equals adding it once |
| CartStore.RemoveWish | src/store/cartStore.ts:315-319 | the id is gone and exactly the other entries remain, in order, as many as there are entries with another id |
| CartStore.RemoveWishKeepsUnique | src/store/cartStore.ts:315-319 | removing from a wishlist with one entry per product keeps one entry per product |
| CartStore.Store.constructor | src/store/cartStore.ts:236-240 | an empty cart and wishlist with zero totals: the invariant holds and the totals are exact |
| CartStore.Store.Rehydrate | src/store/cartStore.ts:353-358 | a reload restores lines and wishlist while the totals start at 0; the invariant (unique ids, positive quantities, unique wishlist ids) holds when the stored data had it |
| CartStore.Store.Partialize | src/store/cartStore.ts:353-358 | the persisted part is exactly the lines and the wishlist |
| CartStore.Store.GetCartItem | src/store/cartStore.ts:330-332 | a line is found exactly when one has the id, and it is the first cart line with that id |
| CartStore.Store.IsInWishlist | src/store/cartStore.ts:321-323 | true exactly when some wishlist entry has the id |
| CartStore.Store.CalculateTotals | src/store/cartStore.ts:334-340 | the totals become the sum of quantities and of price times quantity; lines untouched; the invariant is kept |
| CartStore.Store.AddToCart | src/store/cartStore.ts:243-267 | lines become AddLine of the old lines; at the limit the totals are untouched, otherwise they are exact; the invariant is kept |
| CartStore.Store.RemoveFromCart | src/store/cartStore.ts:269-274 | lines become RemoveLine of the old lines, totals exact, wishlist untouched, the invariant kept |
| CartStore.Store.UpdateQuantity | src/store/cartStore.ts:276-299 | lines become UpdateLines of the old lines; totals exact when the id was present, untouched otherwise; the invariant is kept when the target line's stored stock is not negative |
| CartStore.Store.ClearCart | src/store/cartStore.ts:301-303 | no lines and both totals 0, wishlist untouched, the invariant kept |
| CartStore.Store.AddToWishlist | src/store/cartStore.ts:306-313 | the wishlist becomes AddWish of the old one; cart and totals untouched; the invariant kept |
| CartStore.Store.RemoveFromWishlist | src/store/cartStore.ts:315-319 | the wishlist becomes RemoveWish of the old one; cart and totals untouched; the invariant kept |
| CartStore.Store.ClearWishlist | src/store/cartStore.ts:325-327 | the wishlist is empty; cart and totals untouched; the invariant kept |
| ProductCard.StockBadge | src/components/ProductCard.tsx:77-89 | out of stock exactly when not in stock or stock 0; low exactly when in stock with 1..5; in stock otherwise |
| ProductCard.DisplayName | src/components/ProductCard.tsx:166-168 | names up to 40 characters are kept; longer ones become their first 40 characters and "..." |
| ProductCard.DisplayDescription | src/components/ProductCard.tsx:186-188 | a missing description becomes the default text; up to 80 characters are kept; longer ones are cut to 80 and "..." |
| ProductCard.AddDecision | src/components/ProductCard.tsx:40-56 | refused out of stock exactly when not in stock or stock 0; refused at the limit exactly when the line already holds the catalogue stock; otherwise the add is not at the limit |
| ProductCard.NegativeStockIsAdded | src/components/ProductCard.tsx:17-56 | an in-stock product with negative stock is added as a fresh line |
| ProductCard.HandleAddToCart | src/components/ProductCard.tsx:37-59 | a refusal leaves the store unchanged; otherwise exactly one add with the catalogue stock, totals exact |
| ProductCard.HandleLike | src/components/ProductCard.tsx:20-35 | wishlist membership of the id flips, by removal or by an add; the cart is untouched |
| ProductDetail.MaxQuantity | src/components/ProductDetailPage.tsx:107 | the product's stock, or 1 when it is 0 |
| ProductDetail.IncreaseQuantity | src/components/ProductDetailPage.tsx:381 | '+' never passes the maximum, adds one below it and stays at the maximum from there |
| ProductDetail.DecreaseQuantity | src/components/ProductDetailPage.tsx:373 | '−' never goes below 1, takes one off above it and stays at 1 from there |
| ProductDetail.SelectorStaysInRange | src/components/ProductDetailPage.tsx:373-381 | '−' and '+' keep the selected quantity in [1, maxQuantity] |
| ProductDetail.Gallery | src/components/ProductDetailPage.tsx:77-79 | images when non-empty, else the single image URL when present, else empty |
| ProductDetail.NavigateWraps | src/components/ProductDetailPage.tsx:83-85 | next is (i+1) mod n and prev is (i-1+n) mod n, both within the gallery |
| ProductDetail.NavigateInverse | src/components/ProductDetailPage.tsx:83-85 | prev undoes next and next undoes prev |
| ProductDetail.AddDecision | src/components/ProductDetailPage.tsx:109-120 | no product, out of stock, too many (reporting the maximum) and added are told apart exactly by the page's guards; an in-stock product whose existing plus selected quantity fits the stock is always added |
| ProductDetail.AddedNewLine | src/components/ProductDetailPage.tsx:124-133 | with no line yet, the new line ends at the selected quantity |
| ProductDetail.AddedExistingLine | src/components/ProductDetailPage.tsx:121-122 | an existing line becomes existing + selected, clamped by its stored stock |
| ProductDetail.AddedExistingLineZeroStock | src/components/ProductDetailPage.tsx:121-122 | an existing line stored with stock 0 is removed by an accepted add, since updateQuantity clamps it to 0 |
| ProductDetail.HandleAddToCart | src/components/ProductDetailPage.tsx:109-138 | any refusal leaves the store unchanged; an add leaves the lines of AddedItems with exact totals |
| ProductDetail.BuyNow | src/components/ProductDetailPage.tsx:140-158 | refused with no product or no stock; otherwise a one-line snapshot with the selected quantity, the cart untouched |
| ProductDetail.PageState.Navigate | src/components/ProductDetailPage.tsx:71-89 | the image index moves by NavigateImage and stays inside the gallery |
| ProductDetail.PageState.Increase | src/components/ProductDetailPage.tsx:381 | the quantity becomes IncreaseQuantity of the old one and stays in range |
| ProductDetail.PageState.Decrease | src/components/ProductDetailPage.tsx:373 | the quantity becomes DecreaseQuantity of the old one and stays in range |
| SideDrawer.WishlistTitleShowsWishlist | src/components/SideDrawer.tsx:20 | any title containing "Wishlist" puts the drawer in wishlist mode |
| SideDrawer.DefaultTitleShowsCart | src/components/SideDrawer.tsx:20 | the default title shows the cart |
| SideDrawer.ListedEntries | src/components/SideDrawer.tsx:21 | wishlist entries exactly in wishlist mode, the cart lines otherwise |
| SideDrawer.LiveStock | src/components/SideDrawer.tsx:26-31 | the stock of the first catalogue entry with the id (itself possibly missing); nothing when no entry has the id |
| SideDrawer.AddDecision | src/components/SideDrawer.tsx:24-37 | refused exactly when the live stock is unknown, or the line already holds it; otherwise not at the limit |
| SideDrawer.ZeroStockStillAdds | src/components/SideDrawer.tsx:27-44 | a live stock of 0 still adds a line with quantity 1 when the product is not in the cart |
| SideDrawer.HandleAddToCart | src/components/SideDrawer.tsx:24-46 | a refusal changes nothing; an add uses the live stock, keeps the wishlist entry and leaves exact totals |
| SideDrawer.Increment | src/components/SideDrawer.tsx:127-132 | steps exactly when quantity is below the stored stock, through updateQuantity(q+1), leaving exact totals when the line is in the cart and the old totals otherwise; a refusal changes nothing |
| SideDrawer.IncrementAddsOne | src/components/SideDrawer.tsx:127-132 | an allowed '+' raises that line alone by one |
| SideDrawer.Decrement | src/components/SideDrawer.tsx:121-123 | steps exactly when quantity is above 1, through updateQuantity(q-1), leaving exact totals when the line is in the cart and the old totals otherwise; a refusal changes nothing |
| SideDrawer.DecrementKeepsLine | src/components/SideDrawer.tsx:121-123 | with stored stock at least 1, '−' sets that line to min(q-1, stock) |
| SideDrawer.DecrementRemovesAtZeroStock | src/components/SideDrawer.tsx:121-123 | with stored stock 0, '−' removes the line |
| CartPage.QuantityChangeAgreesWithStore | src/components/CartPage.tsx:61-68 | removing at q ≤ 0 or updating otherwise equals the store's updateQuantity |
| CartPage.MinusAtOneRemoves | src/components/CartPage.tsx:61-68 | '−' at quantity 1 removes exactly that line |
| CartPage.PlusAddsOne | src/components/CartPage.tsx:374 | an enabled '+' raises that line alone by one |
| CartPage.HandleQuantityChange | src/components/CartPage.tsx:61-68 | the lines become QuantityChangeLines; the wishlist is untouched; the totals are exact after a removal or an update of a present line, and unchanged for an absent id with a positive quantity |
| CartPage.HandleRemoveItem | src/components/CartPage.tsx:70-73 | the line with the id is gone, totals exact |
| CartPage.OrderLines | src/components/CartPage.tsx:105-111 | one order line per cart line, copying id, quantity, price, name and image |
| CartPage.OrderLinesAmount | src/components/CartPage.tsx:97-111 | the order lines' amounts sum to the cart's price sum |
| CartPage.SubmitOrder | src/components/CartPage.tsx:82-165 | missing name or phone is refused first, then an empty cart, both with no change; otherwise the pending order copies the form and the total, the cart is cleared and the form reset |
| CartPage.SubmittedAmountMatchesLines | src/components/CartPage.tsx:97-111 | with exact totals, the order total equals the sum of its lines |
| CartPage.CheckoutForm.constructor | src/components/CartPage.tsx:20-30 | all five fields empty, form closed, not submitting |
| OrderForm.FooterMatchesLines | src/components/OrderForm.tsx:100-106 | the per-line amounts add up to the store's price sum shown in the footer |
| OrderForm.HandleSubmit | src/components/OrderForm.tsx:22-39 | a missing field is refused first, then an empty cart, both with no change; otherwise the cart is cleared and the fields kept |
| OrdersTab.Decrement | src/components/admin/OrdersTab.tsx:164-183 | the decremented stock map has the same products |
| OrdersTab.DecrementPerProduct | src/components/admin/OrdersTab.tsx:164-183 | each product's stock drops by the total ordered quantity of its lines, items without an id skipped |
| OrdersTab.DecrementHasNoFloor | src/components/admin/OrdersTab.tsx:178 | stock 1 and quantity 3 leave −2 |
| OrdersTab.DecrementTwice | src/components/admin/OrdersTab.tsx:163-183 | confirming twice takes the quantities off twice |
| Seqs.FindFirst | src/components/admin/OrdersTab.tsx:159-160 | the order lookup (and the product and category lookups of the shell) finds nothing exactly when no element matches; otherwise the first matching index |
| OrdersTab.SetStatus | src/components/admin/OrdersTab.tsx:204-208 | only the orders with the id take the new status and the update time; all others are unchanged |
| OrdersTab.SetStatusOnlyTarget | src/components/admin/OrdersTab.tsx:204-208 | a status change alters nothing but the status and `updated_at` fields, and only in the orders with the id |
| OrdersTab.ReconfirmRunsAgain | src/components/admin/OrdersTab.tsx:163 | confirmed then back to pending makes the next confirmation decrement again, over the same items |
| OrdersTab.OrdersPanel.UpdateOrderStatus | src/components/admin/OrdersTab.tsx:156-215 | unknown id writes nothing; a failed fetch or update stops with earlier decrements applied and the list untouched; otherwise stock is fully decremented (when the move is pending to confirmed) and only the target's status and update time change |
| OrdersTab.OrdersKeptCount | src/components/admin/OrdersTab.tsx:101-118 | whichever of the status and search filters run, the orders kept are as many as pass both tests |
| OrdersTab.FilterOrders | src/components/admin/OrdersTab.tsx:101-118 | exactly the orders passing the status filter and the search, in order and as many as pass both tests; no filter and no query keep all |
| App.FilteredProducts | src/App.tsx:178-183 | exactly the products in the category that match the search, as an order-preserving subsequence as long as the number of products passing both tests; no selection and no query keep all |
| App.CategoryName | src/App.tsx:185-189 | "" for "" and unknown ids, else the first matching category's name |
| App.ProductRoute | src/App.tsx:292-304 | not found exactly when no id matches; otherwise the first product with the URL id |
| App.ScreenFor | src/App.tsx:203-220 | storefront off admin paths; on them the spinner while auth loads, the login without a user, the dashboard with one |
| App.DashboardNeedsUser | src/App.tsx:215-219 | no user never sees the dashboard |
| App.AdminPrefix | src/App.tsx:121 | every path starting with /admin is an admin route |
| SearchResults.SearchTerm | src/components/SearchResults.tsx:13 | a missing q reads as "" |
| SearchResults.Matching | src/components/SearchResults.tsx:15-18 | exactly the matching products, in input order and as many as match |
| SearchResults.EmptySearchKeepsAll | src/components/SearchResults.tsx:15-18 | an empty query keeps every product |
| SearchResults.SameAsHomeWithoutCategory | src/components/SearchResults.tsx:15-18 | the search page agrees with the home filter with no category chosen |
| SearchResults.Results | src/components/SearchResults.tsx:23-27 | nothing found exactly when no product matches; otherwise the grid gets the filtered list |
| Header.OtherCategories | src/components/Header.tsx:40 | exactly the categories not named Men/Women/Kids, in order, as many as there are such categories |
| Header.MainCategories | src/components/Header.tsx:37 | exactly the categories named Men, Women or Kids, in order, as many as there are such categories |
| Header.NavigationItems | src/components/Header.tsx:42-52 | "All Products" first, then one item per main category in order, keeping id and name |
| Header.NavigationPartition | src/components/Header.tsx:40-46 | every category is in exactly one of the navigation items or the other categories |
| Header.ShowsMoreIff | src/components/Header.tsx:92 | the More menu shows exactly when some category is not a main one |
| Header.Badge | src/components/Header.tsx:159-172 | a badge shows exactly when its count is positive, with that count |
| InventoryTab.SimulatedInventory | src/components/admin/InventoryTab.tsx:35-40 | one item per product, with the drawn stock and inquiries and threshold 10 |
| InventoryTab.StatusOf | src/components/admin/InventoryTab.tsx:61-69 | out of stock at 0, low at or below the threshold, in stock above it |
| InventoryTab.LowFilterMatchesStatus | src/components/admin/InventoryTab.tsx:50-69 | for non-negative stock the filters agree with the status labels |
| InventoryTab.FilteredInventory | src/components/admin/InventoryTab.tsx:50-59 | all keeps everything; the low and out filters keep exactly the matching items, in order, as many as match |
| InventoryTab.CountsAreFilterSizes | src/components/admin/InventoryTab.tsx:50-73 | the two header counts, each computed with its own test, equal the lengths of the lists the low-stock and out-of-stock filters show |
| InventoryTab.CountsSplitInventory | src/components/admin/InventoryTab.tsx:50-73 | low, out and above-threshold counts add up to the inventory size |
| InventoryTab.SimulatedNeverOut | src/components/admin/InventoryTab.tsx:37 | simulated stocks in 1..100 never show out of stock |
| InventoryTab.TotalValueAppend | src/components/admin/InventoryTab.tsx:71 | the total value grows by price times stock per item |
| InventoryTab.TotalValue | src/components/admin/InventoryTab.tsx:71 | with no negative price or stock the total value is not negative |
| AnalyticsTab.TallyCorrect | src/components/admin/AnalyticsTab.tsx:57-66 | one entry per counted product id, each count is the number of its inquiries with a product, the name is the first one seen |
| AnalyticsTab.CountInquiries | src/components/admin/AnalyticsTab.tsx:57-66 | the loop builds exactly the tally |
| AnalyticsTab.FirstName | src/components/admin/AnalyticsTab.tsx:59-63 | a name is known exactly when the product was counted |
| AnalyticsTab.SortDesc | src/components/admin/AnalyticsTab.tsx:70 | the result is ordered by count, non-increasing, and is a permutation |
| AnalyticsTab.PopularProducts | src/components/admin/AnalyticsTab.tsx:67-71 | exactly min(5, number of counted products) entries, non-increasing, a sub-multiset of the tally |
| AnalyticsTab.TopFive | src/components/admin/AnalyticsTab.tsx:67-71 | nothing left out has more inquiries than anything shown |
| AnalyticsTab.OrZero | src/components/admin/AnalyticsTab.tsx:74-76 | a missing total reads as 0 |
| RecentlyViewed.AddRecent | src/components/RecentlyViewed.tsx:23-28 | the product comes first, then up to four earlier entries with other ids in their order |
| RecentlyViewed.AddKeepsIdsUnique | src/components/RecentlyViewed.tsx:24-25 | ids stay unique |
| RecentlyViewed.ReAddHead | src/components/RecentlyViewed.tsx:24-25 | re-adding the first product only refreshes it in place |
| ImageSliderTab.Moved | src/components/admin/ImageSliderTab.tsx:67-74 | at the edge nothing moves; otherwise a neighbour swap, then renumbering |
| ImageSliderTab.MoveSwapsNeighbours | src/components/admin/ImageSliderTab.tsx:69-73 | the two neighbours trade places, every other image stays, and each order equals its index |
| ImageSliderTab.MoveUpThenDown | src/components/admin/ImageSliderTab.tsx:67-74 | up then down restores the order |
| ImageSliderTab.Swap | src/components/admin/ImageSliderTab.tsx:69-71 | the two positions trade places and the list is a permutation |
| ImageSliderTab.HandleMove | src/components/admin/ImageSliderTab.tsx:67-82 | the array copy, swap and renumbering loop yield Moved |
| ImageSliderTab.NewDraft | src/components/admin/ImageSliderTab.tsx:41-50 | a new slide has no id, no image, blank text, no button and a blank button URL, and its order equals the count |
| ImageSliderTab.SaveFor | src/components/admin/ImageSliderTab.tsx:84-124 | nothing to save without a draft, missing image when the draft has no URL, an update of the draft's URL, text and button fields when it has an id, otherwise an insert of the draft numbered at the end |
| ImageSliderTab.EditingAfterSave | src/components/admin/ImageSliderTab.tsx:88-91 | the editor stays open only on a missing image |
| BulkImageUpload.Accepted | src/components/admin/BulkImageUpload.tsx:33-54 | never more than the remaining capacity; nothing once full |
| BulkImageUpload.AcceptedIsFirstValid | src/components/admin/BulkImageUpload.tsx:36-51 | the accepted files are the valid ones in selection order, cut at the remaining capacity |
| BulkImageUpload.AcceptedAreValid | src/components/admin/BulkImageUpload.tsx:37-41 | every accepted file passed validation |
| BulkImageUpload.Move | src/components/admin/BulkImageUpload.tsx:114-117 | the dragged item lands at the drop index and the list is a permutation |
| BulkImageUpload.MoveKeepsOthers | src/components/admin/BulkImageUpload.tsx:114-117 | the other items keep their relative order |
| BulkImageUpload.MoveInPlaceIsIdentity | src/components/admin/BulkImageUpload.tsx:114-117 | dropping where the drag began changes nothing |
| BulkImageUpload.MoveItem | src/components/admin/BulkImageUpload.tsx:114-117 | the in-place shift leaves the array equal to Move of its old contents |
| BulkImageUpload.Picker.AddFiles | src/components/admin/BulkImageUpload.tsx:33-54 | the old images stay first, the accepted files follow with their drawn ids, and the total stays within maxImages |
| BulkImageUpload.Picker.RemoveImage | src/components/admin/BulkImageUpload.tsx:56-64 | exactly the entries with other ids remain, in order |
| BulkImageUpload.Picker.DragStart | src/components/admin/BulkImageUpload.tsx:101-103 | records the dragged index and leaves the images |
| BulkImageUpload.Picker.Drop | src/components/admin/BulkImageUpload.tsx:109-121 | no drag is a no-op; otherwise the list becomes Move of the old one and the drag index is cleared |
| ImageUpload.FirstError | src/components/admin/ImageUpload.tsx:39-45 | no error exactly when every file is valid; otherwise the message of the first invalid file |
| ImageUpload.UploadAll | src/components/admin/ImageUpload.tsx:60-67 | fails exactly when some upload fails; otherwise one URL per file, in order |
| ImageUpload.WithoutIndex | src/components/admin/ImageUpload.tsx:88 | an in-range index drops exactly that position; any other index changes nothing |
| ImageUpload.Uploader.RemainingSlots | src/components/admin/ImageUpload.tsx:99 | the free slots plus the count make maxImages; SlotsMatchGuard ties this number to the file handler's capacity guard |
| ImageUpload.Uploader.SlotsMatchGuard | src/components/admin/ImageUpload.tsx:99-109 | a non-empty batch is refused as too many exactly when it has more files than free slots, and the upload area shows exactly when one file would pass that guard (line 33) |
| ImageUpload.Uploader.HandleFileSelect | src/components/admin/ImageUpload.tsx:28-85 | empty batches, over-capacity batches, invalid files and failed uploads all leave the previews; success appends the URLs in file order; the count never passes maxImages; the uploading flag is left alone by the three early returns and is cleared after any upload attempt |
| ImageUpload.Uploader.HandleRemoveImage | src/components/admin/ImageUpload.tsx:87-91 | the previews become WithoutIndex of the old ones |
| ImageUpload.Uploader.Sync | src/components/admin/ImageUpload.tsx:24-26 | the previews become the current images passed in; the upload flag is kept |
| HeroCarousel.NextIndex | src/components/HeroCarousel.tsx:67 | within the slides; one on, wrapping from the last to the first |
| HeroCarousel.PrevIndex | src/components/HeroCarousel.tsx:74 | within the slides; one back, wrapping from the first to the last |
| HeroCarousel.NextPrevInverse | src/components/HeroCarousel.tsx:64-76 | next and prev undo each other |
| HeroCarousel.NextCycles | src/components/HeroCarousel.tsx:67 | three nexts come back to the start |
| HeroCarousel.SwipeFor | src/components/HeroCarousel.tsx:95-106 | no swipe exactly on a zero start or end; next exactly beyond 50, prev exactly below −50 |
| HeroCarousel.Carousel.Next | src/components/HeroCarousel.tsx:64-69 | a no-op during a transition; otherwise moves to NextIndex and locks |
| HeroCarousel.Carousel.Prev | src/components/HeroCarousel.tsx:71-76 | a no-op during a transition; otherwise moves to PrevIndex and locks |
| HeroCarousel.Carousel.GoTo | src/components/HeroCarousel.tsx:78-83 | a no-op during a transition or on the current slide; otherwise jumps and locks |
| HeroCarousel.Carousel.TouchEnd | src/components/HeroCarousel.tsx:94-107 | the swipe decision turns the slide unless locked; anything else changes nothing |
| HeroCarousel.Carousel.AutoPlayTick | src/components/HeroCarousel.tsx:50-62 | while auto-playing, a tick turns the slide exactly when the interval saw no lock when it started, and then the restarted interval sees the lock; otherwise nothing moves |
| HeroCarousel.Carousel.constructor | src/components/HeroCarousel.tsx:41-45 | first slide, no transition, auto-play on, touch positions 0, and the first interval sees no lock |
| HeroCarousel.Carousel.EndTransition | src/components/HeroCarousel.tsx:68 | the lock is released, and the running interval keeps the lock it saw |
| HeroCarousel.Carousel.SetAutoPlaying | src/components/HeroCarousel.tsx:50-62 | a change of the auto-play flag restarts the interval, which then sees the live lock; setting the same value restarts nothing |
| HeroCarousel.Carousel.TouchStart | src/components/HeroCarousel.tsx:85-88 | records the start and stops auto-play, restarting the interval when auto-play was on |
| HeroCarousel.Carousel.TouchMove | src/components/HeroCarousel.tsx:90-92 | records the end position; nothing else changes |
| HeroCarousel.Carousel.ResumeAutoPlay | src/components/HeroCarousel.tsx:108-113 | auto-play is on; when it was off the interval restarts and sees the live lock |
| HeroCarousel.Carousel.PauseAutoPlay | src/components/HeroCarousel.tsx:112 | auto-play is off; the slide and the lock stay |
| HeroCarousel.AutoPlayStallsAfterOneSlide | src/components/HeroCarousel.tsx:50-83 | from the start, auto-play turns to slide 1, then stays there through later ticks, and reaches slide 2 only after a hover in and out |
| Storage.ValidateImageFile | src/lib/storage.ts:76-89 | the type message exactly for a type outside the four; the size message exactly for an allowed type above 5 MiB; accepted otherwise |
| Storage.SizeBoundary | src/lib/storage.ts:77-86 | exactly 5 MiB passes; one byte more fails |
| Storage.TypeBeforeSize | src/lib/storage.ts:80-86 | an oversized file of a wrong type gets the type message |
| Storage.LastSegment | src/lib/storage.ts:8 | a suffix without the separator, preceded by it when shorter than the input |
| Storage.LastSegmentAfter | src/lib/storage.ts:8 | what follows the last separator is the segment found |
| Storage.UploadPath | src/lib/storage.ts:7-9 | the path is "products/", the stem, '.', and then the file name's extension: a suffix of the name without '.', preceded by '.' unless it is the whole name |
| Storage.DeletePath | src/lib/storage.ts:59-74 | nothing exactly for an empty path; otherwise "products/" followed by the path's last '/'-segment: a suffix without '/', preceded by '/' unless it is the whole path |
| Storage.DeleteFindsUpload | src/lib/storage.ts:7-74 | deleting by an uploaded file's public URL targets the object that was uploaded |
| ProductModal.AcceptedPhoneShape | src/components/ProductModal.tsx:12 | an accepted phone has 2 to 15 digits not starting with 0, and only a leading '+' besides |
| ProductModal.LeadingZeroRefused | src/components/ProductModal.tsx:12 | a phone starting with 0 or +0 is refused |
| ProductModal.DigitsOfDigits | src/components/ProductModal.tsx:12 | the digits of an all-digit string are the string |
| ProductModal.Submit | src/components/ProductModal.tsx:32-82 | invalid input stops first, then a missing product, both leaving the flag; the message opens exactly on a stored insert; an error reply leaves the flag set; only a thrown error clears it |
| Text.Lower | src/App.tsx:180-181 | same length, each character lower-cased |
| Text.ContainsSlice | src/App.tsx:180 | `includes` holds for every slice of the string (used by Catalog.NamePartMatches) |
| Catalog.EmptyQueryMatches | src/App.tsx:180 | the empty query matches every product |
| Catalog.NamePartMatches | src/App.tsx:180 | searching for any slice of a product's name finds that product, whatever the letter case of the name |

## Left out

- Network, storage and auth calls. Fetched data are inputs. Storage and
  database outcomes are parameters: `Backend` in `OrdersTab`, `upload` in
  `ImageUpload`, and the insert flag in `ProductModal`.
- Toasts, navigation, rendering, animations, hover effects and the typewriter
  have no state worth modelling.
- Timers are separate methods, called when the timer fires:
  `HeroCarousel.Carousel.EndTransition`, `AutoPlayTick` and `ResumeAutoPlay`.
  The shipping form's delay is taken as already elapsed.
- Random values are parameters: the bulk picker's ids (`draw`), the file stem
  of an upload, and the simulated inventory numbers.
- UpdateOrderStatus: the clock is the parameter `now`. The source reads
  `new Date()` twice, once for the database row (OrdersTab.tsx:196-199) and
  once for the local list (:206). The model uses one reading for the list and
  does not model the orders table's own `updated_at`, which the tab never
  reads back.
- `getTotalInDZD` (src/store/cartStore.ts:342-351) is left out: it is locale
  currency formatting over floating point.
- The CSV export and the order sort comparator of `OrdersTab.tsx` are left out.
  The comparator never returns 0 and parses dates.
- `WishlistModal.tsx` and `WishlistPage.tsx` are left out. They only call
  `AddToCart` with the fixed limits 999 and 50.
- The product page's like button is left out. It does what
  `ProductCard.HandleLike` does.
- `uploadAllImages` of the bulk picker is left out. It is a sequence of uploads
  with no guard beyond an empty list.
- Image compression, object URLs and their revocation are left out.
- Building the WhatsApp messages and URLs is left out.
- `localStorage` reads and writes in the recently viewed list are left out.
- Unicode case mapping is left out: lower-casing covers ASCII letters only.
- The carousel reorder in `ImageSliderTab.tsx` mutates the shared image
  objects in place. The model works on values, so that aliasing is not
  captured.
- The key order of `Object.values` is taken as insertion order. It differs
  when product ids look like array indices.
- SideDrawer.DecrementKeepsLine: stated only for a stored stock of at least 1.
  A stored stock of 0 is `SideDrawer.DecrementRemovesAtZeroStock`, and a
  negative one follows `CartStore.UpdateLinesNegativeStock`.
- BulkImageUpload.Picker.Drop: requires both indices to be positions of the
  current list. A drag index left stale by a removal during the drag is not
  modelled.
- HeroCarousel.Carousel.TouchEnd: auto-play resumes only through
  `ResumeAutoPlay`, the 3-second timer. The touch positions are never reset,
  and the model keeps that.
- ProductDetail.AddedExistingLine: stated only for a stored stock of at least
  1. A stored stock of 0 is `ProductDetail.AddedExistingLineZeroStock`, and a
  negative one follows `CartStore.UpdateLinesNegativeStock`.
- Prices are integers in the smallest currency unit. The code's prices are
  JavaScript numbers, so fractional amounts and the floating-point rounding
  of the totals are not modelled.
- App.ScreenFor: takes the current path. The app itself keeps an
  `isAdminRoute` state (src/App.tsx:52, 118-130) that starts false and is
  refreshed only at mount and on `popstate`. The model does not capture the
  first render before that state is set, nor a stale value after an in-app
  navigation.
- ProductModal.ValidName, ProductCard.DisplayName and
  ProductCard.DisplayDescription count characters. JavaScript's `length`,
  `min(2)` and `substring` count UTF-16 code units. A character outside the
  Basic Multilingual Plane, such as an emoji, counts once here but twice there.
  A cut through such a character is not representable here.
- RecentlyViewed.AddRecent: states what the add does. The component exposes
  it only through a ref created anew on every render
  (src/components/RecentlyViewed.tsx:31-33), so nothing in the code calls it.

# Buy-Sell-Store: a verified model of the checkout, cart, catalogue, order and recommendation logic

Buy-Sell-Store is a marketplace. Sellers list books and home items, and buyers
keep a cart and a wish list, check out, review books and get book
recommendations. Sellers see their sold items, revenue and statistics. This
project models the parts of the system that decide things, in Dafny, and
proves what they promise.

- **The checkout wizard** (`Checkout`, `CardInput`).
  - The card-number, expiry and CVV normalisers and their error texts.
  - The three-step Shipping, Payment and Confirmation machine, as a
    `CheckoutSession` class. Every UI event is a method, and the create-order
    call settles as success, reported failure or throw.
- **The cart screen's message coordinator** (`Cart`).
  - The per-item message map and the `isProcessing` gate.
  - The 3-second deletions, kept as an explicit list of pending
    (deadline, item) timers with a clock.
  - The cart total.
- **The server's order service** (`Orders`, `SellerStatistics`, `Ranking`).
  - `createOrder`, with its item filtering, seller stamping and responses.
  - The sold-item listing.
  - The counters and rankings of the seller statistics.
  - Repositories are maps from id to record, or lists, held by an
    `OrderService` class.
- **The book service's review operations** (`Books`): add, first-match
  update, delete-all and the mean rating.
- **The book and home-item upload and update mutations** (`BookMutations`,
  `HomeItemMutations`), with their duplicate checks.
- **The book recommendation** (`Recommendations`).
  - Which books may be recommended, and the rating matrix.
  - The one-entry-per-book, highest-first, at-most-ten result.
  - The score and the cosine similarity are left as function parameters.
- **Three screens.**
  - The catalogue's genre and search filter and its recommendation carousel
    (`BookBrowsing`).
  - The seller's revenue dashboard filters and totals (`RevenueDashboard`).
  - The wish-list screen's image addresses and messages (`WishlistView`).

**How the model represents the system**
- Money is integer cents. Ratings and scores are `real`. Timestamps are
  integers.
- The clock, fresh ids and the outcome of every remote call are method
  parameters.
- A control the UI disables or does not render is a precondition of the
  method for that event.
- Where the server iterates a `HashMap`, the model chooses an order with
  `:|`. The properties are stated for every ordering.

Shared helpers live in `Wrappers` (Option, and the single-result repository
lookup that fails when several records match), `Text` (ASCII strings, case
folding, `includes`, decimal numerals), `Seqs` (filters, subsequences, sums)
and `Store` (the server's records).

## Model

| member | source | states |
|---|---|---|
| CardInput.DigitsUpTo | buyandsellstoreweb/src/screens/CheckoutScreen.jsx:67 | every payment field keeps the typed digits in order and only them, cut to its cap (16 for the card number here, 4 for the expiry at line 74 and the CVV at line 88); a text already made of at most `cap` digits is kept unchanged |
| CardInput.FormatCardShape | buyandsellstoreweb/src/screens/CheckoutScreen.jsx:68 | the rendered number is the digits in groups of four, one space between groups (a space exactly at every position 4, 9, 14, ... counting from 0), no trailing space, the last group possibly shorter |
| CardInput.FormatCardLength | buyandsellstoreweb/src/screens/CheckoutScreen.jsx:68 | the rendering has one separator per full group of four that is followed by more digits |
| CardInput.StripFormattedCard | buyandsellstoreweb/src/screens/CheckoutScreen.jsx:68 | removing the whitespace from the rendering gives back exactly the digit string, which is what the order request sends |
| CardInput.NormalizedCardLength | buyandsellstoreweb/src/screens/CheckoutScreen.jsx:67-68 | the rendered card number is at most 19 characters |
| CardInput.NormalizeCardIdempotent | buyandsellstoreweb/src/screens/CheckoutScreen.jsx:67-69 | normalising a rendered card number changes nothing and keeps the same digits |
| CardInput.CardNumberErrorCases | buyandsellstoreweb/src/screens/CheckoutScreen.jsx:70 | the card-number error is empty iff exactly 16 digits were kept, and otherwise it is "Card number must be 16 digits" |
| CardInput.SplitNormalizedExpiry | buyandsellstoreweb/src/screens/CheckoutScreen.jsx:74-77 | the rendered expiry is the digits, with "/" after the second digit only when there are more than two; splitting it at "/" gives the month and year parts |
| CardInput.Split | buyandsellstoreweb/src/screens/CheckoutScreen.jsx:77 | `split` on a character always yields at least one part |
| CardInput.ExpiryErrorCases | buyandsellstoreweb/src/screens/CheckoutScreen.jsx:77-84 | the expiry error is "Invalid expiry format (MM/YY)" when the month or year part is missing or the month is outside 1..12; otherwise it is "Card has expired" when (yy, mm) is before (current year mod 100, current month); otherwise it is empty |
| CardInput.NormalizeExpiryIdempotent | buyandsellstoreweb/src/screens/CheckoutScreen.jsx:74-75 | normalising a rendered expiry changes nothing |
| CardInput.CvvProperties | buyandsellstoreweb/src/screens/CheckoutScreen.jsx:88-90 | the CVV error is empty iff 3 or 4 digits were kept, and CVV normalisation is idempotent |
| Checkout.Outbound | buyandsellstoreweb/src/screens/CheckoutScreen.jsx:110-111 | the address sent in a request is the stored address with `__typename` removed and every other field unchanged |
| Checkout.CheckoutSession.constructor | buyandsellstoreweb/src/screens/CheckoutScreen.jsx:53-62 | checkout starts at step 0 with the first billing and first shipping address (or an empty one), the cart items and total handed over (or none and 0), "use billing address" on, empty card fields and errors, not placing, no order |
| Checkout.CheckoutSession.SelectAddress | buyandsellstoreweb/src/screens/CheckoutScreen.jsx:154 | picking a listed address makes it the shipping address and unchecks "use billing address"; nothing else changes |
| Checkout.CheckoutSession.ToggleSameAddress | buyandsellstoreweb/src/screens/CheckoutScreen.jsx:163 | the checkbox sets `useSameAddress` and leaves the shipping address as it was |
| Checkout.CheckoutSession.EditShippingField | buyandsellstoreweb/src/screens/CheckoutScreen.jsx:165-171 | editing a shipping field, which is offered only when the billing address is not used, changes that field alone |
| Checkout.CheckoutSession.EditCardNumber | buyandsellstoreweb/src/screens/CheckoutScreen.jsx:66-71 | a card-number edit stores the normalised number and its error, and leaves the other card fields, the step and the addresses unchanged |
| Checkout.CheckoutSession.EditExpiry | buyandsellstoreweb/src/screens/CheckoutScreen.jsx:73-85 | an expiry edit stores the normalised expiry and its error for the current year and month; nothing else changes |
| Checkout.CheckoutSession.EditCvv | buyandsellstoreweb/src/screens/CheckoutScreen.jsx:87-91 | a CVV edit stores the normalised CVV and its error; nothing else changes |
| Checkout.CheckoutSession.Back | buyandsellstoreweb/src/screens/CheckoutScreen.jsx:222 | Back is offered only at step 1 (payment), never at step 0 or on confirmation; it decrements the step, and the addresses and card fields survive it |
| Checkout.CheckoutSession.Next | buyandsellstoreweb/src/screens/CheckoutScreen.jsx:102-121 | enabled only when not placing and the step's guard holds. At step 0 it only moves to step 1 and sends nothing. At step 1 it sends exactly one request, built from the current state: the card number is the 16 bare digits, the CVV 3 or 4 digits, and neither address carries `__typename` |
| Checkout.CheckoutSession.Settle | buyandsellstoreweb/src/screens/CheckoutScreen.jsx:122-130 | only a success response moves to step 2 and stores its order; a reported failure alerts the server message and a throw alerts "Error placing order", both leaving the step, order and card fields; `isPlacing` is false after every outcome |
| Checkout.ConfirmationIsTerminal | buyandsellstoreweb/src/screens/CheckoutScreen.jsx:220-226 | at step 2 neither Next nor Back is offered and nothing is being placed; step 2 was reached through a success response to a request that was sent |
| Checkout.PaymentValidMeans | buyandsellstoreweb/src/screens/CheckoutScreen.jsx:98-100 | when payment is valid the card has 16 digits, the CVV 3 or 4, and the expiry passed the check at its last edit |
| Cart.TotalPriceProperties | buyandsellstoreweb/src/screens/CartScreen.jsx:141-144 | the total is additive over concatenation and not negative for non-negative prices and quantities |
| Cart.CompletedMessage | buyandsellstoreweb/src/screens/CartScreen.jsx:90 | a completed mutation stores the server's message when it is non-empty, otherwise the default text; never an empty text |
| Cart.FailureTextsAreErrors | buyandsellstoreweb/src/screens/CartScreen.jsx:191 | both failure texts contain "Failed" and so are styled as errors |
| Cart.DefaultTextsAreNotErrors | buyandsellstoreweb/src/screens/CartScreen.jsx:191 | both default completion texts are styled as successes |
| Cart.CartCoordinator.constructor | buyandsellstoreweb/src/screens/CartScreen.jsx:51-52 | once the first fetch has landed: no messages, no timers, not processing and no refetch pending |
| Cart.CartCoordinator.Start | buyandsellstoreweb/src/screens/CartScreen.jsx:84-85 | a + or - click is possible only on a listed item (lines 175, 203-226), on a non-empty cart (line 151), with no refetch loading (line 78) and no mutation in flight; it sets `isProcessing` and changes nothing else |
| Cart.CartCoordinator.Settle | buyandsellstoreweb/src/screens/CartScreen.jsx:86-139 | a response stores its message under that item only, schedules one deletion 3000 ms later and refetches once, so the screen shows its loading text until the refetch lands; a throw stores "Failed to add item." / "Failed to remove item.", schedules nothing and does not refetch; `isProcessing` is reset either way |
| Cart.CartCoordinator.Completed | buyandsellstoreweb/src/screens/CartScreen.jsx:90-107 | a returned mutation stores the server message or the default under its item, schedules that item's deletion 3000 ms later, refetches once and resets `isProcessing` |
| Cart.CartCoordinator.Failed | buyandsellstoreweb/src/screens/CartScreen.jsx:103-107 | a thrown mutation stores the fixed failure text under its item, schedules nothing, does not refetch and resets `isProcessing` |
| Cart.QueuedBounds | buyandsellstoreweb/src/screens/CartScreen.jsx:94-100 | in an ordered deletion queue the first deadline is the earliest and every deadline lies between the queue's floor and ceiling, which the coordinator keeps at the clock and 3000 ms after it |
| Cart.CartCoordinator.Tick | buyandsellstoreweb/src/screens/CartScreen.jsx:94-100 | time advances up to the earliest pending deadline, with no other effect |
| Cart.CartCoordinator.Fire | buyandsellstoreweb/src/screens/CartScreen.jsx:94-100 | the earliest timer deletes its item's key unconditionally; deleting an absent key changes nothing and other keys are untouched |
| Cart.CartCoordinator.Fetched | buyandsellstoreweb/src/screens/CartScreen.jsx:78-82 | a landed refetch replaces the cart items and ends the loading state; messages and timers survive it |
| Cart.CartCoordinator.ProceedToCheckout | buyandsellstoreweb/src/screens/CartScreen.jsx:259-264 | checkout receives the items and their total; the button exists only beside a non-empty, loaded cart (lines 78, 151) and is enabled only with no mutation in flight |
| Cart.StaleTimerErasesNewerMessage | buyandsellstoreweb/src/screens/CartScreen.jsx:94-100 | on a trace the screen can produce (each completed add followed by its refetch), a first add's timer erases the second add's message for the same item only 1000 ms after it was written |
| Cart.FailureMessageLifetime | buyandsellstoreweb/src/screens/CartScreen.jsx:103-105 | on a one-item cart, with the refetch after the completed remove: a failure message is erased by the earlier success's timer; a later failure schedules no timer and its text stays shown |
| Orders.ProcessItemsIsStampedFilter | buyandsellstore/src/main/java/com/buyandsellstore/app/service/OrderService.java:161-175 | the processed items are the input items whose catalogue entry exists (for "book"/"home" compared ignoring case) or whose type is neither, in input order, each stamped |
| Orders.StampedProperties | buyandsellstore/src/main/java/com/buyandsellstore/app/service/OrderService.java:164-173 | a kept book or home item carries its catalogue entry's sellerId; other items are unchanged; stamping changes nothing but the sellerId |
| Orders.ProcessItemsKeepsAll | buyandsellstore/src/main/java/com/buyandsellstore/app/service/OrderService.java:161-175 | when every item is found, none is dropped |
| Orders.StampAll | buyandsellstore/src/main/java/com/buyandsellstore/app/service/OrderService.java:164-169 | stamping a list keeps its length and stamps each item in place |
| Orders.NewOrder | buyandsellstore/src/main/java/com/buyandsellstore/app/service/OrderService.java:177-185 | the order stores the given user, items, total, billing, shipping and payment unchanged; the total is not recomputed |
| Orders.OrderService.CreateOrder | buyandsellstore/src/main/java/com/buyandsellstore/app/service/OrderService.java:156-195 | without an exception exactly one order is appended, the user's cart is cleared and (true, "Order created successfully", order) is returned; an exception before the save changes nothing, one after it leaves the order saved, and both return (false, "Failed to create order: " + cause, null) |
| Orders.SoldFromExact | buyandsellstore/src/main/java/com/buyandsellstore/app/service/OrderService.java:214-227 | an order's sold items are exactly its items of that seller, each with the order's time |
| Orders.SoldItemsExact | buyandsellstore/src/main/java/com/buyandsellstore/app/service/OrderService.java:210-231 | every listed item is an item of the seller in some order, stamped with that order's time, and every such item is listed |
| Orders.SoldItemsAppend | buyandsellstore/src/main/java/com/buyandsellstore/app/service/OrderService.java:213-229 | the listing follows the order of the orders: two batches list the first batch's items first |
| Orders.OrderService.GetSoldItemsBySellerId | buyandsellstore/src/main/java/com/buyandsellstore/app/service/OrderService.java:210-231 | the nested loop returns the order-then-item listing of the seller's items |
| Orders.OrderService.TallyAll | buyandsellstore/src/main/java/com/buyandsellstore/app/service/OrderService.java:53-79 | the order loop computes the tally the statistics are specified by; its totals are sums over the seller's lines, its purchased books the stored book of each such line in order, and its fulfilment list one 4.0-hour entry per order holding an item of the seller |
| Orders.OrderService.TallyLines | buyandsellstore/src/main/java/com/buyandsellstore/app/service/OrderService.java:56-73 | the item loop adds one order's lines to the tally and notes whether any of them is the seller's |
| Orders.OrderService.CountWishlist | buyandsellstore/src/main/java/com/buyandsellstore/app/service/OrderService.java:94-103 | the wish-list loop computes the per-book wish counts |
| Orders.OrderService.CountCarts | buyandsellstore/src/main/java/com/buyandsellstore/app/service/OrderService.java:120-128 | the cart loop counts the carts holding the seller's items and those whose owner bought from the seller |
| Orders.OrderService.SalesRankings | buyandsellstore/src/main/java/com/buyandsellstore/app/service/OrderService.java:81-92 | given the loop's sales counters, the top and least selling books are the stored books among the first and the last three ids of a highest-first ranking of them, at most three each; those counters hold, for each book, exactly the quantity sold over the seller's lines that resolve to it |
| Orders.OrderService.GetSellerStats | buyandsellstore/src/main/java/com/buyandsellstore/app/service/OrderService.java:39-154 | every field of the statistics is the specified tally, count or ranking; the totals are sums over the seller's lines, the purchased books are the stored books of those lines in order, the fulfilment entries are one per order of the seller with delay 4.0, and the top and least sellers are drawn from a ranking of a counter holding each book's sold quantity; at most 3 top and least sellers and 5 active buyers; the abandonment rate lies in 0..100; total orders counts all orders |
| Orders.MostActiveBuyers | buyandsellstore/src/main/java/com/buyandsellstore/app/service/OrderService.java:116-118 | the most active buyers are the first five users of some highest-first ranking of the purchase counters, at most five |
| Orders.Rank | buyandsellstore/src/main/java/com/buyandsellstore/app/service/OrderService.java:116-118 | a counter map's entries once each, sorted highest first |
| SellerStatistics.Merge | buyandsellstore/src/main/java/com/buyandsellstore/app/service/OrderService.java:68-71 | `merge` with `Integer::sum` adds the amount to one key's counter and leaves the others |
| SellerStatistics.HasSellerItemIffSome | buyandsellstore/src/main/java/com/buyandsellstore/app/service/OrderService.java:123 | a cart holds a seller's item iff its filtered list is not empty |
| SellerStatistics.TallyTotals | buyandsellstore/src/main/java/com/buyandsellstore/app/service/OrderService.java:57-60 | total purchases is the sum of quantities of the seller's items, and total revenue the sum of quantity times price |
| SellerStatistics.TallyBuyers | buyandsellstore/src/main/java/com/buyandsellstore/app/service/OrderService.java:71-75 | a user's purchase count rises by one per matching item, not per order; a user is a buyer iff some order of theirs holds a matching item; the counted users are exactly the buyers |
| SellerStatistics.FulfillmentEntries | buyandsellstore/src/main/java/com/buyandsellstore/app/service/OrderService.java:77 | one entry per listed order, in order, holding its id and the fixed delay 4.0 hours |
| SellerStatistics.TallyFulfilled | buyandsellstore/src/main/java/com/buyandsellstore/app/service/OrderService.java:74-78 | the fulfilment list is, in order, the entry of each order holding an item of the seller and of no other order |
| SellerStatistics.PurchasedBooksExact | buyandsellstore/src/main/java/com/buyandsellstore/app/service/OrderService.java:66-67 | the purchased books are the stored book of each of the seller's lines, order after order and line after line; a line whose id no stored book has adds nothing |
| SellerStatistics.BookSalesExact | buyandsellstore/src/main/java/com/buyandsellstore/app/service/OrderService.java:66-68 | a book's sales count is the sum of the quantities of the seller's lines that resolve to it, and the counter holds exactly the books with such a line |
| SellerStatistics.BookSalesAreBooks | buyandsellstore/src/main/java/com/buyandsellstore/app/service/OrderService.java:66-69 | book sales are counted only under ids of stored books |
| SellerStatistics.WishlistCountsExact | buyandsellstore/src/main/java/com/buyandsellstore/app/service/OrderService.java:94-103 | a book's wish count is the number of "book" wish-list entries (any case) naming a stored book of the seller; no other key appears |
| SellerStatistics.AverageRatingsOnScale | buyandsellstore/src/main/java/com/buyandsellstore/app/service/OrderService.java:108-114 | each average of a seller's reviewed book lies within the rating scale |
| SellerStatistics.OrderedWithinHolding | buyandsellstore/src/main/java/com/buyandsellstore/app/service/OrderService.java:122-128 | the carts whose owner ordered are among, and never outnumber, the carts holding the seller's items |
| SellerStatistics.AbandonmentRateBounds | buyandsellstore/src/main/java/com/buyandsellstore/app/service/OrderService.java:129 | the rate lies in 0..100, is 0 when no cart holds the seller's item or every such owner ordered, and 100 when none did |
| SellerStatistics.Lookups | buyandsellstore/src/main/java/com/buyandsellstore/app/service/OrderService.java:86-87 | looking ids up and dropping the missing never lengthens the list, and drops nothing when every id is stored |
| SellerStatistics.TopSellersOutsell | buyandsellstore/src/main/java/com/buyandsellstore/app/service/OrderService.java:81-85 | each of the first three ranked books sold at least as much as every book after them |
| SellerStatistics.TopAndLeastSelling | buyandsellstore/src/main/java/com/buyandsellstore/app/service/OrderService.java:85-92 | top and least selling hold at most three books each and share an entry when fewer than six books sold |
| Ranking.SortDesc | buyandsellstore/src/main/java/com/buyandsellstore/app/service/OrderService.java:81-83 | the result is sorted by score, highest first, and is a permutation of the input |
| Ranking.Take | buyandsellstore/src/main/java/com/buyandsellstore/app/service/OrderService.java:85 | a stream's `limit(n)` is its first min(n, size) elements; the rankings here and the recommendation's `limit(10)` both use it |
| Ranking.TakeLast | buyandsellstore/src/main/java/com/buyandsellstore/app/service/OrderService.java:90 | `skip(max(0, size - n))` is the last min(n, size) entries |
| Ranking.TakeDominates | buyandsellstore/src/main/java/com/buyandsellstore/app/service/OrderService.java:81-87 | in a sorted list every entry of the first n scores at least as much as every later entry |
| Ranking.TopAndBottomOverlap | buyandsellstore/src/main/java/com/buyandsellstore/app/service/OrderService.java:85-92 | with one to five entries the first three and the last three share an entry |
| Ranking.SortKeepsDistinctKeys | buyandsellstore/src/main/java/com/buyandsellstore/app/service/OrderService.java:81-83 | sorting map entries keeps each key once |
| Ranking.EntriesOf | buyandsellstore/src/main/java/com/buyandsellstore/app/service/RecommendationService.java:129 | the entry set lists each key of the map once, with its value |
| Ranking.RankScores | buyandsellstore/src/main/java/com/buyandsellstore/app/service/RecommendationService.java:129-130 | the entries of a map once each, every key present, highest score first |
| Books.MeanRatingBounds | buyandsellstore/src/main/java/com/buyandsellstore/app/service/BookService.java:83-91 | the mean of a non-empty review list lies between its lowest and highest rating |
| Books.MeanOfEqualRatings | buyandsellstore/src/main/java/com/buyandsellstore/app/service/BookService.java:88-89 | equal ratings have that rating as their mean |
| Books.RatingSumBounds | buyandsellstore/src/main/java/com/buyandsellstore/app/service/BookService.java:88 | the rating sum lies between count times the lowest and count times the highest rating |
| Books.Overwritten | buyandsellstore/src/main/java/com/buyandsellstore/app/service/BookService.java:59-61 | an updated review keeps its reviewer and takes comment, rating and userId from the update |
| Books.UpdateFirstAt | buyandsellstore/src/main/java/com/buyandsellstore/app/service/BookService.java:57-64 | the update changes exactly the first review whose reviewer matches ignoring case, or nothing when none does |
| Books.UpdateFirstProperties | buyandsellstore/src/main/java/com/buyandsellstore/app/service/BookService.java:57-64 | the update keeps the length and every reviewer name, changes only matching reviews, and changes nothing without a match |
| Books.FirstBy | buyandsellstore/src/main/java/com/buyandsellstore/app/service/BookService.java:57-58 | the index where the loop stops: the first matching review, or the end |
| Books.WithoutReviewerProperties | buyandsellstore/src/main/java/com/buyandsellstore/app/service/BookService.java:75 | deleting leaves no review by that reviewer (ignoring case), keeps every other review in order, and repeating it removes nothing more |
| Books.WithReviews | buyandsellstore/src/main/java/com/buyandsellstore/app/service/BookService.java:46-47 | the book takes the new list and its mean as rating; every other field is unchanged |
| Books.BookService.constructor | buyandsellstore/src/main/java/com/buyandsellstore/app/service/BookService.java:15-16 | the service starts with the given repository and no saves |
| Books.BookService.FindByTitleAndSellerId | buyandsellstore/src/main/java/com/buyandsellstore/app/service/BookService.java:26-28 | null iff no stored book has exactly that title and seller; that book iff exactly one has; the repository's error iff several have |
| Books.BookService.Save | buyandsellstore/src/main/java/com/buyandsellstore/app/service/BookService.java:34-36 | the book is stored under its id and logged once |
| Books.BookService.AddReview | buyandsellstore/src/main/java/com/buyandsellstore/app/service/BookService.java:40-51 | an unknown id returns null and saves nothing; otherwise the review is appended at the end of the list (a null list counts as empty), the rating becomes the mean, and the book is saved once |
| Books.BookService.UpdateReview | buyandsellstore/src/main/java/com/buyandsellstore/app/service/BookService.java:54-69 | an unknown id returns null, a null list returns the book unsaved; otherwise the first matching review is overwritten, the rating becomes the mean and the book is saved once |
| Books.BookService.DeleteReview | buyandsellstore/src/main/java/com/buyandsellstore/app/service/BookService.java:72-80 | an unknown id returns null, a null list returns the book unsaved; otherwise every matching review is removed, the rating becomes the mean and the book is saved once |
| Books.StoredRatingIsMean | buyandsellstore/src/main/java/com/buyandsellstore/app/service/BookService.java:83-91 | after a review operation that leaves reviews, the stored rating times the number of stored reviews is the sum of their ratings, and the rating lies within the rating scale |
| BookMutations.NewBook | buyandsellstore/src/main/java/com/buyandsellstore/app/resolver/BookResolver.java:70-71 | an uploaded book has the new id, the given title and seller, an empty review list and rating 0 |
| BookMutations.Overwrite | buyandsellstore/src/main/java/com/buyandsellstore/app/resolver/BookResolver.java:94-100 | an update overwrites exactly title, author, quantity, price, image, description and seller, and keeps id, reviews and rating |
| BookMutations.BookResolver.constructor | buyandsellstore/src/main/java/com/buyandsellstore/app/resolver/BookResolver.java:19-20 | the resolver uses the given book service |
| BookMutations.BookResolver.UploadBook | buyandsellstore/src/main/java/com/buyandsellstore/app/resolver/BookResolver.java:56-74 | a (title, seller) pair held by one stored book gives (false, duplicate message, null), and one held by several fails with the repository's error; either way nothing is saved; otherwise the new book is saved and (true, "Upload successful!", book) is returned; (title, seller) uniqueness is preserved |
| BookMutations.BookResolver.UpdateBook | buyandsellstore/src/main/java/com/buyandsellstore/app/resolver/BookResolver.java:77-104 | an unknown id gives (false, "Book not found.", null) with the store unchanged; otherwise the seven fields are overwritten, the book is saved once and (true, "Book updated successfully.", book) is returned |
| Store.UploadKeepsUnique | buyandsellstore/src/main/java/com/buyandsellstore/app/resolver/BookResolver.java:65-73 | storing a new record (a book here, a home item at HomeItemResolver.java:34-47) whose (title, seller) pair no stored record has keeps the pairs unique |
| BookMutations.UpdateCanBreakUnique | buyandsellstore/src/main/java/com/buyandsellstore/app/resolver/BookResolver.java:93-100 | an update with no duplicate check can give two books the same title and seller |
| HomeItemMutations.NewHomeItem | buyandsellstore/src/main/java/com/buyandsellstore/app/resolver/HomeItemResolver.java:45-46 | an uploaded item has the new id, the given title, manufacturer and seller, and an empty review list |
| HomeItemMutations.Overwrite | buyandsellstore/src/main/java/com/buyandsellstore/app/resolver/HomeItemResolver.java:69-76 | an update overwrites the eight fields, type and seller included, and keeps id and reviews |
| HomeItemMutations.HomeItemResolver.constructor | buyandsellstore/src/main/java/com/buyandsellstore/app/resolver/HomeItemResolver.java:19-20 | the resolver starts with the given items and no saves |
| HomeItemMutations.HomeItemResolver.FindByTitleAndSellerId | buyandsellstore/src/main/java/com/buyandsellstore/app/resolver/HomeItemResolver.java:34 | null iff no stored item has that title and seller; that item iff exactly one has; the repository's error iff several have |
| HomeItemMutations.HomeItemResolver.FindByManufacturer | buyandsellstore/src/main/java/com/buyandsellstore/app/resolver/HomeItemResolver.java:40 | null iff no stored item has that manufacturer; that item iff exactly one has; the repository's error iff several have |
| HomeItemMutations.HomeItemResolver.UploadHomeItem | buyandsellstore/src/main/java/com/buyandsellstore/app/resolver/HomeItemResolver.java:22-48 | the (title, seller) lookup comes first: several matches fail the request, one is refused with the title message; then the manufacturer lookup: several matches fail the request, and its one item is refused with the manufacturer message when it has the same seller; failures and refusals save nothing; otherwise the item is saved with "Upload successful"; (title, seller) uniqueness is preserved |
| HomeItemMutations.HomeItemResolver.UpdateHomeItem | buyandsellstore/src/main/java/com/buyandsellstore/app/resolver/HomeItemResolver.java:50-80 | an unknown id gives (false, "Home item not found.", null) with the store unchanged; otherwise the eight fields are overwritten and the item is saved once |
| Recommendations.WritesDomain | buyandsellstore/src/main/java/com/buyandsellstore/app/service/RecommendationService.java:35-40 | a user appears in the rating matrix only with some rating, and a (user, book) cell exists iff that user reviewed that book |
| Recommendations.LastWriteWins | buyandsellstore/src/main/java/com/buyandsellstore/app/service/RecommendationService.java:35-40 | a user's rating of a book is the one from their last review of it in list order |
| Recommendations.ApplyAppend | buyandsellstore/src/main/java/com/buyandsellstore/app/service/RecommendationService.java:35-40 | writing two batches of reviews is writing the first, then the second |
| Recommendations.PutReviews | buyandsellstore/src/main/java/com/buyandsellstore/app/service/RecommendationService.java:36-39 | one book's reviews are written into the matrix in list order |
| Recommendations.BuildMatrix | buyandsellstore/src/main/java/com/buyandsellstore/app/service/RecommendationService.java:34-40 | the nested loop builds the matrix of all reviews in visiting order |
| Recommendations.Similarities | buyandsellstore/src/main/java/com/buyandsellstore/app/service/RecommendationService.java:55-65 | the table is the user's similarity table: exactly the other users whose similarity with the user is positive, with that similarity; it is empty when the user rated nothing |
| Recommendations.FirstWithId | buyandsellstore/src/main/java/com/buyandsellstore/app/service/RecommendationService.java:131 | `findFirst` by id finds a book with that id iff one exists |
| Recommendations.Resolve | buyandsellstore/src/main/java/com/buyandsellstore/app/service/RecommendationService.java:131-132 | resolving ids to books never lengthens the list |
| Recommendations.ResolveAll | buyandsellstore/src/main/java/com/buyandsellstore/app/service/RecommendationService.java:131-132 | when every id resolves, the books are those ids in order |
| Recommendations.FinalScores | buyandsellstore/src/main/java/com/buyandsellstore/app/service/RecommendationService.java:89-115 | exactly the books neither bought nor rated by the user are scored, each with the score computed from the user's similarity table |
| Recommendations.PurchasedFrom | buyandsellstore/src/main/java/com/buyandsellstore/app/service/RecommendationService.java:25-29 | the purchased ids are the item ids over the user's own orders |
| Recommendations.RecommendBooks | buyandsellstore/src/main/java/com/buyandsellstore/app/service/RecommendationService.java:24-135 | the call fails iff some book has a null review list; a user with no purchases and no ratings gets an empty list; otherwise the result is the first books of a ranking of exactly the candidate books by their score over the user's similarity table in the rating matrix |
| Recommendations.RanksScoresRanksCandidates | buyandsellstore/src/main/java/com/buyandsellstore/app/service/RecommendationService.java:89-130 | ranking the final-score map ranks exactly the candidates by their scores |
| Recommendations.RecommendedIds | buyandsellstore/src/main/java/com/buyandsellstore/app/service/RecommendationService.java:129-134 | the result is the books of the first ranked ids, at most ten |
| Recommendations.RecommendationProperties | buyandsellstore/src/main/java/com/buyandsellstore/app/service/RecommendationService.java:89-134 | at most ten books; none bought or rated by the user; each book once; scores non-increasing |
| BookBrowsing.VisibleProperties | buyandsellstoreweb/src/screens/BooksScreen.jsx:80-86 | the listed books are a subsequence of the catalogue and are exactly the books that pass both filters |
| BookBrowsing.GenreMeaning | buyandsellstoreweb/src/screens/BooksScreen.jsx:36-43 | "All" restricts nothing; any other genre keeps exactly the books of its mapped seller |
| BookBrowsing.SearchIgnoresCase | buyandsellstoreweb/src/screens/BooksScreen.jsx:82-84 | search texts that differ only in letter case list the same books |
| BookBrowsing.EmptySearchMatches | buyandsellstoreweb/src/screens/BooksScreen.jsx:82-84 | an empty search matches every book |
| BookBrowsing.UnfilteredShowsAll | buyandsellstoreweb/src/screens/BooksScreen.jsx:80-86 | "All" with an empty search lists the whole catalogue |
| BookBrowsing.FiltersCompose | buyandsellstoreweb/src/screens/BooksScreen.jsx:85 | the list is the genre result narrowed by the search, and the search result narrowed by the genre |
| BookBrowsing.LongerSearchNarrows | buyandsellstoreweb/src/screens/BooksScreen.jsx:82-84 | extending the search text never brings a book back |
| BookBrowsing.Recommended | buyandsellstoreweb/src/screens/BooksScreen.jsx:63-88 | a guest has no recommendations (the query is skipped); a signed-in user has the answer once it arrives, and the empty list until then |
| BookBrowsing.Carousel | buyandsellstoreweb/src/screens/BooksScreen.jsx:144 | the carousel shows a prefix of the recommendations, at most seven, and all of them when there are at most seven |
| BookBrowsing.BookShelf.constructor | buyandsellstoreweb/src/screens/BooksScreen.jsx:68-70 | the screen starts with no books, genre "All" and an empty search |
| BookBrowsing.BookShelf.Receive | buyandsellstoreweb/src/screens/BooksScreen.jsx:74-78 | fetched books replace the list only when a list arrived and the query is not loading |
| BookBrowsing.BookShelf.SelectGenre | buyandsellstoreweb/src/screens/BooksScreen.jsx:126-135 | the drop-down selects one of the genre names |
| BookBrowsing.BookShelf.Type | buyandsellstoreweb/src/screens/BooksScreen.jsx:123 | the search box holds the typed text |
| RevenueDashboard.AppliedProperties | buyandsellstoreweb/src/screens/Revenue.jsx:47-67 | the filtered list is a subsequence of the fetched list and holds exactly the fetched items that pass every filter that is on: the year only when typed, the dates only when both are picked, and then from the first instant of the start day through the first instant of the end day, both included, as the screen compares them |
| RevenueDashboard.LeadingZeroYearMatchesNothing | buyandsellstoreweb/src/screens/Revenue.jsx:50-55 | the year is compared as text, so a typed year with a leading zero matches no item |
| RevenueDashboard.EndDayDroppedAsWritten | buyandsellstoreweb/src/screens/Revenue.jsx:57-64 | as written, with the same start and end date, an item sold one millisecond into that day is dropped; with the end day counted whole it is kept |
| RevenueDashboard.EndDayKept | buyandsellstoreweb/src/screens/Revenue.jsx:57-64 | with the end day counted whole, every item sold from the start of the start day through the end day is kept |
| RevenueDashboard.CorrectionOnlyAdds | buyandsellstoreweb/src/screens/Revenue.jsx:57-64 | counting the end day whole only adds items: the list as written is a subsequence of the corrected one |
| RevenueDashboard.RevenueSplits | buyandsellstoreweb/src/screens/Revenue.jsx:69-74 | the sold books and sold home items are disjoint; when every item is a "book" or "home" item their revenues add up to the total |
| RevenueDashboard.RevenueNonNegative | buyandsellstoreweb/src/screens/Revenue.jsx:72 | revenue from non-negative prices and quantities is not negative |
| RevenueDashboard.Dashboard.constructor | buyandsellstoreweb/src/screens/Revenue.jsx:31-33 | the dashboard starts with an empty list and empty filters |
| RevenueDashboard.Dashboard.Receive | buyandsellstoreweb/src/screens/Revenue.jsx:41-45 | an answer replaces the list with all fetched items, unfiltered |
| RevenueDashboard.Dashboard.TypeYear | buyandsellstoreweb/src/screens/Revenue.jsx:108 | the year box holds the typed text |
| RevenueDashboard.Dashboard.PickStart | buyandsellstoreweb/src/screens/Revenue.jsx:113 | the start date holds the picked date |
| RevenueDashboard.Dashboard.PickEnd | buyandsellstoreweb/src/screens/Revenue.jsx:118 | the end date holds the picked date |
| RevenueDashboard.Dashboard.ApplyFilters | buyandsellstoreweb/src/screens/Revenue.jsx:47-67 | the list becomes the fetched items that pass the filters that are on, with the date test as written (`createdAt <= end`, the end day's first instant), whatever it held before, so filters never compound and repeating the click changes nothing |
| WishlistView.ImageSrc | buyandsellstoreweb/src/screens/WishlistScreen.jsx:76-79 | an address starting with "http" is returned unchanged; any other becomes a path on "http://localhost:8080": the address itself when it starts with "/", else "/" and the address, so no slash is doubled or missing; the result always starts with "http" and ends with the given address |
| WishlistView.ImageSrcIdempotent | buyandsellstoreweb/src/screens/WishlistScreen.jsx:76-79 | resolving a resolved address changes nothing |
| WishlistView.WishlistScreen.constructor | buyandsellstoreweb/src/screens/WishlistScreen.jsx:41-43 | the screen starts with no items, empty messages and nothing in flight |
| WishlistView.WishlistScreen.Receive | buyandsellstoreweb/src/screens/WishlistScreen.jsx:63-65 | a query answer replaces the items shown |
| WishlistView.WishlistScreen.Remove | buyandsellstoreweb/src/screens/WishlistScreen.jsx:67 | Remove sends a request for the entry's id |
| WishlistView.WishlistScreen.RemoveSettled | buyandsellstoreweb/src/screens/WishlistScreen.jsx:50-56 | on completion the remove message is the server's and the list is refetched once; on error it is "Failed to remove item from wishlist." and nothing is refetched |
| WishlistView.WishlistScreen.AddToCart | buyandsellstoreweb/src/screens/WishlistScreen.jsx:68-73 | a guest gets "Please log in to add items to the cart." and no request; a signed-in user sends a request naming them, the item and its type, and the button is disabled until it settles |
| WishlistView.WishlistScreen.AddSettled | buyandsellstoreweb/src/screens/WishlistScreen.jsx:58-61 | the cart message becomes the server's message, or "Failed to add item to cart." on error, and the button is enabled again |
| WishlistView.GuestNeverRequests | buyandsellstoreweb/src/screens/WishlistScreen.jsx:68-71 | a guest's repeated presses leave the log-in prompt shown and the button enabled |

## Left out

- Rendering, styles, navigation, `alert` and `console` calls, and Apollo's
  query and mutation plumbing. Each remote call is an outcome passed to a
  settle method; an alert is a returned text.
- Dates and clocks.
  - The clock behind the cart timers is explicit.
  - The current date of the expiry check is a parameter.
  - The calendar year of a timestamp and the start of a picked date are
    function parameters.
  - `toLocaleString`, `toFixed` and the `SimpleDateFormat` day keys are not
    modelled.
- Floating point. Prices and revenue are integer cents; ratings, means and
  scores are exact reals. IEEE rounding is not modelled.
- Orders.OrderService.GetSellerStats: the revenue-by-date series, the empty
  trending list and the float arithmetic of the abandonment rate beyond its
  bounds are not stated.
- Orders.OrderService.CreateOrder:
  - the order id and creation time are parameters;
  - `cartService.removeFromCart`, whose body is not part of this model, is
    recorded as a log of cleared users;
  - the caller's item objects, which the source stamps in place, are not
    modelled as shared.
- Orders: `getOrdersByUserId` and `removeOrderByUserId` are plain repository
  calls and are not modelled.
- HomeItemMutations.HomeItemResolver.UploadHomeItem: a lookup with several
  matches is modelled as `LookupFailed`; the exception's type and text, and
  how the GraphQL layer reports it, are not modelled.
- BookMutations.BookResolver.UploadBook: same as UploadHomeItem.
- HomeItemMutations: the home-item review mutations only delegate to a
  service whose bodies are not part of this model.
- Books.BookService.UpdateReview: a review with a null reviewer name makes
  the source throw; the model has no null reviewer names.
- Books.BookService.DeleteReview: same as UpdateReview.
- Recommendations.RecommendBooks:
  - the cosine similarity and the weighted score (average rating, purchase
    count, rating count, collaborative term) are function parameters;
  - the purchase counts, rating sums and rating counts that only feed the
    score are not computed;
  - the similarity table is computed and handed to the score parameter,
    which alone reads it.
- Recommendations.RecommendBooks: a null review list makes the source throw
  in its matrix loop; the model checks for one before building the matrix.
  Ties between equal scores follow the map's iteration order, which is left
  unspecified: the result is stated for some highest-first ranking.
- Ranking: `HashMap` iteration order is not modelled. Rankings are stated
  for every order, and ties are left open.
- Checkout.CheckoutSession.EditCardNumber: the card field's `maxLength` of
  19 characters, which cuts a longer pasted text before the handler sees
  it, is not modelled; the handler is modelled on whatever text it gets.
- Cart.CartCoordinator.Fetched: a refetch that fails, after which the
  screen shows only its error text, is not modelled; the model's refetch
  always lands.
- Text: case folding and the `\D` and `\s` classes cover ASCII only, not
  Unicode.
- SellerStats.jsx, Inventory.jsx and the other screens are presentation
  only and are not modelled.

## Findings

| source | as written | input that shows it | evidently intended | confidence | as-written member | corrected member |
|---|---|---|---|---|---|---|
| buyandsellstoreweb/src/screens/Revenue.jsx:57-64 | the end of the date range is the first instant of the end date, and the test `createdAt <= end` then drops the sales made later that day | start date = end date = one day; an item sold one millisecond after that day begins | the end day counts whole: keep items up to the last instant of the end date | medium, not executed | RevenueDashboard.EndDayDroppedAsWritten | RevenueDashboard.EndDayKept |

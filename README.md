# Green Afreeca storefront — a verified model

This project models the decision logic of the Green Afreeca organic
superfood shop, a React storefront with an Express/Mongoose back end.

The front end covers five parts:
- The shopping cart reducer: an ordered list of lines keyed by product id
  and variant.
- The shipping rule and the cart page. Shipping is free above 30 €,
  otherwise 4.99 €.
- The four-step checkout wizard.
- The product-detail page: catalog lookup, the quantity counter and the
  variant choice.
- The reviews block, the catalog page's URL classifier and category
  filter, and the sign-in page.

The back end covers the authentication middleware, the auth, order and
product controllers, and the user and product schemas.

Conventions:
- Money is integer cents, so 30 € is 3000 and 4.99 € is 499.
- JavaScript's falsy "absent or empty" string is the empty string.
- An optional number or flag is `Option`.
- bcrypt, the JWT signer and verifier, the clock, e-mail validation and
  database lookups are function parameters whose internals are not modelled.

The state the source updates in place is a class:
- `Cart`, `CheckoutPage`, `ProductDetailPage`, `ReviewForm` and `AuthPage`
  for React state.
- `UserDocument` and `ProductStore` for the database side.

Each method is tied to a pure function, and the lemmas sit on those
functions.

Modules: `Wrappers` (Option/Result), `Text` (the string operations the
source relies on: trim, lowercase, includes, split), then one module per
source file.

## Model

| member | source | states |
|---|---|---|
| CartContext.IncreaseQuantity | afreeca-bio-superfoods-main/src/contexts/CartContext.tsx:58-62 | the merge step keeps the length and adds the delta to exactly the lines with the given key, leaving every other line as it was |
| CartContext.SetQuantity | afreeca-bio-superfoods-main/src/contexts/CartContext.tsx:81-87 | setting a quantity keeps the length and changes only the quantity of lines with the given key |
| CartContext.RemoveItems | afreeca-bio-superfoods-main/src/contexts/CartContext.tsx:69-74 | removal leaves no line with the key, keeps every other line, invents nothing, and is the identity when the key is absent |
| CartContext.AddExisting | afreeca-bio-superfoods-main/src/contexts/CartContext.tsx:52-63 | adding a present key raises only that line's quantity by `quantity \|\| 1`, with order and other lines unchanged |
| CartContext.AddNew | afreeca-bio-superfoods-main/src/contexts/CartContext.tsx:65 | adding a new key appends exactly one line, with quantity `quantity \|\| 1` |
| CartContext.AddItem | afreeca-bio-superfoods-main/src/contexts/CartContext.tsx:49-67 | after an add the key is present; a present key keeps the length, a new one adds exactly one line after the old ones |
| CartContext.UpdateItems | afreeca-bio-superfoods-main/src/contexts/CartContext.tsx:76-88 | quantity ≤ 0 leaves no line with the key; otherwise the length is kept; every line with the key has the new quantity |
| CartContext.AddKeepsUniqueKeys | afreeca-bio-superfoods-main/src/contexts/CartContext.tsx:49-67 | add preserves the uniqueness of (id, variant) keys |
| CartContext.RemoveKeepsUniqueKeys | afreeca-bio-superfoods-main/src/contexts/CartContext.tsx:69-74 | remove preserves key uniqueness |
| CartContext.UpdateKeepsUniqueKeys | afreeca-bio-superfoods-main/src/contexts/CartContext.tsx:76-88 | update preserves key uniqueness |
| CartContext.RemoveAt | afreeca-bio-superfoods-main/src/contexts/CartContext.tsx:69-74 | in a cart with unique keys, removing line k's key deletes exactly line k |
| CartContext.UpdatePositive | afreeca-bio-superfoods-main/src/contexts/CartContext.tsx:81-87 | a positive update of line k's key replaces only line k's quantity |
| CartContext.AddKeepsPositive | afreeca-bio-superfoods-main/src/contexts/CartContext.tsx:58-65 | all quantities stay ≥ 1 after add when the requested quantity is absent or non-negative |
| CartContext.UpdateKeepsPositive | afreeca-bio-superfoods-main/src/contexts/CartContext.tsx:77-87 | update never leaves a line with quantity ≤ 0 |
| CartContext.TotalsAppend | afreeca-bio-superfoods-main/src/contexts/CartContext.tsx:95-99 | both totals are additive over concatenation |
| CartContext.TotalsUpdateAt | afreeca-bio-superfoods-main/src/contexts/CartContext.tsx:95-99 | changing one line's quantity shifts the totals by exactly that line's difference |
| CartContext.AddTotalItems | afreeca-bio-superfoods-main/src/contexts/CartContext.tsx:49-67 | every add raises `totalItems` by `quantity \|\| 1` |
| CartContext.AddExistingTotals | afreeca-bio-superfoods-main/src/contexts/CartContext.tsx:52-63 | merging raises `totalPrice` by the existing line's price times the added quantity (the stored price wins) |
| CartContext.MergedTotals | afreeca-bio-superfoods-main/src/contexts/CartContext.tsx:58-62 | a merge at line k changes the totals by line k's share only |
| CartContext.TotalsIncreaseAt | afreeca-bio-superfoods-main/src/contexts/CartContext.tsx:95-99 | raising one line by n raises the item total by n and the price by price × n |
| CartContext.AddNewTotals | afreeca-bio-superfoods-main/src/contexts/CartContext.tsx:65 | appending a new line raises the price total by its price times its quantity |
| CartContext.RemoveTotals | afreeca-bio-superfoods-main/src/contexts/CartContext.tsx:69-74 | removing a line lowers the totals by that line's quantity and amount |
| CartContext.TotalItemsAtLeastLines | afreeca-bio-superfoods-main/src/contexts/CartContext.tsx:95-96 | with positive quantities the badge count is at least the number of lines |
| CartContext.TotalPriceNonNegative | afreeca-bio-superfoods-main/src/contexts/CartContext.tsx:97-99 | with non-negative prices and positive quantities the displayed total is never negative |
| CartContext.Cart.constructor | afreeca-bio-superfoods-main/src/contexts/CartContext.tsx:39-42 | with nothing saved, the cart starts empty and valid |
| CartContext.Cart.AddToCart | afreeca-bio-superfoods-main/src/contexts/CartContext.tsx:49-67 | the new list is the add reducer's result; key uniqueness is kept; the item total grows by the effective quantity |
| CartContext.Cart.RemoveFromCart | afreeca-bio-superfoods-main/src/contexts/CartContext.tsx:69-74 | the new list is the filter result and keys stay unique |
| CartContext.Cart.UpdateQuantity | afreeca-bio-superfoods-main/src/contexts/CartContext.tsx:76-88 | quantity ≤ 0 is exactly removal, otherwise only the matching quantity is set; uniqueness and positivity are kept |
| CartContext.Cart.ClearCart | afreeca-bio-superfoods-main/src/contexts/CartContext.tsx:90-93 | the cart is emptied and both totals are 0 |
| CartPage.Shipping | afreeca-bio-superfoods-main/src/pages/Cart.tsx:27 | shipping is 0 exactly when the subtotal is strictly above 3000 cents, and 499 otherwise |
| CartPage.FreeShippingGap | afreeca-bio-superfoods-main/src/pages/Cart.tsx:181-186 | the hint shows exactly when the subtotal is below 3000 cents, and the amount shown makes up the difference |
| CartPage.Render | afreeca-bio-superfoods-main/src/pages/Cart.tsx:27-186 | an empty cart shows the empty view; otherwise the summary carries the line count and subtotal, the fee of the shipping rule, subtotal + fee, and the free-shipping hint exactly as the gap rule gives it |
| CartPage.ThresholdBehaviour | afreeca-bio-superfoods-main/src/pages/Cart.tsx:181-186 | below, above and exactly at 30 €: at exactly 30 € there is neither free shipping nor a hint |
| CartPage.MinusButton | afreeca-bio-superfoods-main/src/pages/Cart.tsx:110-116 | minus on a line at quantity 1 removes it, otherwise lowers it by one; the item total drops by one |
| CartPage.PlusButton | afreeca-bio-superfoods-main/src/pages/Cart.tsx:127-133 | plus raises only that line by one and the price total by its unit price |
| CartPage.TrashButton | afreeca-bio-superfoods-main/src/pages/Cart.tsx:99 | the trash button removes exactly that line |
| Checkout.NextStep | afreeca-bio-superfoods-main/src/pages/Checkout.tsx:81-110 | refused exactly at step 2 with first name, email or address empty; step 3 pays and confirms; otherwise min(step + 1, 4) |
| Checkout.PrevStep | afreeca-bio-superfoods-main/src/pages/Checkout.tsx:112-114 | back is max(step − 1, 1) |
| Checkout.StepAfterNext | afreeca-bio-superfoods-main/src/pages/Checkout.tsx:81-110 | before step 4 next advances by one unless the delivery form is incomplete at step 2; step 4 stays |
| Checkout.Render | afreeca-bio-superfoods-main/src/pages/Checkout.tsx:58-62 | an empty cart before step 4 shows only the empty view; the summary panel shows exactly when step < 4, with the cart page's fee and hint; the back button only on steps 2 and 3 |
| Checkout.SummaryPanel | afreeca-bio-superfoods-main/src/pages/Checkout.tsx:448-507 | with items, steps 1-3 show the panel; back button exactly after step 1; free shipping strictly above 30 €, the hint strictly below |
| Checkout.ConfirmationShownOnEmptyCart | afreeca-bio-superfoods-main/src/pages/Checkout.tsx:62 | step 4 still renders the wizard after the cart is cleared, with neither the summary panel nor its buttons |
| Checkout.Run | afreeca-bio-superfoods-main/src/pages/Checkout.tsx:81-114 | from a step in 1..4 any sequence of next/back presses stays within 1..4 |
| Checkout.IncompleteFormBlocksPayment | afreeca-bio-superfoods-main/src/pages/Checkout.tsx:82-92 | with an incomplete form no sequence of presses gets past step 2 |
| Checkout.ConfirmationOnlyByPayment | afreeca-bio-superfoods-main/src/pages/Checkout.tsx:93-109 | the only way into step 4 from an earlier step is paying at step 3 |
| Checkout.CheckoutPage.constructor | afreeca-bio-superfoods-main/src/pages/Checkout.tsx:40-50 | the wizard starts at step 1 with the initial form (country France) |
| Checkout.CheckoutPage.EditShippingInfo | afreeca-bio-superfoods-main/src/pages/Checkout.tsx:42-50 | editing the form changes only the form |
| Checkout.CheckoutPage.HandleNextStep | afreeca-bio-superfoods-main/src/pages/Checkout.tsx:81-110 | the step follows `NextStep`; the cart is emptied exactly when payment happens and is untouched otherwise |
| Checkout.CheckoutPage.HandlePrevStep | afreeca-bio-superfoods-main/src/pages/Checkout.tsx:112-114 | the step follows `PrevStep` |
| ProductDetail.CatalogWellFormed | afreeca-bio-superfoods-main/src/pages/ProductDetail.tsx:72-401 | the catalog has the four keys, each entry's id equals its key, and each has exactly two variants with distinct ids |
| ProductDetail.Lookup | afreeca-bio-superfoods-main/src/pages/ProductDetail.tsx:410 | a product is found exactly when the id is present and a catalog key, and it is that entry |
| ProductDetail.Render | afreeca-bio-superfoods-main/src/pages/ProductDetail.tsx:412-428 | a missing or unknown id shows the not-found view; otherwise the detail view shows the catalog entry under that id |
| ProductDetail.CartRequestFor | afreeca-bio-superfoods-main/src/pages/ProductDetail.tsx:432-443 | the cart request carries the product id, the chosen variant's price, dose and id, and the chosen quantity |
| ProductDetail.AddFromDetail | afreeca-bio-superfoods-main/src/pages/ProductDetail.tsx:432-443 | adding raises the item total by the quantity and, for a new line, the price total by the button amount (price × quantity) |
| ProductDetail.ProductDetailPage.constructor | afreeca-bio-superfoods-main/src/pages/ProductDetail.tsx:406-407 | quantity starts at 1 and the selected variant at 0 |
| ProductDetail.ProductDetailPage.IncrementQuantity | afreeca-bio-superfoods-main/src/pages/ProductDetail.tsx:445 | increment adds exactly one |
| ProductDetail.ProductDetailPage.DecrementQuantity | afreeca-bio-superfoods-main/src/pages/ProductDetail.tsx:446 | decrement never goes below 1 |
| ProductDetail.ProductDetailPage.SelectVariant | afreeca-bio-superfoods-main/src/pages/ProductDetail.tsx:492-495 | only an index of the variant list can be selected, so the current variant is always defined |
| ProductDetail.ProductDetailPage.HandleAddToCart | afreeca-bio-superfoods-main/src/pages/ProductDetail.tsx:432-443 | the cart receives the detail page's request and its item total grows by the quantity |
| ProductReviews.SumRatingsBounds | afreeca-bio-superfoods-main/src/components/ProductReviews.tsx:83-84 | with ratings in 1..5 the sum lies between n and 5n |
| ProductReviews.AverageRating | afreeca-bio-superfoods-main/src/components/ProductReviews.tsx:83-84 | no average for an empty list; otherwise average × count is the sum of the ratings |
| ProductReviews.AverageInRange | afreeca-bio-superfoods-main/src/components/ProductReviews.tsx:83-84 | a non-empty list of valid ratings averages within 1..5 |
| ProductReviews.RatingDistribution | afreeca-bio-superfoods-main/src/components/ProductReviews.tsx:86-90 | five rows for stars 5 down to 1, each counting the reviews with that rating |
| ProductReviews.DistributionCoversAll | afreeca-bio-superfoods-main/src/components/ProductReviews.tsx:86-90 | with ratings in 1..5 the counts add up to the number of reviews |
| ProductReviews.CountsPartition | afreeca-bio-superfoods-main/src/components/ProductReviews.tsx:87 | the five per-star counts partition the reviews |
| ProductReviews.DefaultStatistics | afreeca-bio-superfoods-main/src/components/ProductReviews.tsx:39-72 | the demonstration reviews average 4.75 with three five-star and one four-star review |
| ProductReviews.Stars | afreeca-bio-superfoods-main/src/components/ProductReviews.tsx:92-101 | star i is filled exactly when i < rating |
| ProductReviews.StarsFilledCount | afreeca-bio-superfoods-main/src/components/ProductReviews.tsx:92-101 | a rating between 0 and 5 fills exactly that many stars |
| ProductReviews.Round | afreeca-bio-superfoods-main/src/components/ProductReviews.tsx:182 | `Math.round` gives the integer within half a unit, halves rounding up |
| ProductReviews.AverageStars | afreeca-bio-superfoods-main/src/components/ProductReviews.tsx:182 | five stars; none filled without reviews; otherwise star i is filled exactly when i + 0.5 ≤ the average (the stars below `Math.round(average)`); with valid ratings the first is filled |
| ProductReviews.ValidateReview | afreeca-bio-superfoods-main/src/components/ProductReviews.tsx:124-152 | the ladder rating, then trimmed name ≥ 2, then trimmed comment ≥ 10; each rung is pinned, so the first failure wins; accepted exactly when all hold |
| ProductReviews.PaddingDoesNotHelp | afreeca-bio-superfoods-main/src/components/ProductReviews.tsx:136-143 | a name made only of whitespace is refused as too short |
| ProductReviews.AllSpaceTrimsToEmpty | afreeca-bio-superfoods-main/src/components/ProductReviews.tsx:136 | trimming an all-whitespace string gives the empty string |
| ProductReviews.ReviewForm.constructor | afreeca-bio-superfoods-main/src/components/ProductReviews.tsx:75-79 | the form starts closed, unrated and empty |
| ProductReviews.ReviewForm.SetDialogOpen | afreeca-bio-superfoods-main/src/components/ProductReviews.tsx:75 | opening or closing the dialog changes nothing else |
| ProductReviews.ReviewForm.ClickStar | afreeca-bio-superfoods-main/src/components/ProductReviews.tsx:103-122 | clicking star i sets the rating to i + 1, hence within 1..5 |
| ProductReviews.ReviewForm.HoverStar | afreeca-bio-superfoods-main/src/components/ProductReviews.tsx:103-122 | hovering star i lights exactly i + 1 stars; leaving resets the preview and shows the chosen rating |
| ProductReviews.InteractiveStarsShown | afreeca-bio-superfoods-main/src/components/ProductReviews.tsx:113-119 | a hovered rating lights exactly that many stars; with no hover the chosen rating is shown |
| ProductReviews.ReviewForm.EditFields | afreeca-bio-superfoods-main/src/components/ProductReviews.tsx:78-79 | typing changes only name and comment |
| ProductReviews.ReviewForm.HandleSubmitReview | afreeca-bio-superfoods-main/src/components/ProductReviews.tsx:124-165 | a rejected review leaves the form unchanged; an accepted one resets rating, name and comment and closes the dialog |
| ProductsPage.CleanUrl | afreeca-bio-superfoods-main/src/pages/Products.tsx:36-45 | keywords are tried in the order bissap, moringa, ginger/gingembre, baobab/bouille; with no match, the slug or else the id; a keyword URL is a key of the detail catalog |
| ProductsPage.CleanUrlBaobab | afreeca-bio-superfoods-main/src/pages/Products.tsx:37-43 | a text mentioning baobab and none of the earlier keywords links to the baobab page |
| ProductsPage.FilterProducts | afreeca-bio-superfoods-main/src/pages/Products.tsx:47-50 | "all" keeps everything; otherwise it keeps exactly the products whose lowercased category contains the lowercased filter, as an order-preserving subsequence |
| ProductsPage.QuickAddRequest | afreeca-bio-superfoods-main/src/pages/Products.tsx:164-173 | the quick-add payload has no quantity, dose "Standard" and the slug as variant |
| ProductsPage.QuickAddAddsOne | afreeca-bio-superfoods-main/src/pages/Products.tsx:164-173 | each quick add puts exactly one more unit in the cart |
| AuthPage.CheckSignup | afreeca-bio-superfoods-main/src/pages/Auth.tsx:53-69 | a mismatch is reported before the length check; accepted exactly when the passwords agree and have at least 6 characters |
| AuthPage.Completion | afreeca-bio-superfoods-main/src/pages/Auth.tsx:74-121 | every simulated round trip ends loading; only the reset one marks the link as sent |
| AuthPage.AuthPage.constructor | afreeca-bio-superfoods-main/src/pages/Auth.tsx:27-46 | the page starts idle, with the dialog closed and the forms empty |
| AuthPage.AuthPage.EditSignup | afreeca-bio-superfoods-main/src/pages/Auth.tsx:33-40 | editing the sign-up form changes only that form |
| AuthPage.AuthPage.EditLogin | afreeca-bio-superfoods-main/src/pages/Auth.tsx:43-46 | editing the login form changes only that form |
| AuthPage.AuthPage.EditResetEmail | afreeca-bio-superfoods-main/src/pages/Auth.tsx:29 | editing the reset address changes only that address |
| AuthPage.AuthPage.SetForgotPasswordOpen | afreeca-bio-superfoods-main/src/pages/Auth.tsx:28 | opening or closing the dialog changes only its flag |
| AuthPage.AuthPage.HandleSignup | afreeca-bio-superfoods-main/src/pages/Auth.tsx:49-81 | a rejected sign-up shows its error and starts nothing; an accepted one turns loading on and schedules the success callback |
| AuthPage.AuthPage.HandleLogin | afreeca-bio-superfoods-main/src/pages/Auth.tsx:84-96 | login checks nothing and always turns loading on |
| AuthPage.AuthPage.HandleForgotPassword | afreeca-bio-superfoods-main/src/pages/Auth.tsx:99-122 | an empty address is refused with an error and without loading; otherwise loading starts |
| AuthPage.AuthPage.CloseForgotPassword | afreeca-bio-superfoods-main/src/pages/Auth.tsx:124-128 | closing resets the dialog flag, the address and the sent flag |
| AuthPage.AuthPage.FireTimer | afreeca-bio-superfoods-main/src/pages/Auth.tsx:74-121 | the oldest callback fires, clears loading, appends its toast and, for a reset, marks the link as sent |
| AuthMiddleware.ExtractToken | afreeca-bio-superfoods-main/backend/middleware/authMiddleware.js:10-19 | a "Bearer" header gives its second space-separated piece, or nothing, and the cookie is then never read; otherwise the cookie is used |
| AuthMiddleware.BearerShadowsCookie | afreeca-bio-superfoods-main/backend/middleware/authMiddleware.js:10-19 | under a Bearer header the cookie value makes no difference |
| AuthMiddleware.BearerRoundTrip | afreeca-bio-superfoods-main/backend/middleware/authMiddleware.js:10-15 | "Bearer t" yields t for every non-empty token without spaces |
| AuthMiddleware.BareBearerHidesCookie | afreeca-bio-superfoods-main/backend/middleware/authMiddleware.js:10-19 | a header of just "Bearer" yields no token even with a cookie present |
| AuthMiddleware.Protect | afreeca-bio-superfoods-main/backend/middleware/authMiddleware.js:6-45 | no token is a 401 before verification; a failed verification or lookup is a 401; otherwise the request proceeds with the user the lookup found, possibly none |
| AuthMiddleware.Authorize | afreeca-bio-superfoods-main/backend/middleware/authMiddleware.js:49-60 | the request continues exactly when the user's role is allowed; a missing user crashes; otherwise 403 naming the role |
| AuthMiddleware.AdminRoute | afreeca-bio-superfoods-main/backend/middleware/authMiddleware.js:6-60 | the protect-then-authorize("admin") chain reaches the handler exactly for a verified token whose user is an admin |
| AuthMiddleware.ClientIsForbidden | afreeca-bio-superfoods-main/backend/middleware/authMiddleware.js:52-56 | a client's valid token is answered with 403 on the admin route |
| AuthController.CookieOptionsFor | afreeca-bio-superfoods-main/backend/controllers/authController.js:14-24 | the cookie expires now + days × 24 × 60 × 60 × 1000 ms; it is always HTTP-only and secure only in production |
| AuthController.SendToken | afreeca-bio-superfoods-main/backend/controllers/authController.js:9-32 | the same token, signed over the user id, goes in the body and the cookie, with the given status |
| AuthController.Register | afreeca-bio-superfoods-main/backend/controllers/authController.js:37-60 | 201 with a hashed password and role client exactly when the cast user is valid and the email is free; a duplicate email is 400 with its own message; every failure is 400 |
| AuthController.SixCharacterPasswordGap | afreeca-bio-superfoods-main/backend/models/User.js:26-31 | every matching password of 6 or 7 characters passes the sign-up page but is refused by the schema's minimum of 8 |
| AuthController.Login | afreeca-bio-superfoods-main/backend/controllers/authController.js:65-99 | missing credentials are a 400 before any lookup; an unknown email and a wrong password get the identical 401; success is 200 with the stored user |
| AuthController.LoginAfterRegister | afreeca-bio-superfoods-main/backend/controllers/authController.js:37-99 | a user who registered can log in with the same password, given bcrypt accepts a password against its own hash |
| UserModel.CastAddress | afreeca-bio-superfoods-main/backend/models/User.js:39-47 | an address's is_default defaults to false |
| UserModel.Cast | afreeca-bio-superfoods-main/backend/models/User.js:9-47 | names are trimmed, the email is lowercased, the role defaults to client, and addresses are cast in order |
| UserModel.CastIdempotent | afreeca-bio-superfoods-main/backend/models/User.js:9-47 | casting an already cast user changes nothing |
| UserModel.AddressesRoundTrip | afreeca-bio-superfoods-main/backend/models/User.js:39-47 | re-casting cast addresses gives them back |
| UserModel.FirstNameErrors | afreeca-bio-superfoods-main/backend/models/User.js:9-13 | first name is required |
| UserModel.LastNameErrors | afreeca-bio-superfoods-main/backend/models/User.js:14-18 | last name is required |
| UserModel.EmailErrors | afreeca-bio-superfoods-main/backend/models/User.js:19-25 | email is required, then must pass the e-mail validator |
| UserModel.PasswordErrors | afreeca-bio-superfoods-main/backend/models/User.js:26-31 | password is required, then at least 8 characters |
| UserModel.RoleErrors | afreeca-bio-superfoods-main/backend/models/User.js:33-37 | the role must be client or admin |
| UserModel.Validate | afreeca-bio-superfoods-main/backend/models/User.js:7-50 | no error exactly when every schema constraint holds |
| UserModel.AfterSave | afreeca-bio-superfoods-main/backend/models/User.js:58-67 | the hook rehashes only a modified password and changes nothing else |
| UserModel.TokenDependsOnlyOnId | afreeca-bio-superfoods-main/backend/models/User.js:71-75 | the token payload carries the user id only |
| UserModel.MatchAfterSave | afreeca-bio-superfoods-main/backend/models/User.js:80-84 | a newly saved password matches its stored hash; an unmodified one matches as before |
| UserModel.UserDocument.constructor | afreeca-bio-superfoods-main/backend/models/User.js:7-50 | a new document holds the cast input with the password marked modified |
| UserModel.UserDocument.SetPassword | afreeca-bio-superfoods-main/backend/models/User.js:60 | setting the password marks it modified |
| UserModel.UserDocument.Save | afreeca-bio-superfoods-main/backend/models/User.js:58-67 | validation runs on the plain password; on success the hook hashes a modified password once and the document becomes clean |
| OrderController.MapItem | afreeca-bio-superfoods-main/backend/controllers/orderController.js:21-32 | name, quantity and price are copied; the image is the first non-empty of three keys, else the placeholder; the product is id, else product |
| OrderController.MapItems | afreeca-bio-superfoods-main/backend/controllers/orderController.js:21-32 | lines keep their number and order |
| OrderController.BuildOrder | afreeca-bio-superfoods-main/backend/controllers/orderController.js:18-45 | user from the token; zip from zipCode; items price = total = the client's amount; shipping 0; paid; Stripe |
| OrderController.AddOrderItems | afreeca-bio-superfoods-main/backend/controllers/orderController.js:6-58 | missing or empty items is a 400 checked first; otherwise 201 exactly when user, address and the built order are valid, else 500 |
| OrderController.OrdersOf | afreeca-bio-superfoods-main/backend/controllers/orderController.js:63 | every result belongs to the requester, and each of the requester's orders appears exactly as often as it is stored |
| OrderController.Insert | afreeca-bio-superfoods-main/backend/controllers/orderController.js:63-65 | the result holds the old orders plus exactly the inserted one; its head is the new order or the old head |
| OrderController.InsertKeepsNewestFirst | afreeca-bio-superfoods-main/backend/controllers/orderController.js:63-65 | inserting into a newest-first list keeps it newest first |
| OrderController.ConsNewer | afreeca-bio-superfoods-main/backend/controllers/orderController.js:63-65 | an order at least as new as the head of a newest-first list may go in front |
| OrderController.ConsNewestFirst | afreeca-bio-superfoods-main/backend/controllers/orderController.js:63-65 | the old head in front of the insertion into the tail stays newest first |
| OrderController.SortNewestFirst | afreeca-bio-superfoods-main/backend/controllers/orderController.js:63-65 | the sort gives a newest-first permutation |
| OrderController.GetMyOrders | afreeca-bio-superfoods-main/backend/controllers/orderController.js:60-72 | no user (deleted after the token was issued) gives 500; otherwise the requester's orders, each as often as stored, newest first |
| ProductController.Cast | afreeca-bio-superfoods-main/backend/models/Product.js:7-70 | name and category trimmed, slug lowercased, defaults for claim, stock, organic flag and ratings |
| ProductController.RequiredErrors | afreeca-bio-superfoods-main/backend/models/Product.js:7-60 | a required string path fails exactly when empty |
| ProductController.PriceErrors | afreeca-bio-superfoods-main/backend/models/Product.js:33-37 | price is required, then at least 0 |
| ProductController.StockErrors | afreeca-bio-superfoods-main/backend/models/Product.js:38-43 | stock must be at least 0 |
| ProductController.Validate | afreeca-bio-superfoods-main/backend/models/Product.js:4-73 | no error exactly when the product satisfies the schema |
| ProductController.Without | afreeca-bio-superfoods-main/backend/controllers/productController.js:74 | removing an id from the listing drops exactly that id |
| ProductController.WithoutKeepsDistinct | afreeca-bio-superfoods-main/backend/controllers/productController.js:74 | removal keeps the listing free of repeats |
| ProductController.FindById | afreeca-bio-superfoods-main/backend/controllers/productController.js:27-45 | a malformed id is 400, an absent one 404, a present one 200 with that product |
| ProductController.InsertKeepsInvariant | afreeca-bio-superfoods-main/backend/controllers/productController.js:53-59 | storing a valid, non-colliding product keeps ids, uniqueness and validity |
| ProductController.RemoveKeepsInvariant | afreeca-bio-superfoods-main/backend/controllers/productController.js:74-80 | deleting keeps the store invariant |
| ProductController.ProductStore.constructor | afreeca-bio-superfoods-main/backend/controllers/productController.js:10 | the collection starts empty |
| ProductController.ProductStore.GetProducts | afreeca-bio-superfoods-main/backend/controllers/productController.js:7-22 | every stored product is returned once, and count equals the number returned |
| ProductController.ProductStore.GetProductById | afreeca-bio-superfoods-main/backend/controllers/productController.js:27-45 | the handler answers as `FindById` |
| ProductController.ProductStore.CreateProduct | afreeca-bio-superfoods-main/backend/controllers/productController.js:50-68 | validation failure is a 400 listing each failing field; a unique clash is 500; otherwise 201 and the product is stored; failures leave the store unchanged |
| ProductController.ProductStore.DeleteProduct | afreeca-bio-superfoods-main/backend/controllers/productController.js:72-84 | a malformed id is 500 and an absent one 404, both leaving the store unchanged; a present one removes exactly that product, with 200 |
| Text.Trim | afreeca-bio-superfoods-main/src/components/ProductReviews.tsx:136-145 | the trimmed string starts and ends with non-space characters |
| Text.TrimKeepsMiddle | afreeca-bio-superfoods-main/src/components/ProductReviews.tsx:136-145 | the trimmed string is the stretch after the leading whitespace, and only whitespace follows it |
| Text.ToLower | afreeca-bio-superfoods-main/src/pages/Products.tsx:37 | lowercasing keeps the length and maps each character |
| Text.ToLowerIdempotent | afreeca-bio-superfoods-main/src/pages/Products.tsx:49 | lowercasing twice is lowercasing once |
| Text.Split | afreeca-bio-superfoods-main/backend/middleware/authMiddleware.js:14 | split gives at least one piece and no piece holds the separator |
| Text.SplitJoin | afreeca-bio-superfoods-main/backend/middleware/authMiddleware.js:14 | joining the pieces with the separator gives the input back |
| Text.SplitTwo | afreeca-bio-superfoods-main/backend/middleware/authMiddleware.js:14 | two separator-free words joined by one separator split into those two words |

## Left out

- The cart's `localStorage` restore and save, and its JSON round trip, are not modelled.
- Toast timing and the rendering of toasts are not modelled. The sign-in page keeps its toasts as a list.
- The 1.5 s timers are a first-in first-out queue. Their exact timing and a component unmounting before a timer fires are not modelled.
- The step-3 payment delay in the checkout is one atomic transition. The `Date.now()` order number is not modelled.
- Floating-point money, `toFixed` formatting and the 1.8 "old price" multiplier on the catalog page are left out. All amounts are integer cents.
- ProductReviews.AverageRating: the average is an exact rational. The floating-point value and its one-decimal display are not modelled.
- Text.ToLower: lowercasing covers ASCII and Latin-1 capitals only, not full Unicode case mapping.
- Text.Trim: whitespace is ASCII white space, vertical tab, form feed and the no-break space. The other Unicode spaces JavaScript trims are not modelled.
- String lengths count characters, not UTF-16 code units.
- The catalog lookup does not model inherited object keys such as "constructor".
- ProductController.FindById: an id is well formed only in its 24-hex-digit form. Mongoose's 12-byte string form is not modelled.
- OrderController.GetMyOrders: orders with equal `createdAt` come out in one fixed order. The database leaves that order unspecified.
- bcrypt, the JWT signer and verifier, `validator.isEmail`, the unique-index check and the database lookups are parameters. Their internals are not modelled.
- Mongoose's exact error message texts are not modelled. Validation errors are kinds with their paths.
- `deleteProduct` is not wired to any route. It is modelled as a handler of the store.
- The browser's `required`-field checks and the `disabled` state of the submit buttons are not modelled.
- Register's case where `sendTokenResponse` itself throws is not modelled. Login's 500 covers exceptions from the lookup and the comparison.
- The order routes' `protect` step is separate. `AddOrderItems` and `GetMyOrders` take the user it produced, possibly none.

# Tiara Mobile Zone storefront — a Dafny model of its logic

Tiara Mobile Zone is a React storefront for phones and accessories with an Express API server over a
relational store. This project models the parts of it that compute something, and proves what they promise:

- **Catalogue browsing** (`Mobiles`, `Accessories`). The mobiles page filters the fixed catalogue by brand,
  OS, feature and inclusive price ranges. It sorts by price, newest or best-selling and shows six-item pages.
  The accessories page filters by category, brand and stock, pages its list and draws star ratings.
- **Filter panels** (`MobileFilters`, `AccessoriesFilters`). These toggle options in and out of lists and
  set the three-valued "in stock" flag. They clear everything and decide when "Clear all filters" shows.
- **Checkout formatters** (`Checkout`): card-number grouping into blocks of four, and the `MM/YY` expiry field.
- **Admin stock form** (`Admin`). This covers the item-type tab filter and the form's initial state. It also
  covers the spec and image-gallery list edits and the defaults filled in on submit.
- **API server** (`Server`). The class `Api` holds the store as maps with store-assigned ids. Its methods are
  the handlers: stock create/read/update/delete with image normalisation, admin login, sign-up and login
  over an abstract password hasher, and order creation, listing, lookup and status updates.

Shared modules hold the JavaScript built-ins the code relies on: `ListOps` for array `filter`, `slice`,
stable `sort` and toggling; `JsText` for digit stripping, `split`, `parseInt`, `Number`, `trim` and
`slice(-n)`; `Json` for JSON values, truthiness, `||` and `??`; and `Wrappers` for `Option`.

Ratings on the client pages are integer tenths of a star (4.5 is 45). `JSON.parse`, `JSON.stringify`,
`parseFloat`, bcrypt and the clock are parameters of the members that use them.

Two behaviours of the code worth noting:
- the mobiles page counts its pages from the whole catalogue, not from the filtered list;
- an `initialData.images` that is an empty array stays empty in the admin form.

## Model

| member | source | states |
|---|---|---|
| ListOps.Filter | src/pages/Mobiles.tsx:178-199 | the result is no longer than the input, and an element is in it iff it is in the input and satisfies the predicate |
| ListOps.FilterIsSubsequence | src/pages/Mobiles.tsx:178-199 | filtering keeps the input's order and adds nothing |
| ListOps.FilterFilter | src/pages/Mobiles.tsx:178-199 | filtering twice equals filtering once by the conjunction |
| ListOps.PartitionIsPermutation | src/pages/Mobiles.tsx:210 | the items passing a test followed by those failing it are a permutation of the list |
| ListOps.TogglePresentRemovesAll | src/components/MobileFilters.tsx:46-58 | toggling a present item removes every occurrence and keeps every other item's count and order |
| ListOps.ToggleAbsentAppends | src/components/MobileFilters.tsx:59-72 | toggling an absent item appends it at the end |
| ListOps.ToggleTwiceRestores | src/components/MobileFilters.tsx:43-73 | toggling an absent item twice gives back the original list |
| ListOps.Slice | src/pages/Mobiles.tsx:220 | `slice(start, end)` holds the items from `start` up to `end`, clamped to the list's length |
| ListOps.WithoutIndex | src/pages/Admin.tsx:287 | filtering out index `i` removes exactly element `i` when it exists, and nothing otherwise |
| ListOps.CeilDiv | src/pages/Accessories.tsx:173 | `ceil(n / d)` is the least page count whose pages cover `n` items |
| ListOps.InsertSorted | src/pages/Mobiles.tsx:204 | inserting into a list ordered by the key keeps it ordered |
| ListOps.InsertPermutes | src/pages/Mobiles.tsx:204 | inserting adds exactly the one element |
| ListOps.SortBy | src/pages/Mobiles.tsx:204 | the result is ordered by the key and is a permutation of the input |
| ListOps.SortByStable | src/pages/Mobiles.tsx:204 | the sort is stable: the elements sharing a key keep their input order |
| JsText.Digits | src/pages/Checkout.tsx:62 | removing whitespace and non-digits leaves only digits, never more characters than the input |
| JsText.DigitsOfDigits | src/pages/Checkout.tsx:62 | a string of digits is kept unchanged |
| JsText.DigitsConcat | src/pages/Checkout.tsx:62 | stripping a concatenation strips each part, so the digits stay in order |
| JsText.ParseNumber | server/index.ts:43 | `Number(s)`: a digit string gives its decimal value, and a blank string gives 0 |
| JsText.ParseIntOfDigits | src/pages/Mobiles.tsx:195 | `parseInt` of a digit string is its decimal value |
| JsText.SplitPair | src/pages/Mobiles.tsx:195 | splitting `a-b` on `-` gives `[a, b]` when neither side contains `-` |
| JsText.TakeLast | server/index.ts:221 | `slice(-n)` is the last `min(n, length)` characters, a suffix of the input |
| Json.Coalesce | src/pages/Admin.tsx:272-273 | `a ?? b` is `b` exactly when `a` is undefined or null |
| Json.OrElse | server/index.ts:214 | `a || b` is `a` when it is truthy and `b` otherwise |
| Checkout.FormatCardNumber | src/pages/Checkout.tsx:61-76 | the loop pushing four-digit chunks computes the card formatter `FormattedCardNumber` |
| Checkout.JoinedChunksGrouped | src/pages/Checkout.tsx:67-72 | the joined chunks are blocks of four separated by single spaces, the last block holding 1 to 4 digits |
| Checkout.FilterJoinedChunks | src/pages/Checkout.tsx:62-72 | deleting the spaces from the joined chunks gives back the digits |
| Checkout.FormattedCardNumberSpec | src/pages/Checkout.tsx:61-76 | with fewer than 4 digits the input comes back unchanged; otherwise the output is grouped in fours, its non-spaces are the first `min(n, 16)` digits, and it fits the 19-character field |
| Checkout.FormattedCardNumberIdempotent | src/pages/Checkout.tsx:61-76 | formatting a formatted card number changes nothing |
| Checkout.FormatExpiryDate | src/pages/Checkout.tsx:78-84 | fewer than 3 digits come back alone; otherwise two digits, `/`, then one or two more digits, at most 5 characters, and the digits are the first four of the input |
| Checkout.FormatExpiryDateIdempotent | src/pages/Checkout.tsx:78-84 | formatting a formatted expiry date changes nothing |
| MobileFilters.Set | src/components/MobileFilters.tsx:50-71 | replacing one category's list leaves the other three unchanged |
| MobileFilters.UpdateFilter | src/components/MobileFilters.tsx:43-73 | the local and reported states are equal; an absent option is appended; a present one is removed everywhere, other options keep their order and count; other categories are unchanged |
| MobileFilters.ClearAllFilters | src/components/MobileFilters.tsx:76-86 | all four lists are empty, locally and as reported |
| MobileFilters.ShowClearButtonIffSelected | src/components/MobileFilters.tsx:101-104 | the clear button shows iff some list is non-empty, and clearing hides it |
| MobileFilters.UpdateFilterTwiceRestores | src/components/MobileFilters.tsx:43-73 | ticking and unticking an option restores the state |
| Mobiles.FilteredAndSortedProducts | src/pages/Mobiles.tsx:174-218 | the chain of conditional filters, then the chosen sort, computes `Arrange(Filtered(data, filters), sortBy)` |
| Mobiles.FilteredSpec | src/pages/Mobiles.tsx:175-199 | the list is a subsequence of the data holding exactly the items every non-empty category admits; no filters keeps everything |
| Mobiles.ArrangeSpec | src/pages/Mobiles.tsx:201-215 | every order is a permutation; price-low is non-decreasing, price-high non-increasing, best-selling non-increasing in rating × reviews; newest puts new items first, keeping order within each group |
| Mobiles.InRangeSpec | src/pages/Mobiles.tsx:192-198 | a price matches `lo-hi` iff `lo <= price <= hi`, both ends included |
| Mobiles.SharedBoundaryMatchesBoth | src/pages/Mobiles.tsx:194-196 | a price on a shared boundary matches both adjacent ranges |
| Mobiles.PageItemsSpec | src/pages/Mobiles.tsx:170-220 | a page holds at most 6 items, those from `(page-1)*6` on, and is non-empty while it starts inside the list |
| Mobiles.TotalPagesIsTwo | src/pages/Mobiles.tsx:168-169 | the page count comes from the whole nine-phone catalogue: 2 |
| Mobiles.StepSpec | src/pages/Mobiles.tsx:222-232 | a filter or sort change returns to page 1; clearing from the empty state keeps the page; previous and next are clamped to `[1, totalPages]` |
| Mobiles.RunKeepsPageInRange | src/pages/Mobiles.tsx:437-461 | any sequence of clicks keeps the page within `[1, totalPages]` |
| Mobiles.SecondPageCanBeEmpty | src/pages/Mobiles.tsx:169-220 | when at most six phones match, "next" still reaches page 2, which shows nothing |
| Mobiles.LowStockBadgeSpec | src/pages/Mobiles.tsx:353-354 | the low-stock badge shows iff the stock count is present, non-zero and at most 5 |
| AccessoriesFilters.SetList | src/components/AccessoriesFilters.tsx:67-88 | replacing one list leaves the other lists and the stock flag unchanged |
| AccessoriesFilters.InStockValue | src/components/AccessoriesFilters.tsx:45 | `true` maps to true, `false` to false, anything else to null |
| AccessoriesFilters.UpdateFilter | src/components/AccessoriesFilters.tsx:42-89 | local and reported states are equal; the stock branch sets only the flag; a list toggle appends or removes every occurrence and leaves the other lists and the flag unchanged |
| AccessoriesFilters.ClearAllFilters | src/components/AccessoriesFilters.tsx:93-103 | all lists empty and the flag null, locally and as reported |
| AccessoriesFilters.ShowClearButtonIffSelected | src/components/AccessoriesFilters.tsx:118-121 | the clear button shows iff something is selected, and clearing hides it |
| AccessoriesFilters.InStockStaysTrueUntilClear | src/components/AccessoriesFilters.tsx:226 | once "In Stock Only" is clicked the flag stays true through any clicks but "clear all" |
| AccessoriesFilters.UpdateFilterTwiceRestores | src/components/AccessoriesFilters.tsx:61-89 | ticking and unticking an option restores the state |
| Accessories.FilteredSpec | src/pages/Accessories.tsx:153-170 | the list is a subsequence of the data holding exactly the items whose category, brand and stock state match the non-empty filters |
| Accessories.PriceRangesIgnored | src/pages/Accessories.tsx:153-170 | selected price ranges do not change the list |
| Accessories.PageItemsSpec | src/pages/Accessories.tsx:172-176 | a page holds at most 6 items, those from `(page-1)*6` on, and is non-empty iff `page <= ceil(filtered / 6)` |
| Accessories.StepSpec | src/pages/Accessories.tsx:178-181 | a filter change returns to page 1; previous acts only above page 1, next only below `totalPages`; every shown control keeps the page in range |
| Accessories.RunKeepsPageInRange | src/pages/Accessories.tsx:367-404 | clicks on shown controls never take the page out of range |
| Accessories.RenderStars | src/pages/Accessories.tsx:184-203 | `floor(rating)` full stars, one half star iff the fraction is at least .5, then empty stars up to five; a rating between 0 and 5 gives exactly five stars |
| Admin.FilteredItemsSpec | src/pages/Admin.tsx:105 | the table shows exactly the items of the selected type, in their original order |
| Admin.InitialFormData | src/pages/Admin.tsx:226-238 | the initial data's fields override the defaults, which fill in every field it lacks |
| Admin.InitialImages | src/pages/Admin.tsx:241-247 | the initial data's image array, else `[image]` when truthy, else `['']`; empty only for an empty array |
| Admin.InitialSpecs | src/pages/Admin.tsx:250-258 | a non-empty result is a parsed array whose first element is an object |
| Admin.InitialSpecsSpec | src/pages/Admin.tsx:250-258 | the parsed features when they form a non-empty array starting with an object, else `[]` |
| Admin.NoFeaturesGiveNoSpecs | src/pages/Admin.tsx:250-258 | without initial data or with falsy `features` the parser gets `'[]'`, so the specs start empty |
| Admin.AddSpec | src/pages/Admin.tsx:278-284 | with both inputs non-blank, the trimmed pair is appended and both inputs cleared; otherwise nothing changes |
| Admin.RemoveSpec | src/pages/Admin.tsx:286-288 | exactly entry `i` is removed, the others keep their order |
| Admin.RemoveAddedSpec | src/pages/Admin.tsx:278-288 | removing a just-added spec restores the list |
| Admin.AddImage | src/pages/Admin.tsx:400 | "Add Image" appends `''` |
| Admin.RemoveImage | src/pages/Admin.tsx:388-389 | removing index `i` deletes only that entry |
| Admin.EditImage | src/pages/Admin.tsx:375-378 | editing index `i` replaces only entry `i` |
| Admin.GalleryNeverEmptied | src/pages/Admin.tsx:388-400 | with removal disabled at one image, neither add nor remove empties a non-empty gallery |
| Admin.AddThenRemoveImage | src/pages/Admin.test.tsx:39-53 | a new form has one image field; "Add Image" makes two; removing the second leaves one |
| Admin.SubmitData | src/pages/Admin.tsx:265-274 | features serialise the specs; image is `images[0]` or `''`; falsy rating and reviews become 0; nullish stock flag becomes true and stock count 0; other fields unchanged |
| Admin.SubmitDefaults | src/pages/Admin.tsx:226-274 | submitting a fresh form sends an in-stock item with zero rating, reviews and stock count and an empty image |
| Server.NormalisedImagesSpec | server/index.ts:60-71 | `images` always ends up a list: a list is kept; a string becomes what it parses to when that is a list, `[s]` when it does not parse; otherwise `[image]` if `image` is truthy, else `[]` |
| Server.NormaliseImages | server/index.ts:106-117 | the step-by-step reassignment of `images` computes `NormalisedImages` and leaves every other field alone |
| Server.FinalRating | server/index.ts:75-76 | the parsed rating, or 0 when parsing gives NaN |
| Server.CreatedRowSpec | server/index.ts:72-95 | the stored row holds only the picked fields, copied from the body, with the rating replaced by its final value |
| Server.LoginResponse | server/index.ts:182-190 | login succeeds iff the email is registered and the password verifies, answering only id and email; every failure is the same 401 |
| Server.LoginFailuresIndistinguishable | server/index.ts:182-189 | an unknown email and a wrong password get identical answers |
| Server.SignupThenLogin | server/index.ts:167-190 | with a sound hasher, the email and password just signed up log in |
| Server.StockValidAdd | server/index.ts:78-95 | a row added under the next id keeps stock ids bounded by the next id |
| Server.SignupKeepsUsersValid | server/index.ts:163-170 | a user added under the next id keeps user ids unique and bounded |
| Server.BuildAddress | server/index.ts:208-215 | the address copies the body's fields, the country defaulting to "India" when falsy; a missing address throws |
| Server.CardLast4 | server/index.ts:221 | the last `min(4, length)` characters of a string card number; anything else throws |
| Server.BuildPayment | server/index.ts:217-224 | amount equals the order total, status is "pending", the method is copied and the last four digits are kept; it throws without a string card number |
| Server.GatewayPaymentHasNoCard | src/pages/Checkout.tsx:122-127 | the gateway checkout's payment has no card number, so building its payment throws |
| Server.CreateOrderKeepsOrdersValid | server/index.ts:203-230 | an order written with a new address and a new payment keeps every order's address and payment its own |
| Server.WithOrderStatus | server/index.ts:289-297 | only the status changes, and not at all when the status is undefined |
| Server.WithPaymentStatus | server/index.ts:308-312 | only the status changes, and not at all when the status is undefined |
| Server.StatusUpdatesIdempotent | server/index.ts:287-317 | repeating a status update changes nothing further |
| Server.OrdersOf | server/index.ts:248-249 | the scan returns each order of the user exactly once and nothing else |
| Server.SortedNewestFirst | server/index.ts:254-256 | sorting by `createdAt` descending leaves no order before a newer one |
| Server.Api.GetStock | server/index.ts:39-55 | the row for a present id, 404 for an absent one, 500 for an id that is not a number; the store is untouched |
| Server.Api.CreateStock | server/index.ts:58-101 | exactly one row is added under the next id, the normalised and picked fields; 201 with the row |
| Server.Api.UpdateStock | server/index.ts:104-127 | the normalised body is merged into the existing row; a missing row changes nothing and answers 500 |
| Server.Api.DeleteStock | server/index.ts:130-142 | the row is removed and 204 answered; a missing row changes nothing and answers 500 |
| Server.Api.AdminLogin | server/index.ts:145-157 | success iff the username exists and its stored password equals the one given; otherwise 401 |
| Server.Api.Signup | server/index.ts:160-176 | a registered email answers 400 and adds no user; otherwise exactly one user is added with the hashed password, answering 201 with only id and email |
| Server.Api.Login | server/index.ts:179-194 | login over the current user table |
| Server.Api.CreateOrder | server/index.ts:197-237 | one order, one address and one payment are added under the next ids, or nothing at all when building them throws (500) |
| Server.Api.ListOrders | server/index.ts:240-264 | 400 without a user id, 500 when it is not a number, else each of that user's orders exactly once, newest first |
| Server.Api.GetOrder | server/index.ts:267-284 | the order with its own address and payment, 404 when absent |
| Server.Api.UpdateOrderStatus | server/index.ts:287-303 | only that order's status changes and the answer is 200 with the updated order, its address and its payment; a missing order changes nothing and answers 500 |
| Server.Api.UpdatePaymentStatus | server/index.ts:306-318 | only that payment's status changes; a missing payment changes nothing and answers 500 |

## Left out

- Every `fetch`, `localStorage`, toast, dialog and `window.confirm` call, and all rendering: the model computes the data each handler produces.
- The Razorpay order endpoint (server/index.ts:321-334) and the Razorpay SDK: a foreign payment service, with a floating-point amount conversion.
- `GET /api/stock` (server/index.ts:26-36): it returns the table unchanged and has nothing to state beyond that.
- The error middleware, `listen` and the signal handlers (server/index.ts:17-20, 339-359): process lifecycle.
- Prisma's own checks: column types, required fields and unknown keys in a create or update are not validated. For example, a string `userId` from the gateway checkout is accepted. The `details` part of each 500 body is not modelled either.
- Server.Api.AdminLogin: the 500 "Server error" branch is not modelled, since the store lookup cannot fail in the model.
- Server.Api.CreateOrder: `userId` is taken as an integer; the body's value is not converted.
- Server.Api.ListOrders: it returns the ids of the listed orders, not the orders with their address and payment. The orders' JSON is `OrderJson`, as in Server.Api.GetOrder.
- Server.Api.CreateOrder: `createdAt` comes from a clock parameter. An order's status is undefined until set, since the store's column default is not part of this model.
- Server.Api.Signup: bcrypt's salting and cost factor are not modelled. The hasher is a pair of functions, and `SignupThenLogin` assumes only that a password verifies against its own hash.
- JsText.ParseNumber: `Number`'s decimal, exponent, hexadecimal and `Infinity` forms are not modelled; a leading sign is.
- `JSON.parse`, `JSON.stringify` and `parseFloat` are parameters; their internals are not modelled.
- Mobiles.ArrangeSpec: the in-place `result.sort` is modelled on values by a stable insertion sort. Aliasing of the copied array is not captured.
- Ratings on the client pages are integer tenths, so `rating % 1` and `rating * reviews` are exact. Floating-point rounding is not modelled.
- `toFixed`, `toLocaleString` and other display formatting are not modelled.
- JavaScript's `length`, `slice(-4)` and `maxLength` count UTF-16 code units, while the model's strings count characters. JsText.TakeLast and the card and expiry field limits therefore differ for text outside the Basic Multilingual Plane.
- Query strings given as arrays (`?userId=1&userId=2`) are not modelled: the query parameter is an optional string.
- The Next.js API stubs, the seed script, and the presentational pages and components are not part of this model.

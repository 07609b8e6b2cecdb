# A verified model of the food-ordering backend

This project models the business logic of an Express/Drizzle food-ordering
service in Dafny and proves properties of that model. The service is used by
customers and by an admin. Customers register, verify their e-mail with a
one-time code, log in, keep an address book, fill a cart, order menu items
with options, pay through Stripe or cash on delivery, and rate what they
ordered. The admin maintains categories and menu items with their option
groups, moves orders through their statuses, and bans or unbans users.

How the model is laid out:

- One module per service: `Orders`, `Payments`, `Revenue`, `Food`,
  `ShoppingCart`, `Ratings`, `Users`, `Addresses`, `Categories`, `Otps`,
  `Passwords` and `Auth`.
- One module per request schema: `OrderRules`, `CartRules`, `RatingRules`,
  `AddressRules`, `AuthRules`, `FoodRules` and `CategoryRules`. They are
  built on the Joi rules in `Joi`.
- `Schema` holds the tables' row types, enumerations and column defaults.
- The state the services share is one `Tables.Database` object. It holds
  one sequence of rows per table, in insertion order. A `findFirst` query
  takes the first matching row, an `update … where` rewrites every matching
  row, and a `delete … where` keeps the rest.
- The Redis cache is a `Tables.Redis` object holding a map. The mailer is
  a `Tables.Mailer` object holding the list of mails sent.
- Service operations that write are methods on these objects. Their
  contracts give the complete new state and the error cases, with the
  messages the source raises.
- Pure computations are functions: prices, checkout lines, query mappings,
  schema acceptance. Lemmas state the properties that relate them.
- Money is an exact `real`. The payment builder's `Math.round` is round
  half up.
- Things the source gets from outside are parameters:
  - bcrypt hashing and comparison;
  - jsonwebtoken signing and verification;
  - random ids, tokens and draws;
  - the clock;
  - the Stripe gateway;
  - Joi's uuid, e-mail, URI and ISO-date format checks.

## Model

| member | source | states |
|---|---|---|
| Schema.ParseStatus | schemas/index.ts:264-270 | the order_status enum column accepts exactly the five labels, and a label it accepts is read back as the status it names |
| Schema.ParseMethod | schemas/index.ts:272-276 | the payment_method column accepts exactly "cod", "stripe" and "paypal", each read back as its method |
| Schema.ParsePayStatus | schemas/index.ts:278 | the pay_status column accepts exactly "Failed" and "Success" |
| Schema.LabelsRoundTrip | schemas/index.ts:264-278 | for all three enums, parsing a value's label gives back that value |
| Schema.NewUser | schemas/index.ts:18-34 | a users row inserted without role, photo or flags gets the defaults: customer, empty photo URL, e-mail not verified, not locked out |
| Schema.NewFood | schemas/index.ts:72-91 | a new foods row has sold count 0, is active, has rating total and average 0, and a time estimate of 30 unless one is given |
| Schema.NewOrder | schemas/index.ts:280-295 | a new orders row is Pending, not paid (Failed), has totals 0, and copies the address's name, phone and both address fields |
| Schema.DefaultOrderItem | schemas/index.ts:310-326 | an order_items row inserted without them gets the defaults: not rated, options price 0, total 0, empty name and avatar |
| Schema.DefaultPayment | schemas/index.ts:387-404 | a payments row inserted without status or transaction id is Failed with an empty transaction id |
| Revenue.RevenueRows | services/revenue.service.ts:5-19 | one ledger row per order line, in line order; each row's revenue is unit price × quantity, its cost is cost price × quantity and its profit is their difference |
| Revenue.RevenueRowsAppend | services/revenue.service.ts:5-27 | the rows for two lists of lines are the rows for the first list followed by the rows for the second |
| Revenue.OptionsPriceIgnored | services/revenue.service.ts:10-11 | lines that differ only in their option surcharges give the same ledger rows: options never count as revenue |
| Revenue.LedgerTotals | services/revenue.service.ts:10-19 | over an order's rows, total revenue is the lines' value at unit prices and total profit is revenue minus cost |
| Revenue.AddRevenueFromOrder | services/revenue.service.ts:4-28 | inserts each line's row in turn; when an insert fails, the error is returned and only the rows of the earlier lines remain |
| Food.GroupError | services/food.service.ts:104-125 | a group passes every rule exactly when it is well formed: it has options; it is not both required and multiple; a multiple group's free limit is between 1 and its option count; a required group has no free limit. Otherwise the first broken rule's message is reported |
| Food.ValidateOptionGroups | services/food.service.ts:103-127 | accepts exactly the lists in which every group is well formed; otherwise it reports a broken rule of the first bad group, and every group before that one is well formed |
| Food.RequiredMultipleRefused | services/food.service.ts:109-113 | a group with options that is both required and multiple is refused with "Required option group cannot have multiple selections" |
| Food.OptionRowsOf | services/food.service.ts:78-86 | one option row per requested option of the group, each pointing at that group's new row |
| Food.GroupRows | services/food.service.ts:72-76 | one group row per requested group, each pointing at the new menu item |
| Food.CreatedRowsLinked | services/food.service.ts:72-95 | every option row createFood inserts belongs to a group row it inserts for the same menu item |
| Food.CreatedGroups | services/food.service.ts:70-95 | createFood returns one entry per requested group, holding that group with its options |
| Food.CreateFood | services/food.service.ts:48-101 | an unknown category gives "Category not found", and a bad group gives its rule's message; in both cases nothing is written. Otherwise the body's row is appended with the column defaults for keys it leaves out. Then each group row and its option rows are appended under that row's id, and the item is returned with its groups |
| Food.DeclaredBodyGetsDefaults | schemas/index.ts:72-91 | a body that sets only the declared request keys gets the column defaults: a fresh id, no sales, active, no ratings, and 30 minutes when it gives no time estimate |
| Food.BodyColumnsInserted | services/food.service.ts:61 | the raw body is inserted: an id it carries is used as the row's id, and the rating counts stay non-negative exactly when the body sets no negative totalRating |
| Food.InsertGroups | services/food.service.ts:72-95 | appends the group rows and the option rows of every requested group, in request order |
| Food.InsertOptions | services/food.service.ts:78-89 | appends the option rows of one group, in request order |
| Food.LoadFood | services/food.service.ts:141-160 | the item is found exactly when a foods row has its id |
| Food.LoadFoodOrdered | services/food.service.ts:141-156 | the loaded view lists exactly the item's groups, ordered by ascending sequence, and under each group exactly its options, ordered by ascending sequence |
| Food.GetFoodById | services/food.service.ts:129-169 | cache-aside: a cached view is returned unchanged; otherwise the loaded item is stored under "food:<id>" and returned; an unknown item gives "Food item not found" and caches nothing |
| Food.InvalidateFoodCache | services/food.service.ts:171-174 | removes the key "food:<id>" and no other |
| Food.DeleteFood | services/food.service.ts:176-190 | an unknown item gives "Food item not found" and nothing changes. Otherwise the item's cache key is dropped first. When a cart option row that the cascade keeps still names one of the item's option groups or options, the delete is refused with the foreign-key error and every table is unchanged. Otherwise the item's row is deleted, and the cascades also delete its option groups and their options, and the cart lines holding it with their selected options. No other row changes |
| Food.DeleteBlockedMeaning | schemas/index.ts:194-200 | the delete is refused exactly when some cart option row outside the cascade names an option group of the item, or an option of such a group |
| Food.ChangeFoodStatus | services/food.service.ts:534-550 | only the item's active flag changes; the message says "activated" or "deactivated"; an unknown item gives "Food item not found" |
| Food.AddSold | services/food.service.ts:592-597 | the item's rows take the sold count read plus the quantity; every other row is unchanged |
| Food.AddSoldCounts | services/food.service.ts:582-603 | after a sale, the item's sold count is exactly `quantity` higher, and every other item's count is unchanged |
| Food.UpdateSoldCount | services/food.service.ts:582-603 | writes the new sold count and drops the item's cache key; an unknown item gives "Food item not found" and changes nothing |
| Food.RatingState | services/food.service.ts:562-566 | the (average, count) pair after a run of ratings; the count is the number of ratings |
| Food.RunningAverageIsMean | services/food.service.ts:562-566 | starting from the column defaults, the exact running average that calculateRating is evidently meant to keep is the arithmetic mean of all the ratings received |
| Food.CalculateRating | services/food.service.ts:552-580 | an unknown item gives "Food item not found". When the new average (old average × old count + rating) / (new count) is not a whole number, the integer column refuses it: the update fails, and the counters and cache are unchanged. Otherwise the item's rating count grows by exactly one and its average becomes the new average, every count stays non-negative, and the cache key is dropped |
| Food.UploadImage | services/food.service.ts:605-639 | the item's images become the old list followed by the uploaded public URLs, in upload order; the new list is returned and the cache key dropped |
| Food.EditedFood | services/food.service.ts:209-219 | writing the basic fields leaves the id, category, counters, active flag and ratings as they were |
| Food.RemoveStaleExact | services/food.service.ts:255-288 | when the deletes go through, the loaded options and groups that the request no longer names are deleted, with the remaining options of deleted groups; every other row stays |
| Food.RemoveStaleRefused | services/food.service.ts:255-288 | the deletes are refused with the foreign-key error exactly when a cart option row names a stale option, an option of a stale group or a stale group; the groups are then untouched, and a cart row naming a stale option stops the deletes before any of them |
| Food.ApplyGroupsSucceedsIff | services/food.service.ts:290-335 | the group loop runs to the end exactly when every group id in the request is one of the item's loaded groups; otherwise it fails with "Option Group with ID <id> not found" for such an id |
| Food.UpdateOptions | services/food.service.ts:340-363 | applies the option requests in order: an option with an id rewrites that row, and one without is inserted into the group |
| Food.ApplyGroups | services/food.service.ts:290-335 | the group loop's effect on the tables and its outcome are those of the request-order specification |
| Food.UpdateOptionGroups | services/food.service.ts:250-338 | the stale rows are deleted first, and a delete that a cart row still references is refused; then the groups are applied. The cache key is dropped only when the loop completes |
| Food.UpdateMenuItem | services/food.service.ts:191-248 | an unknown item gives "Menu item not found". The basic fields are written before a changed category is checked, so "Category not found" leaves them written. The option groups change only when the request carries groups, as the group update does, including its refusal of deletes a cart row references; the cache changes only when that update completes |
| Food.FoodListParameters | services/food.service.ts:377-486 | page defaults to 0 and limit to 6, and offset is limit × page. A price range is added exactly when both bounds are given. A single category id is wrapped into a list |
| Food.SingleFalseAddsNoActiveFilter | services/food.service.ts:418-426 | a lone boolean false for isActives is falsy, so no active-flag condition is added |
| Orders.FirstUnresolved | services/order.service.ts:144-161 | the position of the first selected option whose group or option cannot be found: every option before it is found, and the one at it is not |
| Orders.ResolveAllFails | services/order.service.ts:144-161 | a line's options resolve exactly when none is missing; otherwise the error is the missing group's or option's message for the first missing choice |
| Orders.ResolveAllPointwise | services/order.service.ts:163-170 | when the options resolve, the k-th snapshot holds the k-th choice's group name, option name and additional price |
| Orders.ResolveAllStops | services/order.service.ts:147-160 | once a choice is missing, the choices after it do not change the outcome |
| Orders.ResolveOptions | services/order.service.ts:141-171 | the option loop: its result is the resolved snapshots (or the first error) and the options price is the sum of their additional prices |
| Orders.ResolveOne | services/order.service.ts:145-170 | one choice looked up: the group first, then the option, with the message of whichever is missing |
| Orders.PriceLine | services/order.service.ts:131-176 | a priced line names the requested item and quantity, carries the resolved snapshots, charges their prices once, and totals menu price × quantity + options price; a missing item gives "Cannot find food with id: …" |
| Orders.PriceOne | services/order.service.ts:131-176 | the pricing of one line equals PriceLine |
| Orders.PriceAll | services/order.service.ts:131-208 | the lines priced so far never outnumber the requested lines, and there is no error exactly when every line is priced |
| Orders.PriceAllLines | services/order.service.ts:131-208 | every priced line is its requested line's PriceLine, in order, and an error is the PriceLine error of the first line not priced |
| Orders.PriceAllStops | services/order.service.ts:131-138 | once a line fails, the lines after it are not priced |
| Orders.PricingIgnoresClientPrice | services/order.service.ts:174-176 | two requests that differ only in the client's unit prices price identically: the menu's selling price is used |
| Orders.OptionsChargedOncePerLine | services/order.service.ts:176 | doubling a line's quantity leaves its options price unchanged and adds exactly one more menu price per unit |
| Orders.ItemRows | services/order.service.ts:179-194 | one order_items row per priced line |
| Orders.SnapshotRowsOf | services/order.service.ts:199-204 | one order_item_options row per selected option of the line |
| Orders.InsertSnapshots | services/order.service.ts:199-204 | the option rows of one line are appended in order under that line's id |
| Orders.WriteLine | services/order.service.ts:179-204 | a line writes its order_items row, then its option rows |
| Orders.InsertLines | services/order.service.ts:128-208 | the line loop: the rows written are those of the lines priced before the first failure, the subtotal is their total, and the error is that failure's |
| Orders.Placed | services/order.service.ts:210-222 | the written order's total is its subtotal plus the fee, with its status and pay status unchanged |
| Orders.WriteTotals | services/order.service.ts:215-222 | the totals are written on the rows with the order's id and no other |
| Orders.WriteTotalsFresh | services/order.service.ts:215-222 | with a fresh order id, only the order just inserted gets the totals |
| Orders.Place | services/order.service.ts:86-229 | after the checks: the order row with its defaults, the lines, and then, only when every line is priced, the totals, one Pending history row and the loaded order; a failing line leaves the order row and earlier lines behind |
| Orders.CreateOrder | services/order.service.ts:68-234 | an unknown email gives "User not found" and an unknown address "Address not found", with nothing written; otherwise as Place |
| Orders.PlacedOrderShape | services/order.service.ts:87-222 | a placed order is Pending and not yet paid, copies the address's name, phone and both address texts, and totals its lines plus the fee, a missing fee counting as 0 |
| Orders.LoadOrder | services/order.service.ts:236-260 | fails with "Cannot find order" exactly when no order has the id; otherwise returns the first order row with that id, its history rows and, in order, the view of each of its lines with that line's options |
| Orders.ViewHidesCost | services/order.service.ts:244-247 | lines that differ only in their cost price give the same view: the cost never reaches the client |
| Orders.SetStatus | services/order.service.ts:43-48 | the new status is written on the rows with the id and no other row changes |
| Orders.WriteStatus | services/order.service.ts:43-53 | the order row gets the status and the history gains one row with it |
| Orders.SoldAll | services/order.service.ts:58-60 | the sales keep the foods table's length and every row's id |
| Orders.SoldAllCounts | services/order.service.ts:58-60 | a delivery adds to each item's sold count exactly the units that the order's lines sell |
| Orders.RepeatedDeliveryCountsTwice | services/order.service.ts:55-61 | a second delivery of the same order counts its units a second time |
| Orders.RecordSales | services/order.service.ts:58-60 | the sales loop leaves the foods table as SoldAll and drops from the cache the key of every item whose count changed |
| Orders.Deliver | services/order.service.ts:55-61 | the ledger rows of the lines written before any failing insert, then the sold counts; no failure reaches the caller |
| Orders.UpdateOrderStatus | services/order.service.ts:28-67 | an unknown order gives "Order not found" and a text that is not a status is refused by the enum column, both with nothing changed; otherwise the status and a history row are written, a delivery also writes the ledger and sold counts, and the loaded order is returned |
| Orders.StatusChangeVisible | services/order.service.ts:28-67 | after a status change, loading the order finds it with the new status and every other column as before, and its history ends with the new row |
| Orders.DeliveredLabelOnly | services/order.service.ts:55 | among the five statuses only Delivered lower-cases to "delivered" |
| Orders.DeliveredTriggerIsExactLabel | services/order.service.ts:46-55 | a status text both passes the enum column and triggers delivery exactly when it is "Delivered" |
| Orders.BackslashKeywordMisread | services/order.service.ts:273-284 | as written, the keyword "\" gives a pattern that matches values ending in "%", not values containing a backslash |
| Orders.UserKeywordPattern | services/order.service.ts:273-284 | the corrected pattern matches the trimmed keyword literally, anywhere in the value |
| Orders.KeywordWithoutBackslashIsLiteral | services/order.service.ts:273-284 | for a keyword with no backslash the pattern as written is the corrected one and matches the trimmed keyword literally, anywhere in the value |
| Orders.UserOrderQueryShape | services/order.service.ts:262-310 | the user's listing always filters by owner, adds no status condition for "All" or no status, defaults to page 0 of 3, and offsets by page × limit |
| Orders.AdminOrderQueryDates | services/order.service.ts:377-396 | the admin listing always ends with exactly one date condition: the range from the given dates when both are given and non-empty, the last 60 days otherwise |
| Orders.AdminOrderQueryDefaults | services/order.service.ts:398-425 | the admin listing defaults to page 0 of 10, newest first, and offsets by page × limit |
| Payments.Round | services/payment.service.ts:57 | Math.round: the nearest integer, within half a unit |
| Payments.Cents | services/payment.service.ts:57 | an amount in dollars as the whole number of cents nearest to it |
| Payments.UnitOptionsPrice | services/payment.service.ts:52-53 | for a line with units, the per-unit surcharge times the quantity gives back the line's options price; a line without units gets none |
| Payments.OptionsDescription | services/payment.service.ts:109-119 | empty exactly when the line has no options; otherwise "Options: " followed by the option names joined with ", " |
| Payments.ItemLines | services/payment.service.ts:51-67 | one checkout line per order line, in order |
| Payments.CheckoutLinesShape | services/payment.service.ts:51-80 | the checkout has each order line's name, quantity and per-unit amount in cents, then one "Shipping Fee" line of quantity 1 exactly when the fee is positive |
| Payments.ItemLineChargesLineTotal | services/payment.service.ts:52-57 | for a line priced as unit price × quantity + options, the per-unit amount is the line total over its quantity in cents, so the surcharge is paid once in all |
| Payments.Setting | services/payment.service.ts:13-18 | a set, non-empty variable is used; an unset or empty one falls back to the local default |
| Payments.SessionFor | services/payment.service.ts:82-94 | the session refers to the order and the customer's email, both directly and in its metadata, carries the checkout lines, and is a one-off payment |
| Payments.InitPaymentRow | services/payment.service.ts:38-44 | the pending payment row carries the session id, the amount, the order and its customer, method stripe and status Failed |
| Payments.CreateInitPayment | services/payment.service.ts:21-45 | fails with "Order not found" exactly when the order is unknown, writing nothing; otherwise appends one pending payment row |
| Payments.CreatePayment | services/payment.service.ts:47-107 | the session request is built from the order's checkout lines; a gateway failure or an unknown order writes nothing and is reported; otherwise the payment row is written and the session's URL returned |
| ShoppingCart.InvalidOptions | services/shoppingCart.service.ts:64-67 | the requested option ids that name no option: an id is listed exactly when it was requested and is unknown |
| ShoppingCart.ChoiceError | services/shoppingCart.service.ts:60-78 | a group choice is accepted exactly when its group is known, each of its option ids is known and it names at least one option; an empty option list of a known group fails like the insert of no rows |
| ShoppingCart.ChoiceRowsOf | services/shoppingCart.service.ts:72-76 | one option row per chosen id, pointing at the new cart item, the group and that option, in order |
| ShoppingCart.WriteChoicesAccepts | services/shoppingCart.service.ts:50-79 | every choice is written exactly when every choice is accepted: known group, known options and at least one option |
| ShoppingCart.WriteChoicesValid | services/shoppingCart.service.ts:50-79 | every option row written belongs to the new item and names an existing group and an existing option |
| ShoppingCart.WriteChoicesStops | services/shoppingCart.service.ts:60-70 | a refused choice ends the loop: the rows written are those of the choices before it, and its error is reported |
| ShoppingCart.InsertChoices | services/shoppingCart.service.ts:50-79 | the choice loop appends exactly the rows of the accepted choices before the first refused one, and reports that choice's error |
| ShoppingCart.AddToCart | services/shoppingCart.service.ts:10-82 | an unknown email gives "User not found" with nothing written; otherwise the user's cart is created when missing, an unknown item gives "Food item not found", and a known item's row is written before its choices, so a refused choice (an unknown group or option, or an empty option list) leaves the item row and the earlier choices' rows written |
| ShoppingCart.SetQuantity | services/shoppingCart.service.ts:84-89 | every item with the id gets the new quantity and nothing else in the table changes |
| ShoppingCart.UpdateQuantity | services/shoppingCart.service.ts:84-96 | the quantity is written; the result is the updated item, or "Item not found in cart" exactly when no item has the id |
| ShoppingCart.WithoutItem | services/shoppingCart.service.ts:99-101 | exactly the items whose id differs are kept |
| ShoppingCart.WithoutOptionsOf | services/shoppingCart.service.ts:103-105 | exactly the option rows of other items are kept |
| ShoppingCart.RemoveItem | services/shoppingCart.service.ts:98-108 | deletes the item and its option rows and always reports success, even for an unknown id |
| ShoppingCart.MissingOptionsCostNothing | services/shoppingCart.service.ts:145-148 | an option row whose option is gone adds nothing: the options price is the sum over the options that still exist |
| ShoppingCart.IndexOfGroup | services/shoppingCart.service.ts:155-162 | the position of the first group with the id, or the length when there is none |
| ShoppingCart.GroupedHolds | services/shoppingCart.service.ts:151-173 | a group of the view holds exactly the chosen options of that group, in order, and a group is absent exactly when none of its options was chosen |
| ShoppingCart.GroupedExact | services/shoppingCart.service.ts:151-173 | the grouped view has distinct group ids, no empty group, and each group lists exactly its chosen options in their original order |
| ShoppingCart.GroupOptions | services/shoppingCart.service.ts:151-173 | the grouping loop produces the grouped view |
| ShoppingCart.LineOf | services/shoppingCart.service.ts:120-184 | a line shows its own menu item without the cost price; its base price is the selling price, its options price the options' sum, and its subtotal base × quantity + options |
| ShoppingCart.MenuItemHidesCost | services/shoppingCart.service.ts:123-127 | the menu item a cart line shows does not depend on the item's cost price |
| ShoppingCart.ItemsOfCart | services/shoppingCart.service.ts:118-137 | exactly the items of the cart |
| ShoppingCart.CartView | services/shoppingCart.service.ts:109-185 | fails with "User not found" exactly when the email is unknown |
| ShoppingCart.CartViewLines | services/shoppingCart.service.ts:139-184 | the view is empty exactly when there is no cart or it has no items. Otherwise it has one line per item of the cart, in order. Each line shows its item's row from the foods table without the cost price, is priced at that row's selling price × quantity + the options' sum, and groups its options |
| ShoppingCart.LinesOfPriced | services/shoppingCart.service.ts:143-184 | every line shows its own item's foods row without the cost price, takes that row's selling price as its base price, and is priced and grouped from its own options |
| ShoppingCart.ItemLine | services/shoppingCart.service.ts:143-184 | one line of the view, computed with the grouping loop |
| ShoppingCart.CartLines | services/shoppingCart.service.ts:143-184 | the lines of the cart's items, one at a time, equal the view's lines |
| ShoppingCart.GetCart | services/shoppingCart.service.ts:109-185 | the cart view: "User not found" exactly for an unknown email, otherwise one priced, grouped line per item of the user's cart, each showing its menu item without the cost price |
| Ratings.RatedOptionNames | services/rating.service.ts:32-46 | the option names of the rated order line, in table order; none when the line does not exist |
| Ratings.NewRating | services/rating.service.ts:39-49 | the row carries the author, the menu item, the stars, the text, the images and the option names of the request |
| Ratings.MarkRated | services/rating.service.ts:51-54 | the order lines with the id are marked as rated and nothing else changes |
| Ratings.RatedFoods | services/rating.service.ts:56 | the table keeps its length, and it is left exactly as it was when the new average is not a whole number |
| Ratings.RatedFoodsKeepsWhole | schemas/index.ts:84 | when every stored average is a whole number, it still is after a rating |
| Ratings.RecordRating | services/rating.service.ts:39-56 | the rating row is appended and the order line marked in every case. When the new average is a whole number, the item's count and average take the rating in and the cache loses the key "food:<id>" and nothing else; otherwise the foods table and the cache are unchanged |
| Ratings.CreateRating | services/rating.service.ts:14-62 | an unknown author gives "User not found", then an unknown item "Menu item not found", neither writing anything nor touching the cache. Otherwise the row is stored and returned, and the line is marked rated. The item's count and average, and its cache key "food:<id>", change only when the new average is a whole number, because the un-awaited update is refused otherwise |
| Ratings.Statis | services/rating.service.ts:64-81 | "Food not found" exactly when the item is unknown |
| Ratings.StatisAfterRating | services/rating.service.ts:56-77 | after a rating whose new average is whole, the item's summary counts one rating more and its average is the running average with the new stars; otherwise the summary is unchanged |
| Ratings.SecondRatingLost | services/food.service.ts:564-574 | an unrated item rated 4 then 5 keeps one rating averaging 4: the second average, 4.5, is refused, while the mean of the two ratings is 4.5 |
| Ratings.StarFilter | services/rating.service.ts:89-106 | a filter "N_STAR" with N from 1 to 5 selects exactly N stars |
| Ratings.FilterWanted | services/rating.service.ts:89-117 | the filter's conditions hold of a review exactly when it has what the filter text asks for: N stars for "N_STAR", an image for "HAS_IMAGES", nothing otherwise |
| Ratings.ReviewFilterMeaning | services/rating.service.ts:85-117 | a review is listed exactly when it belongs to the item and has what the filter asks for |
| Ratings.ReviewsShape | services/rating.service.ts:119-168 | a page holds at most `limit` reviews, all of them matching, in the requested creation order, and the count is that of every matching review |
| Users.LookupAfterEdit | services/user.service.ts:39-43 | after an edit that keeps ids, the edited user is found edited and every other user is found as before |
| Users.PasswordTakesEffect | services/user.service.ts:37-43 | after a password change the user has the new hash and every other user is unchanged |
| Users.ChangePassword | services/user.service.ts:19-55 | an unknown user gives "User not found" and a wrong old password "Old password is incorrect", neither writing anything; otherwise the new hash is stored |
| Users.GetUserById | services/user.service.ts:84-104 | "User not found" exactly when no user has the id; otherwise a profile of that user without role, password, verification flag or creation time |
| Users.ChangePhotoUrl | services/user.service.ts:57-83 | an unknown user gives "User not found" with nothing written; otherwise the URL is stored and returned |
| Users.ProfileAfterPhoto | services/user.service.ts:57-104 | after a photo change the user's profile shows the new photo and is otherwise the same, and every other profile is unchanged |
| Users.PatchAll | services/user.service.ts:116-120 | as written, every column in the body is written, and the id and creation time stay |
| Users.PatchAllEscalates | services/user.service.ts:106-129 | as written, a banned customer whose body adds role admin and lockoutEnd false becomes an administrator and is no longer banned |
| Users.PatchInformation | services/user.service.ts:106-129 | the corrected change writes the name, gender and date of birth that are present, and nothing else |
| Users.PatchInformationKeepsPrivileges | services/user.service.ts:106-129 | the corrected change never alters role, e-mail, password, photo, verification or ban, and it agrees with the code for a body of the declared fields only |
| Users.ChangeInformation | services/user.service.ts:106-129 | an unknown user gives "User not found"; a body naming no column gives "No values to set"; otherwise every column the body names is written, as the source does, and the updated row, password hash included, is returned |
| Users.LockoutTakesEffect | services/user.service.ts:263-319 | banning sets the lockout flag and unbanning clears it, with nothing else changing and every other user found as before |
| Users.LockoutLastWins | services/user.service.ts:263-319 | of two bans or unbans of the same user, the last one decides |
| Users.SetBanned | services/user.service.ts:263-319 | an unknown user gives "User not found" with nothing written; otherwise the flag is set and the ban or unban message returned |
| Users.DeletionLeavesNoOrphans | services/user.service.ts:236-262 | after a deletion the user is gone, every other user is found as before, and no cart, cart item, cart option or rating of the user remains |
| Users.DeleteUser | services/user.service.ts:236-262 | an unknown user gives "User not found"; a user still referenced by an address, an OTP row or a payment cannot be deleted; otherwise the user goes with their carts, items, options and ratings |
| Users.SearchMeaning | services/user.service.ts:137-147 | the escaped search pattern matches a user exactly when the name or the e-mail contains the term literally |
| Users.UserFilterMeaning | services/user.service.ts:133-171 | the query's conditions admit exactly the non-admin users whose name or e-mail contains the trimmed term and whose flags are among those requested |
| Users.UserQueryErrors | services/user.service.ts:198-207 | the request fails with the page message when the page after its default is negative, then with the limit message when the limit after its default is outside 1..100; otherwise the paging is page, limit and page × limit |
| Users.UserOrderTotal | services/user.service.ts:173-196 | every sort key orders users totally |
| Users.PageRowsShape | services/user.service.ts:209-217 | a page holds at most `limit` (so at most 100) users, each one the request asks for, in the requested order |
| Users.AllUsersShape | services/user.service.ts:209-229 | the page lists its rows without their passwords, never an administrator, and counts every user the request asks for |
| Addresses.NewAddress | services/address.service.ts:16-19 | the new row carries the request's four fields and the owner's id, and is not the default |
| Addresses.CreateAddress | services/address.service.ts:6-25 | an unknown e-mail gives "User not found" with nothing written; otherwise the new address, owned by that user, is appended and returned |
| Addresses.EditKeepsOwnerAndFlag | services/address.service.ts:29-33 | an edit writes the four fields of the address with the id and changes nothing else: not its owner, not its default flag, not another row |
| Addresses.UpdateAddress | services/address.service.ts:27-43 | "Address not found" when no row has the id, with nothing written; otherwise the edited row is returned |
| Addresses.AllAddressesExact | services/address.service.ts:45-58 | the list shows every address of the user, without its owner column, and nothing else |
| Addresses.ClearingKeepsIds | services/address.service.ts:62-65 | clearing the defaults keeps every id, so the target is found afterwards exactly when it was found before |
| Addresses.MarkedFound | services/address.service.ts:67-71 | the marked target is found and is a default address |
| Addresses.SetDefaultAddress | services/address.service.ts:60-81 | as written: every default in the table is cleared, whoever owns it, then the target is marked and returned; an unknown id fails after the defaults are gone |
| Addresses.OnlyTargetIsDefault | services/address.service.ts:60-81 | afterwards the target's rows are the only default addresses in the whole table, and rows differ from before only in that flag |
| Addresses.OthersLoseDefault | services/address.service.ts:62-65 | choosing one user's default address takes away every other user's default |
| Addresses.SecondUserLosesDefault | services/address.service.ts:62-65 | with two users who each have a default, the first choosing an address leaves the second without one |
| Addresses.SetOwnDefaultAddress | services/address.service.ts:60-81 | corrected: an unknown id changes nothing; otherwise only the owner's addresses change and the target becomes their default |
| Addresses.OwnDefaultKeepsOthers | services/address.service.ts:60-81 | corrected: every other user keeps or lacks a default as before, and the owner's only default is the target |
| Addresses.DeleteAddress | services/address.service.ts:83-95 | the rows with the id are removed and the call succeeds, even for an unknown id, since its not-found branch can never be taken |
| Categories.DuplicateName | services/category.service.ts:12-14 | corrected: the duplicate-name message has the intended length and carries the category's name at its place |
| Categories.AsWrittenLosesName | services/category.service.ts:13-69 | as written the duplicate-name message of both adding and renaming is the same for every name and differs from the intended message, because the template names an undefined variable |
| Categories.DuplicateNameInjective | services/category.service.ts:13 | corrected: two names give the same message only when they are equal |
| Categories.ByNameDescSorted | services/category.service.ts:38-40 | the listed categories are ordered by name from Z to A and are the table's rows, each as often as it occurs |
| Categories.InvalidateCache | services/category.service.ts:52-59 | a reachable cache loses the key "categories" and nothing else; an unreachable one is unchanged and no error escapes |
| Categories.GetAllCategories | services/category.service.ts:29-50 | a cached list is returned as is; otherwise the sorted table is returned and cached; a coherent cache gives the sorted table and stays coherent |
| Categories.AddCategory | services/category.service.ts:6-27 | a name already present is refused with the error the code as written raises, and nothing changes; otherwise the row is appended and returned, names stay unique and the cache stays coherent |
| Categories.RenameKeepsNamesUnique | services/category.service.ts:63-76 | renaming to a name that no other category holds keeps all names unique |
| Categories.UpdateCategory | services/category.service.ts:61-84 | a name held by another category is refused with the error the code as written raises, and nothing changes; otherwise the row is rewritten and returned, nothing comes back for an unknown id, and the cache stays coherent |
| Categories.RenameFinds | services/category.service.ts:72-80 | after a rename the row is found exactly when it was found before, and it holds the new name and image |
| Categories.DeleteCategory | services/category.service.ts:86-107 | an unknown id is refused; a category still used by a menu item is refused by the database; otherwise the row is removed and returned and the cache stays coherent |
| Otps.DigitOf | services/otp.service.ts:50 | one draw in [0, 1) picks a decimal digit |
| Otps.CodeOf | services/otp.service.ts:49-51 | the draws spell a code of one decimal digit per draw |
| Otps.GenerateOtp | services/otp.service.ts:46-53 | the code has `length` characters (none for a length below one), all decimal digits, each picked by the matching draw |
| Otps.DefaultCodeSixDigits | services/otp.service.ts:46 | the default code has six decimal digits |
| Otps.IssuedRow | services/otp.service.ts:62-77 | the stored row holds the token and the user and expires three minutes after sending |
| Otps.SentCodePasses | services/otp.service.ts:18-28 | the code that was sent is accepted up to three minutes after sending and is reported expired after that |
| Otps.WrongCodeRefusedFirst | services/otp.service.ts:18-21 | a code whose salted hash does not match is refused as "Invalid OTP", whether or not the row has expired |
| Otps.CheckPassesOnlyIfValid | services/otp.service.ts:9-28 | a check passes exactly when the token's row exists, holds the code's salted hash and has not expired |
| Otps.ClearThenReplace | services/otp.service.ts:57-59 | deleting the user's rows before the replacement changes nothing further |
| Otps.ReplacedLeavesOne | services/otp.service.ts:57-77 | after sending, the user has exactly the new row and every other user's rows are kept |
| Otps.SendVerificationEmail | services/otp.service.ts:55-90 | the user's rows are replaced by one holding the salted hash of a six-digit code and expiring three minutes from now; the code is mailed with the subject and template; token and expiry are returned |
| Otps.VerifiedFound | services/otp.service.ts:31-35 | after marking, the user is found exactly when they existed, and is verified |
| Otps.VerifyOtp | services/otp.service.ts:7-45 | a missing token gives "Invalid token" and a wrong code "Invalid OTP", both with nothing changed; an expired row is deleted before "OTP has expired"; otherwise the row is deleted and the user is returned verified, or "User not found" |
| Passwords.ResetCodeSixDigits | services/password.service.ts:23 | a code drawn from [100000, 999999) is written as six decimal digits that read back as the code |
| Passwords.SendResetCode | services/password.service.ts:8-47 | an unregistered e-mail gives "Your email is not registered" with nothing changed; otherwise the user's rows are replaced by one with the code's salted hash that expires in three minutes, the code is mailed and the token returned |
| Passwords.RotationRetiresToken | services/password.service.ts:72-81 | after a rotation the old token finds nothing and the fresh one finds the rotated row with its new expiry |
| Passwords.VerifyResetCode | services/password.service.ts:49-89 | a missing token, a wrong code and an expired row are refused in that order with nothing changed; a valid code gives the row a fresh token and three more minutes, and the fresh token is returned |
| Passwords.ResetTokenSingleUse | services/password.service.ts:120-122 | once its row is deleted, the token finds nothing, so one token allows one reset |
| Passwords.ResetPassword | services/password.service.ts:91-130 | an unknown token, an expired row and a missing user are refused in that order with nothing changed; otherwise the user's password hash is replaced and the token's row deleted |
| Auth.KeysApart | services/auth.service.ts:28 | a session key "rt:…" never collides with a revocation key "bl:jti:…" |
| Auth.RevokedKeyInjective | services/auth.service.ts:139 | each token id has its own revocation key |
| Auth.Verified | services/auth.service.ts:164-167 | a refresh token is accepted exactly when its signature checks and its expiry is still ahead, and then yields its claims |
| Auth.IssueTokens | services/auth.service.ts:13-35 | the session holds the user and both signed tokens, and "rt:<user>:<jti>" is recorded as valid for one day |
| Auth.LoginGateMeaning | services/auth.service.ts:46-64 | a session is granted exactly to an unlocked, verified user whose password matches; an unlocked, unverified user with the right password is mailed a code instead |
| Auth.LockedRevealsNothing | services/auth.service.ts:50-52 | a locked account gets the same refusal whatever password is tried |
| Auth.BannedCannotLogIn | services/auth.service.ts:50-52 | once a user is banned, logging in with their e-mail is refused as locked |
| Auth.Login | services/auth.service.ts:37-68 | refusals change nothing; an unverified user's codes are replaced by a fresh one that is mailed; an admitted user gets a session recorded in the cache, whose tokens sign the user's id, email and role |
| Auth.TokensIgnoreHiddenColumns | services/auth.service.ts:13-27 | both tokens sign only the user's id, email and role, so reading the row without createdAt signs the same tokens as a full read |
| Auth.FirstAddress | services/auth.service.ts:105-112 | the address created with the account belongs to the user, is the default one and has an empty specific address |
| Auth.RegisterKeepsEmailsUnique | services/auth.service.ts:82-100 | registering an e-mail no user holds keeps e-mail addresses unique |
| Auth.NewUserHasOneDefault | services/auth.service.ts:105-112 | a fresh user owns exactly one address, the default one |
| Auth.Register | services/auth.service.ts:70-118 | a used e-mail is refused with nothing changed; otherwise an unverified, unlocked customer with the hashed password and its default address is inserted, a code is mailed, and e-mails stay unique |
| Auth.Logout | services/auth.service.ts:120-156 | no token logs out without change; a token that does not verify is refused; a verified token with an id drops its session and is revoked for the seconds it has left |
| Auth.LogoutRevokesUntilExpiry | services/auth.service.ts:131-143 | after logout the token id is revoked with its remaining lifetime and its session key is gone |
| Auth.RefreshMeaning | services/auth.service.ts:158-199 | a refresh succeeds exactly for a present, live token with an id that is not revoked and whose user exists, and answers with that user's access token |
| Auth.LogoutRevokes | services/auth.service.ts:120-199 | a refresh token that was logged out is refused at every later time |
| Auth.RefreshIgnoresSessions | services/auth.service.ts:158-199 | dropping a recorded session changes no refresh answer, because refreshing never reads the session keys |
| Auth.VerifyAccount | services/auth.service.ts:201-211 | the code is checked as in verifying an OTP, and the OTP rows change as there: an expired code's token rows are deleted, any other refusal keeps them; a verified user gets a session recorded in the cache, and a refused code records no session |
| Auth.ResendOtp | services/auth.service.ts:213-235 | an unknown e-mail gives "User not found" with nothing changed; otherwise the user's codes are replaced by a fresh one that is mailed |
| Text.TrimProperties | services/user.service.ts:138-139 | JavaScript's trim, over the ECMAScript white space and line terminators, gives a piece of the text with no space at either end, and trimming twice is trimming once |
| Text.EscapedIsLiteral | services/user.service.ts:138-140 | after a backslash goes in front of each `%`, `_` and `\`, the LIKE pattern reads as the literal characters of the text |
| Text.ContainsPatternIsLiteral | services/user.service.ts:141-145 | the pattern `%<escaped text>%` reads as any run, the literal text, then any run |
| Text.ContainsMatch | services/user.service.ts:141-145 | that pattern matches a value exactly when the text occurs somewhere in the value |
| Text.LexLeTotal | services/category.service.ts:39 | any two names are ordered one way or the other |
| Text.LexLeTransitive | services/category.service.ts:39 | the name order is transitive |
| Text.LexLeAntisymmetric | services/category.service.ts:39 | two names that are ordered both ways are equal |
| Text.DecimalRoundTrip | services/password.service.ts:23 | the decimal text of a number reads back as that number |
| Joi.DigitRunMeaning | validation/address.ts:7 | the pattern /^[0-9]{n}$/ accepts exactly the strings of n decimal digits |
| AddressRules.AcceptedAddressFits | validation/address.ts:3-13 | an accepted body carries a ten-digit phone number and names and addresses within the schema's lengths, and the address created from it fits the table's columns |
| AddressRules.AcceptedEditFits | validation/address.ts:3-13 | updating an address from an accepted body keeps every row within the table's column widths |
| AddressRules.PhoneRefusals | validation/address.ts:6-11 | nine digits, a letter among ten characters, or a number with dashes is refused |
| AuthRules.AcceptedRegistrationFits | validation/auth.ts:3-19 | an accepted registration creates a user and a default address that fit their tables, and the address carries the user's name |
| AuthRules.RegisteredPasswordLogsIn | validation/auth.ts:21-24 | the e-mail and password of an accepted registration pass the login schema |
| AuthRules.ChangedPasswordLogsIn | validation/auth.ts:26-47 | a new password from an accepted change passes the login schema and differs from the old one |
| AuthRules.MismatchesRefused | validation/auth.ts:14-16 | a registration whose confirmation differs from the password is refused; so is a change that reuses the old password or whose confirmation differs from the new password |
| CartRules.CartRequestOf | validation/cart.ts:3-15 | the request from an accepted body keeps every group of chosen options, in order, and there is at least one |
| CartRules.AcceptedLinePositive | validation/cart.ts:3-15 | a cart line added from an accepted body has at least one unit, and every chosen option id passes the uuid check |
| CartRules.AcceptedQuantityKeepsPositive | validation/cart.ts:17-19 | changing a quantity with an accepted body keeps every cart line at one unit or more |
| CartRules.CartRefusals | validation/cart.ts:3-19 | an empty list of groups, a missing quantity, and a quantity below one are refused |
| CategoryRules.AcceptedCategoryFits | validation/category.ts:3-9 | an accepted name has 3 to 255 characters, so it fits the table's column, and the image passes the URI check |
| CategoryRules.CategoryRefusals | validation/category.ts:4-7 | a missing name, a name of one or two characters and a name over 255 characters are refused |
| Joi.TrimmedWithin | validation/order.ts:35 | the text a trimming rule measures is never longer than the text sent |
| OrderRules.ItemOf | validation/order.ts:9-16 | a line from an accepted body has at least one unit and keeps every chosen option |
| OrderRules.OrderRequestOf | validation/order.ts:18-23 | the request from an accepted body keeps every line, in order |
| OrderRules.AcceptedOrderShape | validation/order.ts:18-23 | an accepted order has at least one line, every line at least one unit, a fee of at least 0, and the payment method named by the text sent |
| OrderRules.UnknownMethodRefused | validation/order.ts:21 | a payment method the schema does not list, such as "card" or "COD", is refused |
| OrderRules.AcceptedFilterPaging | validation/order.ts:30-36 | an accepted filter gives a page of 1 to 100 orders from a row that is not negative; without a page the service starts at page 0 rather than the schema's default 1, and without a limit it takes 3 |
| OrderRules.KeywordBoundIsTrimmed | validation/order.ts:35 | the 100-character bound holds for the trimmed keyword, so spaces around it do not count |
| RatingRules.AcceptedRatingRow | validation/rating.ts:3-12 | the row stored for an accepted rating has one to five stars, a text of 10 to 500 characters once trimmed, and images that are URIs of at most 500 characters |
| RatingRules.StoredContentMayExceedBound | validation/rating.ts:6 | the bound applies to the trimmed text, so a 502-character text (500 letters with a space on each side) passes |
| RatingRules.SumWithin | validation/rating.ts:5 | a sum of values that each lie between two bounds lies between the bounds times the count |
| RatingRules.Stars | validation/rating.ts:5 | one star value per rating, in posting order |
| RatingRules.AverageWithinStars | validation/rating.ts:5 | however many accepted ratings an item receives, its running average stays between one and five stars |
| RatingRules.AverageWithin | validation/rating.ts:5 | the running average of values between two bounds lies between them |
| RatingRules.QuotientWithin | validation/rating.ts:5 | a total between lo·n and hi·n, divided by a positive n, lies between lo and hi |
| RatingRules.RatingRefusals | validation/rating.ts:5-6 | zero stars, six stars and a nine-character text are refused |
| RatingRules.AcceptedReviewPaging | validation/rating.ts:14-20 | an accepted review filter gives a page of 1 to 100 reviews, 10 by default, from page 0 by default, and an offset that is never negative |
| FoodRules.FilterWithinAdmin | validation/food.ts:16-21 | every query the customer's schema accepts is accepted by the admin's schema |
| FoodRules.ConditionSources | validation/food.ts:3-14 | the list query adds a search condition only for a search text, and then first; it adds a price range only when both bounds are given, and the range carries them |
| FoodRules.AcceptedFoodPaging | validation/food.ts:8-9 | an accepted filter gives a page of at least one item, 6 by default, from page 0 by default, and an offset that is never negative |
| FoodRules.AcceptedFoodConditions | validation/food.ts:3-14 | with an accepted filter, a search condition appears exactly when a search text is sent, and price bounds are never negative |
| FoodRules.TextFalseStillFilters | validation/food.ts:17-20 | the text "false", which the admin schema accepts as false, still adds an isActives condition |
| FoodRules.FilterRefusals | validation/food.ts:3-21 | a negative page, a zero limit, a negative price and an empty search text are refused, and so is isActives on the customer's route |

## Left out

- The home-page food list, the dashboard, the seed script and the file upload to cloud storage are not part of this model; only the merge of uploaded image URLs into a menu item is modelled.
- Database failures and connection errors are left out. Unreachable error branches are left out too: for example, an update that returns no row right after the row was found ("Failed to …").
- Error texts raised by PostgreSQL are single values, not the server's wording: `DeleteRefused` for a foreign-key violation, `IntegerRefused` for a fractional value written into an integer column.
- Text comparison and sorting use code-point order, not the database's collation.
- Redis expiry (TTL) is recorded with the stored value but time does not pass in the cache; entries never expire on their own, and a cache that cannot be reached is a boolean parameter.
- Token signing and lifetimes are inside the `Signer` parameter, which receives the payload (id, email, role); jsonwebtoken's own error texts are one value, `Auth.JwtRefused`.
- Auth.Login: the session's user is the full users row; the source reads it without createdAt, so its response object lacks that key. The tokens are the same either way (Auth.TokensIgnoreHiddenColumns).
- Auth.Logout: the failure of the Redis calls inside the guarded block, which the source reports as "Invalid refresh token", is not modelled.
- Joi's messages are left out: a refused body is the predicate being false. Joi's refusal of unknown keys, and its conversion of query strings to numbers and booleans, are not modelled. The services receive the body as sent, so Joi's defaults never reach them.
- OrderRules.AcceptedOrderShape: the rounding that `precision(2)` applies to prices and fees is not modelled; a number passes it unchanged.
- The `updateOrderStatusSchema` in validation/order.ts is not used by any route, so it is not modelled.
- Food.CalculateRating: the refusal is modelled as the update failing, with the counters and cache untouched; the exception's other fields are not modelled.
- Food.CreateFood: a body with a fractional averageRating would also be refused by the integer column; the model inserts the body's value as given.
- Users.GetAllUsers and the other list operations model the query built from a request (conditions, order, page) and the paging of a given list; evaluating SQL conditions over the rows is not modelled beyond the predicates that give their meaning.
- Users.FlagArg: emailConfirmed and isBanned hold booleans only. The source also wraps a string, such as the query value "true", into the list and passes it to `inArray` on the boolean column; how PostgreSQL reads such strings is not modelled.
- Ratings.CreateRating: `calculateRating` is not awaited in the source. The model applies it before returning, and its refusal does not reach the answer. The unhandled promise rejection it then raises, and any interleaving with another request, are not modelled.
- ShoppingCart.GetCart: requires every cart item's menu item to exist, which the foreign key from cart items to foods guarantees.
- Users.ChangeInformation: the request is a `UserPatch` whose keys are the user's columns except id and createdAt; a body that sets id or createdAt is not modelled, and a non-empty body with no column key is treated as an empty one.
- Money: prices, fees and totals are PostgreSQL `real` (float4) columns computed with JavaScript doubles; the model uses exact reals, so the rounding on each operation and on each write is not modelled.
- Text.IsSpace and the length bounds: strings are sequences of code points. Joi's `min` and `max` count UTF-16 code units, so a text with characters outside the Basic Multilingual Plane is measured shorter here than by Joi.
- Food.CreateFood: the body's option groups and options are modelled with their declared keys; other keys in them, which the source would also insert, are not modelled.
- Food.CalculateRating: requires the rating counts to be non-negative. A create body with a negative totalRating breaks that (Food.BodyColumnsInserted), and what the source then computes, possibly a division by zero, is not modelled.
- Concurrency between requests and transactions is left out; every operation runs alone against the state.

## Findings

| source | as written | input that shows it | evidently intended | confidence | as-written member | corrected member |
|---|---|---|---|---|---|---|
| services/order.service.ts:273-276 | the user's order keyword escapes `%` and `_` but not the backslash, so a backslash in the keyword escapes the next character of the pattern; the user's order listing is modelled with this pattern | keyword `\` gives the pattern `%\%`, which matches values ending in `%` | the keyword matched literally, anywhere in the value, as the user list does by escaping the backslash too | high, not executed | Orders.BackslashKeywordMisread | Orders.UserKeywordPattern |
| services/address.service.ts:62-65 | choosing a default address clears the default flag of every address in the table, whoever owns it | two users each with a default address; the first chooses another address and the second is left without a default | clear only the owner's other addresses | high, not executed | Addresses.SecondUserLosesDefault | Addresses.OwnDefaultKeepsOthers |
| services/category.service.ts:13 | the duplicate-name message interpolates `name`, which is not defined in the module, so a ReferenceError "name is not defined" is thrown instead; adding a category is modelled with that error | adding a category named "Drinks" when one exists | the message "Category with name Drinks already exists" | medium, not executed | Categories.AsWrittenLosesName | Categories.DuplicateNameInjective |
| services/category.service.ts:69 | updating a category to a name another one holds interpolates the same undefined `name`, with the same ReferenceError; the update is modelled with that error | renaming a category to "Drinks" when another one has that name | the message "Category with name Drinks already exists" | medium, not executed | Categories.AsWrittenLosesName | Categories.DuplicateNameInjective |
| services/user.service.ts:116-120 | changing personal information writes every key of the request body into the user row; the operation is modelled that way | a customer whose account is locked sends `{role: "admin", lockoutEnd: false}` and becomes an unlocked admin | only the full name, gender and date of birth are changed | medium, not executed | Users.PatchAllEscalates | Users.PatchInformationKeepsPrivileges |
| services/food.service.ts:564-574 | the running average is written into the integer averageRating column, so a fractional average is refused and the counters stop taking ratings in; rating is modelled with that refusal | an unrated item rated 4 and then 5: the second update is refused and the item shows one rating averaging 4 | the running average of all the ratings (4.5) stored | medium, not executed | Ratings.SecondRatingLost | Food.RunningAverageIsMean |

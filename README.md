# quickChop order lifecycle — a Dafny model

This project models the backend core of quickChop, a three-sided food-delivery
marketplace (customers, restaurants, riders). An order is placed by a customer.
It is moved through `pending → confirmed → preparing → ready` (or to `cancelled`)
by the restaurant that owns it. A rider claims a ready order (`picked-up`) and
then completes it (`delivered`, paid). The read side is covered too: the
restaurant's dashboard and analytics, and the rider's earnings and histories.
It is built from the order, restaurant and menu-item documents.

## Modules and files

| file | module | what it holds |
|---|---|---|
| `domain.dfy` | `Domain` | ids and how a request id is cast to one, roles, the seven statuses and their names, users, the error answers and their HTTP codes, `Result` |
| `seqs.dfy` | `Seqs` | filter, sum, stable insertion sort, take, with the lemmas the queries are proved from |
| `order_model.dfy` | `OrderModel` | the order document, its schema checks, the subtotal, the lifecycle invariant |
| `restaurant_model.dfy` | `RestaurantModel` | the restaurant document, creation with defaults, lookups by id and by owner |
| `menu_item_model.dfy` | `MenuItemModel` | the menu-item document, creation with defaults, the category-then-name order |
| `store.dfy` | `Store` | the collections the handlers change in place: class `OrderStore` and class `Catalog` |
| `auth.dfy` | `Auth` | `authenticate` (class `AuthRequest`, which gains its user) and `authorize` |
| `order_controller.dfy` | `OrderController` | placing, listing and reading orders |
| `restaurant_management.dfy` | `RestaurantManagement` | the restaurant-owner handlers |
| `rider.dfy` | `RiderController` | the rider handlers |
| `restaurant_directory.dfy` | `RestaurantDirectory` | the public restaurant list, one restaurant, one menu |
| `lifecycle.dfy` | `Lifecycle` | how the restaurant and rider transitions compose |

Conventions:

- Ids are strings. A stored id is in the form the database prints it: 24
  hex digits in lower case (`Domain.IsStoredId`). The store invariants
  (`Store.OrderStore.Valid`, `Store.Catalog.Valid`) require it of every
  document id and of the restaurant an order or a menu item refers to, and
  the handlers that insert a document require it of the new id. The ids of
  the acting user (customer, rider, owner) come from the user collection and
  are taken as given.
- An id taken from the request path or body is cast the way Mongoose casts
  it (`Domain.CastId`). Any 24-hex-digit string casts to its lower-case form,
  whatever the case of its letters. Any other string makes the cast throw,
  and the handler answers 500 from its `catch`, with no change.
- A collection is a `seq` in its natural (insertion) order. `findById` and
  `findOne` return the first match.
- Money is an `int` in minor units. The rider's 80% share is a `real`.
- Times are `int` milliseconds. The current time and the start of the day are
  parameters.
- A failed schema validation on save answers 500 and leaves the collection as it was.

Each state-changing handler is a method on the store. Its `ensures` gives the
new collection exactly (`old(orders)[k := …]`, `old(orders) + [o]`) and the
answer for every error path, and it preserves the store's `Valid()` invariant.
Each state change on a single order is a function (`SetStatus`, `Accept`,
`Complete`, `PatchMenuItem`, `PatchProfile`), and the lemmas are about those
functions. Each read-side query is a function of the collection. Its lemma pins
the result as a sorted list holding exactly the selected documents (as a
multiset), plus the aggregate laws.

## Model

| member | source | states |
|---|---|---|
| `Domain.CastId` | backend/src/controllers/restaurantController.ts:47-52 | an id casts exactly when it has the 24-hex-digit form; the result is that id in lower case, which is a stored id |
| `Domain.CastIgnoresCase` | backend/src/controllers/restaurantController.ts:47-52 | two spellings that differ only in letter case cast to the same id, or both fail |
| `Domain.CastStored` | backend/src/controllers/restaurantController.ts:52 | a stored id casts to itself |
| `Domain.ParseStatusName` | backend/src/models/Order.ts:79-83 | each of the seven statuses reads back from its stored name, so the name set and the status set correspond one to one |
| `OrderModel.SubtotalAppend` | backend/src/controllers/orderController.ts:27-30 | the subtotal of two item lists together is the sum of their subtotals |
| `OrderModel.SubtotalBounds` | backend/src/controllers/orderController.ts:27-30 | with quantities of at least 1 and no negative price, the subtotal is non-negative and at least every line's unit price |
| `Seqs.FindBy` | backend/src/controllers/orderController.ts:104-111 | the lookup returns the first position whose key is the id asked for, or none exactly when no element has that key |
| `OrderModel.FindOrder` | backend/src/controllers/orderController.ts:104-111 | `findById` returns the first order with that id, or none exactly when no order has that id |
| `RestaurantModel.CreateRestaurant` | backend/src/models/Restaurant.ts:26-94 | creation succeeds exactly when name, image and address are given, the owner reference casts to an ObjectId, and the rating is within 0..5; the defaults are rating 0, review count 0, no cuisines, "30-45 min", fee 0, minimum order 0, open, and no hours |
| `RestaurantModel.CreateRestaurantRoundTrip` | backend/src/models/Restaurant.ts:26-94 | creating from a document's own fields gives back that document if it is valid, and 500 otherwise |
| `RestaurantModel.FindRestaurant` | backend/src/controllers/orderController.ts:32-33 | `findById` returns the first restaurant with that id, or none when no restaurant has it |
| `RestaurantModel.FindOwned` | backend/src/controllers/restaurantManagementController.ts:19-24 | `findOne({ ownerId })` returns the first restaurant of that owner, or none when they own none |
| `MenuItemModel.CreateMenuItem` | backend/src/models/MenuItem.ts:16-58 | creation succeeds exactly when the restaurant reference casts to an ObjectId, name, image and category are given, and the price is given and non-negative; the defaults are available and 15 minutes of preparation |
| `MenuItemModel.CreateMenuItemRoundTrip` | backend/src/models/MenuItem.ts:16-58 | creating from an item's own fields gives back that item if it is valid, and 500 otherwise |
| `MenuItemModel.FindMenuItem` | backend/src/controllers/restaurantManagementController.ts:262-267 | `findById` on menu items returns the first item with that id, or none when no item has it |
| `MenuItemModel.MenuOrderIsTotalPreorder` | backend/src/controllers/restaurantController.ts:83-86 | sorting by category and then name is total, reflexive and transitive, so the sorted menu is well defined |
| `Auth.FirstField` | backend/src/middleware/auth.ts:24 | the field is a prefix with no space in it, and it ends at a space or at the end of the input |
| `Auth.BearerTokenRoundTrip` | backend/src/middleware/auth.ts:19-24 | a token without spaces is read back from "Bearer " + token, also when a space and more text follow |
| `Auth.Authentication` | backend/src/middleware/auth.ts:17-43 | every failure is 401; a missing or non-Bearer header gets "no token"; a known token whose user id is not an ObjectId gets "invalid token" (the lookup throws inside the inner `try`); success holds exactly when the token is known and its user id, cast case-insensitively, names an existing, active user, and it yields that user |
| `Auth.AuthRequest.Authenticate` | backend/src/middleware/auth.ts:11-44 | the method takes the `Authentication` decision; on success the request carries the user, and on failure the request is unchanged |
| `Auth.Authorize` | backend/src/middleware/auth.ts:46-60 | the request passes exactly when it has a user whose role is allowed; 401 without a user, 403 with the wrong role |
| `Auth.AuthorizeMonotone` | backend/src/middleware/auth.ts:53-56 | allowing more roles never rejects a request that was let through |
| `Auth.AuthenticatedNeverUnauthorized` | backend/src/middleware/auth.ts:48-51 | behind a successful `authenticate`, `authorize` never answers 401 |
| `OrderController.DeliveryFeeFor` | backend/src/controllers/orderController.ts:32-34 | the fee is the restaurant's delivery fee, or 0 when no restaurant has that id |
| `OrderController.NewOrder` | backend/src/controllers/orderController.ts:27-52 | the new order has the sum of the line totals as its subtotal and total = subtotal + fee; it is pending, with no rider or delivery time; payment is pending exactly for cash and paid otherwise; the estimate is now + 45 minutes; it satisfies the lifecycle invariant |
| `OrderController.PlaceOrder` | backend/src/controllers/orderController.ts:7-63 | 401 without a user; 500 and nothing inserted for a restaurant id that is not an ObjectId (the lookup throws); otherwise the new order, holding the restaurant id in stored form, is appended when it passes the schema, and an order failing it (a malformed item reference, an empty required field, a quantity below 1) answers 500 and nothing is inserted; the store invariant is kept |
| `OrderController.PlaceOrderIgnoresCase` | backend/src/controllers/orderController.ts:32-52 | every letter-case spelling of a well-formed restaurant id places the same order, with the same delivery fee |
| `OrderController.PlaceOrderExample` | backend/src/controllers/orderController.ts:27-52 | for a restaurant id sent in upper case, the id casts to the stored restaurant's id; 1500 x 2 + 2000 x 1 with a fee of 500 gives subtotal 5000 and total 5500, paid by card, and the order passes the schema |
| `OrderController.ExampleRestaurantIdCasts` | backend/src/controllers/orderController.ts:32 | the upper-case spelling of the example's restaurant id casts to its lower-case stored form |
| `OrderController.GetCustomerOrders` | backend/src/controllers/orderController.ts:66-89 | 401 exactly when there is no user |
| `OrderController.CustomerOrdersExact` | backend/src/controllers/orderController.ts:76-78 | the list is newest first and holds exactly the customer's orders, as often as they are stored |
| `OrderController.GetOrderById` | backend/src/controllers/orderController.ts:92-131 | 401 without a user, 500 for an id that is not an ObjectId, 404 for an unknown id; the order is returned exactly when the reader placed it or has a restaurant or rider account; otherwise 403, and only a customer can get it (`trackOrder`, lines 134-173, does the same checks) |
| `OrderController.ReadAccessRule` | backend/src/controllers/orderController.ts:113-121 | with unique ids, a customer reads an existing order exactly when they placed it, and restaurant and rider accounts read every existing order, whatever the letter case of the id |
| `OrderController.GetOrderByIdIgnoresCase` | backend/src/controllers/orderController.ts:104-106 | two spellings of an id that differ only in letter case get the same answer |
| `RiderController.RiderGate` | backend/src/controllers/riderController.ts:11-14 | every rider handler answers 403 unless the user is a rider |
| `RiderController.GetAvailableDeliveries` | backend/src/controllers/riderController.ts:6-34 | 403 exactly for non-riders |
| `RiderController.AvailableDeliveriesExact` | backend/src/controllers/riderController.ts:17-23 | the board is oldest first and holds exactly the ready orders without a rider |
| `RiderController.Accept` | backend/src/controllers/riderController.ts:51-69 | a claim succeeds exactly on a ready, unclaimed order; otherwise 400 "not ready", then 400 "already assigned"; on success only the rider and the status (picked-up) change, and validity and the lifecycle invariant hold |
| `RiderController.Complete` | backend/src/controllers/riderController.ts:136-150 | completion succeeds exactly for the order's own rider on a picked-up order; 403 for anyone else (also when no rider is recorded), 400 when not picked up; on success the order becomes delivered and paid, with delivery time `now`, and nothing else changes |
| `RiderController.AcceptDelivery` | backend/src/controllers/riderController.ts:37-84 | 403 for non-riders, 500 and no change for an id that is not an ObjectId, 404 for an unknown id, otherwise `Accept` on the stored order; on success only that order is replaced; the store invariant is kept |
| `RiderController.CompleteDelivery` | backend/src/controllers/riderController.ts:117-161 | 403 for non-riders, 500 and no change for an id that is not an ObjectId, 404 for an unknown id, otherwise `Complete` on the stored order; on success only that order is replaced; the store invariant is kept |
| `RiderController.AcceptOnce` | backend/src/controllers/riderController.ts:56-64 | an order that was claimed cannot be claimed again by any rider |
| `RiderController.CompleteOnce` | backend/src/controllers/riderController.ts:141-144 | a delivery cannot be completed twice |
| `RiderController.OnlyClaimerCompletes` | backend/src/controllers/riderController.ts:136-139 | after a claim, the claiming rider can complete the order and any other rider gets 403 |
| `RiderController.GetActiveDeliveries` | backend/src/controllers/riderController.ts:87-114 | 403 exactly for non-riders |
| `RiderController.ActiveDeliveriesExact` | backend/src/controllers/riderController.ts:97-103 | the list is newest first and holds exactly the rider's picked-up orders |
| `RiderController.GetEarnings` | backend/src/controllers/riderController.ts:164-210 | 403 for non-riders, otherwise the earnings summary of the rider's delivered orders |
| `RiderController.SummaryTotals` | backend/src/controllers/riderController.ts:174-203 | the total count is the number of the rider's delivered orders; the total earnings are 80% of the sum of their fees; today's count is at most the total |
| `RiderController.SummaryTodayBounded` | backend/src/controllers/riderController.ts:185-195 | with no negative fee, today's earnings lie between 0 and the total earnings |
| `RiderController.CompletingEarns` | backend/src/controllers/riderController.ts:147-150 | completing a delivery raises the rider's total earnings by exactly 80% of that order's fee, and the delivery count by one |
| `RiderController.GetEarningsHistory` | backend/src/controllers/riderController.ts:213-261 | 403 for non-riders, otherwise one record per delivery in the window, latest first |
| `RiderController.DeliveriesInWindowExact` | backend/src/controllers/riderController.ts:223-242 | the history holds exactly the rider's delivered orders inside the optional inclusive window, latest delivery first |
| `RiderController.EarningsHistoryRecords` | backend/src/controllers/riderController.ts:244-250 | each record carries the order's id, its fee, 80% of the fee as earnings, and its delivery time |
| `RiderController.GetDeliveryHistory` | backend/src/controllers/riderController.ts:264-292 | 403 exactly for non-riders |
| `RiderController.DeliveryHistoryLatest` | backend/src/controllers/riderController.ts:274-281 | exactly 50 deliveries, or all of them when there are fewer; only the rider's delivered orders; latest first; every left-out delivery is no later than those listed |
| `RestaurantManagement.OwnedRestaurant` | backend/src/controllers/restaurantManagementController.ts:13-24 | 403 unless the user has a restaurant account; 404 when they own no restaurant; otherwise the position of the first restaurant they own, the one `findOne({ ownerId })` returns |
| `RestaurantManagement.SetStatus` | backend/src/controllers/restaurantManagementController.ts:141-155 | 403 for another restaurant's order; 400 unless the name is one of pending, confirmed, preparing, ready and cancelled; otherwise only the status changes, to the named one, whatever it was before; never to picked-up or delivered; validity and the lifecycle invariant hold |
| `RestaurantManagement.UpdateOrderStatus` | backend/src/controllers/restaurantManagementController.ts:114-166 | the owner gate, 500 and no change for an id that is not an ObjectId, 404 for an unknown order, otherwise `SetStatus` on the stored order; on success only that order is replaced; the store invariant is kept |
| `RestaurantManagement.SetStatusReadsBack` | backend/src/controllers/restaurantManagementController.ts:154-155 | the saved order carries exactly the requested status name, and it differs from the old order only in its status |
| `RestaurantManagement.DeliveredCanBeReopened` | backend/src/controllers/restaurantManagementController.ts:148-155 | a delivered order can be set back to pending; it keeps its rider and its delivery time |
| `RestaurantManagement.GetDashboard` | backend/src/controllers/restaurantManagementController.ts:8-69 | the owner gate, then the dashboard figures of the owner's restaurant |
| `RestaurantManagement.DashboardCounts` | backend/src/controllers/restaurantManagementController.ts:35-52 | the pending count is the pending, confirmed and preparing counts together; it and today's count are at most the total; with no negative subtotal, both revenues are non-negative and the delivered revenue is at most the subtotal of all the restaurant's orders |
| `RestaurantManagement.DashboardIgnoresOthers` | backend/src/controllers/restaurantManagementController.ts:27-52 | another restaurant's new order changes no figure on the dashboard |
| `RestaurantManagement.StatusUpdateDashboard` | backend/src/controllers/restaurantManagementController.ts:27-52 | a successful status update leaves today's count, today's revenue and the order count unchanged; the total revenue drops by the order's subtotal exactly when a delivered order is set back |
| `RestaurantManagement.Bump` | backend/src/controllers/restaurantManagementController.ts:387-390 | adding a quantity under a name raises that name's tally by it, leaves the other names alone, and keeps the names distinct |
| `RestaurantManagement.TallyLines` | backend/src/controllers/restaurantManagementController.ts:387-390 | after one order's lines, each name's tally has grown by that order's quantity of the name, and the names stay distinct |
| `RestaurantManagement.TallyItemSales` | backend/src/controllers/restaurantManagementController.ts:385-391 | the tally holds each sold item name once, with the total quantity sold across the orders |
| `RestaurantManagement.TopEntries` | backend/src/controllers/restaurantManagementController.ts:393-396 | every top entry is a sold name with its true total quantity, and no name appears twice |
| `RestaurantManagement.TopDominates` | backend/src/controllers/restaurantManagementController.ts:393-396 | no item left out of the top list sold more than an item in it |
| `RestaurantManagement.TopComplete` | backend/src/controllers/restaurantManagementController.ts:393-396 | with fewer than 10 entries, every sold name is listed |
| `RestaurantManagement.TopItemsSelling` | backend/src/controllers/restaurantManagementController.ts:385-396 | the top list has at most 10 entries, sorted by quantity, distinct, each with its true quantity, and dominating the rest |
| `RestaurantManagement.GetAnalytics` | backend/src/controllers/restaurantManagementController.ts:344-413 | over the restaurant's orders in the inclusive creation window: the total count, the delivered and cancelled counts (together at most the total), revenue as the sum of delivered subtotals, average = revenue / count (0 without orders), and the top-selling list |
| `RestaurantManagement.AllTimeAnalyticsMatchDashboard` | backend/src/controllers/restaurantManagementController.ts:365-382 | without a window, the analytics count and revenue equal the dashboard's total orders and total revenue |
| `RestaurantManagement.GetRestaurantOrders` | backend/src/controllers/restaurantManagementController.ts:72-111 | the owner gate; succeeds exactly when the gate passes |
| `RestaurantManagement.RestaurantOrdersExact` | backend/src/controllers/restaurantManagementController.ts:89-100 | newest first, holding exactly the restaurant's orders whose status has the given name (all of them without a status) |
| `RestaurantManagement.UnknownStatusListsNothing` | backend/src/controllers/restaurantManagementController.ts:91-95 | a status filter that names no status is not rejected and lists nothing |
| `RestaurantManagement.GetRestaurantProfile` | backend/src/controllers/restaurantManagementController.ts:416-441 | the owner gate, then exactly the first restaurant the owner owns |
| `RestaurantManagement.GetOwnMenu` | backend/src/controllers/restaurantManagementController.ts:169-198 | the owner gate; succeeds exactly when it passes |
| `RestaurantManagement.OwnMenuExact` | backend/src/controllers/restaurantManagementController.ts:183-187 | all of the restaurant's items, available or not, by category then name |
| `RestaurantManagement.PatchMenuItemLaws` | backend/src/controllers/restaurantManagementController.ts:275-283 | an empty patch changes nothing, applying a patch twice equals applying it once, and the id and restaurant are kept |
| `RestaurantManagement.PatchMenuItemValid` | backend/src/controllers/restaurantManagementController.ts:275-285 | a patched valid item passes validation exactly when the patch has no negative price |
| `RestaurantManagement.AssignMenuFields` | backend/src/controllers/restaurantManagementController.ts:275-283 | assigning the given fields one by one gives the patched item |
| `RestaurantManagement.UpdateMenuItem` | backend/src/controllers/restaurantManagementController.ts:243-296 | the owner gate; 500 and no change for an id that is not an ObjectId; 404 for an unknown item; 403 for another restaurant's item; 500 and no change for a negative price; otherwise only that item is replaced by its patch |
| `RestaurantManagement.AddMenuItem` | backend/src/controllers/restaurantManagementController.ts:201-240 | the owner gate, then the item created for the owner's restaurant is appended, or 500 with no change if it fails the schema |
| `RestaurantManagement.DeleteMenuItem` | backend/src/controllers/restaurantManagementController.ts:299-341 | the owner gate, 500, 404 and 403 as for update; otherwise exactly that item is removed and no item with that id remains |
| `RestaurantManagement.PatchProfileLaws` | backend/src/controllers/restaurantManagementController.ts:461-483 | the patch keeps validity, id, owner, rating and open flag; an empty patch changes nothing; applying it twice equals applying it once |
| `RestaurantManagement.AssignProfileFields` | backend/src/controllers/restaurantManagementController.ts:461-483 | assigning the given fields one by one gives the patched profile |
| `RestaurantManagement.UpdateRestaurantProfile` | backend/src/controllers/restaurantManagementController.ts:444-494 | the owner gate, then only the owner's restaurant is replaced by its patch; menu items are untouched |
| `RestaurantManagement.UpdateRestaurantSettings` | backend/src/controllers/restaurantManagementController.ts:497-531 | the owner gate, then only the open flag of the owner's restaurant changes, and only when one is given |
| `RestaurantDirectory.GetRestaurants` | backend/src/controllers/restaurantController.ts:8-36 | the list is never longer than the collection |
| `RestaurantDirectory.RestaurantsExact` | backend/src/controllers/restaurantController.ts:13-25 | best rated first, holding exactly the open restaurants that serve the cuisine asked for and are rated at least the minimum |
| `RestaurantDirectory.FiltersNarrow` | backend/src/controllers/restaurantController.ts:15-23 | a filtered list is contained in the unfiltered one, and never lists a closed restaurant |
| `RestaurantDirectory.GetRestaurantById` | backend/src/controllers/restaurantController.ts:39-67 | 400 for a malformed id, 404 for an unknown one, otherwise the restaurant whose stored id is the id in lower case |
| `RestaurantDirectory.RestaurantByAnySpelling` | backend/src/controllers/restaurantController.ts:52-59 | with unique ids, any letter-case spelling of a stored restaurant's id finds that restaurant |
| `RestaurantDirectory.DirectoryIgnoresCase` | backend/src/controllers/restaurantController.ts:44-86 | two spellings of an id that differ only in letter case get the same restaurant and the same menu |
| `RestaurantDirectory.GetRestaurantMenu` | backend/src/controllers/restaurantController.ts:70-97 | 400 exactly for a malformed id |
| `RestaurantDirectory.MenuExact` | backend/src/controllers/restaurantController.ts:83-86 | by category then name, holding exactly the available items of the restaurant whose id is the cast id |
| `RestaurantDirectory.UnknownRestaurantEmptyMenu` | backend/src/controllers/restaurantController.ts:78-86 | a well-formed id of no restaurant gets an empty menu, not a 404 |
| `Lifecycle.DeliveryPath` | backend/src/controllers/riderController.ts:56-150 | a new order moved through confirmed, preparing and ready, then claimed and completed by one rider, succeeds at every step and ends delivered, paid, with that rider and that time, otherwise unchanged |
| `Lifecycle.StrandedStaysStranded` | backend/src/controllers/riderController.ts:56-64 | an order with a rider that is neither picked up nor delivered can be neither claimed nor completed, and no status the restaurant sets releases it |
| `Lifecycle.ReadyAgainStrands` | backend/src/controllers/restaurantManagementController.ts:148-155 | a claimed order set back to ready is off the pickup board; other riders get "already assigned" and its own rider gets "not picked up" |
| `Lifecycle.StatusCanMoveBackwards` | backend/src/controllers/restaurantManagementController.ts:148-155 | after a full delivery, the restaurant can set the order back to pending |

## Left out

- The database, `populate`, `select`, `timestamps` and `updatedAt` are not modelled. Collections are sequences, and reads return whole documents.
- JSON responses and HTTP plumbing are left out. Handlers return a `Result` whose error maps to the status code.
- Concurrency is not modelled. The read-then-write in `acceptDelivery` is not atomic, so two riders racing for one order can both be told they won. The model runs each handler on its own, one after another.
- Token signing and verification (JWT) and the user lookup are not part of this model. They enter `authenticate` as a map from token to user id and a map from user id to account. `authController` and the User model are not part of this model.
- Number formatting (`toFixed(2)`) and floating point are not modelled. Amounts are exact integers, and the rider's share and the average are exact reals.
- Parsing of query strings is left out. The analytics and earnings windows and the `rating` filter arrive already parsed, as optional numbers. A query value given as an array is not modelled.
- The 12-byte form of an ObjectId is not modelled. `Domain.IsObjectId` and `Domain.CastId` accept only the 24-hex-digit form.
- `RestaurantModel.CreateRestaurant` and `MenuItemModel.CreateMenuItem` keep the owner and restaurant references as they were spelled. The database would store them in lower case. In the modelled handlers these references always come from stored documents, so they are already in that form.
- `OrderController.PlaceOrder` keeps each item's `menuItemId` as it was spelled. The database would store it in lower case. No modelled handler reads it back.
- `RestaurantManagement.TallyItemSales` tallies every item name alike. The source tallies into a plain object `{}`, which behaves differently for some names. A name inherited from `Object.prototype` (`constructor`, `toString`, `valueOf`, `hasOwnProperty`, …) starts from that function instead of 0. Its tally becomes a string and sorts as `NaN`. A `__proto__` key is never stored. The model does not capture any of this.
- A required string field that holds only spaces would be emptied by `trim` and rejected. The model compares without trimming.
- A request body that sends `null` for a field is not modelled. A field is either given or left out.
- A request without an `items` array makes `placeOrder` fail with 500. The model always has an item list, possibly empty.
- Sort ties: the model sorts stably, keeping ties in collection order. Mongo's order among equal keys is unspecified.
- The item tally lists names in order of first sale. JavaScript orders integer-like object keys first, and the model does not.
- Where the code differs from the stated lifecycle design, the model follows the code:
  - `updateOrderStatus` does not check that the new status follows the old one. Any of its five statuses may be set at any time, including on delivered and cancelled orders.
  - A second claim answers 400, not 409.
  - `placeOrder` accepts an unknown restaurant with delivery fee 0. It does not check the items against the menu or their prices.
  - The rider and restaurant handlers answer 403, not 401, when no user is attached.
- `RestaurantManagement.GetRestaurantOrders`, `RestaurantManagement.GetOwnMenu`, `RestaurantDirectory.GetRestaurantMenu`, `RestaurantDirectory.GetRestaurants`, `RiderController.GetAvailableDeliveries`, `RiderController.GetActiveDeliveries`, `RiderController.GetDeliveryHistory` and `OrderController.GetCustomerOrders`: each function's own contract states only its error cases. What its list holds and in what order is stated by the lemma in the row beside it.

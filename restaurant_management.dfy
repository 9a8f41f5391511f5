/** The restaurant-owner handlers: setting an order's status, the dashboard,
    analytics with the top-selling items, the restaurant's order list, and the
    partial updates of menu items and of the restaurant's profile and settings.
    Every handler first requires a restaurant account (403) that owns a
    restaurant (404); the first restaurant it owns is the one acted on. */
module RestaurantManagement {
  import opened Domain
  import opened OrderModel
  import opened RestaurantModel
  import opened MenuItemModel
  import opened Store
  import Seqs

  /** The gate every handler opens with: the position of the actor's restaurant. */
  function OwnedRestaurant(actor: Option<User>, restaurants: seq<Restaurant>): (r: Result<nat>)
    ensures (actor.None? || actor.value.role != RestaurantRole) ==> r == Err(RestaurantOwnersOnly)
    ensures actor.Some? && actor.value.role == RestaurantRole && FindOwned(restaurants, actor.value.id).None? ==>
      r == Err(RestaurantNotFound)
    ensures r.Ok? <==> actor.Some? && actor.value.role == RestaurantRole && FindOwned(restaurants, actor.value.id).Some?
    ensures r.Ok? ==> r.value < |restaurants| && restaurants[r.value].ownerId == actor.value.id
    ensures r.Ok? ==> Some(r.value) == FindOwned(restaurants, actor.value.id)
    ensures r.Err? ==> r.error.Code() == 403 || r.error.Code() == 404
  {
    if actor.None? || actor.value.role != RestaurantRole then Err(RestaurantOwnersOnly)
    else
      match FindOwned(restaurants, actor.value.id)
      case None => Err(RestaurantNotFound)
      case Some(k) => Ok(k)
  }

  // ---------------------------------------------------------------------------
  // Order status

  /** The five statuses a restaurant may set; never picked-up or delivered. */
  const AssignableStatuses: seq<string> := ["pending", "confirmed", "preparing", "ready", "cancelled"]

  /** The checks and the change `updateOrderStatus` makes to one order: it must
      belong to the restaurant (else 403), the requested name must be one of the
      five (else 400); then the status is replaced, whatever it was before. */
  function SetStatus(o: Order, restaurantId: Id, requested: string): (r: Result<Order>)
    ensures o.restaurantId != restaurantId ==> r == Err(OrderNotYours)
    ensures o.restaurantId == restaurantId && requested !in AssignableStatuses ==> r == Err(InvalidStatus)
    ensures r.Ok? <==> o.restaurantId == restaurantId && requested in AssignableStatuses
    ensures r.Ok? ==> exists s :: StatusName(s) == requested && r.value == o.(status := s)
    ensures r.Ok? ==> r.value.status != PickedUp && r.value.status != Delivered
    ensures r.Ok? ==> LifecycleConsistent(r.value) && (ValidOrder(o) ==> ValidOrder(r.value))
  {
    if o.restaurantId != restaurantId then Err(OrderNotYours)
    else if requested !in AssignableStatuses then Err(InvalidStatus)
    else
      var s := ParseStatus(requested).value;
      Ok(o.(status := s))
  }

  /** `updateOrderStatus`: the gate, 500 for an id that is not an ObjectId (the
      lookup throws), 404 for an unknown id, then `SetStatus` on the stored
      order, whose result is saved in place. */
  method UpdateOrderStatus(store: OrderStore, restaurants: seq<Restaurant>, actor: Option<User>,
                           id: string, requested: string) returns (r: Result<Order>)
    requires store.Valid()
    modifies store
    ensures store.Valid()
    ensures OwnedRestaurant(actor, restaurants).Err? ==>
      r == Err(OwnedRestaurant(actor, restaurants).error) && store.orders == old(store.orders)
    ensures OwnedRestaurant(actor, restaurants).Ok? && CastId(id).None? ==>
      r == Err(ServerError) && store.orders == old(store.orders)
    ensures OwnedRestaurant(actor, restaurants).Ok? && CastId(id).Some?
            && FindOrder(old(store.orders), CastId(id).value).None? ==>
      r == Err(OrderNotFound) && store.orders == old(store.orders)
    ensures OwnedRestaurant(actor, restaurants).Ok? && CastId(id).Some?
            && FindOrder(old(store.orders), CastId(id).value).Some? ==>
      var k := FindOrder(old(store.orders), CastId(id).value).value;
      r == SetStatus(old(store.orders)[k], restaurants[OwnedRestaurant(actor, restaurants).value].id, requested)
      && store.orders == if r.Ok? then old(store.orders)[k := r.value] else old(store.orders)
  {
    var gate := OwnedRestaurant(actor, restaurants);
    if gate.Err? {
      return Err(gate.error);
    }
    var oid := CastId(id);
    if oid.None? {
      return Err(ServerError);
    }
    var found := FindOrder(store.orders, oid.value);
    if found.None? {
      return Err(OrderNotFound);
    }
    var k := found.value;
    r := SetStatus(store.orders[k], restaurants[gate.value].id, requested);
    if r.Ok? {
      store.orders := store.orders[k := r.value];
    }
  }

  /** Setting a status reads back: the stored order then carries exactly the requested name. */
  lemma SetStatusReadsBack(o: Order, restaurantId: Id, requested: string)
    requires SetStatus(o, restaurantId, requested).Ok?
    ensures StatusName(SetStatus(o, restaurantId, requested).value.status) == requested
    ensures SetStatus(o, restaurantId, requested).value.(status := o.status) == o
  {
  }

  /** The status can move backwards: a delivered order of the restaurant is set
      back to pending, keeping its rider and its delivery time. */
  lemma DeliveredCanBeReopened(o: Order)
    requires o.status == Delivered
    ensures SetStatus(o, o.restaurantId, "pending") == Ok(o.(status := Pending))
  {
    assert "pending" == AssignableStatuses[0];
  }

  // ---------------------------------------------------------------------------
  // Dashboard

  function OfRestaurant(restaurantId: Id): Order -> bool
  {
    (o: Order) => o.restaurantId == restaurantId
  }

  function CreatedSince(start: int): Order -> bool
  {
    (o: Order) => o.createdAt >= start
  }

  function HasStatus(s: Status): Order -> bool
  {
    (o: Order) => o.status == s
  }

  /** `status: { $in: ['pending', 'confirmed', 'preparing'] }`. */
  predicate Awaiting(o: Order)
  {
    o.status == Pending || o.status == Confirmed || o.status == Preparing
  }

  function IsAwaiting(): Order -> bool
  {
    (o: Order) => Awaiting(o)
  }

  function SubtotalOf(o: Order): int
  {
    o.subtotal
  }

  /** The dashboard figures (the amounts before two-decimal formatting). */
  datatype Dashboard = Dashboard(
    todayOrders: nat,
    todayRevenue: int,
    pendingOrders: nat,
    totalOrders: nat,
    totalRevenue: int,
    restaurantInfo: Restaurant)

  /** The figures for `restaurant` with the start of the day given as `todayStart`:
      today's orders and the sum of their subtotals whatever their status; the
      orders not yet ready; all orders; and the subtotals of the delivered ones. */
  function DashboardOf(restaurant: Restaurant, orders: seq<Order>, todayStart: int): Dashboard
  {
    var mine := Seqs.Filter(orders, OfRestaurant(restaurant.id));
    var today := Seqs.Filter(mine, CreatedSince(todayStart));
    Dashboard(
      |today|,
      Seqs.Sum(today, SubtotalOf),
      |Seqs.Filter(mine, IsAwaiting())|,
      |mine|,
      Seqs.Sum(Seqs.Filter(mine, HasStatus(Delivered)), SubtotalOf),
      restaurant)
  }

  /** `getDashboard`. */
  function GetDashboard(actor: Option<User>, restaurants: seq<Restaurant>, orders: seq<Order>, todayStart: int)
    : (r: Result<Dashboard>)
    ensures OwnedRestaurant(actor, restaurants).Err? ==> r == Err(OwnedRestaurant(actor, restaurants).error)
    ensures OwnedRestaurant(actor, restaurants).Ok? ==>
      r == Ok(DashboardOf(restaurants[OwnedRestaurant(actor, restaurants).value], orders, todayStart))
  {
    match OwnedRestaurant(actor, restaurants)
    case Err(e) => Err(e)
    case Ok(k) => Ok(DashboardOf(restaurants[k], orders, todayStart))
  }

  /** The counts agree: the pending count is the pending, confirmed and
      preparing orders together, and neither it nor today's count exceeds the
      total. With no negative subtotal, both revenues are at least zero and
      the delivered revenue is at most the subtotal of all the restaurant's orders. */
  lemma DashboardCounts(restaurant: Restaurant, orders: seq<Order>, todayStart: int)
    ensures var d := DashboardOf(restaurant, orders, todayStart);
            var mine := Seqs.Filter(orders, OfRestaurant(restaurant.id));
            && d.pendingOrders == |Seqs.Filter(mine, HasStatus(Pending))| + |Seqs.Filter(mine, HasStatus(Confirmed))|
                                  + |Seqs.Filter(mine, HasStatus(Preparing))|
            && d.pendingOrders <= d.totalOrders
            && d.todayOrders <= d.totalOrders
    ensures (forall k :: 0 <= k < |orders| ==> orders[k].subtotal >= 0) ==>
            var d := DashboardOf(restaurant, orders, todayStart);
            var mine := Seqs.Filter(orders, OfRestaurant(restaurant.id));
            0 <= d.todayRevenue && 0 <= d.totalRevenue <= Seqs.Sum(mine, SubtotalOf)
  {
    var mine := Seqs.Filter(orders, OfRestaurant(restaurant.id));
    var early := (o: Order) => o.status == Pending || o.status == Confirmed;
    Seqs.FilterUnionCount(mine, HasStatus(Pending), HasStatus(Confirmed), early);
    Seqs.FilterUnionCount(mine, early, HasStatus(Preparing), IsAwaiting());
    if forall k :: 0 <= k < |orders| ==> orders[k].subtotal >= 0 {
      forall k | 0 <= k < |mine| ensures SubtotalOf(mine[k]) >= 0 {
        assert mine[k] in orders;
      }
      Seqs.SumFilterLe(mine, SubtotalOf, CreatedSince(todayStart));
      Seqs.SumFilterLe(mine, SubtotalOf, HasStatus(Delivered));
    }
  }

  /** Another restaurant's order changes nothing on this dashboard. */
  lemma DashboardIgnoresOthers(restaurant: Restaurant, orders: seq<Order>, o: Order, todayStart: int)
    requires o.restaurantId != restaurant.id
    ensures DashboardOf(restaurant, orders + [o], todayStart) == DashboardOf(restaurant, orders, todayStart)
  {
    Seqs.FilterAppend(orders, [o], OfRestaurant(restaurant.id));
    assert Seqs.Filter([o], OfRestaurant(restaurant.id)) == [];
    assert Seqs.Filter(orders, OfRestaurant(restaurant.id)) + [] == Seqs.Filter(orders, OfRestaurant(restaurant.id));
  }

  /** A status update leaves today's figures and the order count as they were;
      the revenue loses the order's subtotal exactly when a delivered order is
      set back to another status. */
  lemma StatusUpdateDashboard(restaurant: Restaurant, orders: seq<Order>, k: nat, requested: string, todayStart: int)
    requires k < |orders| && SetStatus(orders[k], restaurant.id, requested).Ok?
    ensures var before := DashboardOf(restaurant, orders, todayStart);
            var after := DashboardOf(restaurant, orders[k := SetStatus(orders[k], restaurant.id, requested).value], todayStart);
            && after.todayOrders == before.todayOrders
            && after.todayRevenue == before.todayRevenue
            && after.totalOrders == before.totalOrders
            && after.totalRevenue == before.totalRevenue - (if orders[k].status == Delivered then orders[k].subtotal else 0)
  {
    var x := SetStatus(orders[k], restaurant.id, requested).value;
    var updated := orders[k := x];
    var mine := OfRestaurant(restaurant.id);
    var today := (o: Order) => o.restaurantId == restaurant.id && o.createdAt >= todayStart;
    var delivered := (o: Order) => o.restaurantId == restaurant.id && o.status == Delivered;
    Seqs.FilterUpdateCount(orders, k, x, mine);
    Seqs.FilterFilter(orders, mine, CreatedSince(todayStart), today);
    Seqs.FilterFilter(updated, mine, CreatedSince(todayStart), today);
    Seqs.FilterUpdateCount(orders, k, x, today);
    Seqs.SumFilterUpdate(orders, k, x, today, SubtotalOf);
    Seqs.FilterFilter(orders, mine, HasStatus(Delivered), delivered);
    Seqs.FilterFilter(updated, mine, HasStatus(Delivered), delivered);
    Seqs.SumFilterUpdate(orders, k, x, delivered, SubtotalOf);
  }

  // ---------------------------------------------------------------------------
  // Analytics

  /** The inclusive query window on creation time; a bound left out is no bound. */
  predicate InRange(t: int, start: Option<int>, end: Option<int>)
  {
    (start.None? || t >= start.value) && (end.None? || t <= end.value)
  }

  function CreatedInRange(restaurantId: Id, start: Option<int>, end: Option<int>): Order -> bool
  {
    (o: Order) => o.restaurantId == restaurantId && InRange(o.createdAt, start, end)
  }

  /** The orders `getAnalytics` looks at. */
  function AnalyticsOrders(restaurantId: Id, orders: seq<Order>, start: Option<int>, end: Option<int>): seq<Order>
  {
    Seqs.Filter(orders, CreatedInRange(restaurantId, start, end))
  }

  /** One entry of the item-sales tally, keyed by item name. */
  datatype ItemSale = ItemSale(name: string, quantity: int)

  /** The total quantity of the lines named `name`. */
  function QuantityIn(items: seq<LineItem>, name: string): int
  {
    if items == [] then 0
    else QuantityIn(items[..|items| - 1], name)
         + (if items[|items| - 1].name == name then items[|items| - 1].quantity else 0)
  }

  /** The total quantity of `name` ordered over all the orders, whatever their status. */
  function QuantitySold(orders: seq<Order>, name: string): int
  {
    if orders == [] then 0
    else QuantitySold(orders[..|orders| - 1], name) + QuantityIn(orders[|orders| - 1].items, name)
  }

  function ItemNames(items: seq<LineItem>): set<string>
  {
    if items == [] then {} else ItemNames(items[..|items| - 1]) + {items[|items| - 1].name}
  }

  /** Every item name that occurs in some line of some order. */
  function SoldNames(orders: seq<Order>): set<string>
  {
    if orders == [] then {} else SoldNames(orders[..|orders| - 1]) + ItemNames(orders[|orders| - 1].items)
  }

  function SaleNames(sales: seq<ItemSale>): set<string>
  {
    set k | 0 <= k < |sales| :: sales[k].name
  }

  /** A tally has one entry per name. */
  predicate DistinctNames(sales: seq<ItemSale>)
  {
    forall i, j :: 0 <= i < j < |sales| ==> sales[i].name != sales[j].name
  }

  /** The dictionary lookup `itemSales[name]`: the entry with that name, if any. */
  function IndexOfName(sales: seq<ItemSale>, name: string): (r: Option<nat>)
    ensures r.Some? ==> r.value < |sales| && sales[r.value].name == name
    ensures r.None? <==> name !in SaleNames(sales)
  {
    if sales == [] then None
    else if sales[0].name == name then Some(0)
    else
      var r := IndexOfName(sales[1..], name);
      assert SaleNames(sales) == {sales[0].name} + SaleNames(sales[1..]) by {
        forall n | n in SaleNames(sales) ensures n in {sales[0].name} + SaleNames(sales[1..]) {
          var k :| 0 <= k < |sales| && sales[k].name == n;
          if k > 0 { assert sales[1..][k - 1].name == n; }
        }
      }
      if r.Some? then Some(r.value + 1) else None
  }

  /** The tally's count for `name`: `itemSales[name] || 0`. */
  function QuantityOf(sales: seq<ItemSale>, name: string): int
  {
    match IndexOfName(sales, name)
    case None => 0
    case Some(k) => sales[k].quantity
  }

  lemma IndexOfDistinct(sales: seq<ItemSale>, k: nat)
    requires DistinctNames(sales) && k < |sales|
    ensures IndexOfName(sales, sales[k].name) == Some(k)
  {
  }

  /** Adding `q` to an entry, or adding a new entry with `q`, adds `q` to that name's count only. */
  lemma {:induction false} Bump(sales: seq<ItemSale>, name: string, q: int)
    requires DistinctNames(sales)
    ensures var after := Bumped(sales, name, q);
            && DistinctNames(after)
            && SaleNames(after) == SaleNames(sales) + {name}
            && forall n :: QuantityOf(after, n) == QuantityOf(sales, n) + (if n == name then q else 0)
  {
    var after := Bumped(sales, name, q);
    match IndexOfName(sales, name)
    case Some(k) =>
      assert forall j :: 0 <= j < |after| ==> after[j].name == sales[j].name;
      assert SaleNames(after) == SaleNames(sales);
      forall n ensures QuantityOf(after, n) == QuantityOf(sales, n) + (if n == name then q else 0) {
        if n in SaleNames(sales) {
          var j :| 0 <= j < |sales| && sales[j].name == n;
          IndexOfDistinct(sales, j);
          IndexOfDistinct(after, j);
        }
      }
    case None =>
      assert forall j :: 0 <= j < |sales| ==> after[j] == sales[j];
      assert SaleNames(after) == SaleNames(sales) + {name} by {
        assert after[|sales|].name == name;
      }
      forall n ensures QuantityOf(after, n) == QuantityOf(sales, n) + (if n == name then q else 0) {
        if n in SaleNames(sales) {
          var j :| 0 <= j < |sales| && sales[j].name == n;
          IndexOfDistinct(sales, j);
          IndexOfDistinct(after, j);
        } else if n == name {
          IndexOfDistinct(after, |sales|);
        }
      }
  }

  /** `itemSales[name] = (itemSales[name] || 0) + q` on the tally. */
  function Bumped(sales: seq<ItemSale>, name: string, q: int): seq<ItemSale>
  {
    match IndexOfName(sales, name)
    case Some(k) => sales[k := ItemSale(name, sales[k].quantity + q)]
    case None => sales + [ItemSale(name, q)]
  }

  lemma QuantityInStep(items: seq<LineItem>, j: nat)
    requires j < |items|
    ensures forall n :: QuantityIn(items[..j + 1], n) ==
                        QuantityIn(items[..j], n) + (if items[j].name == n then items[j].quantity else 0)
    ensures ItemNames(items[..j + 1]) == ItemNames(items[..j]) + {items[j].name}
  {
    assert items[..j + 1][..j] == items[..j];
  }

  lemma QuantitySoldStep(orders: seq<Order>, i: nat)
    requires i < |orders|
    ensures forall n :: QuantitySold(orders[..i + 1], n) == QuantitySold(orders[..i], n) + QuantityIn(orders[i].items, n)
    ensures SoldNames(orders[..i + 1]) == SoldNames(orders[..i]) + ItemNames(orders[i].items)
  {
    assert orders[..i + 1][..i] == orders[..i];
  }

  /** One line tallied keeps the inner loop's invariant. */
  lemma TallyLineStep(sales: seq<ItemSale>, after: seq<ItemSale>, items: seq<LineItem>, j: nat)
    requires j < |items|
    requires DistinctNames(after)
    requires SaleNames(after) == SaleNames(sales) + ItemNames(items[..j])
    requires forall n :: QuantityOf(after, n) == QuantityOf(sales, n) + QuantityIn(items[..j], n)
    ensures var next := Bumped(after, items[j].name, items[j].quantity);
            && DistinctNames(next)
            && SaleNames(next) == SaleNames(sales) + ItemNames(items[..j + 1])
            && forall n :: QuantityOf(next, n) == QuantityOf(sales, n) + QuantityIn(items[..j + 1], n)
  {
    Bump(after, items[j].name, items[j].quantity);
    QuantityInStep(items, j);
  }

  /** The inner `forEach` of `getAnalytics`: each line adds its quantity to the
      entry of its name, creating the entry when the name is new. */
  method TallyLines(sales: seq<ItemSale>, items: seq<LineItem>) returns (after: seq<ItemSale>)
    requires DistinctNames(sales)
    ensures DistinctNames(after)
    ensures SaleNames(after) == SaleNames(sales) + ItemNames(items)
    ensures forall n :: QuantityOf(after, n) == QuantityOf(sales, n) + QuantityIn(items, n)
  {
    after := sales;
    var j := 0;
    while j < |items|
      invariant 0 <= j <= |items|
      invariant DistinctNames(after)
      invariant SaleNames(after) == SaleNames(sales) + ItemNames(items[..j])
      invariant forall n :: QuantityOf(after, n) == QuantityOf(sales, n) + QuantityIn(items[..j], n)
    {
      TallyLineStep(sales, after, items, j);
      after := Bumped(after, items[j].name, items[j].quantity);
      j := j + 1;
    }
    assert items[..j] == items;
  }

  /** The outer `forEach` of `getAnalytics`: every line of every order is
      tallied. The tally has one entry per name ever ordered, holding the total
      quantity ordered under that name, whatever the order's status. */
  method TallyItemSales(orders: seq<Order>) returns (sales: seq<ItemSale>)
    ensures DistinctNames(sales)
    ensures SaleNames(sales) == SoldNames(orders)
    ensures forall name :: QuantityOf(sales, name) == QuantitySold(orders, name)
  {
    sales := [];
    var i := 0;
    while i < |orders|
      invariant 0 <= i <= |orders|
      invariant DistinctNames(sales)
      invariant SaleNames(sales) == SoldNames(orders[..i])
      invariant forall name :: QuantityOf(sales, name) == QuantitySold(orders[..i], name)
    {
      QuantitySoldStep(orders, i);
      sales := TallyLines(sales, orders[i].items);
      i := i + 1;
    }
    assert orders[..i] == orders;
  }

  /** `sort(([, a], [, b]) => b - a)`: larger quantity first. */
  predicate MoreSold(a: ItemSale, b: ItemSale)
  {
    a.quantity >= b.quantity
  }

  /** The ten best-selling entries of a tally. */
  function TopItems(sales: seq<ItemSale>): seq<ItemSale>
  {
    Seqs.Take(Seqs.SortBy(sales, MoreSold), 10)
  }

  /** What the top-selling list promises about the orders it was tallied from:
      at most ten entries, best first, each with the true quantity sold of a
      name that was sold, no name twice, no name left out that sold more than
      one kept, and every name sold when fewer than ten are shown. */
  ghost predicate TopSelling(orders: seq<Order>, top: seq<ItemSale>)
  {
    && |top| <= 10
    && Seqs.Sorted(top, MoreSold)
    && DistinctNames(top)
    && (forall k :: 0 <= k < |top| ==> top[k].name in SoldNames(orders)
                                       && top[k].quantity == QuantitySold(orders, top[k].name))
    && (forall n, k :: n in SoldNames(orders) && n !in SaleNames(top) && 0 <= k < |top| ==>
                       QuantitySold(orders, n) <= top[k].quantity)
    && (|top| < 10 ==> SoldNames(orders) <= SaleNames(top))
  }

  /** What a tally of `orders` satisfies (the postcondition of `TallyItemSales`). */
  ghost predicate TallyOf(orders: seq<Order>, sales: seq<ItemSale>)
  {
    && DistinctNames(sales)
    && SaleNames(sales) == SoldNames(orders)
    && forall name :: QuantityOf(sales, name) == QuantitySold(orders, name)
  }

  lemma TopItemsSelling(orders: seq<Order>, sales: seq<ItemSale>)
    requires TallyOf(orders, sales)
    ensures TopSelling(orders, TopItems(sales))
  {
    var sorted := Seqs.SortBy(sales, MoreSold);
    assert Seqs.TotalPreorder(MoreSold);
    Seqs.SortBySorted(sales, MoreSold);
    Seqs.TakeSorted(sorted, 10, MoreSold);
    PermutedDistinct(sales, sorted);
    TopEntries(orders, sales);
    TopDominates(orders, sales);
    TopComplete(orders, sales);
  }

  /** Each kept entry is a tally entry: a sold name with its true quantity. */
  lemma TopEntries(orders: seq<Order>, sales: seq<ItemSale>)
    requires TallyOf(orders, sales)
    ensures forall k :: 0 <= k < |TopItems(sales)| ==>
      TopItems(sales)[k].name in SoldNames(orders) && TopItems(sales)[k].quantity == QuantitySold(orders, TopItems(sales)[k].name)
  {
    var sorted := Seqs.SortBy(sales, MoreSold);
    var top := TopItems(sales);
    forall k | 0 <= k < |top|
      ensures top[k].name in SoldNames(orders) && top[k].quantity == QuantitySold(orders, top[k].name)
    {
      assert top[k] == sorted[k];
      assert sorted[k] in multiset(sales);
      var j :| 0 <= j < |sales| && sales[j] == sorted[k];
      IndexOfDistinct(sales, j);
    }
  }

  /** No name left out of the top list sold more than a name kept in it. */
  lemma TopDominates(orders: seq<Order>, sales: seq<ItemSale>)
    requires TallyOf(orders, sales)
    ensures forall n, k :: n in SoldNames(orders) && n !in SaleNames(TopItems(sales)) && 0 <= k < |TopItems(sales)| ==>
                       QuantitySold(orders, n) <= TopItems(sales)[k].quantity
  {
    var sorted := Seqs.SortBy(sales, MoreSold);
    var top := TopItems(sales);
    assert Seqs.TotalPreorder(MoreSold);
    Seqs.SortBySorted(sales, MoreSold);
    Seqs.TakeDominates(sorted, 10, MoreSold);
    forall n, k | n in SoldNames(orders) && n !in SaleNames(top) && 0 <= k < |top|
      ensures QuantitySold(orders, n) <= top[k].quantity
    {
      var j :| 0 <= j < |sales| && sales[j].name == n;
      IndexOfDistinct(sales, j);
      var e := sales[j];
      forall m | 0 <= m < |top| ensures top[m] != e {
        assert top[m].name in SaleNames(top);
      }
      assert multiset(top)[e] == 0;
      assert e in multiset(sorted);
      assert MoreSold(top[k], e);
    }
  }

  /** A top list shorter than ten holds every name sold. */
  lemma TopComplete(orders: seq<Order>, sales: seq<ItemSale>)
    requires TallyOf(orders, sales)
    ensures |TopItems(sales)| < 10 ==> SoldNames(orders) <= SaleNames(TopItems(sales))
  {
    var sorted := Seqs.SortBy(sales, MoreSold);
    var top := TopItems(sales);
    if |top| < 10 {
      assert top == sorted;
      forall n | n in SoldNames(orders) ensures n in SaleNames(top) {
        var j :| 0 <= j < |sales| && sales[j].name == n;
        assert sales[j] in multiset(sorted);
        var m :| 0 <= m < |top| && top[m] == sales[j];
      }
    }
  }

  /** A tally with distinct names holds each entry at most once. */
  lemma {:induction false} DistinctOnce(sales: seq<ItemSale>, e: ItemSale)
    requires DistinctNames(sales)
    ensures multiset(sales)[e] <= 1
  {
    if sales != [] {
      assert sales == [sales[0]] + sales[1..];
      DistinctOnce(sales[1..], e);
      if e == sales[0] {
        forall j | 0 <= j < |sales[1..]| ensures sales[1..][j] != e {
          assert sales[j + 1].name != sales[0].name;
        }
      }
    }
  }

  /** Reordering a tally with distinct names keeps them distinct. */
  lemma PermutedDistinct(sales: seq<ItemSale>, sorted: seq<ItemSale>)
    requires DistinctNames(sales) && multiset(sorted) == multiset(sales)
    ensures DistinctNames(sorted)
  {
    forall i, j | 0 <= i < j < |sorted| ensures sorted[i].name != sorted[j].name {
      if sorted[i].name == sorted[j].name {
        assert sorted[i] in multiset(sales) && sorted[j] in multiset(sales);
        var a :| 0 <= a < |sales| && sales[a] == sorted[i];
        var b :| 0 <= b < |sales| && sales[b] == sorted[j];
        IndexOfDistinct(sales, a);
        IndexOfDistinct(sales, b);
        var e := sorted[i];
        assert sorted == sorted[..j] + sorted[j..];
        assert sorted[..j][i] == e && sorted[j..][0] == e;
        assert multiset(sorted) == multiset(sorted[..j]) + multiset(sorted[j..]);
        DistinctOnce(sales, e);
      }
    }
  }

  /** The analytics figures (amounts before two-decimal formatting). */
  datatype Analytics = Analytics(
    totalOrders: nat,
    completedOrders: nat,
    cancelledOrders: nat,
    totalRevenue: int,
    averageOrderValue: real,
    topSellingItems: seq<ItemSale>)

  /** `getAnalytics` over the optional inclusive window [start, end] on creation time. */
  method GetAnalytics(actor: Option<User>, restaurants: seq<Restaurant>, orders: seq<Order>,
                      start: Option<int>, end: Option<int>) returns (r: Result<Analytics>)
    ensures OwnedRestaurant(actor, restaurants).Err? ==> r == Err(OwnedRestaurant(actor, restaurants).error)
    ensures OwnedRestaurant(actor, restaurants).Ok? ==> r.Ok?
    ensures r.Ok? ==>
      var os := AnalyticsOrders(restaurants[OwnedRestaurant(actor, restaurants).value].id, orders, start, end);
      var a := r.value;
      && a.totalOrders == |os|
      && a.completedOrders == |Seqs.Filter(os, HasStatus(Delivered))|
      && a.cancelledOrders == |Seqs.Filter(os, HasStatus(Cancelled))|
      && a.completedOrders + a.cancelledOrders <= a.totalOrders
      && a.totalRevenue == Seqs.Sum(Seqs.Filter(os, HasStatus(Delivered)), SubtotalOf)
      && a.averageOrderValue == (if a.totalOrders == 0 then 0.0 else a.totalRevenue as real / a.totalOrders as real)
      && TopSelling(os, a.topSellingItems)
  {
    var gate := OwnedRestaurant(actor, restaurants);
    if gate.Err? {
      return Err(gate.error);
    }
    var os := AnalyticsOrders(restaurants[gate.value].id, orders, start, end);
    var delivered := Seqs.Filter(os, HasStatus(Delivered));
    var cancelled := Seqs.Filter(os, HasStatus(Cancelled));
    var revenue := Seqs.Sum(delivered, SubtotalOf);
    Seqs.FilterDisjoint(os, HasStatus(Delivered), HasStatus(Cancelled));
    var sales := TallyItemSales(os);
    TopItemsSelling(os, sales);
    var average := if |os| > 0 then revenue as real / |os| as real else 0.0;
    r := Ok(Analytics(|os|, |delivered|, |cancelled|, revenue, average, TopItems(sales)));
  }

  /** With no window, analytics and the dashboard agree on the order count and the revenue. */
  lemma AllTimeAnalyticsMatchDashboard(restaurant: Restaurant, orders: seq<Order>, todayStart: int)
    ensures var os := AnalyticsOrders(restaurant.id, orders, None, None);
            var d := DashboardOf(restaurant, orders, todayStart);
            && d.totalOrders == |os|
            && d.totalRevenue == Seqs.Sum(Seqs.Filter(os, HasStatus(Delivered)), SubtotalOf)
  {
    Seqs.FilterSame(orders, CreatedInRange(restaurant.id, None, None), OfRestaurant(restaurant.id));
  }

  // ---------------------------------------------------------------------------
  // The restaurant's order list

  /** The `getRestaurantOrders` query: this restaurant's orders, and only those
      with the given status name when a non-empty one is given. */
  function Listed(restaurantId: Id, status: Option<string>): Order -> bool
  {
    (o: Order) => o.restaurantId == restaurantId && (!Truthy(status) || StatusName(o.status) == status.value)
  }

  /** `getRestaurantOrders`: newest first. */
  function GetRestaurantOrders(actor: Option<User>, restaurants: seq<Restaurant>, orders: seq<Order>,
                               status: Option<string>): (r: Result<seq<Order>>)
    ensures OwnedRestaurant(actor, restaurants).Err? ==> r == Err(OwnedRestaurant(actor, restaurants).error)
    ensures r.Ok? <==> OwnedRestaurant(actor, restaurants).Ok?
  {
    match OwnedRestaurant(actor, restaurants)
    case Err(e) => Err(e)
    case Ok(k) => Ok(Seqs.SortBy(Seqs.Filter(orders, Listed(restaurants[k].id, status)), NewestFirst))
  }

  /** The list holds exactly the restaurant's orders with that status (all of
      them without one), each as often as it is stored, newest first. */
  lemma RestaurantOrdersExact(actor: Option<User>, restaurants: seq<Restaurant>, orders: seq<Order>, status: Option<string>)
    requires OwnedRestaurant(actor, restaurants).Ok?
    ensures var rid := restaurants[OwnedRestaurant(actor, restaurants).value].id;
            var list := GetRestaurantOrders(actor, restaurants, orders, status).value;
            && Seqs.Sorted(list, NewestFirst)
            && forall o :: multiset(list)[o] ==
                 if o.restaurantId == rid && (!Truthy(status) || ParseStatus(status.value) == Some(o.status))
                 then multiset(orders)[o] else 0
  {
    var rid := restaurants[OwnedRestaurant(actor, restaurants).value].id;
    CreatedAtOrders();
    Seqs.SortFilter(orders, Listed(rid, status), NewestFirst);
    forall o ensures Listed(rid, status)(o) <==>
      o.restaurantId == rid && (!Truthy(status) || ParseStatus(status.value) == Some(o.status))
    {
      ParseStatusName(o.status);
    }
  }

  /** A status name that is none of the seven lists nothing (it is not rejected). */
  lemma UnknownStatusListsNothing(actor: Option<User>, restaurants: seq<Restaurant>, orders: seq<Order>, status: string)
    requires OwnedRestaurant(actor, restaurants).Ok?
    requires status != "" && ParseStatus(status).None?
    ensures GetRestaurantOrders(actor, restaurants, orders, Some(status)) == Ok([])
  {
    var rid := restaurants[OwnedRestaurant(actor, restaurants).value].id;
    var f := Seqs.Filter(orders, Listed(rid, Some(status)));
    if f != [] {
      ParseStatusName(f[0].status);
    }
  }

  // ---------------------------------------------------------------------------
  // Profile and menu

  /** `getRestaurantProfile`. */
  function GetRestaurantProfile(actor: Option<User>, restaurants: seq<Restaurant>): (r: Result<Restaurant>)
    ensures OwnedRestaurant(actor, restaurants).Err? ==> r == Err(OwnedRestaurant(actor, restaurants).error)
    ensures r.Ok? ==> OwnedRestaurant(actor, restaurants).Ok? && r.value.ownerId == actor.value.id && r.value in restaurants
    ensures OwnedRestaurant(actor, restaurants).Ok? ==> r == Ok(restaurants[OwnedRestaurant(actor, restaurants).value])
  {
    match OwnedRestaurant(actor, restaurants)
    case Err(e) => Err(e)
    case Ok(k) => Ok(restaurants[k])
  }

  function OnMenuOf(restaurantId: Id): MenuItem -> bool
  {
    (m: MenuItem) => m.restaurantId == restaurantId
  }

  /** The owner's `getRestaurantMenu`: every item of the restaurant, available or not, by category then name. */
  function GetOwnMenu(actor: Option<User>, restaurants: seq<Restaurant>, items: seq<MenuItem>): (r: Result<seq<MenuItem>>)
    ensures OwnedRestaurant(actor, restaurants).Err? ==> r == Err(OwnedRestaurant(actor, restaurants).error)
    ensures r.Ok? <==> OwnedRestaurant(actor, restaurants).Ok?
  {
    match OwnedRestaurant(actor, restaurants)
    case Err(e) => Err(e)
    case Ok(k) => Ok(Seqs.SortBy(Seqs.Filter(items, OnMenuOf(restaurants[k].id)), MenuOrder))
  }

  lemma OwnMenuExact(actor: Option<User>, restaurants: seq<Restaurant>, items: seq<MenuItem>)
    requires OwnedRestaurant(actor, restaurants).Ok?
    ensures var rid := restaurants[OwnedRestaurant(actor, restaurants).value].id;
            var menu := GetOwnMenu(actor, restaurants, items).value;
            && Seqs.Sorted(menu, MenuOrder)
            && forall m :: multiset(menu)[m] == if m.restaurantId == rid then multiset(items)[m] else 0
  {
    MenuOrderIsTotalPreorder();
    Seqs.SortFilter(items, OnMenuOf(restaurants[OwnedRestaurant(actor, restaurants).value].id), MenuOrder);
  }

  /** The menu-item update of `updateMenuItem`: a non-empty name, description,
      category or image replaces the stored one; a supplied price, preparation
      time or availability replaces the stored one, whatever its value. */
  function PatchMenuItem(m: MenuItem, f: MenuItemFields): MenuItem
  {
    m.(
      name := if Truthy(f.name) then f.name.value else m.name,
      description := if Truthy(f.description) then f.description else m.description,
      price := if f.price.Some? then f.price.value else m.price,
      category := if Truthy(f.category) then f.category.value else m.category,
      image := if Truthy(f.image) then f.image.value else m.image,
      preparationTime := if f.preparationTime.Some? then f.preparationTime.value else m.preparationTime,
      isAvailable := if f.isAvailable.Some? then f.isAvailable.value else m.isAvailable)
  }

  /** An update that supplies nothing leaves the item as it was, and applying
      the same update twice is applying it once. */
  lemma PatchMenuItemLaws(m: MenuItem, f: MenuItemFields)
    ensures PatchMenuItem(m, MenuItemFields(None, None, None, None, None, None, None)) == m
    ensures PatchMenuItem(PatchMenuItem(m, f), f) == PatchMenuItem(m, f)
    ensures PatchMenuItem(m, f).id == m.id && PatchMenuItem(m, f).restaurantId == m.restaurantId
  {
  }

  /** The update keeps a valid item valid exactly when it does not set a negative
      price: the strings it writes are never empty. */
  lemma PatchMenuItemValid(m: MenuItem, f: MenuItemFields)
    requires ValidMenuItem(m)
    ensures ValidMenuItem(PatchMenuItem(m, f)) <==> (f.price.None? || f.price.value >= 0)
  {
  }

  /** The field-by-field assignments of `updateMenuItem` on the loaded item. */
  method AssignMenuFields(item: MenuItem, f: MenuItemFields) returns (m: MenuItem)
    ensures m == PatchMenuItem(item, f)
  {
    var name, description, price, category := item.name, item.description, item.price, item.category;
    var image, preparationTime, isAvailable := item.image, item.preparationTime, item.isAvailable;
    if Truthy(f.name) { name := f.name.value; }
    if Truthy(f.description) { description := f.description; }
    if f.price.Some? { price := f.price.value; }
    if Truthy(f.category) { category := f.category.value; }
    if Truthy(f.image) { image := f.image.value; }
    if f.preparationTime.Some? { preparationTime := f.preparationTime.value; }
    if f.isAvailable.Some? { isAvailable := f.isAvailable.value; }
    m := item.(name := name, description := description, price := price, category := category,
      image := image, preparationTime := preparationTime, isAvailable := isAvailable);
  }

  /** `updateMenuItem`: the gate, 500 for an id that is not an ObjectId (the
      lookup throws), 404 for an unknown id, 403 for another
      restaurant's item; then the supplied fields are assigned one by one and
      the item is saved, unless it no longer passes the schema (500). */
  method UpdateMenuItem(catalog: Catalog, actor: Option<User>, id: string, f: MenuItemFields) returns (r: Result<MenuItem>)
    requires catalog.Valid()
    modifies catalog
    ensures catalog.Valid()
    ensures catalog.restaurants == old(catalog.restaurants)
    ensures OwnedRestaurant(actor, catalog.restaurants).Err? ==>
      r == Err(OwnedRestaurant(actor, catalog.restaurants).error) && catalog.menuItems == old(catalog.menuItems)
    ensures OwnedRestaurant(actor, catalog.restaurants).Ok? && CastId(id).None? ==>
      r == Err(ServerError) && catalog.menuItems == old(catalog.menuItems)
    ensures OwnedRestaurant(actor, catalog.restaurants).Ok? && CastId(id).Some?
            && FindMenuItem(old(catalog.menuItems), CastId(id).value).None? ==>
      r == Err(MenuItemNotFound) && catalog.menuItems == old(catalog.menuItems)
    ensures OwnedRestaurant(actor, catalog.restaurants).Ok? && CastId(id).Some?
            && FindMenuItem(old(catalog.menuItems), CastId(id).value).Some? ==>
      var rid := catalog.restaurants[OwnedRestaurant(actor, catalog.restaurants).value].id;
      var k := FindMenuItem(old(catalog.menuItems), CastId(id).value).value;
      var m := old(catalog.menuItems)[k];
      if m.restaurantId != rid then r == Err(MenuItemNotYours) && catalog.menuItems == old(catalog.menuItems)
      else if !ValidMenuItem(PatchMenuItem(m, f)) then r == Err(ServerError) && catalog.menuItems == old(catalog.menuItems)
      else r == Ok(PatchMenuItem(m, f)) && catalog.menuItems == old(catalog.menuItems)[k := PatchMenuItem(m, f)]
  {
    var gate := OwnedRestaurant(actor, catalog.restaurants);
    if gate.Err? {
      return Err(gate.error);
    }
    var mid := CastId(id);
    if mid.None? {
      return Err(ServerError);
    }
    var found := FindMenuItem(catalog.menuItems, mid.value);
    if found.None? {
      return Err(MenuItemNotFound);
    }
    var k := found.value;
    if catalog.menuItems[k].restaurantId != catalog.restaurants[gate.value].id {
      return Err(MenuItemNotYours);
    }
    var m := AssignMenuFields(catalog.menuItems[k], f);
    if !ValidMenuItem(m) {
      return Err(ServerError);
    }
    catalog.menuItems := catalog.menuItems[k := m];
    r := Ok(m);
  }

  /** `addMenuItem`: the gate, then a new item of the actor's restaurant from the
      supplied fields and the schema defaults, or 500 when it fails the schema. */
  method AddMenuItem(catalog: Catalog, actor: Option<User>, f: MenuItemFields, newId: Id) returns (r: Result<MenuItem>)
    requires catalog.Valid()
    requires IsStoredId(newId)
    requires forall k :: 0 <= k < |catalog.menuItems| ==> catalog.menuItems[k].id != newId
    modifies catalog
    ensures catalog.Valid()
    ensures catalog.restaurants == old(catalog.restaurants)
    ensures OwnedRestaurant(actor, catalog.restaurants).Err? ==>
      r == Err(OwnedRestaurant(actor, catalog.restaurants).error) && catalog.menuItems == old(catalog.menuItems)
    ensures OwnedRestaurant(actor, catalog.restaurants).Ok? ==>
      var rid := catalog.restaurants[OwnedRestaurant(actor, catalog.restaurants).value].id;
      r == CreateMenuItem(newId, rid, f)
      && catalog.menuItems == if r.Ok? then old(catalog.menuItems) + [r.value] else old(catalog.menuItems)
  {
    var gate := OwnedRestaurant(actor, catalog.restaurants);
    if gate.Err? {
      return Err(gate.error);
    }
    r := CreateMenuItem(newId, catalog.restaurants[gate.value].id, f);
    if r.Ok? {
      catalog.menuItems := catalog.menuItems + [r.value];
    }
  }

  /** `deleteMenuItem`: the gate, 500 for an id that is not an ObjectId, 404 for
      an unknown id, 403 for another restaurant's item; then the item is
      removed and no item with that id remains. */
  method DeleteMenuItem(catalog: Catalog, actor: Option<User>, id: string) returns (r: Result<Id>)
    requires catalog.Valid()
    modifies catalog
    ensures catalog.Valid()
    ensures catalog.restaurants == old(catalog.restaurants)
    ensures OwnedRestaurant(actor, catalog.restaurants).Err? ==>
      r == Err(OwnedRestaurant(actor, catalog.restaurants).error) && catalog.menuItems == old(catalog.menuItems)
    ensures OwnedRestaurant(actor, catalog.restaurants).Ok? && CastId(id).None? ==>
      r == Err(ServerError) && catalog.menuItems == old(catalog.menuItems)
    ensures OwnedRestaurant(actor, catalog.restaurants).Ok? && CastId(id).Some?
            && FindMenuItem(old(catalog.menuItems), CastId(id).value).None? ==>
      r == Err(MenuItemNotFound) && catalog.menuItems == old(catalog.menuItems)
    ensures OwnedRestaurant(actor, catalog.restaurants).Ok? && CastId(id).Some?
            && FindMenuItem(old(catalog.menuItems), CastId(id).value).Some? ==>
      var rid := catalog.restaurants[OwnedRestaurant(actor, catalog.restaurants).value].id;
      var k := FindMenuItem(old(catalog.menuItems), CastId(id).value).value;
      if old(catalog.menuItems)[k].restaurantId != rid then
        r == Err(MenuItemNotYours) && catalog.menuItems == old(catalog.menuItems)
      else
        r == Ok(id) && catalog.menuItems == old(catalog.menuItems)[..k] + old(catalog.menuItems)[k + 1..]
    ensures r.Ok? ==> forall k :: 0 <= k < |catalog.menuItems| ==> catalog.menuItems[k].id != CastId(id).value
  {
    var gate := OwnedRestaurant(actor, catalog.restaurants);
    if gate.Err? {
      return Err(gate.error);
    }
    var mid := CastId(id);
    if mid.None? {
      return Err(ServerError);
    }
    var found := FindMenuItem(catalog.menuItems, mid.value);
    if found.None? {
      return Err(MenuItemNotFound);
    }
    var k := found.value;
    if catalog.menuItems[k].restaurantId != catalog.restaurants[gate.value].id {
      return Err(MenuItemNotYours);
    }
    var before := catalog.menuItems;
    catalog.menuItems := before[..k] + before[k + 1..];
    assert forall j :: 0 <= j < |catalog.menuItems| ==>
      catalog.menuItems[j] == if j < k then before[j] else before[j + 1];
    r := Ok(id);
  }

  /** The profile fields of an `updateRestaurantProfile` request; `None` is a field left out. */
  datatype ProfileFields = ProfileFields(
    name: Option<string>,
    description: Option<string>,
    cuisine: Option<seq<string>>,
    image: Option<string>,
    address: Option<string>,
    phoneNumber: Option<string>,
    deliveryFee: Option<int>,
    minimumOrder: Option<int>,
    openingHours: Option<seq<OpeningHours>>)

  /** The profile update: a non-empty string field replaces the stored one; a
      supplied list (even an empty one) or number replaces the stored one. */
  function PatchProfile(r: Restaurant, f: ProfileFields): Restaurant
  {
    r.(
      name := if Truthy(f.name) then f.name.value else r.name,
      description := if Truthy(f.description) then f.description else r.description,
      cuisine := if f.cuisine.Some? then f.cuisine.value else r.cuisine,
      image := if Truthy(f.image) then f.image.value else r.image,
      address := if Truthy(f.address) then f.address.value else r.address,
      phoneNumber := if Truthy(f.phoneNumber) then f.phoneNumber else r.phoneNumber,
      deliveryFee := if f.deliveryFee.Some? then f.deliveryFee.value else r.deliveryFee,
      minimumOrder := if f.minimumOrder.Some? then f.minimumOrder.value else r.minimumOrder,
      openingHours := if f.openingHours.Some? then f.openingHours.value else r.openingHours)
  }

  /** A profile update never invalidates a restaurant, never moves it to
      another owner or changes its rating or opening state; an empty update
      changes nothing, and repeating an update changes nothing more. */
  lemma PatchProfileLaws(r: Restaurant, f: ProfileFields)
    ensures ValidRestaurant(r) ==> ValidRestaurant(PatchProfile(r, f))
    ensures var p := PatchProfile(r, f);
            p.id == r.id && p.ownerId == r.ownerId && p.rating == r.rating && p.isOpen == r.isOpen
    ensures PatchProfile(r, ProfileFields(None, None, None, None, None, None, None, None, None)) == r
    ensures PatchProfile(PatchProfile(r, f), f) == PatchProfile(r, f)
  {
  }

  /** The field-by-field assignments of `updateRestaurantProfile` on the loaded restaurant. */
  method AssignProfileFields(restaurant: Restaurant, f: ProfileFields) returns (rest: Restaurant)
    ensures rest == PatchProfile(restaurant, f)
  {
    var name, description, cuisine, image, address := restaurant.name, restaurant.description,
      restaurant.cuisine, restaurant.image, restaurant.address;
    var phoneNumber, deliveryFee, minimumOrder, openingHours := restaurant.phoneNumber,
      restaurant.deliveryFee, restaurant.minimumOrder, restaurant.openingHours;
    if Truthy(f.name) { name := f.name.value; }
    if Truthy(f.description) { description := f.description; }
    if f.cuisine.Some? { cuisine := f.cuisine.value; }
    if Truthy(f.image) { image := f.image.value; }
    if Truthy(f.address) { address := f.address.value; }
    if Truthy(f.phoneNumber) { phoneNumber := f.phoneNumber; }
    if f.deliveryFee.Some? { deliveryFee := f.deliveryFee.value; }
    if f.minimumOrder.Some? { minimumOrder := f.minimumOrder.value; }
    if f.openingHours.Some? { openingHours := f.openingHours.value; }
    rest := restaurant.(name := name, description := description, cuisine := cuisine, image := image,
      address := address, phoneNumber := phoneNumber, deliveryFee := deliveryFee,
      minimumOrder := minimumOrder, openingHours := openingHours);
  }

  /** `updateRestaurantProfile`: the gate, then the supplied fields are assigned
      one by one to the actor's restaurant, which is saved. */
  method UpdateRestaurantProfile(catalog: Catalog, actor: Option<User>, f: ProfileFields) returns (r: Result<Restaurant>)
    requires catalog.Valid()
    modifies catalog
    ensures catalog.Valid()
    ensures catalog.menuItems == old(catalog.menuItems)
    ensures OwnedRestaurant(actor, old(catalog.restaurants)).Err? ==>
      r == Err(OwnedRestaurant(actor, old(catalog.restaurants)).error) && catalog.restaurants == old(catalog.restaurants)
    ensures OwnedRestaurant(actor, old(catalog.restaurants)).Ok? ==>
      var k := OwnedRestaurant(actor, old(catalog.restaurants)).value;
      r == Ok(PatchProfile(old(catalog.restaurants)[k], f))
      && catalog.restaurants == old(catalog.restaurants)[k := r.value]
  {
    var gate := OwnedRestaurant(actor, catalog.restaurants);
    if gate.Err? {
      return Err(gate.error);
    }
    var k := gate.value;
    var rest := AssignProfileFields(catalog.restaurants[k], f);
    PatchProfileLaws(catalog.restaurants[k], f);
    catalog.restaurants := catalog.restaurants[k := rest];
    r := Ok(rest);
  }

  /** `updateRestaurantSettings`: the gate, then `isOpen` is set when supplied. */
  method UpdateRestaurantSettings(catalog: Catalog, actor: Option<User>, isOpen: Option<bool>) returns (r: Result<Restaurant>)
    requires catalog.Valid()
    modifies catalog
    ensures catalog.Valid()
    ensures catalog.menuItems == old(catalog.menuItems)
    ensures OwnedRestaurant(actor, old(catalog.restaurants)).Err? ==>
      r == Err(OwnedRestaurant(actor, old(catalog.restaurants)).error) && catalog.restaurants == old(catalog.restaurants)
    ensures OwnedRestaurant(actor, old(catalog.restaurants)).Ok? ==>
      var k := OwnedRestaurant(actor, old(catalog.restaurants)).value;
      var before := old(catalog.restaurants)[k];
      r == Ok(before.(isOpen := GetOr(isOpen, before.isOpen)))
      && catalog.restaurants == old(catalog.restaurants)[k := r.value]
  {
    var gate := OwnedRestaurant(actor, catalog.restaurants);
    if gate.Err? {
      return Err(gate.error);
    }
    var k := gate.value;
    var rest := catalog.restaurants[k];
    if isOpen.Some? {
      rest := rest.(isOpen := isOpen.value);
    }
    catalog.restaurants := catalog.restaurants[k := rest];
    r := Ok(rest);
  }
}

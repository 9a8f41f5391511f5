/** The customer-facing order handlers: placing an order, listing one's own
    orders, and reading or tracking one order by id. */
module OrderController {
  import opened Domain
  import opened OrderModel
  import opened RestaurantModel
  import opened Store
  import Seqs

  /** The fields of the request body of `placeOrder`; an empty string is a field left out. */
  datatype PlaceOrderBody = PlaceOrderBody(
    restaurantId: Id,
    items: seq<LineItem>,
    deliveryAddress: string,
    customerPhone: string,
    paymentMethod: string,
    specialInstructions: Option<string>)

  /** 45 minutes, in milliseconds. */
  const EstimatedDeliveryOffset: int := 45 * 60 * 1000

  /** `restaurant?.deliveryFee || 0`: the restaurant's fee, 0 when there is no such restaurant. */
  function DeliveryFeeFor(restaurants: seq<Restaurant>, restaurantId: Id): (fee: int)
    ensures FindRestaurant(restaurants, restaurantId).None? ==> fee == 0
    ensures FindRestaurant(restaurants, restaurantId).Some? ==>
      fee == restaurants[FindRestaurant(restaurants, restaurantId).value].deliveryFee
  {
    match FindRestaurant(restaurants, restaurantId)
    case None => 0
    case Some(k) => restaurants[k].deliveryFee
  }

  /** The document `placeOrder` creates for `customer` at time `now`. */
  function NewOrder(customer: User, body: PlaceOrderBody, restaurants: seq<Restaurant>, id: Id, now: int): (o: Order)
    ensures o.id == id && o.customerId == customer.id && o.restaurantId == body.restaurantId
    ensures o.items == body.items
    ensures o.subtotal == Subtotal(body.items)
    ensures o.deliveryFee == DeliveryFeeFor(restaurants, body.restaurantId)
    ensures o.total == o.subtotal + o.deliveryFee
    ensures o.status == Pending
    ensures o.paymentStatus == PaymentPending <==> body.paymentMethod == "cash"
    ensures o.paymentStatus != Failed
    ensures o.riderId.None? && o.actualDeliveryTime.None?
    ensures o.estimatedDeliveryTime == Some(now + 2700000) && o.createdAt == now
    ensures o.customerName == customer.fullName
    ensures LifecycleConsistent(o)
  {
    var subtotal := Subtotal(body.items);
    var fee := DeliveryFeeFor(restaurants, body.restaurantId);
    Order(
      id, customer.id, body.restaurantId, None, body.items,
      subtotal, fee, subtotal + fee, Pending,
      body.deliveryAddress, body.customerPhone, customer.fullName, body.paymentMethod,
      if body.paymentMethod == "cash" then PaymentPending else Paid,
      body.specialInstructions,
      Some(now + EstimatedDeliveryOffset), None, now)
  }

  /** `placeOrder`: 401 without a user. A restaurant id that is not an
      ObjectId makes the restaurant lookup throw (or, when left out, the
      insert fail), which answers 500 and inserts nothing. Otherwise the new
      document, holding the id's stored form, is inserted, unless it fails
      the schema (a malformed item reference, an empty required field, an item
      quantity below 1), which answers 500 and inserts nothing. The items
      themselves are not checked against the menu, and an unknown restaurant
      costs no delivery fee. */
  method PlaceOrder(store: OrderStore, restaurants: seq<Restaurant>, actor: Option<User>,
                    body: PlaceOrderBody, newId: Id, now: int) returns (r: Result<Order>)
    requires store.Valid()
    requires IsStoredId(newId)
    requires forall k :: 0 <= k < |store.orders| ==> store.orders[k].id != newId
    modifies store
    ensures store.Valid()
    ensures actor.None? ==> r == Err(Unauthorized) && store.orders == old(store.orders)
    ensures actor.Some? && CastId(body.restaurantId).None? ==>
      r == Err(ServerError) && store.orders == old(store.orders)
    ensures actor.Some? && CastId(body.restaurantId).Some? ==>
      var o := NewOrder(actor.value, body.(restaurantId := CastId(body.restaurantId).value), restaurants, newId, now);
      if ValidOrder(o) then r == Ok(o) && store.orders == old(store.orders) + [o]
      else r == Err(ServerError) && store.orders == old(store.orders)
  {
    if actor.None? {
      return Err(Unauthorized);
    }
    var restaurantId := CastId(body.restaurantId);
    if restaurantId.None? {
      return Err(ServerError);
    }
    var o := NewOrder(actor.value, body.(restaurantId := restaurantId.value), restaurants, newId, now);
    if !ValidOrder(o) {
      return Err(ServerError);
    }
    store.orders := store.orders + [o];
    r := Ok(o);
  }

  /** Whatever the case of its letters, a restaurant id places the same order. */
  lemma PlaceOrderIgnoresCase(customer: User, body: PlaceOrderBody, spelling: Id,
                              restaurants: seq<Restaurant>, id: Id, now: int)
    requires |spelling| == |body.restaurantId|
    requires forall k :: 0 <= k < |spelling| ==> LowerHex(spelling[k]) == LowerHex(body.restaurantId[k])
    requires IsObjectId(body.restaurantId)
    ensures CastId(spelling).Some?
    ensures NewOrder(customer, body.(restaurantId := CastId(spelling).value), restaurants, id, now)
         == NewOrder(customer, body.(restaurantId := CastId(body.restaurantId).value), restaurants, id, now)
  {
    CastIgnoresCase(spelling, body.restaurantId);
  }

  /** The worked example of a two-line order: 1500 x 2 + 2000 x 1 with a fee of
      500, for a restaurant id sent in upper case. The order passes the
      schema, so `PlaceOrder` inserts it. */
  lemma PlaceOrderExample(customer: User, restaurants: seq<Restaurant>, k: nat, now: int)
    requires IsObjectId(customer.id) && customer.fullName != ""
    requires k < |restaurants| && restaurants[k].id == "64b7f0c2a1e4d5b6c7d8e9f0" && restaurants[k].deliveryFee == 500
    requires forall j :: 0 <= j < k ==> restaurants[j].id != "64b7f0c2a1e4d5b6c7d8e9f0"
    ensures var body := PlaceOrderBody("64B7F0C2A1E4D5B6C7D8E9F0",
                                       [LineItem("64b7f0c2a1e4d5b6c7d8e9a1", "Jollof", 1500, 2),
                                        LineItem("64b7f0c2a1e4d5b6c7d8e9a2", "Suya", 2000, 1)],
                                       "12 Marina", "0800", "card", None);
            && CastId(body.restaurantId) == Some("64b7f0c2a1e4d5b6c7d8e9f0")
            && var o := NewOrder(customer, body.(restaurantId := CastId(body.restaurantId).value), restaurants, "64b7f0c2a1e4d5b6c7d8e9b0", now);
               && ValidOrder(o)
               && o.subtotal == 5000 && o.total == 5500 && o.status == Pending && o.paymentStatus == Paid
  {
    var items := [LineItem("64b7f0c2a1e4d5b6c7d8e9a1", "Jollof", 1500, 2),
                  LineItem("64b7f0c2a1e4d5b6c7d8e9a2", "Suya", 2000, 1)];
    assert Subtotal(items) == 3000 + Seqs.Sum(items[1..], LineTotal);
    ExampleItemIds();
    ExampleRestaurantIdCasts();
  }

  /** The example's item references are ObjectIds. */
  lemma ExampleItemIds()
    ensures IsObjectId("64b7f0c2a1e4d5b6c7d8e9a1") && IsObjectId("64b7f0c2a1e4d5b6c7d8e9a2")
  {
  }

  /** The example's restaurant id is in stored form. */
  lemma ExampleStoredId()
    ensures IsStoredId("64b7f0c2a1e4d5b6c7d8e9f0")
  {
  }

  /** The upper-case spelling of the example's restaurant id casts to its stored form. */
  lemma ExampleRestaurantIdCasts()
    ensures CastId("64B7F0C2A1E4D5B6C7D8E9F0") == Some("64b7f0c2a1e4d5b6c7d8e9f0")
  {
    var sent, stored := "64B7F0C2A1E4D5B6C7D8E9F0", "64b7f0c2a1e4d5b6c7d8e9f0";
    assert forall j :: 0 <= j < |sent| ==> LowerHex(sent[j]) == stored[j];
    ExampleStoredId();
    CastStored(stored);
    CastIgnoresCase(sent, stored);
  }

  /** `find({ customerId })`. */
  function PlacedBy(customerId: Id): Order -> bool
  {
    (o: Order) => o.customerId == customerId
  }

  /** `getCustomerOrders`: 401 without a user, otherwise that user's orders, newest first. */
  function GetCustomerOrders(actor: Option<User>, orders: seq<Order>): (r: Result<seq<Order>>)
    ensures actor.None? <==> r == Err(Unauthorized)
  {
    if actor.None? then Err(Unauthorized)
    else Ok(Seqs.SortBy(Seqs.Filter(orders, PlacedBy(actor.value.id)), NewestFirst))
  }

  /** A customer sees exactly the orders they placed, each as often as it is
      stored, newest first. */
  lemma CustomerOrdersExact(user: User, orders: seq<Order>)
    ensures GetCustomerOrders(Some(user), orders).Ok?
    ensures Seqs.Sorted(GetCustomerOrders(Some(user), orders).value, NewestFirst)
    ensures forall o :: multiset(GetCustomerOrders(Some(user), orders).value)[o] ==
                        if o.customerId == user.id then multiset(orders)[o] else 0
  {
    CreatedAtOrders();
    Seqs.SortFilter(orders, PlacedBy(user.id), NewestFirst);
  }

  /** The read rule: the order's own customer, or any restaurant or rider account. */
  predicate MayRead(user: User, o: Order)
  {
    o.customerId == user.id || user.role == RestaurantRole || user.role == RiderRole
  }

  /** `getOrderById` and `trackOrder` (the two differ only in what they populate):
      401 without a user; 500 for an id that is not an ObjectId (the lookup
      throws); 404 for an unknown id; 403 unless the reader may see it. The id
      is matched whatever the case of its letters. */
  function GetOrderById(actor: Option<User>, orders: seq<Order>, id: string): (r: Result<Order>)
    ensures actor.None? ==> r == Err(Unauthorized)
    ensures actor.Some? && CastId(id).None? ==> r == Err(ServerError)
    ensures actor.Some? && CastId(id).Some? && FindOrder(orders, CastId(id).value).None? ==>
      r == Err(OrderNotFound)
    ensures r.Ok? <==> actor.Some? && CastId(id).Some? && FindOrder(orders, CastId(id).value).Some?
                       && MayRead(actor.value, orders[FindOrder(orders, CastId(id).value).value])
    ensures actor.Some? && CastId(id).Some? && FindOrder(orders, CastId(id).value).Some?
            && !MayRead(actor.value, orders[FindOrder(orders, CastId(id).value).value]) ==>
      r == Err(AccessDenied)
    ensures r.Ok? ==> r.value.id == CastId(id).value && r.value in orders
    ensures r.Err? && r.error == AccessDenied ==>
      actor.value.role == CustomerRole && r.error.Code() == 403
  {
    if actor.None? then Err(Unauthorized)
    else
      match CastId(id)
      case None => Err(ServerError)
      case Some(oid) =>
        match FindOrder(orders, oid)
        case None => Err(OrderNotFound)
        case Some(k) => if MayRead(actor.value, orders[k]) then Ok(orders[k]) else Err(AccessDenied)
  }

  /** A customer account reads an existing order exactly when it placed it; a
      restaurant or rider account reads every existing order. The stored id
      may be spelled in any letter case. */
  lemma ReadAccessRule(user: User, orders: seq<Order>, id: string)
    requires UniqueIds(orders)
    requires CastId(id).Some?
    requires exists k :: 0 <= k < |orders| && orders[k].id == CastId(id).value
    ensures user.role == CustomerRole ==>
      (GetOrderById(Some(user), orders, id).Ok? <==>
       forall k :: 0 <= k < |orders| && orders[k].id == CastId(id).value ==> orders[k].customerId == user.id)
    ensures user.role != CustomerRole ==> GetOrderById(Some(user), orders, id).Ok?
  {
    var oid := CastId(id).value;
    var k := FindOrder(orders, oid).value;
    assert forall j :: 0 <= j < |orders| && orders[j].id == oid ==> j == k;
  }

  /** Two spellings of an id that differ only in letter case read the same order. */
  lemma GetOrderByIdIgnoresCase(actor: Option<User>, orders: seq<Order>, a: string, b: string)
    requires |a| == |b|
    requires forall k :: 0 <= k < |a| ==> LowerHex(a[k]) == LowerHex(b[k])
    ensures GetOrderById(actor, orders, a) == GetOrderById(actor, orders, b)
  {
    CastIgnoresCase(a, b);
  }
}

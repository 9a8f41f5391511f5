/** The rider handlers: the pickup board, claiming and completing a delivery,
    the rider's active deliveries, earnings and histories. Every handler first
    turns away any request not made by a rider account, with 403. */
module RiderController {
  import opened Domain
  import opened OrderModel
  import opened Store
  import Seqs

  /** The rider's share of a delivery fee: 80 percent. */
  function RiderCut(fee: int): real
  {
    fee as real * 0.8
  }

  /** The gate every rider handler opens with: 403 with no user or a user who is not a rider. */
  function RiderGate(actor: Option<User>): (r: Result<User>)
    ensures r.Ok? <==> actor.Some? && actor.value.role == RiderRole
    ensures r.Ok? ==> r.value == actor.value
    ensures r.Err? ==> r == Err(RidersOnly) && r.error.Code() == 403
  {
    if actor.None? || actor.value.role != RiderRole then Err(RidersOnly) else Ok(actor.value)
  }

  // ---------------------------------------------------------------------------
  // The pickup board

  /** Ready for pickup and not yet claimed by anyone. */
  predicate Claimable(o: Order)
  {
    o.status == Ready && o.riderId.None?
  }

  function IsClaimable(): Order -> bool
  {
    (o: Order) => Claimable(o)
  }

  /** `getAvailableDeliveries`: every claimable order of every restaurant, oldest first. */
  function GetAvailableDeliveries(actor: Option<User>, orders: seq<Order>): (r: Result<seq<Order>>)
    ensures r.Err? <==> RiderGate(actor).Err?
    ensures r.Err? ==> r == Err(RidersOnly)
  {
    if RiderGate(actor).Err? then Err(RidersOnly)
    else Ok(Seqs.SortBy(Seqs.Filter(orders, IsClaimable()), OldestFirst))
  }

  /** A rider sees exactly the claimable orders, each as often as it is stored, oldest first. */
  lemma AvailableDeliveriesExact(rider: User, orders: seq<Order>)
    requires rider.role == RiderRole
    ensures GetAvailableDeliveries(Some(rider), orders).Ok?
    ensures Seqs.Sorted(GetAvailableDeliveries(Some(rider), orders).value, OldestFirst)
    ensures forall o :: multiset(GetAvailableDeliveries(Some(rider), orders).value)[o] ==
                        if Claimable(o) then multiset(orders)[o] else 0
  {
    CreatedAtOrders();
    Seqs.SortFilter(orders, IsClaimable(), OldestFirst);
  }

  // ---------------------------------------------------------------------------
  // Claiming and completing

  /** The checks and the change `acceptDelivery` makes to one order: it must be
      ready (else 400), and unclaimed (else 400); the rider is recorded and the
      order is picked up. */
  function Accept(o: Order, rider: Id): (r: Result<Order>)
    ensures r.Ok? <==> Claimable(o)
    ensures o.status != Ready ==> r == Err(NotReadyForPickup)
    ensures o.status == Ready && o.riderId.Some? ==> r == Err(AlreadyAssigned)
    ensures r.Err? ==> r.error.Code() == 400
    ensures r.Ok? ==> r.value == o.(riderId := Some(rider), status := PickedUp)
    ensures r.Ok? ==> LifecycleConsistent(r.value) && (ValidOrder(o) ==> ValidOrder(r.value))
  {
    if o.status != Ready then Err(NotReadyForPickup)
    else if o.riderId.Some? then Err(AlreadyAssigned)
    else Ok(o.(riderId := Some(rider), status := PickedUp))
  }

  /** The checks and the change `completeDelivery` makes to one order at time
      `now`: it must be this rider's (else 403, also when no rider is recorded),
      and picked up (else 400); it becomes delivered and paid, delivered at `now`. */
  function Complete(o: Order, rider: Id, now: int): (r: Result<Order>)
    ensures r.Ok? <==> o.riderId == Some(rider) && o.status == PickedUp
    ensures o.riderId != Some(rider) ==> r == Err(NotYourDelivery) && r.error.Code() == 403
    ensures o.riderId == Some(rider) && o.status != PickedUp ==> r == Err(NotPickedUp) && r.error.Code() == 400
    ensures r.Ok? ==> r.value == o.(status := Delivered, paymentStatus := Paid, actualDeliveryTime := Some(now))
    ensures r.Ok? ==> LifecycleConsistent(r.value) && (ValidOrder(o) ==> ValidOrder(r.value))
  {
    if o.riderId != Some(rider) then Err(NotYourDelivery)
    else if o.status != PickedUp then Err(NotPickedUp)
    else Ok(o.(status := Delivered, paymentStatus := Paid, actualDeliveryTime := Some(now)))
  }

  /** `acceptDelivery`: 403 for a non-rider, 500 for an id that is not an
      ObjectId (the lookup throws), 404 for an unknown id, then `Accept` on the
      stored order, whose result is saved in place. */
  method AcceptDelivery(store: OrderStore, actor: Option<User>, id: string) returns (r: Result<Order>)
    requires store.Valid()
    modifies store
    ensures store.Valid()
    ensures RiderGate(actor).Err? ==> r == Err(RidersOnly) && store.orders == old(store.orders)
    ensures RiderGate(actor).Ok? && CastId(id).None? ==>
      r == Err(ServerError) && store.orders == old(store.orders)
    ensures RiderGate(actor).Ok? && CastId(id).Some? && FindOrder(old(store.orders), CastId(id).value).None? ==>
      r == Err(OrderNotFound) && store.orders == old(store.orders)
    ensures RiderGate(actor).Ok? && CastId(id).Some? && FindOrder(old(store.orders), CastId(id).value).Some? ==>
      var k := FindOrder(old(store.orders), CastId(id).value).value;
      r == Accept(old(store.orders)[k], actor.value.id)
      && store.orders == if r.Ok? then old(store.orders)[k := r.value] else old(store.orders)
  {
    if RiderGate(actor).Err? {
      return Err(RidersOnly);
    }
    var oid := CastId(id);
    if oid.None? {
      return Err(ServerError);
    }
    var found := FindOrder(store.orders, oid.value);
    if found.None? {
      return Err(OrderNotFound);
    }
    var k := found.value;
    r := Accept(store.orders[k], actor.value.id);
    if r.Ok? {
      store.orders := store.orders[k := r.value];
    }
  }

  /** `completeDelivery` at time `now`: 403 for a non-rider, 500 for an id that
      is not an ObjectId, 404 for an unknown id, then `Complete` on the stored
      order, whose result is saved in place. */
  method CompleteDelivery(store: OrderStore, actor: Option<User>, id: string, now: int) returns (r: Result<Order>)
    requires store.Valid()
    modifies store
    ensures store.Valid()
    ensures RiderGate(actor).Err? ==> r == Err(RidersOnly) && store.orders == old(store.orders)
    ensures RiderGate(actor).Ok? && CastId(id).None? ==>
      r == Err(ServerError) && store.orders == old(store.orders)
    ensures RiderGate(actor).Ok? && CastId(id).Some? && FindOrder(old(store.orders), CastId(id).value).None? ==>
      r == Err(OrderNotFound) && store.orders == old(store.orders)
    ensures RiderGate(actor).Ok? && CastId(id).Some? && FindOrder(old(store.orders), CastId(id).value).Some? ==>
      var k := FindOrder(old(store.orders), CastId(id).value).value;
      r == Complete(old(store.orders)[k], actor.value.id, now)
      && store.orders == if r.Ok? then old(store.orders)[k := r.value] else old(store.orders)
  {
    if RiderGate(actor).Err? {
      return Err(RidersOnly);
    }
    var oid := CastId(id);
    if oid.None? {
      return Err(ServerError);
    }
    var found := FindOrder(store.orders, oid.value);
    if found.None? {
      return Err(OrderNotFound);
    }
    var k := found.value;
    r := Complete(store.orders[k], actor.value.id, now);
    if r.Ok? {
      store.orders := store.orders[k := r.value];
    }
  }

  /** An order is claimed at most once: claiming an order again fails, whoever asks. */
  lemma AcceptOnce(o: Order, rider: Id, other: Id)
    requires Accept(o, rider).Ok?
    ensures Accept(Accept(o, rider).value, other) == Err(NotReadyForPickup)
  {
  }

  /** A delivery is completed at most once. */
  lemma CompleteOnce(o: Order, rider: Id, now: int, later: int)
    requires Complete(o, rider, now).Ok?
    ensures Complete(Complete(o, rider, now).value, rider, later) == Err(NotPickedUp)
  {
  }

  /** Only the rider who claimed an order can complete it. */
  lemma OnlyClaimerCompletes(o: Order, rider: Id, other: Id, now: int)
    requires Accept(o, rider).Ok? && other != rider
    ensures Complete(Accept(o, rider).value, rider, now).Ok?
    ensures Complete(Accept(o, rider).value, other, now) == Err(NotYourDelivery)
  {
  }

  // ---------------------------------------------------------------------------
  // Active deliveries

  /** Claimed by this rider and not yet delivered. */
  function CarriedBy(rider: Id): Order -> bool
  {
    (o: Order) => o.riderId == Some(rider) && o.status == PickedUp
  }

  /** `getActiveDeliveries`: this rider's picked-up orders, newest first. */
  function GetActiveDeliveries(actor: Option<User>, orders: seq<Order>): (r: Result<seq<Order>>)
    ensures r.Err? <==> RiderGate(actor).Err?
    ensures r.Err? ==> r == Err(RidersOnly)
  {
    if RiderGate(actor).Err? then Err(RidersOnly)
    else Ok(Seqs.SortBy(Seqs.Filter(orders, CarriedBy(actor.value.id)), NewestFirst))
  }

  lemma ActiveDeliveriesExact(rider: User, orders: seq<Order>)
    requires rider.role == RiderRole
    ensures GetActiveDeliveries(Some(rider), orders).Ok?
    ensures Seqs.Sorted(GetActiveDeliveries(Some(rider), orders).value, NewestFirst)
    ensures forall o :: multiset(GetActiveDeliveries(Some(rider), orders).value)[o] ==
                        if o.riderId == Some(rider.id) && o.status == PickedUp then multiset(orders)[o] else 0
  {
    CreatedAtOrders();
    Seqs.SortFilter(orders, CarriedBy(rider.id), NewestFirst);
  }

  // ---------------------------------------------------------------------------
  // Earnings

  /** Delivered by this rider. */
  function DeliveredBy(rider: Id): Order -> bool
  {
    (o: Order) => o.riderId == Some(rider) && o.status == Delivered
  }

  /** Delivered at or after `start` (an order without a delivery time never is). */
  function DeliveredSince(start: int): Order -> bool
  {
    (o: Order) => o.actualDeliveryTime.Some? && o.actualDeliveryTime.value >= start
  }

  function EarningOf(o: Order): real
  {
    RiderCut(o.deliveryFee)
  }

  function FeeOf(o: Order): int
  {
    o.deliveryFee
  }

  /** The summary `getEarnings` answers with (the amounts before two-decimal formatting). */
  datatype EarningsSummary = EarningsSummary(
    totalEarnings: real,
    todayEarnings: real,
    totalDeliveries: nat,
    todayDeliveries: nat)

  /** The rider's delivered orders. */
  function Completed(rider: Id, orders: seq<Order>): seq<Order>
  {
    Seqs.Filter(orders, DeliveredBy(rider))
  }

  /** The figures `getEarnings` computes for `rider`, with the start of the
      current day given as `todayStart`. */
  function Summary(rider: Id, orders: seq<Order>, todayStart: int): EarningsSummary
  {
    var completed := Completed(rider, orders);
    var today := Seqs.Filter(completed, DeliveredSince(todayStart));
    EarningsSummary(Seqs.SumReal(completed, EarningOf), Seqs.SumReal(today, EarningOf), |completed|, |today|)
  }

  /** `getEarnings`. */
  function GetEarnings(actor: Option<User>, orders: seq<Order>, todayStart: int): (r: Result<EarningsSummary>)
    ensures r.Err? <==> RiderGate(actor).Err?
    ensures r.Err? ==> r == Err(RidersOnly)
    ensures r.Ok? ==> r.value == Summary(actor.value.id, orders, todayStart)
  {
    if RiderGate(actor).Err? then Err(RidersOnly)
    else Ok(Summary(actor.value.id, orders, todayStart))
  }

  /** The total is 80 percent of the fees of the rider's deliveries, and counts
      them; today's deliveries are among them. */
  lemma SummaryTotals(rider: Id, orders: seq<Order>, todayStart: int)
    ensures var e := Summary(rider, orders, todayStart);
            && e.totalDeliveries == |Completed(rider, orders)|
            && e.totalEarnings == 0.8 * (Seqs.Sum(Completed(rider, orders), FeeOf) as real)
            && e.todayDeliveries <= e.totalDeliveries
  {
    var completed := Completed(rider, orders);
    forall k | 0 <= k < |completed| ensures EarningOf(completed[k]) == 0.8 * (FeeOf(completed[k]) as real) {
    }
    Seqs.SumRealScale(completed, EarningOf, FeeOf, 0.8);
  }

  /** With no negative fee, today's earnings lie between nothing and the total. */
  lemma SummaryTodayBounded(rider: Id, orders: seq<Order>, todayStart: int)
    requires forall k :: 0 <= k < |orders| ==> orders[k].deliveryFee >= 0
    ensures var e := Summary(rider, orders, todayStart);
            0.0 <= e.todayEarnings <= e.totalEarnings
  {
    var completed := Completed(rider, orders);
    forall k | 0 <= k < |completed| ensures EarningOf(completed[k]) >= 0.0 {
      assert completed[k] in orders;
    }
    Seqs.SumRealFilterLe(completed, EarningOf, DeliveredSince(todayStart));
  }

  /** Completing a delivery adds exactly the rider's cut of its fee to the rider's
      total earnings, and one to the rider's delivery count. */
  lemma CompletingEarns(orders: seq<Order>, k: nat, rider: User, now: int, todayStart: int)
    requires k < |orders| && Complete(orders[k], rider.id, now).Ok?
    ensures Summary(rider.id, orders[k := Complete(orders[k], rider.id, now).value], todayStart).totalEarnings ==
            Summary(rider.id, orders, todayStart).totalEarnings + RiderCut(orders[k].deliveryFee)
    ensures Summary(rider.id, orders[k := Complete(orders[k], rider.id, now).value], todayStart).totalDeliveries ==
            Summary(rider.id, orders, todayStart).totalDeliveries + 1
  {
    var done := Complete(orders[k], rider.id, now).value;
    Seqs.SumRealFilterUpdate(orders, k, done, DeliveredBy(rider.id), EarningOf);
    Seqs.FilterUpdateCount(orders, k, done, DeliveredBy(rider.id));
  }

  // ---------------------------------------------------------------------------
  // Histories

  /** `sort({ actualDeliveryTime: -1 })`: latest delivery first, orders without a delivery time last. */
  predicate LaterOrUntimed(a: Option<int>, b: Option<int>)
  {
    b.None? || (a.Some? && a.value >= b.value)
  }

  predicate DeliveredLaterFirst(a: Order, b: Order)
  {
    LaterOrUntimed(a.actualDeliveryTime, b.actualDeliveryTime)
  }

  lemma DeliveredLaterFirstOrders()
    ensures Seqs.TotalPreorder(DeliveredLaterFirst)
  {
  }

  /** The query window of `getEarningsHistory`: with neither bound every
      delivery matches; with a bound, only a delivery with a time at or after
      the start and at or before the end. */
  predicate InWindow(t: Option<int>, start: Option<int>, end: Option<int>)
  {
    && ((start.None? && end.None?) || t.Some?)
    && (start.Some? ==> t.Some? && t.value >= start.value)
    && (end.Some? ==> t.Some? && t.value <= end.value)
  }

  function DeliveredInWindow(rider: Id, start: Option<int>, end: Option<int>): Order -> bool
  {
    (o: Order) => o.riderId == Some(rider) && o.status == Delivered && InWindow(o.actualDeliveryTime, start, end)
  }

  /** One row of the earnings history; `earnings` before two-decimal formatting. */
  datatype EarningRecord = EarningRecord(
    orderId: Id,
    restaurantId: Id,
    deliveryFee: int,
    earnings: real,
    deliveredAt: Option<int>)

  function RecordOf(o: Order): EarningRecord
  {
    EarningRecord(o.id, o.restaurantId, o.deliveryFee, RiderCut(o.deliveryFee), o.actualDeliveryTime)
  }

  /** The rider's deliveries in the window, latest first. */
  function DeliveriesInWindow(rider: Id, orders: seq<Order>, start: Option<int>, end: Option<int>): seq<Order>
  {
    Seqs.SortBy(Seqs.Filter(orders, DeliveredInWindow(rider, start, end)), DeliveredLaterFirst)
  }

  /** `getEarningsHistory` over the optional window [start, end] on delivery time. */
  function GetEarningsHistory(actor: Option<User>, orders: seq<Order>, start: Option<int>, end: Option<int>)
    : (r: Result<seq<EarningRecord>>)
    ensures r.Err? <==> RiderGate(actor).Err?
    ensures r.Err? ==> r == Err(RidersOnly)
    ensures r.Ok? ==> r.value == Seqs.MapSeq(DeliveriesInWindow(actor.value.id, orders, start, end), RecordOf)
  {
    if RiderGate(actor).Err? then Err(RidersOnly)
    else Ok(Seqs.MapSeq(DeliveriesInWindow(actor.value.id, orders, start, end), RecordOf))
  }

  /** The deliveries behind the history: exactly the rider's deliveries in the
      window, each as often as stored, latest first. */
  lemma DeliveriesInWindowExact(rider: Id, orders: seq<Order>, start: Option<int>, end: Option<int>)
    ensures var d := DeliveriesInWindow(rider, orders, start, end);
            && Seqs.Sorted(d, DeliveredLaterFirst)
            && (forall o :: multiset(d)[o] ==
                  if o.riderId == Some(rider) && o.status == Delivered && InWindow(o.actualDeliveryTime, start, end)
                  then multiset(orders)[o] else 0)
  {
    DeliveredLaterFirstOrders();
    Seqs.SortFilter(orders, DeliveredInWindow(rider, start, end), DeliveredLaterFirst);
  }

  /** Every delivery behind the history is a stored delivery of this rider in the window. */
  lemma DeliveriesInWindowMembers(rider: Id, orders: seq<Order>, start: Option<int>, end: Option<int>)
    ensures var d := DeliveriesInWindow(rider, orders, start, end);
            forall i :: 0 <= i < |d| ==> d[i] in orders && DeliveredInWindow(rider, start, end)(d[i])
  {
    var f := Seqs.Filter(orders, DeliveredInWindow(rider, start, end));
    var d := DeliveriesInWindow(rider, orders, start, end);
    forall i | 0 <= i < |d| ensures d[i] in orders && DeliveredInWindow(rider, start, end)(d[i]) {
      assert d[i] in multiset(d);
      assert d[i] in multiset(f);
      var j :| 0 <= j < |f| && f[j] == d[i];
    }
  }

  /** One record per delivery of this rider in the window, latest first, each
      crediting the rider with 80 percent of that order's fee. */
  lemma EarningsHistoryRecords(rider: Id, orders: seq<Order>, start: Option<int>, end: Option<int>)
    ensures var h := Seqs.MapSeq(DeliveriesInWindow(rider, orders, start, end), RecordOf);
            && |h| == |Seqs.Filter(orders, DeliveredInWindow(rider, start, end))|
            && (forall i :: 0 <= i < |h| ==> h[i].earnings == RiderCut(h[i].deliveryFee))
            && (forall i :: 0 <= i < |h| ==> InWindow(h[i].deliveredAt, start, end))
            && (forall i :: 0 <= i < |h| ==> exists o :: o in orders && RecordOf(o) == h[i] && DeliveredBy(rider)(o))
            && (forall i, j :: 0 <= i < j < |h| ==> LaterOrUntimed(h[i].deliveredAt, h[j].deliveredAt))
  {
    var d := DeliveriesInWindow(rider, orders, start, end);
    var h := Seqs.MapSeq(d, RecordOf);
    DeliveriesInWindowMembers(rider, orders, start, end);
    forall i | 0 <= i < |h|
      ensures InWindow(h[i].deliveredAt, start, end)
      ensures exists o :: o in orders && RecordOf(o) == h[i] && DeliveredBy(rider)(o)
    {
      assert RecordOf(d[i]) == h[i];
    }
    HistoryLatestFirst(rider, orders, start, end);
  }

  lemma HistoryLatestFirst(rider: Id, orders: seq<Order>, start: Option<int>, end: Option<int>)
    ensures var h := Seqs.MapSeq(DeliveriesInWindow(rider, orders, start, end), RecordOf);
            forall i, j :: 0 <= i < j < |h| ==> LaterOrUntimed(h[i].deliveredAt, h[j].deliveredAt)
  {
    var d := DeliveriesInWindow(rider, orders, start, end);
    var h := Seqs.MapSeq(d, RecordOf);
    DeliveredLaterFirstOrders();
    Seqs.SortBySorted(Seqs.Filter(orders, DeliveredInWindow(rider, start, end)), DeliveredLaterFirst);
    forall i, j | 0 <= i < j < |h| ensures LaterOrUntimed(h[i].deliveredAt, h[j].deliveredAt) {
      assert DeliveredLaterFirst(d[i], d[j]);
    }
  }

  /** `getDeliveryHistory`: the rider's 50 latest deliveries. */
  function GetDeliveryHistory(actor: Option<User>, orders: seq<Order>): (r: Result<seq<Order>>)
    ensures r.Err? <==> RiderGate(actor).Err?
    ensures r.Err? ==> r == Err(RidersOnly)
  {
    if RiderGate(actor).Err? then Err(RidersOnly)
    else Ok(Seqs.Take(Seqs.SortBy(Seqs.Filter(orders, DeliveredBy(actor.value.id)), DeliveredLaterFirst), 50))
  }

  /** At most 50 of the rider's deliveries, latest first; all of them when there
      are no more than 50; and none left out is later than any shown. */
  lemma DeliveryHistoryLatest(rider: User, orders: seq<Order>)
    requires rider.role == RiderRole
    ensures GetDeliveryHistory(Some(rider), orders).Ok?
    ensures var h := GetDeliveryHistory(Some(rider), orders).value;
            var all := Seqs.Filter(orders, DeliveredBy(rider.id));
            && |h| == (if |all| < 50 then |all| else 50)
            && (|all| <= 50 ==> multiset(h) == multiset(all))
            && multiset(h) <= multiset(all)
            && Seqs.Sorted(h, DeliveredLaterFirst)
            && (forall o, i :: multiset(h)[o] < multiset(all)[o] && 0 <= i < |h| ==> DeliveredLaterFirst(h[i], o))
  {
    var all := Seqs.Filter(orders, DeliveredBy(rider.id));
    var sorted := Seqs.SortBy(all, DeliveredLaterFirst);
    DeliveredLaterFirstOrders();
    Seqs.SortBySorted(all, DeliveredLaterFirst);
    Seqs.TakeSorted(sorted, 50, DeliveredLaterFirst);
    Seqs.TakeDominates(sorted, 50, DeliveredLaterFirst);
    Seqs.TakeSub(sorted, 50);
  }
}

/** How the single-order transitions of the restaurant and rider handlers
    compose: the path from a new order to a delivered one, and what the status
    handler's freedom to set any of its five statuses does to that path. */
module Lifecycle {
  import opened Domain
  import opened OrderModel
  import opened RestaurantManagement
  import opened RiderController

  /** The full path: confirmed, preparing, ready by the restaurant, claimed and
      completed by one rider. Each step is accepted, and at the end exactly
      four fields differ from the new order: status, rider, payment and
      delivery time. */
  lemma DeliveryPath(o: Order, rider: Id, now: int)
    requires o.status == Pending && o.riderId.None?
    ensures var rid := o.restaurantId;
            var o1 := SetStatus(o, rid, "confirmed");
            o1.Ok? &&
            var o2 := SetStatus(o1.value, rid, "preparing");
            o2.Ok? &&
            var o3 := SetStatus(o2.value, rid, "ready");
            o3.Ok? && Claimable(o3.value) &&
            var o4 := Accept(o3.value, rider);
            o4.Ok? &&
            var o5 := Complete(o4.value, rider, now);
            o5 == Ok(o.(status := Delivered, riderId := Some(rider), paymentStatus := Paid, actualDeliveryTime := Some(now)))
  {
    assert "confirmed" == AssignableStatuses[1];
    assert "preparing" == AssignableStatuses[2];
    assert "ready" == AssignableStatuses[3];
  }

  /** An order that has a rider but is neither out for delivery nor delivered. */
  predicate Stranded(o: Order)
  {
    o.riderId.Some? && o.status != PickedUp && o.status != Delivered
  }

  /** A stranded order stays stranded: no rider can claim or complete it, and
      no status the restaurant may set takes it out of that state. */
  lemma StrandedStaysStranded(o: Order, restaurantId: Id, requested: string, rider: Id, now: int)
    requires Stranded(o)
    ensures Accept(o, rider).Err? && Complete(o, rider, now).Err?
    ensures SetStatus(o, restaurantId, requested).Ok? ==> Stranded(SetStatus(o, restaurantId, requested).value)
  {
  }

  /** A claimed order that the restaurant sets back to ready is stranded: it
      is off the pickup board, any rider is told it is already assigned, and
      the rider who claimed it is told it is not picked up. */
  lemma ReadyAgainStrands(o: Order, rider: Id, other: Id, now: int)
    requires Claimable(o)
    ensures var back := SetStatus(Accept(o, rider).value, o.restaurantId, "ready");
            && back.Ok?
            && Stranded(back.value)
            && !Claimable(back.value)
            && Accept(back.value, other) == Err(AlreadyAssigned)
            && Complete(back.value, rider, now) == Err(NotPickedUp)
  {
    assert "ready" == AssignableStatuses[3];
  }

  /** The status is not monotone along the path: a delivered order can be sent
      back to an earlier status, which the status handler allows. */
  lemma StatusCanMoveBackwards(o: Order, rider: Id, now: int)
    requires Accept(o, rider).Ok?
    ensures var delivered := Complete(Accept(o, rider).value, rider, now).value;
            && delivered.status == Delivered
            && SetStatus(delivered, o.restaurantId, "pending") == Ok(delivered.(status := Pending))
  {
    DeliveredCanBeReopened(Complete(Accept(o, rider).value, rider, now).value);
  }
}

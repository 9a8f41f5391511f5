/** The order document: its fields, which of them the schema requires, the
    lower bound on item quantities, and the consistency the lifecycle
    operations keep between status, rider, delivery time and payment. */
module OrderModel {
  import opened Domain
  import Seqs

  /** One line of an order: a snapshot of a menu item at ordering time. */
  datatype LineItem = LineItem(menuItemId: Id, name: string, price: int, quantity: int)

  /** Money is in minor units, times are milliseconds since the epoch. */
  datatype Order = Order(
    id: Id,
    customerId: Id,
    restaurantId: Id,
    riderId: Option<Id>,
    items: seq<LineItem>,
    subtotal: int,
    deliveryFee: int,
    total: int,
    status: Status,
    deliveryAddress: string,
    customerPhone: string,
    customerName: string,
    paymentMethod: string,
    paymentStatus: PaymentStatus,
    specialInstructions: Option<string>,
    estimatedDeliveryTime: Option<int>,
    actualDeliveryTime: Option<int>,
    createdAt: int)

  /** A line item passes the schema: a menu item reference that casts to an
      ObjectId, a name, and quantity at least 1. */
  predicate ValidLineItem(item: LineItem)
  {
    IsObjectId(item.menuItemId) && item.name != "" && item.quantity >= 1
  }

  /** The whole document passes the schema's casts and its `required` and
      `min` validators (an ObjectId reference must cast, so a missing or
      malformed one is rejected; a required string is rejected when empty;
      numbers and enums are always present here). */
  predicate ValidOrder(o: Order)
  {
    && IsObjectId(o.customerId)
    && IsObjectId(o.restaurantId)
    && (forall k :: 0 <= k < |o.items| ==> ValidLineItem(o.items[k]))
    && o.deliveryAddress != ""
    && o.customerPhone != ""
    && o.customerName != ""
    && o.paymentMethod != ""
  }

  function LineTotal(item: LineItem): int
  {
    item.price * item.quantity
  }

  /** Sum of price times quantity over the items, 0 for none. */
  function Subtotal(items: seq<LineItem>): int
  {
    Seqs.Sum(items, LineTotal)
  }

  /** Ordering more lines adds their cost. */
  lemma SubtotalAppend(a: seq<LineItem>, b: seq<LineItem>)
    ensures Subtotal(a + b) == Subtotal(a) + Subtotal(b)
  {
    Seqs.SumAppend(a, b, LineTotal);
  }

  /** With no negative prices, a valid item list never costs less than nothing,
      and never less than its most expensive unit. */
  lemma {:induction false} SubtotalBounds(items: seq<LineItem>)
    requires forall k :: 0 <= k < |items| ==> ValidLineItem(items[k]) && items[k].price >= 0
    ensures Subtotal(items) >= 0
    ensures forall k :: 0 <= k < |items| ==> Subtotal(items) >= items[k].price
  {
    if items != [] {
      SubtotalBounds(items[1..]);
      var head := items[0];
      assert head.price * head.quantity >= head.price by {
        assert head.price * (head.quantity - 1) >= 0;
      }
      forall k | 1 <= k < |items| ensures Subtotal(items) >= items[k].price {
        assert items[k] == items[1..][k - 1];
      }
    }
  }

  /** What the lifecycle operations keep true of every order they create or
      change: an order is only picked up by a rider, and a delivered order has
      a rider, a delivery time and a settled payment. */
  predicate LifecycleConsistent(o: Order)
  {
    && (o.status == PickedUp ==> o.riderId.Some?)
    && (o.status == Delivered ==> o.riderId.Some? && o.actualDeliveryTime.Some? && o.paymentStatus == Paid)
  }

  /** No two orders of a collection share an id. */
  predicate UniqueIds(orders: seq<Order>)
  {
    forall i, j :: 0 <= i < j < |orders| ==> orders[i].id != orders[j].id
  }

  /** `Order.findById`: the first document with that id. */
  function FindOrder(orders: seq<Order>, id: Id): (r: Option<nat>)
    ensures r.Some? ==> r.value < |orders| && orders[r.value].id == id
    ensures r.Some? ==> forall k :: 0 <= k < r.value ==> orders[k].id != id
    ensures r.None? ==> forall k :: 0 <= k < |orders| ==> orders[k].id != id
  {
    Seqs.FindBy(orders, (o: Order) => o.id, id)
  }

  /** `sort({ createdAt: -1 })`. */
  predicate NewestFirst(a: Order, b: Order)
  {
    a.createdAt >= b.createdAt
  }

  /** `sort({ createdAt: 1 })`. */
  predicate OldestFirst(a: Order, b: Order)
  {
    a.createdAt <= b.createdAt
  }

  lemma CreatedAtOrders()
    ensures Seqs.TotalPreorder(NewestFirst)
    ensures Seqs.TotalPreorder(OldestFirst)
  {
  }
}

/**
 * `services/storageService.ts`: the repository over the browser's key-value
 * store. The store holds three keys, riders, orders and the rider session;
 * a key that was never written reads as absent. JSON encoding is abstracted:
 * a key holds the typed collection directly.
 */
module StorageService {

  import opened Wrappers
  import opened Seqs
  import opened Types

  /** `{ ...a, ...b }` on one field: the later value when present, otherwise the earlier one. */
  function Later<T>(earlier: Option<T>, later: Option<T>): Option<T>
  {
    if later.Some? then later else earlier
  }

  /** A present patch field replaces a required field of the order. */
  function Override<T>(patch: Option<T>, current: T): T
  {
    if patch.Some? then patch.value else current
  }

  /**
   * The shallow merge `{ ...o, ...p }` of an order with a partial order:
   * the empty patch changes nothing, a patch without an id keeps the order's
   * id, and a patched status is taken from the patch.
   */
  function Merge(o: Order, p: OrderPatch): (r: Order)
    ensures p == EmptyPatch ==> r == o
    ensures p.id.None? ==> r.id == o.id
    ensures p.status.Some? ==> r.status == p.status.value
  {
    Order(
      Override(p.id, o.id),
      Override(p.shortId, o.shortId),
      Override(p.customerName, o.customerName),
      Override(p.customerNumber, o.customerNumber),
      Override(p.coordinates, o.coordinates),
      Override(p.deliveryCharges, o.deliveryCharges),
      Override(p.itemsValue, o.itemsValue),
      Override(p.itemsQuantity, o.itemsQuantity),
      Override(p.status, o.status),
      Override(p.createdAt, o.createdAt),
      Later(o.assignedRiderId, p.assignedRiderId),
      Later(o.acceptedAt, p.acceptedAt),
      Later(o.completedAt, p.completedAt))
  }

  /** Two patches applied one after the other, as one patch: per field the later one wins. */
  function Then(p1: OrderPatch, p2: OrderPatch): OrderPatch
  {
    OrderPatch(
      Later(p1.id, p2.id),
      Later(p1.shortId, p2.shortId),
      Later(p1.customerName, p2.customerName),
      Later(p1.customerNumber, p2.customerNumber),
      Later(p1.coordinates, p2.coordinates),
      Later(p1.deliveryCharges, p2.deliveryCharges),
      Later(p1.itemsValue, p2.itemsValue),
      Later(p1.itemsQuantity, p2.itemsQuantity),
      Later(p1.status, p2.status),
      Later(p1.createdAt, p2.createdAt),
      Later(p1.assignedRiderId, p2.assignedRiderId),
      Later(p1.acceptedAt, p2.acceptedAt),
      Later(p1.completedAt, p2.completedAt))
  }

  /** Merging the same patch a second time changes nothing more. */
  lemma MergeIdempotent(o: Order, p: OrderPatch)
    ensures Merge(Merge(o, p), p) == Merge(o, p)
  {
  }

  /** A field present in the patch takes the patch's value; an absent one keeps the order's. */
  lemma MergeTakesPresentFields(o: Order, p: OrderPatch)
    ensures Merge(o, p).status == (if p.status.Some? then p.status.value else o.status)
    ensures Merge(o, p).id == (if p.id.Some? then p.id.value else o.id)
    ensures Merge(o, p).shortId == (if p.shortId.Some? then p.shortId.value else o.shortId)
    ensures Merge(o, p).customerName == (if p.customerName.Some? then p.customerName.value else o.customerName)
    ensures Merge(o, p).customerNumber == (if p.customerNumber.Some? then p.customerNumber.value else o.customerNumber)
    ensures Merge(o, p).coordinates == (if p.coordinates.Some? then p.coordinates.value else o.coordinates)
    ensures Merge(o, p).deliveryCharges == (if p.deliveryCharges.Some? then p.deliveryCharges.value else o.deliveryCharges)
    ensures Merge(o, p).itemsValue == (if p.itemsValue.Some? then p.itemsValue.value else o.itemsValue)
    ensures Merge(o, p).itemsQuantity == (if p.itemsQuantity.Some? then p.itemsQuantity.value else o.itemsQuantity)
    ensures Merge(o, p).createdAt == (if p.createdAt.Some? then p.createdAt.value else o.createdAt)
    ensures Merge(o, p).assignedRiderId == (if p.assignedRiderId.Some? then p.assignedRiderId else o.assignedRiderId)
    ensures Merge(o, p).acceptedAt == (if p.acceptedAt.Some? then p.acceptedAt else o.acceptedAt)
    ensures Merge(o, p).completedAt == (if p.completedAt.Some? then p.completedAt else o.completedAt)
    ensures p == EmptyPatch ==> Merge(o, p) == o
  {
  }

  /** Merging twice is merging once with the combined patch: per field, the last write wins. */
  lemma MergeLastWriteWins(o: Order, p1: OrderPatch, p2: OrderPatch)
    ensures Merge(Merge(o, p1), p2) == Merge(o, Then(p1, p2))
  {
  }

  /** `orders.findIndex(o => o.id === orderId)`. */
  function IndexOfId(orders: seq<Order>, orderId: string): (k: int)
    ensures -1 <= k < |orders|
    ensures k == -1 <==> forall j :: 0 <= j < |orders| ==> orders[j].id != orderId
    ensures k != -1 ==> orders[k].id == orderId && forall j :: 0 <= j < k ==> orders[j].id != orderId
  {
    FindIndex(orders, (o: Order) => o.id == orderId)
  }

  /**
   * The orders collection after `updateOrder(orderId, updates)`: same length,
   * and every order with another id is untouched.
   */
  function ApplyUpdate(orders: seq<Order>, orderId: string, updates: OrderPatch): (r: seq<Order>)
    ensures |r| == |orders|
    ensures forall j :: 0 <= j < |orders| && orders[j].id != orderId ==> r[j] == orders[j]
  {
    var k := IndexOfId(orders, orderId);
    if k == -1 then orders else orders[k := Merge(orders[k], updates)]
  }

  /** An id that no order has leaves the collection exactly as it was. */
  lemma UpdateAbsentIdIsNoop(orders: seq<Order>, orderId: string, updates: OrderPatch)
    requires forall j :: 0 <= j < |orders| ==> orders[j].id != orderId
    ensures ApplyUpdate(orders, orderId, updates) == orders
  {
  }

  /**
   * A present id: the first order with that id, and only it, becomes its merge
   * with the patch; the length is unchanged.
   */
  lemma UpdatePresentIdChangesFirstOnly(orders: seq<Order>, orderId: string, updates: OrderPatch, k: int)
    requires 0 <= k < |orders| && orders[k].id == orderId
    requires forall j :: 0 <= j < k ==> orders[j].id != orderId
    ensures |ApplyUpdate(orders, orderId, updates)| == |orders|
    ensures ApplyUpdate(orders, orderId, updates)[k] == Merge(orders[k], updates)
    ensures forall j :: 0 <= j < |orders| && j != k ==> ApplyUpdate(orders, orderId, updates)[j] == orders[j]
  {
    FindIsFirst(orders, (o: Order) => o.id == orderId, k);
  }

  /**
   * Two successive updates of the same id act as one update with the later
   * patch winning per field, provided the first patch does not move the order
   * to another id.
   */
  lemma UpdateLastWriteWins(orders: seq<Order>, orderId: string, p1: OrderPatch, p2: OrderPatch)
    requires p1.id.None? || p1.id == Some(orderId)
    ensures ApplyUpdate(ApplyUpdate(orders, orderId, p1), orderId, p2) == ApplyUpdate(orders, orderId, Then(p1, p2))
  {
    var k := IndexOfId(orders, orderId);
    if k != -1 {
      var once := ApplyUpdate(orders, orderId, p1);
      UpdatePresentIdChangesFirstOnly(orders, orderId, p1, k);
      UpdatePresentIdChangesFirstOnly(once, orderId, p2, k);
      MergeLastWriteWins(orders[k], p1, p2);
    }
  }

  /** The key-value store with its three keys. */
  class Store {
    var riderSlot: Option<seq<Rider>>
    var orderSlot: Option<seq<Order>>
    var sessionSlot: Option<string>

    /** A store in which nothing has been written yet. */
    constructor ()
      ensures riderSlot == None && orderSlot == None && sessionSlot == None
    {
      riderSlot, orderSlot, sessionSlot := None, None, None;
    }

    /** `getRiders`: the stored riders, empty when the key was never written. */
    function Riders(): (rs: seq<Rider>)
      reads this
      ensures riderSlot == None ==> rs == []
    {
      match riderSlot
      case None => []
      case Some(s) => s
    }

    /** `getOrders`: the stored orders, empty when the key was never written. */
    function Orders(): (os: seq<Order>)
      reads this
      ensures orderSlot == None ==> os == []
    {
      match orderSlot
      case None => []
      case Some(s) => s
    }

    /** `getRiderSession`: the saved rider id, absent when none is stored. */
    function RiderSession(): (s: Option<string>)
      reads this
    {
      sessionSlot
    }

    /** `saveRider`: read the riders, push, write back. */
    method SaveRider(rider: Rider)
      modifies this
      ensures Riders() == old(Riders()) + [rider]
      ensures riderSlot.Some?
      ensures orderSlot == old(orderSlot) && sessionSlot == old(sessionSlot)
    {
      var riders := Riders();
      riders := riders + [rider];
      riderSlot := Some(riders);
    }

    /** `saveOrder`: read the orders, push, write back. */
    method SaveOrder(order: Order)
      modifies this
      ensures Orders() == old(Orders()) + [order]
      ensures orderSlot.Some?
      ensures riderSlot == old(riderSlot) && sessionSlot == old(sessionSlot)
    {
      var orders := Orders();
      orders := orders + [order];
      orderSlot := Some(orders);
    }

    /**
     * `updateOrder`: merge the patch into the first order with the id and write
     * back; when no order has the id nothing is written at all.
     */
    method UpdateOrder(orderId: string, updates: OrderPatch)
      modifies this
      ensures Orders() == ApplyUpdate(old(Orders()), orderId, updates)
      ensures IndexOfId(old(Orders()), orderId) == -1 ==> orderSlot == old(orderSlot)
      ensures riderSlot == old(riderSlot) && sessionSlot == old(sessionSlot)
    {
      var orders := Orders();
      var index := IndexOfId(orders, orderId);
      if index != -1 {
        orders := orders[index := Merge(orders[index], updates)];
        orderSlot := Some(orders);
      }
    }

    /** `setRiderSession`. */
    method SetRiderSession(riderId: string)
      modifies this
      ensures RiderSession() == Some(riderId)
      ensures riderSlot == old(riderSlot) && orderSlot == old(orderSlot)
    {
      sessionSlot := Some(riderId);
    }

    /** `clearRiderSession`: remove the key. */
    method ClearRiderSession()
      modifies this
      ensures RiderSession() == None
      ensures riderSlot == old(riderSlot) && orderSlot == old(orderSlot)
    {
      sessionSlot := None;
    }
  }
}

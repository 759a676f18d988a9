/**
 * `AppContext.tsx`: the application state shared by the pages. It holds an
 * in-memory copy of riders and orders, the logged-in rider, and a reference to
 * the store; every write goes to the store and is followed by a wholesale
 * refresh of the in-memory copy.
 */
module AppContext {

  import opened Wrappers
  import opened Seqs
  import opened Types
  import opened StorageService

  /** JavaScript truthiness of an optional string: present and not empty. */
  predicate Truthy(s: Option<string>)
  {
    s.Some? && s.value != ""
  }

  /** `riders.find(r => r.id === id)`. */
  function RiderWithId(riders: seq<Rider>, id: string): (r: Option<Rider>)
    ensures r.None? <==> forall i :: 0 <= i < |riders| ==> riders[i].id != id
    ensures r.Some? ==> r.value in riders && r.value.id == id
  {
    Find(riders, (x: Rider) => x.id == id)
  }

  /** `riders.find(r => r.phoneNumber === phoneNumber)`, the login lookup. */
  function RiderWithPhone(riders: seq<Rider>, phoneNumber: string): (r: Option<Rider>)
    ensures r.Some? <==> exists i :: 0 <= i < |riders| && riders[i].phoneNumber == phoneNumber
    ensures r.Some? ==> r.value in riders && r.value.phoneNumber == phoneNumber
  {
    Find(riders, (x: Rider) => x.phoneNumber == phoneNumber)
  }

  /** With duplicate ids, the id lookup returns the earliest rider carrying the id. */
  lemma RiderWithIdIsFirst(riders: seq<Rider>, id: string, k: int)
    requires 0 <= k < |riders| && riders[k].id == id
    requires forall j :: 0 <= j < k ==> riders[j].id != id
    ensures RiderWithId(riders, id) == Some(riders[k])
  {
    FindIsFirst(riders, (x: Rider) => x.id == id, k);
  }

  /** With duplicate phone numbers, login picks the earliest rider carrying the number. */
  lemma RiderWithPhoneIsFirst(riders: seq<Rider>, phoneNumber: string, k: int)
    requires 0 <= k < |riders| && riders[k].phoneNumber == phoneNumber
    requires forall j :: 0 <= j < k ==> riders[j].phoneNumber != phoneNumber
    ensures RiderWithPhone(riders, phoneNumber) == Some(riders[k])
  {
    FindIsFirst(riders, (x: Rider) => x.phoneNumber == phoneNumber, k);
  }

  /**
   * The rider restored at startup from the saved session id: none when no id
   * (or an empty one) is saved, otherwise the rider with that id, if any.
   */
  function RestoreSession(riders: seq<Rider>, savedRiderId: Option<string>): (r: Option<Rider>)
    ensures !Truthy(savedRiderId) ==> r.None?
    ensures r.Some? ==> r.value in riders && Some(r.value.id) == savedRiderId
  {
    if Truthy(savedRiderId) then RiderWithId(riders, savedRiderId.value) else None
  }

  /** The restored rider exists exactly when a saved, non-empty id matches some rider, and carries that id. */
  lemma RestoreSessionResolves(riders: seq<Rider>, savedRiderId: Option<string>)
    ensures RestoreSession(riders, savedRiderId).Some? <==>
      Truthy(savedRiderId) && exists i :: 0 <= i < |riders| && riders[i].id == savedRiderId.value
    ensures RestoreSession(riders, savedRiderId).Some? ==>
      RestoreSession(riders, savedRiderId).value in riders &&
      Some(RestoreSession(riders, savedRiderId).value.id) == savedRiderId
  {
  }

  /**
   * The `updates` object that `updateOrderStatus` builds: it always carries the
   * requested status and never an id; the rider and the acceptance time are
   * present together, exactly for an accept with a non-empty rider id; the
   * completion time is present exactly for a delivery; every stamp is `now`.
   */
  function StatusUpdates(status: OrderStatus, riderId: Option<string>, now: int): (p: OrderPatch)
    ensures p.status == Some(status) && p.id.None?
    ensures p.assignedRiderId.Some? <==> status == Accepted && Truthy(riderId)
    ensures p.acceptedAt.Some? <==> p.assignedRiderId.Some?
    ensures p.assignedRiderId.Some? ==> p.assignedRiderId == riderId && p.acceptedAt == Some(now)
    ensures p.completedAt.Some? <==> status == Delivered
    ensures p.completedAt.Some? ==> p.completedAt == Some(now)
    ensures p.shortId.None? && p.customerName.None? && p.customerNumber.None? && p.coordinates.None?
    ensures p.deliveryCharges.None? && p.itemsValue.None? && p.itemsQuantity.None? && p.createdAt.None?
  {
    var updates := EmptyPatch.(status := Some(status));
    var updates := if status == Accepted && Truthy(riderId)
      then updates.(assignedRiderId := riderId, acceptedAt := Some(now))
      else updates;
    if status == Delivered then updates.(completedAt := Some(now)) else updates
  }

  /**
   * The effect of `updateOrderStatus` on the orders collection, when the id is
   * present at index k (its first occurrence): accepting with a rider stamps
   * the rider and the acceptance time together; accepting without one sets the
   * status only; delivering stamps the completion time and leaves the rider and
   * acceptance time as they were; any other status is written alone. Whatever
   * the current status of the order, the requested one is written: no
   * transition is rejected. Every other order is untouched.
   */
  lemma UpdateOrderStatusEffect(orders: seq<Order>, orderId: string, status: OrderStatus,
                                riderId: Option<string>, now: int, k: int)
    requires 0 <= k < |orders| && orders[k].id == orderId
    requires forall j :: 0 <= j < k ==> orders[j].id != orderId
    ensures |ApplyUpdate(orders, orderId, StatusUpdates(status, riderId, now))| == |orders|
    ensures forall j :: 0 <= j < |orders| && j != k ==>
      ApplyUpdate(orders, orderId, StatusUpdates(status, riderId, now))[j] == orders[j]
    ensures ApplyUpdate(orders, orderId, StatusUpdates(status, riderId, now))[k].status == status
    ensures status == Accepted && Truthy(riderId) ==>
      ApplyUpdate(orders, orderId, StatusUpdates(status, riderId, now))[k]
        == orders[k].(status := Accepted, assignedRiderId := riderId, acceptedAt := Some(now))
    ensures status != Delivered && !(status == Accepted && Truthy(riderId)) ==>
      ApplyUpdate(orders, orderId, StatusUpdates(status, riderId, now))[k] == orders[k].(status := status)
    ensures status == Delivered ==>
      ApplyUpdate(orders, orderId, StatusUpdates(status, riderId, now))[k]
        == orders[k].(status := Delivered, completedAt := Some(now))
  {
    UpdatePresentIdChangesFirstOnly(orders, orderId, StatusUpdates(status, riderId, now), k);
  }

  /**
   * Two riders accepting the same order one after the other: the store ends
   * as if only the later acceptance had happened (last write wins).
   */
  lemma AcceptRaceLastWins(orders: seq<Order>, orderId: string, first: string, second: string, t1: int, t2: int)
    requires second != ""
    ensures ApplyUpdate(ApplyUpdate(orders, orderId, StatusUpdates(Accepted, Some(first), t1)),
                        orderId, StatusUpdates(Accepted, Some(second), t2))
         == ApplyUpdate(orders, orderId, StatusUpdates(Accepted, Some(second), t2))
  {
    var p1 := StatusUpdates(Accepted, Some(first), t1);
    var p2 := StatusUpdates(Accepted, Some(second), t2);
    UpdateLastWriteWins(orders, orderId, p1, p2);
    assert Then(p1, p2) == p2;
  }

  /** The provider's state: the in-memory collections, the logged-in rider, and the store. */
  class App {
    const store: Store
    var riders: seq<Rider>
    var orders: seq<Order>
    var currentRider: Option<Rider>

    /** The in-memory copy equals the store's collections. */
    ghost predicate Synced()
      reads this, store
    {
      riders == store.Riders() && orders == store.Orders()
    }

    /** Mounting the provider: initial load, then restore of a saved rider session. */
    constructor (store: Store)
      ensures this.store == store
      ensures Synced()
      ensures currentRider == RestoreSession(store.Riders(), store.RiderSession())
    {
      this.store := store;
      riders := store.Riders();
      orders := store.Orders();
      currentRider := None;
      var savedRiderId := store.RiderSession();
      if savedRiderId.Some? && savedRiderId.value != "" {
        var allRiders := store.Riders();
        var found := RiderWithId(allRiders, savedRiderId.value);
        if found.Some? {
          currentRider := found;
        }
      }
    }

    /** `refreshData`: replace both in-memory collections from the store. */
    method RefreshData()
      modifies this
      ensures Synced()
      ensures currentRider == old(currentRider)
    {
      riders := store.Riders();
      orders := store.Orders();
    }

    /** `addRider`: append to the store, then refresh. */
    method AddRider(rider: Rider)
      modifies this, store
      ensures store.Riders() == old(store.Riders()) + [rider]
      ensures store.orderSlot == old(store.orderSlot) && store.RiderSession() == old(store.RiderSession())
      ensures Synced() && currentRider == old(currentRider)
    {
      store.SaveRider(rider);
      RefreshData();
    }

    /** `addOrder`: append to the store, then refresh. */
    method AddOrder(order: Order)
      modifies this, store
      ensures store.Orders() == old(store.Orders()) + [order]
      ensures store.riderSlot == old(store.riderSlot) && store.RiderSession() == old(store.RiderSession())
      ensures Synced() && currentRider == old(currentRider)
    {
      store.SaveOrder(order);
      RefreshData();
    }

    /**
     * `updateOrderStatus`: build the patch, update the first order with the id
     * (nothing when absent), then refresh. The order's current status is not
     * consulted.
     */
    method UpdateOrderStatus(orderId: string, status: OrderStatus, riderId: Option<string>, now: int)
      modifies this, store
      ensures store.Orders() == ApplyUpdate(old(store.Orders()), orderId, StatusUpdates(status, riderId, now))
      ensures store.riderSlot == old(store.riderSlot) && store.RiderSession() == old(store.RiderSession())
      ensures Synced() && currentRider == old(currentRider)
    {
      var updates := StatusUpdates(status, riderId, now);
      store.UpdateOrder(orderId, updates);
      RefreshData();
    }

    /**
     * `loginRider`: look the phone number up in the stored riders; on success
     * remember the first matching rider and persist its id as the session.
     * The in-memory collections are not refreshed.
     */
    method LoginRider(phoneNumber: string) returns (ok: bool)
      modifies this, store
      ensures ok <==> exists i :: 0 <= i < |store.Riders()| && store.Riders()[i].phoneNumber == phoneNumber
      ensures ok ==> currentRider == RiderWithPhone(store.Riders(), phoneNumber)
      ensures ok ==> store.RiderSession() == Some(currentRider.value.id)
      ensures !ok ==> currentRider == old(currentRider) && store.RiderSession() == old(store.RiderSession())
      ensures store.riderSlot == old(store.riderSlot) && store.orderSlot == old(store.orderSlot)
      ensures riders == old(riders) && orders == old(orders)
    {
      var currentRiders := store.Riders();
      var found := RiderWithPhone(currentRiders, phoneNumber);
      if found.Some? {
        currentRider := found;
        store.SetRiderSession(found.value.id);
        assert store.Riders() == currentRiders;
        return true;
      }
      return false;
    }

    /** `logoutRider`: forget the current rider and remove the saved session. */
    method LogoutRider()
      modifies this, store
      ensures currentRider == None && store.RiderSession() == None
      ensures store.riderSlot == old(store.riderSlot) && store.orderSlot == old(store.orderSlot)
      ensures riders == old(riders) && orders == old(orders)
    {
      currentRider := None;
      store.ClearRiderSession();
    }
  }
}

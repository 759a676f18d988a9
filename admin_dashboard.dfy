/**
 * `pages/AdminDashboard.tsx`: the admin's rider and order forms and the rider
 * lookup of the order history. The clock, the uuid generator, `Math.random`
 * and the `Number(...)` coercion of the numeric form fields are parameters.
 */
module AdminDashboard {

  import opened Wrappers
  import opened Types
  import opened AppContext
  import opened RiderDashboard

  /** The character of a decimal digit. */
  function DigitChar(d: int): (c: char)
    requires 0 <= d < 10
    ensures '0' <= c <= '9'
  {
    (d + '0' as int) as char
  }

  predicate IsDigits(s: string)
  {
    forall i :: 0 <= i < |s| ==> '0' <= s[i] <= '9'
  }

  /** `n.toString()` for a non-negative integer: decimal digits, no leading zero. */
  function DecimalString(n: nat): (s: string)
    ensures |s| >= 1 && IsDigits(s)
    ensures s[0] == '0' ==> n == 0
  {
    if n < 10 then [DigitChar(n)] else DecimalString(n / 10) + [DigitChar(n % 10)]
  }

  /** The number a string of decimal digits denotes. */
  function DecimalValue(s: string): nat
    requires IsDigits(s)
  {
    if |s| == 0 then 0 else DecimalValue(s[..|s| - 1]) * 10 + (s[|s| - 1] as int - '0' as int)
  }

  /** Reading the decimal string back gives the number. */
  lemma {:induction false} DecimalRoundTrip(n: nat)
    ensures DecimalValue(DecimalString(n)) == n
  {
    var s := DecimalString(n);
    if n >= 10 {
      DecimalRoundTrip(n / 10);
      assert s[..|s| - 1] == DecimalString(n / 10);
    }
  }

  /** A number between 1000 and 9999 is written with exactly four digits. */
  lemma FourDigitNumbers(n: nat)
    requires 1000 <= n <= 9999
    ensures |DecimalString(n)| == 4
  {
    var three, two, one := n / 10, n / 10 / 10, n / 10 / 10 / 10;
    assert 1 <= one <= 9 && |DecimalString(one)| == 1;
    assert 10 <= two <= 99 && |DecimalString(two)| == 2;
    assert 100 <= three <= 999 && |DecimalString(three)| == 3;
  }

  /** `Math.floor(1000 + Math.random() * 9000)` for a draw `random` in [0, 1). */
  function ShortIdNumber(random: real): (n: int)
    requires 0.0 <= random < 1.0
    ensures 1000 <= n <= 9999
  {
    (1000.0 + random * 9000.0).Floor
  }

  /** The display code of a new order: always four decimal digits, denoting a number in [1000, 9999]. */
  lemma ShortIdHasFourDigits(random: real)
    requires 0.0 <= random < 1.0
    ensures |DecimalString(ShortIdNumber(random))| == 4
    ensures IsDigits(DecimalString(ShortIdNumber(random)))
    ensures 1000 <= DecimalValue(DecimalString(ShortIdNumber(random))) <= 9999
  {
    FourDigitNumbers(ShortIdNumber(random));
    DecimalRoundTrip(ShortIdNumber(random));
  }

  /** The rider `handleAddRider` stores: none if a field is empty, else exactly the form values. */
  function NewRider(name: string, phone: string, id: string, now: int): (r: Option<Rider>)
    ensures r.None? <==> name == "" || phone == "" || id == ""
    ensures r.Some? ==> r.value.id == id && r.value.name == name && r.value.phoneNumber == phone && r.value.createdAt == now
  {
    if name == "" || phone == "" || id == "" then None
    else Some(Rider(id, name, phone, now))
  }

  /**
   * The order `handleCreateOrder` stores: none without a customer name or
   * coordinates, else a pending order with no rider and no timestamps but its
   * creation time, carrying the form values.
   */
  function NewOrder(uuid: string, shortId: string, custName: string, custPhone: string, coords: string,
                    charges: real, itemsVal: real, qty: real, now: int): (r: Option<Order>)
    ensures r.None? <==> custName == "" || coords == ""
    ensures r.Some? ==>
      && r.value.status == Pending
      && r.value.assignedRiderId.None? && r.value.acceptedAt.None? && r.value.completedAt.None?
      && r.value.id == uuid && r.value.shortId == shortId && r.value.createdAt == now
      && r.value.customerName == custName && r.value.customerNumber == custPhone && r.value.coordinates == coords
      && r.value.deliveryCharges == charges && r.value.itemsValue == itemsVal && r.value.itemsQuantity == qty
  {
    if custName == "" || coords == "" then None
    else Some(Order(uuid, shortId, custName, custPhone, coords, charges, itemsVal, qty, Pending, now, None, None, None))
  }

  /** A rider just added can log in with their phone number; they are the one found unless an earlier rider shares it. */
  lemma AddedRiderCanLogIn(riders: seq<Rider>, rider: Rider)
    ensures RiderWithPhone(riders + [rider], rider.phoneNumber).Some?
    ensures (forall i :: 0 <= i < |riders| ==> riders[i].phoneNumber != rider.phoneNumber) ==>
      RiderWithPhone(riders + [rider], rider.phoneNumber) == Some(rider)
  {
    var all := riders + [rider];
    assert all[|riders|].phoneNumber == rider.phoneNumber;
    if forall i :: 0 <= i < |riders| ==> riders[i].phoneNumber != rider.phoneNumber {
      RiderWithPhoneIsFirst(all, rider.phoneNumber, |riders|);
    }
  }

  /** A newly created order is offered to every rider who has no active delivery, when nothing else is pending. */
  lemma CreatedOrderIsOffered(orders: seq<Order>, order: Order, riderId: string)
    requires order.status == Pending
    requires forall i :: 0 <= i < |orders| ==> !IsActiveFor(orders[i], riderId) && orders[i].status != Pending
    ensures SelectView(orders + [order], riderId) == View(None, Some(order))
  {
    var all := orders + [order];
    assert forall i :: 0 <= i < |orders| ==> all[i] == orders[i];
    FirstPendingIsOffered(all, riderId, |orders|);
  }

  /** `getRiderDetails`: no rider for an absent or empty id, else the first rider with that id, if any. */
  function GetRiderDetails(riders: seq<Rider>, riderId: Option<string>): (r: Option<Rider>)
    ensures !Truthy(riderId) ==> r.None?
    ensures r.Some? <==> Truthy(riderId) && exists i :: 0 <= i < |riders| && riders[i].id == riderId.value
    ensures r.Some? ==> r.value in riders && Some(r.value.id) == riderId
  {
    if !Truthy(riderId) then None else RiderWithId(riders, riderId.value)
  }

  /** With duplicate ids, the details shown are those of the earliest rider carrying the id. */
  lemma GetRiderDetailsIsFirst(riders: seq<Rider>, id: string, k: int)
    requires id != ""
    requires 0 <= k < |riders| && riders[k].id == id
    requires forall j :: 0 <= j < k ==> riders[j].id != id
    ensures GetRiderDetails(riders, Some(id)) == Some(riders[k])
  {
    RiderWithIdIsFirst(riders, id, k);
  }

  /** The admin page's form state, over the shared application state. */
  class AdminForm {
    const app: App
    var riderName: string
    var riderPhone: string
    var riderId: string
    var custName: string
    var custPhone: string
    var coords: string
    var delCharges: string
    var itemsVal: string
    var qty: string

    constructor (app: App)
      ensures this.app == app
      ensures riderName == "" && riderPhone == "" && riderId == ""
      ensures custName == "" && custPhone == "" && coords == "" && delCharges == "" && itemsVal == "" && qty == ""
    {
      this.app := app;
      riderName, riderPhone, riderId := "", "", "";
      custName, custPhone, coords, delCharges, itemsVal, qty := "", "", "", "", "", "";
    }

    /** `handleAddRider`: with all three fields filled, store the rider and clear the rider form. */
    method HandleAddRider(now: int)
      modifies this, app, app.store
      ensures NewRider(old(riderName), old(riderPhone), old(riderId), now).None? ==> unchanged(this, app, app.store)
      ensures NewRider(old(riderName), old(riderPhone), old(riderId), now).Some? ==>
        && app.store.Riders() == old(app.store.Riders()) + [NewRider(old(riderName), old(riderPhone), old(riderId), now).value]
        && app.store.orderSlot == old(app.store.orderSlot) && app.store.RiderSession() == old(app.store.RiderSession())
        && app.Synced() && app.currentRider == old(app.currentRider)
        && riderName == "" && riderPhone == "" && riderId == ""
      ensures custName == old(custName) && custPhone == old(custPhone) && coords == old(coords)
      ensures delCharges == old(delCharges) && itemsVal == old(itemsVal) && qty == old(qty)
    {
      if riderName == "" || riderPhone == "" || riderId == "" {
        return;
      }
      app.AddRider(Rider(riderId, riderName, riderPhone, now));
      riderName, riderPhone, riderId := "", "", "";
    }

    /**
     * `handleCreateOrder`: with a customer name and coordinates, store a new
     * pending order with a four-digit display code and clear the order form.
     */
    method HandleCreateOrder(uuid: string, random: real, now: int, number: string -> real)
      requires 0.0 <= random < 1.0
      modifies this, app, app.store
      ensures old(custName) == "" || old(coords) == "" ==> unchanged(this, app, app.store)
      ensures old(custName) != "" && old(coords) != "" ==>
        && app.store.Orders() == old(app.store.Orders()) +
             [NewOrder(uuid, DecimalString(ShortIdNumber(random)), old(custName), old(custPhone), old(coords),
                       number(old(delCharges)), number(old(itemsVal)), number(old(qty)), now).value]
        && app.store.riderSlot == old(app.store.riderSlot) && app.store.RiderSession() == old(app.store.RiderSession())
        && app.Synced() && app.currentRider == old(app.currentRider)
        && custName == "" && custPhone == "" && coords == "" && delCharges == "" && itemsVal == "" && qty == ""
      ensures riderName == old(riderName) && riderPhone == old(riderPhone) && riderId == old(riderId)
    {
      if custName == "" || coords == "" {
        return;
      }
      var shortId := DecimalString(ShortIdNumber(random));
      var order := Order(uuid, shortId, custName, custPhone, coords,
                         number(delCharges), number(itemsVal), number(qty), Pending, now, None, None, None);
      app.AddOrder(order);
      custName, custPhone, coords, delCharges, itemsVal, qty := "", "", "", "", "", "";
    }
  }
}

/**
 * `pages/RiderDashboard.tsx`: what a logged-in rider is shown. The view is a
 * pure function of the order list and the rider's id (an active delivery, an
 * incoming offer, or neither); the dashboard keeps the last computed view as
 * component state, and its handlers write through `updateOrderStatus`.
 */
module RiderDashboard {

  import opened Wrappers
  import opened Seqs
  import opened Types
  import opened StorageService
  import opened AppContext

  /** Accepted and assigned to this rider. */
  predicate IsActiveFor(o: Order, riderId: string)
  {
    o.assignedRiderId == Some(riderId) && o.status == Accepted
  }

  /** The rider's active delivery: the first order accepted by them. */
  function ActiveDelivery(orders: seq<Order>, riderId: string): (r: Option<Order>)
    ensures r.None? <==> forall i :: 0 <= i < |orders| ==> !IsActiveFor(orders[i], riderId)
    ensures r.Some? ==> r.value in orders && IsActiveFor(r.value, riderId)
  {
    Find(orders, (o: Order) => IsActiveFor(o, riderId))
  }

  /** The first pending order, whoever looks at it. */
  function FirstPending(orders: seq<Order>): (r: Option<Order>)
    ensures r.None? <==> forall i :: 0 <= i < |orders| ==> orders[i].status != Pending
    ensures r.Some? ==> r.value in orders && r.value.status == Pending
  {
    Find(orders, (o: Order) => o.status == Pending)
  }

  /** The dashboard's two pieces of view state. */
  datatype View = View(activeDelivery: Option<Order>, incomingOrder: Option<Order>)

  /** The view-selection effect: the active delivery if any, otherwise the first pending order as the offer. */
  function SelectView(orders: seq<Order>, riderId: string): (v: View)
    ensures !(v.activeDelivery.Some? && v.incomingOrder.Some?)
  {
    var myActive := ActiveDelivery(orders, riderId);
    if myActive.None? then View(None, FirstPending(orders)) else View(myActive, None)
  }

  /**
   * The selected view: an active delivery and an offer are never both set; the
   * active delivery is set exactly when some order is accepted by the rider,
   * and is such an order; the offer is set exactly when none is and some order
   * is pending, and is a pending order.
   */
  lemma SelectViewShape(orders: seq<Order>, riderId: string)
    ensures !(SelectView(orders, riderId).activeDelivery.Some? && SelectView(orders, riderId).incomingOrder.Some?)
    ensures SelectView(orders, riderId).activeDelivery.Some? <==>
      exists i :: 0 <= i < |orders| && IsActiveFor(orders[i], riderId)
    ensures SelectView(orders, riderId).activeDelivery.Some? ==>
      SelectView(orders, riderId).activeDelivery.value in orders &&
      IsActiveFor(SelectView(orders, riderId).activeDelivery.value, riderId)
    ensures SelectView(orders, riderId).incomingOrder.Some? <==>
      (forall i :: 0 <= i < |orders| ==> !IsActiveFor(orders[i], riderId)) &&
      (exists i :: 0 <= i < |orders| && orders[i].status == Pending)
    ensures SelectView(orders, riderId).incomingOrder.Some? ==>
      SelectView(orders, riderId).incomingOrder.value in orders &&
      SelectView(orders, riderId).incomingOrder.value.status == Pending
  {
  }

  /** An order accepted by the rider hides every pending offer; the first such order is the one shown. */
  lemma ActiveDeliveryWins(orders: seq<Order>, riderId: string, k: int)
    requires 0 <= k < |orders| && IsActiveFor(orders[k], riderId)
    requires forall j :: 0 <= j < k ==> !IsActiveFor(orders[j], riderId)
    ensures SelectView(orders, riderId) == View(Some(orders[k]), None)
  {
    FindIsFirst(orders, (o: Order) => IsActiveFor(o, riderId), k);
  }

  /** With nothing accepted by the rider, the first pending order is offered. */
  lemma FirstPendingIsOffered(orders: seq<Order>, riderId: string, k: int)
    requires forall i :: 0 <= i < |orders| ==> !IsActiveFor(orders[i], riderId)
    requires 0 <= k < |orders| && orders[k].status == Pending
    requires forall j :: 0 <= j < k ==> orders[j].status != Pending
    ensures SelectView(orders, riderId) == View(None, Some(orders[k]))
  {
    FindIsFirst(orders, (o: Order) => o.status == Pending, k);
  }

  /**
   * Accepting the offered order and re-running the selection shows an active
   * delivery for the offered id, and no offer.
   */
  lemma AcceptedOfferBecomesActive(orders: seq<Order>, riderId: string, now: int)
    requires riderId != ""
    requires SelectView(orders, riderId).incomingOrder.Some?
    ensures var offer := SelectView(orders, riderId).incomingOrder.value;
      var after := SelectView(ApplyUpdate(orders, offer.id, StatusUpdates(Accepted, Some(riderId), now)), riderId);
      after.activeDelivery.Some? && after.activeDelivery.value.id == offer.id && after.incomingOrder.None?
  {
    var offer := SelectView(orders, riderId).incomingOrder.value;
    var updated := ApplyUpdate(orders, offer.id, StatusUpdates(Accepted, Some(riderId), now));
    var k := IndexOfId(orders, offer.id);
    assert k != -1 by {
      var i :| 0 <= i < |orders| && orders[i] == offer;
      assert orders[i].id == offer.id;
    }
    UpdateOrderStatusEffect(orders, offer.id, Accepted, Some(riderId), now, k);
    assert IsActiveFor(updated[k], riderId);
    assert forall j :: 0 <= j < k ==> updated[j] == orders[j];
    ActiveDeliveryWins(updated, riderId, k);
  }

  /** The card the dashboard renders, by the guards of its three scenarios. */
  datatype Screen = DeliveryInProgress(order: Order) | IncomingRequest(order: Order) | Waiting

  function ScreenOf(v: View): (s: Screen)
    ensures s.DeliveryInProgress? <==> v.activeDelivery.Some?
    ensures s.DeliveryInProgress? ==> v.activeDelivery == Some(s.order)
    ensures s.IncomingRequest? ==> v.activeDelivery.None? && v.incomingOrder == Some(s.order)
    ensures s.Waiting? ==> v.activeDelivery.None? && v.incomingOrder.None?
  {
    if v.activeDelivery.Some? then DeliveryInProgress(v.activeDelivery.value)
    else if v.incomingOrder.Some? then IncomingRequest(v.incomingOrder.value)
    else Waiting
  }

  /** For a selected view, the screen shows exactly what was selected: no offer is hidden by the guards. */
  lemma ScreenShowsSelection(orders: seq<Order>, riderId: string, o: Order)
    ensures ScreenOf(SelectView(orders, riderId)) == DeliveryInProgress(o) <==>
      SelectView(orders, riderId).activeDelivery == Some(o)
    ensures ScreenOf(SelectView(orders, riderId)) == IncomingRequest(o) <==>
      SelectView(orders, riderId).incomingOrder == Some(o)
    ensures ScreenOf(SelectView(orders, riderId)) == Waiting <==>
      SelectView(orders, riderId) == View(None, None)
  {
  }

  /** The status badge of a history entry. */
  datatype StatusLabel = InProgressByYou | AcceptedByOther | DeliveredByYou | DeliveredByOther | Plain(status: OrderStatus)

  /** The badge's text; only the two badges that name the viewer say "You". */
  function LabelText(l: StatusLabel): (t: string)
    ensures NamesViewer(l) <==> t == "In Progress (You)" || t == "Delivered by You"
  {
    match l
    case InProgressByYou => "In Progress (You)"
    case AcceptedByOther => "Accepted by other"
    case DeliveredByYou => "Delivered by You"
    case DeliveredByOther => "Delivered by other"
    case Plain(s) => StatusName(s)
  }

  /** The badges that name the viewing rider. */
  predicate NamesViewer(l: StatusLabel)
  {
    l.InProgressByYou? || l.DeliveredByYou?
  }

  /** The badge of one order for the viewing rider. */
  function Label(o: Order, riderId: string): (l: StatusLabel)
    ensures NamesViewer(l) ==> o.assignedRiderId == Some(riderId)
    ensures l.Plain? <==> o.status != Accepted && o.status != Delivered
  {
    if o.status == Accepted then
      if o.assignedRiderId == Some(riderId) then InProgressByYou else AcceptedByOther
    else if o.status == Delivered then
      if o.assignedRiderId == Some(riderId) then DeliveredByYou else DeliveredByOther
    else Plain(o.status)
  }

  /**
   * An accepted or delivered order names the viewer iff it is assigned to the
   * viewer, and its badge keeps its status apart; any other order shows its raw status.
   */
  lemma LabelNamesViewerIffAssigned(o: Order, riderId: string)
    ensures o.status == Accepted || o.status == Delivered ==>
      (NamesViewer(Label(o, riderId)) <==> o.assignedRiderId == Some(riderId))
    ensures o.status == Accepted <==> Label(o, riderId) in {InProgressByYou, AcceptedByOther}
    ensures o.status == Delivered <==> Label(o, riderId) in {DeliveredByYou, DeliveredByOther}
    ensures o.status != Accepted && o.status != Delivered ==>
      LabelText(Label(o, riderId)) == StatusName(o.status)
  {
  }

  datatype HistoryEntry = HistoryEntry(order: Order, badge: StatusLabel)

  /** The "Recent Activity" list: the orders newest-first, pending ones skipped, each with its badge. */
  function History(orders: seq<Order>, riderId: string): (h: seq<HistoryEntry>)
    ensures forall i :: 0 <= i < |h| ==> h[i].order.status != Pending && h[i].badge == Label(h[i].order, riderId)
  {
    if |orders| == 0 then []
    else
      var rest := History(orders[1..], riderId);
      if orders[0].status == Pending then rest
      else rest + [HistoryEntry(orders[0], Label(orders[0], riderId))]
  }

  /** `orders.filter(o => o.status !== 'pending')`, in store order. */
  function NonPending(orders: seq<Order>): seq<Order>
  {
    if |orders| == 0 then []
    else (if orders[0].status == Pending then [] else [orders[0]]) + NonPending(orders[1..])
  }

  function EntryOrders(h: seq<HistoryEntry>): seq<Order>
  {
    seq(|h|, i requires 0 <= i < |h| => h[i].order)
  }

  /** The filter keeps exactly the non-pending orders. */
  lemma {:induction false} NonPendingMembers(orders: seq<Order>)
    ensures forall o :: o in NonPending(orders) <==> o in orders && o.status != Pending
  {
    if |orders| > 0 {
      NonPendingMembers(orders[1..]);
      assert orders == [orders[0]] + orders[1..];
    }
  }

  /** The history lists exactly the non-pending orders, in reverse store order. */
  lemma {:induction false} HistoryIsReversedNonPending(orders: seq<Order>, riderId: string)
    ensures EntryOrders(History(orders, riderId)) == Reverse(NonPending(orders))
  {
    if |orders| > 0 {
      var rest := orders[1..];
      HistoryIsReversedNonPending(rest, riderId);
      if orders[0].status == Pending {
        assert History(orders, riderId) == History(rest, riderId);
        assert NonPending(orders) == [] + NonPending(rest) == NonPending(rest);
      } else {
        var e := HistoryEntry(orders[0], Label(orders[0], riderId));
        assert History(orders, riderId) == History(rest, riderId) + [e];
        EntryOrdersAppend(History(rest, riderId), e);
        assert NonPending(orders) == [orders[0]] + NonPending(rest);
        ReversePrepend(orders[0], NonPending(rest));
      }
    }
  }

  /** Appending an entry appends its order. */
  lemma EntryOrdersAppend(h: seq<HistoryEntry>, e: HistoryEntry)
    ensures EntryOrders(h + [e]) == EntryOrders(h) + [e.order]
  {
  }

  /** Reversing moves a first element to the end. */
  lemma ReversePrepend<T>(x: T, s: seq<T>)
    ensures Reverse([x] + s) == Reverse(s) + [x]
  {
    assert ([x] + s)[1..] == s;
  }

  /** The "History is empty." line, shown when no order is past pending. */
  predicate ShowsEmptyHistory(orders: seq<Order>)
  {
    |NonPending(orders)| == 0
  }

  /** The empty-history line appears exactly when the list is empty, that is when every order is pending. */
  lemma EmptyHistoryShownIffNoEntries(orders: seq<Order>, riderId: string)
    ensures ShowsEmptyHistory(orders) <==> |History(orders, riderId)| == 0
    ensures ShowsEmptyHistory(orders) <==> forall i :: 0 <= i < |orders| ==> orders[i].status == Pending
  {
    HistoryIsReversedNonPending(orders, riderId);
    NonPendingMembers(orders);
    var np := NonPending(orders);
    if |np| > 0 {
      assert np[0] in np;
    }
    if exists i :: 0 <= i < |orders| && orders[i].status != Pending {
      var i :| 0 <= i < |orders| && orders[i].status != Pending;
      assert orders[i] in np;
    }
  }

  /** The dashboard component's state, over the shared application state. */
  class Dashboard {
    const app: App
    var incomingOrder: Option<Order>
    var activeDelivery: Option<Order>

    /**
     * What the view state always satisfies: an offer is a pending order, an
     * active delivery is an accepted order with a rider, and never both.
     */
    ghost predicate Valid()
      reads this
    {
      && (incomingOrder.Some? ==> incomingOrder.value.status == Pending)
      && (activeDelivery.Some? ==> activeDelivery.value.status == Accepted && activeDelivery.value.assignedRiderId.Some?)
      && !(incomingOrder.Some? && activeDelivery.Some?)
    }

    constructor (app: App)
      ensures this.app == app && Valid()
      ensures incomingOrder == None && activeDelivery == None
    {
      this.app := app;
      incomingOrder, activeDelivery := None, None;
    }

    /**
     * The view-selection effect, run whenever the orders or the current rider
     * change: nothing without a rider, otherwise the selected view.
     */
    method SyncView()
      requires Valid()
      modifies this
      ensures Valid()
      ensures app.currentRider.None? ==>
        incomingOrder == old(incomingOrder) && activeDelivery == old(activeDelivery)
      ensures app.currentRider.Some? ==>
        View(activeDelivery, incomingOrder) == SelectView(app.orders, app.currentRider.value.id)
    {
      if app.currentRider.None? {
        return;
      }
      var rider := app.currentRider.value;
      var myActive := ActiveDelivery(app.orders, rider.id);
      activeDelivery := myActive;
      if myActive.None? {
        var pending := FirstPending(app.orders);
        incomingOrder := pending;
      } else {
        incomingOrder := None;
      }
    }

    /**
     * `handleAccept`: with an offer and a rider, request `accepted` for the
     * offered order, stamped with the rider's id, then drop the offer. The
     * order was pending in the snapshot the offer came from.
     */
    method HandleAccept(now: int)
      requires Valid()
      modifies this, app, app.store
      ensures Valid()
      ensures old(incomingOrder).Some? ==> old(incomingOrder).value.status == Pending
      ensures old(incomingOrder).Some? && old(app.currentRider).Some? ==>
        && app.store.Orders() == ApplyUpdate(old(app.store.Orders()), old(incomingOrder).value.id,
                                             StatusUpdates(Accepted, Some(old(app.currentRider).value.id), now))
        && app.Synced()
        && incomingOrder == None
      ensures !(old(incomingOrder).Some? && old(app.currentRider).Some?) ==>
        unchanged(this, app, app.store)
      ensures activeDelivery == old(activeDelivery) && app.currentRider == old(app.currentRider)
      ensures app.store.riderSlot == old(app.store.riderSlot) && app.store.RiderSession() == old(app.store.RiderSession())
    {
      if incomingOrder.Some? && app.currentRider.Some? {
        app.UpdateOrderStatus(incomingOrder.value.id, Accepted, Some(app.currentRider.value.id), now);
        incomingOrder := None;
      }
    }

    /** `handleDecline`: drop the offer locally; nothing is written. */
    method HandleDecline()
      requires Valid()
      modifies this
      ensures Valid()
      ensures incomingOrder == None && activeDelivery == old(activeDelivery)
    {
      if incomingOrder.Some? {
        incomingOrder := None;
      }
    }

    /**
     * `handleCompleteDelivery`: with an active delivery, request `delivered`
     * for it, then drop it. The order was accepted in the snapshot it came from.
     */
    method HandleCompleteDelivery(now: int)
      requires Valid()
      modifies this, app, app.store
      ensures Valid()
      ensures old(activeDelivery).Some? ==> old(activeDelivery).value.status == Accepted
      ensures old(activeDelivery).Some? ==>
        && app.store.Orders() == ApplyUpdate(old(app.store.Orders()), old(activeDelivery).value.id,
                                             StatusUpdates(Delivered, None, now))
        && app.Synced()
        && activeDelivery == None
      ensures old(activeDelivery).None? ==> unchanged(this, app, app.store)
      ensures incomingOrder == old(incomingOrder) && app.currentRider == old(app.currentRider)
      ensures app.store.riderSlot == old(app.store.riderSlot) && app.store.RiderSession() == old(app.store.RiderSession())
    {
      if activeDelivery.Some? {
        app.UpdateOrderStatus(activeDelivery.value.id, Delivered, None, now);
        activeDelivery := None;
      }
    }
  }
}

# Delivery riders panel: order store and order lifecycle

A Dafny model of the core of a single-page delivery panel. An admin registers
riders and broadcasts delivery orders. Riders log in with their phone number,
are offered pending orders, accept them and mark them delivered. Everything is
kept in the browser's key-value store.

The model follows the source file by file:

- `types.dfy` (module `Types`): riders, orders, the four order statuses and
  partial orders (`Partial<Order>`), after `types.ts`.
- `storage_service.dfy` (module `StorageService`): the class `Store` with the
  three storage keys (riders, orders, rider session) as fields. Its methods
  append, patch and set the session. `ApplyUpdate` specifies `updateOrder`:
  the first order with the id is shallow-merged with the patch, and an absent
  id changes nothing.
- `app_context.dfy` (module `AppContext`): the class `App`. It holds the
  in-memory riders and orders, the logged-in rider and the store. It covers
  startup (initial load and session restore), the writes followed by a
  wholesale refresh, and login and logout. `StatusUpdates` is the patch
  `updateOrderStatus` builds.
- `rider_dashboard.dfy` (module `RiderDashboard`): the rider's view. It is a
  pure selection of the active delivery or the incoming offer, plus the
  history list with its status badges. The class `Dashboard` holds the view
  state and the accept, decline and complete handlers.
- `admin_dashboard.dfy` (module `AdminDashboard`): the rider and order forms
  with their guards, the four-digit display code, and `getRiderDetails`.
- `seqs.dfy` and `wrappers.dfy`: `find`, `findIndex` and `reverse` on
  sequences, and `Option`.

The order lifecycle is modelled as the code has it. `updateOrderStatus`
writes any status onto any existing order and rejects no transition.
`declined` is declared but never written. An idealised lifecycle would
reject illegal transitions; the code does not, and the model follows the
code. What is proved instead is what the
call sites guarantee. The dashboard asks for `accepted` only for an order
that was `pending` in the snapshot it read, and for `delivered` only for one
that was `accepted` there (`RiderDashboard.Dashboard.Valid`, and the contracts
of `HandleAccept` and `HandleCompleteDelivery`).

Parameters stand in for the environment:
- the clock (`now`);
- the uuid generator (`uuid`);
- `Math.random()` (`random` in [0, 1));
- the `Number(...)` coercion of the numeric form fields (a function
  `number: string -> real`).

The React effect that re-selects the rider's view whenever the orders or the
current rider change is the method `Dashboard.SyncView`. A caller runs it
after `app.orders` is refreshed or `app.currentRider` changes, which is when
React re-runs the effect. `HandleDecline` changes neither, so a dismissed offer
stays dismissed until the next refresh.

## Model

| member | source | states |
|---|---|---|
| `Seqs.FindIndex` | services/storageService.ts:34 | the result is -1 exactly when no element satisfies the predicate, otherwise the index of the first element that does |
| `Seqs.Find` | pages/RiderDashboard.tsx:22 | no result exactly when no element satisfies the predicate, otherwise an element of the sequence that does |
| `Seqs.FindIsFirst` | AppContext.tsx:82 | when duplicates match, `find` returns the earliest matching element |
| `Seqs.Reverse` | pages/RiderDashboard.tsx:245 | the copy has the same length and holds element `|s|-1-i` at position i |
| `StorageService.Merge` | services/storageService.ts:36 | the empty patch leaves the order as it was, a patch without an id keeps the order's id, and a patched status is taken from the patch |
| `StorageService.MergeIdempotent` | services/storageService.ts:36 | merging the same patch a second time changes nothing more |
| `StorageService.MergeTakesPresentFields` | services/storageService.ts:36 | the shallow merge takes every field present in the patch from the patch and keeps every other field; the empty patch changes nothing |
| `StorageService.MergeLastWriteWins` | services/storageService.ts:36 | merging two patches in turn equals merging once with the combined patch, the later patch winning per field |
| `StorageService.IndexOfId` | services/storageService.ts:34 | -1 exactly when no order has the id, otherwise the first index holding the id |
| `StorageService.ApplyUpdate` | services/storageService.ts:33-38 | the orders keep their length and every order with another id is untouched; what happens to the matching order is stated by `UpdateAbsentIdIsNoop` and `UpdatePresentIdChangesFirstOnly` |
| `StorageService.UpdateAbsentIdIsNoop` | services/storageService.ts:34-35 | an id no order has leaves the orders exactly as they were |
| `StorageService.UpdatePresentIdChangesFirstOnly` | services/storageService.ts:34-37 | for a present id, the first order with it becomes its merge with the patch, every other order is untouched, and the length is kept |
| `StorageService.UpdateLastWriteWins` | services/storageService.ts:36 | two updates of the same id equal one update with the per-field later value, provided the first patch keeps the order's id |
| `StorageService.Store.constructor` | services/storageService.ts:3-5 | a fresh store has none of its three keys written |
| `StorageService.Store.Riders` | services/storageService.ts:8-11 | riders read as the empty sequence when the key was never written |
| `StorageService.Store.Orders` | services/storageService.ts:21-24 | orders read as the empty sequence when the key was never written |
| `StorageService.Store.SaveRider` | services/storageService.ts:13-16 | the riders become the old riders followed by the new one; the other keys are untouched |
| `StorageService.Store.SaveOrder` | services/storageService.ts:26-30 | the orders become the old orders followed by the new one; the other keys are untouched |
| `StorageService.Store.UpdateOrder` | services/storageService.ts:32-39 | the orders become `ApplyUpdate` of the old orders; with an absent id nothing is written, not even an empty collection |
| `StorageService.Store.SetRiderSession` | services/storageService.ts:42-48 | reading the session afterwards gives the id that was set; riders and orders are untouched |
| `StorageService.Store.ClearRiderSession` | services/storageService.ts:46-52 | reading the session afterwards gives nothing; riders and orders are untouched |
| `AppContext.RiderWithId` | AppContext.tsx:37 | no rider exactly when none has the id, otherwise a stored rider with that id |
| `AppContext.RiderWithPhone` | AppContext.tsx:82 | a rider is found exactly when some stored rider has the phone number, and it has that number |
| `AppContext.RiderWithIdIsFirst` | AppContext.tsx:37 | with duplicate ids, the earliest rider with the id is found |
| `AppContext.RiderWithPhoneIsFirst` | AppContext.tsx:82 | with duplicate phone numbers, login finds the earliest rider with the number |
| `AppContext.RestoreSession` | AppContext.tsx:34-39 | nothing is restored for an absent or empty saved id, and a restored rider is a stored rider carrying the saved id; the converse is `RestoreSessionResolves` |
| `AppContext.RestoreSessionResolves` | AppContext.tsx:34-39 | a rider is restored exactly when a non-empty saved id matches a stored rider, and the restored rider carries that id |
| `AppContext.StatusUpdates` | AppContext.tsx:63-72 | the patch always carries the requested status and never an id or any form field. Rider and acceptance time are present together, exactly for an accept with a non-empty rider id, and then hold that id and `now`. The completion time is present exactly for a delivery, and then is `now` |
| `AppContext.UpdateOrderStatusEffect` | AppContext.tsx:62-74 | the requested status is written whatever the current one. Accept with a non-empty rider id stamps rider and acceptance time together. Accept without one sets the status only. Deliver stamps the completion time and keeps rider and acceptance time. Other orders and the length are unchanged |
| `AppContext.AcceptRaceLastWins` | AppContext.tsx:65-68 | two acceptances of the same order by different riders leave the store as if only the later had happened |
| `AppContext.App.constructor` | AppContext.tsx:29-39 | after mounting, the in-memory collections equal the store's, and the current rider is the session restore of the saved id |
| `AppContext.App.RefreshData` | AppContext.tsx:24-27 | the in-memory riders and orders are replaced by the store's; the current rider is kept |
| `AppContext.App.AddRider` | AppContext.tsx:50-53 | the stored riders gain the rider at the end and the in-memory copy equals the store afterwards |
| `AppContext.App.AddOrder` | AppContext.tsx:55-60 | the stored orders gain the order at the end and the in-memory copy equals the store afterwards |
| `AppContext.App.UpdateOrderStatus` | AppContext.tsx:62-77 | the stored orders become `ApplyUpdate` with the status patch, with no check of the current status, and the in-memory copy equals the store afterwards |
| `AppContext.App.LoginRider` | AppContext.tsx:79-89 | true exactly when a stored rider has the phone number. On success the current rider is the first such rider and the session holds its id. On failure the current rider and the session are unchanged |
| `AppContext.App.LogoutRider` | AppContext.tsx:91-94 | the current rider and the session become absent and nothing else changes, so a second logout changes nothing |
| `RiderDashboard.ActiveDelivery` | pages/RiderDashboard.tsx:22 | none exactly when no order is accepted and assigned to the rider, otherwise such an order |
| `RiderDashboard.FirstPending` | pages/RiderDashboard.tsx:27 | none exactly when no order is pending, otherwise a pending order |
| `RiderDashboard.SelectView` | pages/RiderDashboard.tsx:18-42 | the selected view never holds both an active delivery and an offer; which one it holds is stated by `SelectViewShape` |
| `RiderDashboard.SelectViewShape` | pages/RiderDashboard.tsx:18-42 | active delivery and offer are never both set. The active delivery is set iff some order is accepted by the rider. The offer is set iff none is and some order is pending, and it is a pending order |
| `RiderDashboard.ActiveDeliveryWins` | pages/RiderDashboard.tsx:22-23 | the first order accepted by the rider is shown as active and no offer is made, whatever else is pending |
| `RiderDashboard.FirstPendingIsOffered` | pages/RiderDashboard.tsx:26-34 | with nothing accepted by the rider, the first pending order is offered |
| `RiderDashboard.AcceptedOfferBecomesActive` | pages/RiderDashboard.tsx:59-65 | accepting the offer and selecting again shows an active delivery with the offered id and no offer |
| `RiderDashboard.ScreenOf` | pages/RiderDashboard.tsx:134-232 | the active-delivery card is rendered iff an active delivery is set, and shows it; the offer card only without an active delivery, showing the offer; the idle card only when neither is set |
| `RiderDashboard.ScreenShowsSelection` | pages/RiderDashboard.tsx:134 | of the three cards, the one rendered is exactly the selected active delivery, the selected offer, or the idle card when neither is set |
| `RiderDashboard.LabelText` | pages/RiderDashboard.tsx:251-269 | a badge names the viewer iff its text is "In Progress (You)" or "Delivered by You" |
| `RiderDashboard.Label` | pages/RiderDashboard.tsx:247-270 | a badge naming the viewer belongs to an order assigned to the viewer, and the raw status is shown iff the order is neither accepted nor delivered |
| `RiderDashboard.LabelNamesViewerIffAssigned` | pages/RiderDashboard.tsx:247-270 | an accepted or delivered order's badge names the viewer iff it is assigned to the viewer; the badge tells accepted from delivered; other orders show their raw status |
| `RiderDashboard.NonPendingMembers` | pages/RiderDashboard.tsx:292 | `NonPending`, the filter `status !== 'pending'`, holds exactly the non-pending orders of the list |
| `RiderDashboard.HistoryIsReversedNonPending` | pages/RiderDashboard.tsx:245-272 | the history lists exactly the non-pending orders, in reverse store order |
| `RiderDashboard.History` | pages/RiderDashboard.tsx:245-272 | every history entry is non-pending and carries its order's badge for the viewer; which orders appear, and in what order, is `HistoryIsReversedNonPending` |
| `RiderDashboard.EmptyHistoryShownIffNoEntries` | pages/RiderDashboard.tsx:292-294 | the guard `ShowsEmptyHistory` ("History is empty" is shown) holds iff the history has no entry, iff every order is pending |
| `RiderDashboard.Dashboard.constructor` | pages/RiderDashboard.tsx:15-16 | the dashboard starts with neither an offer nor an active delivery |
| `RiderDashboard.Dashboard.SyncView` | pages/RiderDashboard.tsx:18-42 | without a rider nothing changes, otherwise the view state becomes the selected view; the invariant is kept |
| `RiderDashboard.Dashboard.HandleAccept` | pages/RiderDashboard.tsx:59-65 | with an offer and a rider, the store receives an accept stamped with the rider's id for the offered order, which was pending in the snapshot. Then the offer is dropped. Otherwise nothing changes |
| `RiderDashboard.Dashboard.HandleDecline` | pages/RiderDashboard.tsx:67-72 | only the local offer is dropped; the frame excludes any store write |
| `RiderDashboard.Dashboard.HandleCompleteDelivery` | pages/RiderDashboard.tsx:74-79 | with an active delivery, the store receives a delivered request for it, and it was accepted in the snapshot. Then the active delivery is dropped. Otherwise nothing changes |
| `AdminDashboard.DecimalString` | pages/AdminDashboard.tsx:48 | `toString` gives at least one decimal digit and no leading zero except for 0 |
| `AdminDashboard.DecimalRoundTrip` | pages/AdminDashboard.tsx:48 | reading the decimal string back gives the number |
| `AdminDashboard.FourDigitNumbers` | pages/AdminDashboard.tsx:48 | numbers from 1000 to 9999 are written with exactly four digits |
| `AdminDashboard.ShortIdNumber` | pages/AdminDashboard.tsx:48 | for a draw in [0, 1) the code number lies in [1000, 9999] |
| `AdminDashboard.ShortIdHasFourDigits` | pages/AdminDashboard.tsx:48 | the display code is four decimal digits denoting a number in [1000, 9999] |
| `AdminDashboard.NewRider` | pages/AdminDashboard.tsx:29-36 | no rider iff name, phone or id is empty; otherwise id, name and phone are exactly the form values |
| `AdminDashboard.NewOrder` | pages/AdminDashboard.tsx:45-61 | no order iff customer name or coordinates are empty. Otherwise the order is pending, with no rider, acceptance or completion time, and carries the form values |
| `AdminDashboard.AddedRiderCanLogIn` | pages/AdminDashboard.tsx:31-36 | a rider just added can log in with their phone, and is the one found unless an earlier rider shares the number |
| `AdminDashboard.CreatedOrderIsOffered` | pages/AdminDashboard.tsx:50-61 | a new pending order is offered to a rider with no active delivery when nothing else is pending |
| `AdminDashboard.GetRiderDetails` | pages/AdminDashboard.tsx:73-76 | none for an absent or empty id; otherwise a rider is found iff some rider has the id, and it carries the id |
| `AdminDashboard.GetRiderDetailsIsFirst` | pages/AdminDashboard.tsx:75 | with duplicate rider ids, the details shown are those of the earliest rider carrying the id |
| `AdminDashboard.AdminForm.constructor` | pages/AdminDashboard.tsx:15-25 | every form field starts empty |
| `AdminDashboard.AdminForm.HandleAddRider` | pages/AdminDashboard.tsx:27-39 | with an empty field nothing changes. Otherwise the form's rider is appended to the store, the in-memory copy is refreshed and the rider form is cleared |
| `AdminDashboard.AdminForm.HandleCreateOrder` | pages/AdminDashboard.tsx:43-69 | without customer name or coordinates nothing changes. Otherwise a pending order with the form values and a four-digit code is appended, the in-memory copy is refreshed and the order form is cleared |

`StorageService.Store.RiderSession` models `getRiderSession`
(services/storageService.ts:46-48). It is a plain read of the session key,
and `App`'s constructor restores the session through it. What it returns is
stated by the contracts of `SetRiderSession` and `ClearRiderSession`.

## Left out

- JSON encoding and `localStorage` itself: a key holds the typed collection directly. Malformed stored text is not modelled.
- The cross-tab `storage` listener and the synthetic `dispatchEvent` calls: their effect is the refresh that follows every write.
- Audio ring, notifications, geolocation prefill, map links and `alert`: browser calls with no logic in the core.
- The haversine distance and its `toFixed` formatting: floating-point trigonometry.
- `Number(...)` coercion and the PKR sums: JavaScript float semantics; the coercion is a parameter and amounts are reals.
- Patches whose fields are present with the value `undefined`: a patch field is either absent or holds a value. `updateOrderStatus` never builds such a patch.
- The form setters (`onChange`), the admin passphrase page, routing and the rider login page: UI wrappers around the operations above.
- `ShortIdNumber`: assumes the floating-point product `Math.random() * 9000` stays below 9000, as it does for every double below 1.

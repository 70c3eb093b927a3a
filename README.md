# tech-cafe core, modelled in Dafny

tech-cafe is a café-ordering web app. Customers browse a café's menu, build a
cart, pick a pickup slot and pay. Staff run a live order board, edit the menu
and read sales statistics. This project models the parts of the app that hold
logic of their own, and proves what they promise:

- **Pickup slots.** `GET /api/slots` builds a date's slot-availability rows from
  the café's active slot templates the first time that date is asked for. It
  then keeps only the slots still ahead of the current time, comparing
  zero-padded time strings. The admin initialiser generates the template set:
  08:00 to 22:00 in 15-minute steps (`SlotTimes`, `Slots`, `AdminAuth`).
- **Order creation and the order lifecycle.** `POST /api/orders/create` checks
  its input and books the slot. It then creates the Razorpay order and inserts
  the order, its items, the payment record and a coupon use. If any of those
  steps fails, it releases the slot again. The admin live board moves orders
  through pending → confirmed → preparing → ready → completed, sends
  notifications, and releases the slot of a rejected order (`OrdersCreate`,
  `AdminOrders`).
- **Cart and pricing.** The cart store holds cart lines and the café they
  belong to. The item modal chooses a variant, add-ons and a quantity. Reorder
  copies an old order into the cart (`Cart`, `MenuCard`, `OrderCard`, `Utils`).
- **Helpers.** These cover:
  - time, label and truncation formatting (`Utils`);
  - the menu-item editor: slugs, variant and add-on rows, the save sequence
    (`MenuItemEditor`);
  - the admin statistics (`Stats`);
  - the search and category filters (`Search`, `CategoryTabs`);
  - the VAPID key decoding of the push hook (`PushKey`).

The database, Razorpay, the push service, the clock and id generation are
outside the model:

- A query result, or whether a call succeeds or throws, is a parameter.
- The current date and time and freshly generated ids are parameters.
- Each write the code makes to the outside world is recorded in order in an
  append-only sequence owned by the class that makes it. The proofs speak about
  that sequence: which calls happen, in what order, and how many times.

Money is an integer amount. Strings are sequences of characters. JavaScript's
`<` on strings is `Common.LexLess`. `trim` and `\s` use JavaScript's
whitespace set. Lower- and upper-casing are ASCII only.

Files: `common.dfy` (generic sequence and string facts), `types.dfy` (the
records of `src/types/index.ts`), and one file per modelled source file.

In these places the model follows the code's actual behaviour:

- On a past date the slot filter is the same time-of-day filter as on the
  current date, so a past date is not emptied.
- If materialising the slot rows fails, the listing is empty. The rows are
  not re-read.
- The create-order handler calls `release_slot` whenever a step inside its
  `try` throws. That includes `book_slot` itself throwing, so a release can
  happen without a successful booking.
- A reject on the live board releases the slot even when the status update
  failed. It does not release it when the update succeeded but the push
  request after it failed: that request is awaited without a `catch`, so the
  failure aborts the reject before the release.
- The results of the payment-record and coupon-use inserts are not checked.
- The search filter tests the length of the trimmed query but matches the
  untrimmed query, so a trailing space hides an exact match
  (`Search.TrailingSpaceMisses`).
- A fetched order whose status is none of the seven known ones is counted in
  `totalOrders` but in no breakdown entry.

## Model

| member | source | states |
|---|---|---|
| AdminAuth.DenialStatus | src/app/api/admin/slots/init/route.ts:9-32 | A missing user is answered 401; every other refusal is answered 403 |
| AdminAuth.CheckAdmin | src/app/api/admin/stats/route.ts:9-32 | Access is granted iff the user is signed in, the profile has a café and the role is admin or superadmin; the granted café is the profile's; no user gives Unauthorized and a user without café gives NoCafe, in that order of precedence |
| SlotTimes.PaddedOrder | src/app/api/admin/slots/init/route.ts:53 | Two-digit zero padding is injective and string order on padded numbers is numeric order |
| SlotTimes.EqualLengthPrefix | src/app/api/slots/route.ts:57 | When two distinct strings of equal length start two others, string order of the longer ones is decided by those prefixes |
| SlotTimes.CurrentTimeBeforeSlot | src/app/api/slots/route.ts:53-57 | The "HH:MM" current time is below an "HH:MM:SS" slot time iff the slot's minute is not earlier than the current minute |
| SlotTimes.SlotTimeOrder | src/app/api/admin/slots/init/route.ts:53 | Slot times with equal seconds compare as (hour, minute) pairs |
| SlotTimes.Drafts | src/app/api/admin/slots/init/route.ts:48-67 | The generated template set has exactly 57 entries |
| SlotTimes.GenerateTemplates | src/app/api/admin/slots/init/route.ts:48-67 | The hour/minute loop produces exactly the template set `Drafts` describes |
| SlotTimes.NextDraft | src/app/api/admin/slots/init/route.ts:53-59 | Each loop step appends the draft of that step to the templates built so far |
| SlotTimes.TimeAtIs | src/app/api/admin/slots/init/route.ts:53 | The padded "HH:MM:00" string built from the loop's hour and minute is the time of its step |
| SlotTimes.NextQuarter | src/app/api/admin/slots/init/route.ts:62-66 | Adding 15 minutes carries into the next hour at 60 and otherwise keeps the hour |
| SlotTimes.LoopGuard | src/app/api/admin/slots/init/route.ts:52 | While the loop condition holds, fewer than 57 templates exist |
| SlotTimes.LoopExit | src/app/api/admin/slots/init/route.ts:52 | The loop stops after exactly 57 templates |
| SlotTimes.TimeBounds | src/app/api/admin/slots/init/route.ts:52 | The first generated time is 08:00:00 and the last is 22:00:00 |
| SlotTimes.TimeShape | src/app/api/admin/slots/init/route.ts:53-66 | Every generated time is "HH:MM:00" with the hour in 8..22 and the minute in {0, 15, 30, 45} |
| SlotTimes.TimesIncreasing | src/app/api/admin/slots/init/route.ts:62-66 | Generated times strictly increase along the list |
| Slots.RowsFor | src/app/api/slots/route.ts:33-41 | One availability row per template, copying its id, time and capacity, for the asked date, with nothing booked and not blocked |
| Slots.Upcoming | src/app/api/slots/route.ts:55-58 | The kept rows are an order-preserving subsequence; a row is kept iff the date is later than today or its slot time is later than the current time |
| Slots.FutureDateKeepsAll | src/app/api/slots/route.ts:56 | For a date later than today every row is kept |
| Slots.TodayKeepsFromCurrentMinute | src/app/api/slots/route.ts:53-57 | For today (or a past date) a slot is kept iff it starts at or after the current minute, so a slot in the current minute is still offered |
| Slots.TemplateByTimeTotal | src/app/api/slots/route.ts:30 | Ordering templates by slot time is a total preorder, so the sorted result is ordered by time |
| Slots.Materialised | src/app/api/slots/route.ts:24-46 | The rows inserted for a date with none yet, or none on a failed insert; `MaterialisedRows` proves their count, order and fields |
| Slots.Listed | src/app/api/slots/route.ts:16-47 | The existing rows, else the inserted ones; `SecondListingReusesRows` and `SlotStore.ListSlots` state its use |
| Slots.MaterialisedRows | src/app/api/slots/route.ts:24-47 | With no rows for the date, there are as many new rows as active templates of the café (none when there are none), sorted by slot time, all for the café and date with nothing booked and not blocked, and every active template has a row with its id, time and capacity |
| Slots.SecondListingReusesRows | src/app/api/slots/route.ts:16-24 | Once a date's rows exist, listing it again inserts nothing and returns the same rows |
| Slots.WithIds | src/app/api/admin/slots/init/route.ts:70-77 | Inserting the drafts assigns one template per draft |
| Slots.SlotStore.constructor | src/app/api/slots/route.ts:4-61 | The store starts with no templates and no availability rows |
| Slots.SlotStore.ListSlots | src/app/api/slots/route.ts:4-61 | A missing café or date is a 400 and leaves both tables unchanged; otherwise existing rows are reused, or rows are materialised and appended when the insert succeeds, and the response lists the upcoming rows of the date |
| Slots.SlotStore.InitTemplates | src/app/api/admin/slots/init/route.ts:4-92 | A refused caller gets 401/403 and nothing is inserted; existing templates give a report of the existing count and no insert; a failed insert gives 500 and no change; otherwise the 57 templates are appended and their number reported |
| Slots.InitialisedTemplates | src/app/api/admin/slots/init/route.ts:48-82 | The inserted templates are 57, all for the admin's café with capacity 10 and active, with fresh ids and slot times both strictly increasing |
| OrdersCreate.OrderRowFor | src/app/api/orders/create/route.ts:44-59 | The order row is pending, payment pending, paid by razorpay, for the caller's café, user and slot, with discount defaulting to 0 and the request's coupon, notes and total |
| OrdersCreate.ItemRows | src/app/api/orders/create/route.ts:66-82 | One item row per requested item, in order, with a falsy menu-item id stored as null, veg defaulting to true, deltas and add-on totals defaulting to 0, and add-ons defaulting to empty |
| OrdersCreate.CountAppend | src/app/api/orders/create/route.ts:117-121 | Counting a call in a concatenated trace adds the counts of the parts |
| OrdersCreate.ReleasesAppend | src/app/api/orders/create/route.ts:117-121 | Counting releases in a concatenated trace adds the counts of the parts |
| OrdersCreate.AfterOrderReleases | src/app/api/orders/create/route.ts:66-121 | After the order row exists, exactly one release follows iff the items insert fails, it is the last call, and only success returns Created |
| OrdersCreate.AfterOrderNoBooking | src/app/api/orders/create/route.ts:66-116 | The steps after the order insert never book the slot |
| OrdersCreate.CountAbsent | src/app/api/orders/create/route.ts:117-121 | A call absent from a trace has count 0 |
| OrdersCreate.NoCallsBeforeValidation | src/app/api/orders/create/route.ts:14-25 | No signed-in user gives 401 and a missing café, items or slot gives 400, and neither makes any call |
| OrdersCreate.CompensationPairsWithBooking | src/app/api/orders/create/route.ts:29-121 | Any run calls `book_slot` exactly once, first; it releases at most once, as its last call, and does so iff input was valid, booking did not report an error and the order was not created; a booking error is answered with its message and no release |
| OrdersCreate.CreatedOrderCalls | src/app/api/orders/create/route.ts:88-116 | A Created response implies valid input, a successful booking, order and items, and fixes the exact call sequence, including the payment record and the coupon use when one applies |
| OrdersCreate.CreateRun | src/app/api/orders/create/route.ts:11-123 | The handler's calls and response for a signed-in user, a request and the outcomes of its calls; its promises are proved in `NoCallsBeforeValidation`, `CompensationPairsWithBooking` and `CreatedOrderCalls` |
| OrdersCreate.OrderService.constructor | src/app/api/orders/create/route.ts:11-123 | A new service has recorded no calls |
| OrdersCreate.OrderService.Create | src/app/api/orders/create/route.ts:11-123 | The handler appends exactly the calls of the modelled run and returns its response |
| AdminOrders.FlowMovesForward | src/components/admin/AdminOrdersLive.tsx:11-15 | Only confirmed, preparing and ready have a successor, and each successor is one rank further on |
| AdminOrders.NextStatus | src/components/admin/AdminOrdersLive.tsx:11-15 | `STATUS_FLOW`: the next status of confirmed, preparing and ready; `FlowMovesForward` and `FlowFromConfirmed` prove it moves one step forward and ends at completed |
| AdminOrders.FlowFromConfirmed | src/components/admin/AdminOrdersLive.tsx:11-15 | From confirmed the flow reaches completed in exactly three steps, never earlier, and stops there |
| AdminOrders.NextActionOf | src/components/admin/AdminOrdersLive.tsx:17-21 | A next-action button exists exactly for the statuses that have a successor |
| AdminOrders.ActionsByStatus | src/components/admin/AdminOrdersLive.tsx:164-186 | Pending offers only Accept (→ confirmed) and Reject (→ cancelled); completed, cancelled and refunded offer nothing; every other action moves to the flow's successor |
| AdminOrders.NotificationFor | src/components/admin/AdminOrdersLive.tsx:64-71 | A notification is sent iff the new status is confirmed, preparing, ready or cancelled, and its kind names that status |
| AdminOrders.ByCreatedAtTotal | src/components/admin/AdminOrdersLive.tsx:33-34 | Ordering by creation time is a total preorder |
| AdminOrders.LiveOrders | src/components/admin/AdminOrdersLive.tsx:28-35 | The fetch query: the café's live orders ordered by `created_at`; `LiveOrdersAreTheLiveOnes` proves it keeps exactly those, sorted |
| AdminOrders.LiveOrdersAreTheLiveOnes | src/components/admin/AdminOrdersLive.tsx:28-37 | The board holds exactly the café's pending, confirmed, preparing and ready orders, sorted by creation time |
| AdminOrders.FindOrder | src/components/admin/AdminOrdersLive.tsx:62 | The found order has the asked id and is on the board; none is found iff no order has that id |
| AdminOrders.PushDue | src/components/admin/AdminOrdersLive.tsx:59-71 | A push is sent iff the write succeeded, the order is on the board and the status has a notification; `UpdateWritesThenNotifies` ties it to the trace |
| AdminOrders.UpdateThrows | src/components/admin/AdminOrdersLive.tsx:72-76 | `updateStatus` rejects iff a push was due and its un-caught `fetch` failed; `RejectReleasesSlot` shows its effect on the release |
| AdminOrders.UpdateTrace | src/components/admin/AdminOrdersLive.tsx:53-81 | The calls `updateStatus` makes; `UpdateWritesThenNotifies` proves their order and when the push is sent |
| AdminOrders.RejectTrace | src/components/admin/AdminOrdersLive.tsx:83-93 | The calls `handleReject` makes; `RejectReleasesSlot` proves when the slot is released |
| AdminOrders.CancelAlwaysNotifies | src/components/admin/AdminOrdersLive.tsx:64-71 | Cancelling an order on the board always has a notification, so a failed push after a successful cancel always skips the release |
| AdminOrders.RejectionReason | src/components/admin/AdminOrdersLive.tsx:84-86 | The recorded reason is the admin's answer, or the fixed default when the answer is empty |
| AdminOrders.UpdateWritesThenNotifies | src/components/admin/AdminOrdersLive.tsx:53-81 | An update first writes the status, with the reason only when non-empty; a failed write stops there; otherwise a notification follows exactly when the status calls for one and the order is on the board |
| AdminOrders.RejectReleasesSlot | src/components/admin/AdminOrdersLive.tsx:83-93 | A dismissed prompt changes nothing; otherwise the update to cancelled runs, and the slot is released afterwards iff the order has a slot and the update did not throw: a failed status write still releases, a failed push after a successful write does not |
| AdminOrders.LiveBoard.constructor | src/components/admin/AdminOrdersLive.tsx:28-37 | A board starts empty with no calls made |
| AdminOrders.LiveBoard.FetchOrders | src/components/admin/AdminOrdersLive.tsx:28-37 | Fetching replaces the board with the live orders of its café and makes no call |
| AdminOrders.LiveBoard.UpdateStatus | src/components/admin/AdminOrdersLive.tsx:53-81 | The update appends exactly the calls of `UpdateTrace`, leaves the board unchanged, and throws exactly when `UpdateThrows` holds |
| AdminOrders.LiveBoard.HandleReject | src/components/admin/AdminOrdersLive.tsx:83-93 | The reject appends exactly the calls of `RejectTrace`, so no release after a thrown update, and leaves the board unchanged |
| Cart.Priced | src/store/cart.ts:28-36 | The line `addItem` appends; `PricedRoundTrip` proves it is well priced and keeps every input |
| Cart.SumQuantities | src/store/cart.ts:63 | `itemCount`: the sum of the quantities; `SumQuantitiesAppend` and `WithQuantityCount` give its behaviour under the store's updates |
| Cart.SumTotals | src/store/cart.ts:65 | `subtotal`: the sum of the line totals; `SumTotalsAppend` and `WithQuantitySubtotal` give its behaviour under the store's updates |
| Cart.Removed | src/store/cart.ts:41-43 | The lines without the id; `RemovedSplitsSums` proves what it takes from the count and subtotal |
| Cart.WithQuantity | src/store/cart.ts:50-56 | The lines with the id re-priced at quantity q; `WithQuantityChangesOnlyMatches` proves nothing else changes |
| Cart.PricedRoundTrip | src/store/cart.ts:28-36 | An added line is well priced (add-on total, unit price by `calcUnitPrice`, line total) and keeps every input; a well-priced line is exactly what pricing its inputs gives |
| Cart.SumTotalsAppend | src/store/cart.ts:65 | The subtotal of two line lists joined is the sum of their subtotals |
| Cart.SumQuantitiesAppend | src/store/cart.ts:63 | The item count of two line lists joined is the sum of their counts |
| Cart.RemovedSplitsSums | src/store/cart.ts:41-43 | Removing an id takes away exactly the count and subtotal of the lines with that id |
| Cart.WithQuantityChangesOnlyMatches | src/store/cart.ts:50-56 | Setting a quantity keeps the length and every other line, and gives matching lines the new quantity and a recomputed total |
| Cart.WithQuantityCount | src/store/cart.ts:50-56 | After setting quantity q, the item count is the count without those lines plus q per matching line |
| Cart.WithQuantitySubtotal | src/store/cart.ts:50-56 | After setting quantity q, the subtotal is the subtotal without those lines plus q times their unit prices |
| Cart.QuantityHead | src/store/cart.ts:50-56 | The item count after a quantity update splits at the first line: q if it matches, its own quantity otherwise |
| Cart.WithQuantityHead | src/store/cart.ts:50-56 | The subtotal after a quantity update splits at the first line: q times its unit price if it matches, its own total otherwise |
| Cart.SplitSums | src/store/cart.ts:41-56 | The count and subtotal of the other lines and the unit prices of the matching lines split at the first line according to whether it matches |
| Cart.CartStore.constructor | src/store/cart.ts:25-26 | A new cart is empty, has no café and is well priced |
| Cart.CartStore.AddItem | src/store/cart.ts:28-39 | Exactly one priced line is appended at the end; the café is kept; the item count grows by the quantity and the subtotal by the line total |
| Cart.CartStore.RemoveItem | src/store/cart.ts:41-43 | Every line with the id is removed and the rest keep their order |
| Cart.CartStore.UpdateQuantity | src/store/cart.ts:45-57 | A quantity of 0 or less removes the lines; a positive one sets it on matching lines only; the pricing invariant holds after either |
| Cart.CartStore.ClearCart | src/store/cart.ts:59 | The cart is emptied and its café reset |
| Cart.CartStore.SetCafeId | src/store/cart.ts:61 | Only the café changes |
| MenuCard.NeedsModal | src/components/customer/MenuCard.tsx:19-21 | An item needs the modal iff it has a variant or an add-on; `QuickAdd` states what follows from it |
| MenuCard.QuickAdd | src/components/customer/MenuCard.tsx:19-42 | The modal opens iff the item has variants or add-ons, and then the cart is untouched; otherwise the café is set and exactly the quick line is appended |
| MenuCard.QuickAddLine | src/components/customer/MenuCard.tsx:29-40 | A quick-added line is one unit at base price, with no variant, delta 0 and no add-ons |
| MenuCard.DefaultVariant | src/components/customer/MenuCard.tsx:124 | The default is the first variant marked default, else the first variant, else none |
| MenuCard.DefaultVariantIsFirstDefault | src/components/customer/MenuCard.tsx:124 | When variant k is the first one marked default, it is the one chosen |
| MenuCard.FindAddOn | src/components/customer/MenuCard.tsx:151-154 | The found add-on has the id and is the item's; none is found iff no add-on has it |
| MenuCard.ChosenAddOns | src/components/customer/MenuCard.tsx:151-154 | One cart add-on per selected id, in order, copying id, name and price |
| MenuCard.SelectedTotal | src/components/customer/MenuCard.tsx:132-135 | The add-on total, counting an unknown id as 0; `ChosenAddOnsTotal` proves it is what the cart line carries |
| MenuCard.ChosenAddOnsTotal | src/components/customer/MenuCard.tsx:132-135 | The prices of the add-ons passed to the cart sum to the add-on total the modal shows |
| MenuCard.Toggled | src/components/customer/MenuCard.tsx:141-147 | The selection after one toggle; `ToggleFlips` and `ToggleTwice` prove it flips exactly one id |
| MenuCard.ToggleFlips | src/components/customer/MenuCard.tsx:141-147 | Toggling flips the membership of that id only and keeps the selection free of duplicates |
| MenuCard.ToggleTwice | src/components/customer/MenuCard.tsx:141-147 | Toggling the same id twice restores the selection |
| MenuCard.Decremented | src/components/customer/MenuCard.tsx:262 | Decrementing never goes below 1 and otherwise subtracts one |
| MenuCard.ItemModal.constructor | src/components/customer/MenuCard.tsx:124-127 | The modal opens on the default variant, no add-ons and quantity 1 |
| MenuCard.ItemModal.ToggleAddOn | src/components/customer/MenuCard.tsx:141-147 | Only the add-on selection changes, by one toggle |
| MenuCard.ItemModal.Decrement | src/components/customer/MenuCard.tsx:262 | Only the quantity changes, to its decremented value |
| MenuCard.ItemModal.Increment | src/components/customer/MenuCard.tsx:266 | Only the quantity changes, by exactly one |
| MenuCard.ItemModal.SelectVariant | src/components/customer/MenuCard.tsx:203 | Only the chosen variant changes |
| MenuCard.ItemModal.HandleAdd | src/components/customer/MenuCard.tsx:149-166 | The cart is set to the café and gets one line whose unit and total prices are the ones the modal shows |
| MenuCard.ModalPriceIsCartPrice | src/components/customer/MenuCard.tsx:132-139 | The line built from any selection has unit price base + variant delta + selected add-on total, and that times the quantity as total |
| OrderCard.Reorder | src/components/customer/OrderCard.tsx:17-33 | After a reorder the cart belongs to the order's café and holds exactly one recomputed line per order item, in order |
| OrderCard.ReorderEntry | src/components/customer/OrderCard.tsx:20-32 | The cart entry built from one order item; `ReorderedLineCopies` proves what it copies |
| OrderCard.ReorderedLineCopies | src/components/customer/OrderCard.tsx:20-33 | Each reordered line copies the item's quantity, variant and add-ons, with a missing menu-item id as "", and is well priced |
| OrderCard.ReorderSubtotal | src/components/customer/OrderCard.tsx:21-32 | When the order's own line prices were consistent, the reordered subtotal equals the order's item total |
| OrderCard.IsActive | src/components/customer/OrderCard.tsx:37 | The four in-progress statuses; `CardButtons` relates it to reorder |
| OrderCard.CanReorder | src/components/customer/OrderCard.tsx:66 | Completed or cancelled; `CardButtons` proves it excludes every active status |
| OrderCard.CardButtons | src/components/customer/OrderCard.tsx:37 | No status both shows as active and offers reorder; only refunded offers neither |
| OrderCard.Summary | src/components/customer/OrderCard.tsx:54-57 | The summary lists the first min(2, n) items with their quantity and name |
| OrderCard.MoreCount | src/components/customer/OrderCard.tsx:58-59 | "+N more" is shown iff there are more than two items, with N at least 1 |
| OrderCard.SummaryAccountsForAll | src/components/customer/OrderCard.tsx:54-59 | Listed items plus N account for every item |
| Utils.BeforeColon | src/lib/utils.ts:21 | The hour part is the longest colon-free prefix |
| Utils.AfterColon | src/lib/utils.ts:21 | A remainder exists iff there is a colon, and prefix, colon and remainder rebuild the string |
| Utils.SplitAtFirstColon | src/lib/utils.ts:21 | Splitting "a:b" with a colon-free a returns a and b |
| Utils.Hour12 | src/lib/utils.ts:23 | The displayed hour lies in 1..12 and agrees with the hour modulo 12 |
| Utils.FormatTime | src/lib/utils.ts:20-25 | A time formats iff it has a colon and digit-only hour and minute parts |
| Utils.FormatClock | src/lib/utils.ts:22-24 | The 12-hour display of an hour and minute; `FormatClockReadsBack` proves its parts read back |
| Utils.FormatClockReadsBack | src/lib/utils.ts:20-25 | The formatted clock reads back the 12-hour hour, the two-digit minute and PM iff the hour is at least 12 |
| Utils.FormatPaddedTime | src/lib/utils.ts:20-25 | A zero-padded "HH:MM:SS" formats as that hour and minute, with the seconds ignored |
| Utils.SliceTo | src/lib/utils.ts:61 | A slice is a prefix, of the asked length when that is in range |
| Utils.Truncate | src/lib/utils.ts:60-62 | A short string is unchanged; a longer one becomes its first n characters followed by one ellipsis |
| Utils.ParseStatus | src/lib/utils.ts:65-76 | A string parses to the status whose stored name it is, and fails iff it names no status |
| Utils.KnownStatusInfo | src/lib/utils.ts:66-74 | The display entry of each known status; `StatusLabels` proves the labels distinct |
| Utils.CalcUnitPrice | src/lib/utils.ts:79-85 | Base price plus variant delta plus add-on total; `Cart.PricedRoundTrip` and `MenuCard.ModalPriceIsCartPrice` show the cart and the modal price a line by it |
| Utils.GetOrderStatusInfo | src/lib/utils.ts:65-76 | Each known status gets its fixed display entry; any other string is its own label with the default colours |
| Utils.StatusLabels | src/lib/utils.ts:65-76 | The label equals the raw string iff it is unknown, and the seven known labels are distinct |
| MenuItemEditor.Hyphenate | src/components/admin/MenuItemModal.tsx:41 | Replacing whitespace runs by '-' leaves no whitespace and never lengthens |
| MenuItemEditor.HyphenateSpaceFree | src/components/admin/MenuItemModal.tsx:41 | A name without whitespace is left unchanged |
| MenuItemEditor.HyphenateSpaceRun | src/components/admin/MenuItemModal.tsx:41 | A whitespace character and the rest of its run become a single '-' |
| MenuItemEditor.HyphenateKeeps | src/components/admin/MenuItemModal.tsx:41 | A non-whitespace character is kept as it is |
| MenuItemEditor.TrimStartSpaces | src/components/admin/MenuItemModal.tsx:41 | Skipping a whitespace run stops at the next non-space |
| MenuItemEditor.HyphenateRun | src/components/admin/MenuItemModal.tsx:41 | A whole whitespace run becomes a single '-' |
| MenuItemEditor.Slug | src/components/admin/MenuItemModal.tsx:41 | A slug holds only a-z, 0-9 and '-' and is no longer than the name |
| MenuItemEditor.SlugIdempotent | src/components/admin/MenuItemModal.tsx:41 | Slugging a slug returns it unchanged |
| MenuItemEditor.SlugOfSlugChars | src/components/admin/MenuItemModal.tsx:41 | A name already made of slug characters is its own slug |
| MenuItemEditor.EditAt | src/components/admin/MenuItemModal.tsx:160-161 | An edit at i changes entry i only and keeps the length |
| MenuItemEditor.RemoveAt | src/components/admin/MenuItemModal.tsx:162 | Deleting at i removes exactly that entry and shifts the later ones down |
| MenuItemEditor.AddThenRemove | src/components/admin/MenuItemModal.tsx:156 | Deleting a just-added entry restores the list |
| MenuItemEditor.NewEntryNeedsAName | src/components/admin/MenuItemModal.tsx:156-160 | An added variant is unnamed, so it is dropped on save until a name is set |
| MenuItemEditor.VariantRows | src/components/admin/MenuItemModal.tsx:58-64 | One row per named variant, with sort order its position among them, delta defaulting to 0, default flag defaulting to position 0, and available |
| MenuItemEditor.AddOnRows | src/components/admin/MenuItemModal.tsx:66-73 | One row per named add-on, with sort order its position, price defaulting to 0, and available |
| MenuItemEditor.VariantDefaults | src/components/admin/MenuItemModal.tsx:60-63 | With no default flags set, exactly the first row is default; with every variant named, rows follow the variants one for one |
| MenuItemEditor.PayloadOf | src/components/admin/MenuItemModal.tsx:41-42 | An empty image URL is stored as none; the slug comes from the name; name, café and category are copied |
| MenuItemEditor.CanSave | src/components/admin/MenuItemModal.tsx:37 | The save guard: a name that is not only whitespace, and a category; `InvalidFormWritesNothing` proves an invalid form writes nothing |
| MenuItemEditor.ListWrites | src/components/admin/MenuItemModal.tsx:58-74 | The variant and add-on inserts under the item id; `ListWritesAreInserts` proves they are inserts of the named entries only |
| MenuItemEditor.SaveOf | src/components/admin/MenuItemModal.tsx:36-82 | `handleSave`'s writes and result given the write outcomes; `NewItemIsInserted`, `ExistingItemIsReplaced` and `SaveIsHeadThenLists` prove their order |
| MenuItemEditor.InvalidFormWritesNothing | src/components/admin/MenuItemModal.tsx:37 | Save is refused iff the trimmed name or the category is empty, and a refused save writes nothing |
| MenuItemEditor.ListWritesAreInserts | src/components/admin/MenuItemModal.tsx:58-73 | The list writes are only inserts, and include the variant and the add-on rows |
| MenuItemEditor.NewItemIsInserted | src/components/admin/MenuItemModal.tsx:44-47 | A new item is inserted, never updated, and no old lists are deleted |
| MenuItemEditor.ExistingItemIsReplaced | src/components/admin/MenuItemModal.tsx:48-56 | An existing item is updated by id and its old variants and add-ons deleted before any re-insert |
| MenuItemEditor.SaveIsHeadThenLists | src/components/admin/MenuItemModal.tsx:44-73 | A successful save is its item write (and deletes), followed by the list inserts for the saved id |
| MenuItemEditor.NewSaveIsHeadThenLists | src/components/admin/MenuItemModal.tsx:44-73 | A saved new item is its insert followed by the list inserts under the returned id |
| MenuItemEditor.ExistingSaveIsHeadThenLists | src/components/admin/MenuItemModal.tsx:44-73 | A saved existing item is its update and both deletes, followed by the list inserts under its id |
| MenuItemEditor.InsertLists | src/components/admin/MenuItemModal.tsx:58-73 | The list-insert step produces exactly the list writes |
| MenuItemEditor.MenuItemModal.constructor | src/components/admin/MenuItemModal.tsx:19-31 | The editor starts with no writes made |
| MenuItemEditor.MenuItemModal.HandleSave | src/components/admin/MenuItemModal.tsx:36-73 | Saving appends exactly the modelled writes and returns the modelled result |
| Stats.RangeStart | src/app/api/admin/stats/route.ts:34-52 | "week" and "month" select their bounds; an absent, "today" or unrecognised range selects today |
| Stats.Fetched | src/app/api/admin/stats/route.ts:55-60 | The fetched orders are exactly the café's paid orders from the bound on, or none when the query fails |
| Stats.Average | src/app/api/admin/stats/route.ts:65 | The average is 0 with no orders and otherwise times the count gives the revenue |
| Stats.Revenue | src/app/api/admin/stats/route.ts:64 | The sum of the order totals; `RevenueBounds` and `Average` state what it is used for |
| Stats.RevenueBounds | src/app/api/admin/stats/route.ts:64 | Revenue lies between count × smallest and count × largest total |
| Stats.ScaleBack | src/app/api/admin/stats/route.ts:65 | Dividing both sides by a positive count keeps an inequality |
| Stats.MeanBetween | src/app/api/admin/stats/route.ts:65 | A mean of values between lo and hi is between lo and hi |
| Stats.AverageBetween | src/app/api/admin/stats/route.ts:63-65 | The average order value lies between the smallest and largest order total |
| Stats.StatusCount | src/app/api/admin/stats/route.ts:68-76 | A status count is at most the number of orders |
| Stats.StatusCountFirst | src/app/api/admin/stats/route.ts:68-76 | A status count splits into the first order and the rest |
| Stats.KnownStatusCounts | src/app/api/admin/stats/route.ts:68-76 | A status string matches at most one of the seven names, and exactly one iff it is known |
| Stats.BreakdownOf | src/app/api/admin/stats/route.ts:68-76 | One count per stored status name; `BreakdownAccounts` proves the counts account for every known order |
| Stats.BreakdownAccounts | src/app/api/admin/stats/route.ts:68-76 | The seven counts sum to at most the number of orders, with equality iff every status is known |
| Stats.Qty | src/app/api/admin/stats/route.ts:84 | A missing or zero quantity counts as 1; any other quantity counts as itself |
| Stats.NamesDistinct | src/app/api/admin/stats/route.ts:79-88 | The item map's keys are distinct |
| Stats.NamesAreTheNames | src/app/api/admin/stats/route.ts:79-88 | A name is a key iff some order item has it |
| Stats.Tally | src/app/api/admin/stats/route.ts:79-88 | The summed quantity of one item name; `BuildItemMap` proves the map holds it for every name, and `TallyOfNames` and `TallyAppend` give its properties |
| Stats.TallyOfNames | src/app/api/admin/stats/route.ts:79-88 | A name that no item has tallies 0; with non-negative quantities a present name tallies at least 1 |
| Stats.TallyNonNegative | src/app/api/admin/stats/route.ts:84 | With non-negative quantities every tally is non-negative |
| Stats.TallyAppend | src/app/api/admin/stats/route.ts:80-88 | Tallies over joined item lists add up |
| Stats.NextLine | src/app/api/admin/stats/route.ts:82-86 | One more item adds its name if new and its quantity to its own tally only |
| Stats.ExtendByOne | src/app/api/admin/stats/route.ts:81 | Extending a processed prefix by one element appends that element |
| Stats.NextOrder | src/app/api/admin/stats/route.ts:80 | The items of one more order are appended to those already seen |
| Stats.AddLineKeepsTally | src/app/api/admin/stats/route.ts:82-86 | Updating the map with one more item keeps it the tally of all items seen |
| Stats.NextLineKeepsTally | src/app/api/admin/stats/route.ts:81-86 | One step of the inner loop keeps the map the tally of every item seen |
| Stats.BuildItemMap | src/app/api/admin/stats/route.ts:79-88 | The nested loops build a map whose keys are exactly the item names, in first-seen order, each mapped to the sum of its quantities |
| Stats.ItemEntries | src/app/api/admin/stats/route.ts:90 | The map's values, in insertion order, as name and tally pairs |
| Stats.MoreSoldIsPreorder | src/app/api/admin/stats/route.ts:91 | Ordering by quantity, largest first, is a total preorder |
| Stats.NoDuplicatesSingleCopy | src/app/api/admin/stats/route.ts:90-93 | A duplicate-free list holds each element at most once |
| Stats.TwoCopies | src/app/api/admin/stats/route.ts:90-93 | Equal entries at two positions make two copies |
| Stats.PermutedNoDuplicates | src/app/api/admin/stats/route.ts:90-93 | Sorting a list without duplicates keeps it without duplicates |
| Stats.EntriesDistinct | src/app/api/admin/stats/route.ts:90 | The map's entries are distinct |
| Stats.TopItems | src/app/api/admin/stats/route.ts:90-93 | The stable sort by quantity cut to five; `TopItemsArePrefix`, `TopItemsDistinct`, `TopItemsOrdered` and `TopItemsBeatTheRest` prove what it returns |
| Stats.TopItemsArePrefix | src/app/api/admin/stats/route.ts:90-93 | The top items are the first min(5, number of distinct names) entries of the list sorted by quantity |
| Stats.SortedEntriesAreTallies | src/app/api/admin/stats/route.ts:90-93 | Every sorted entry is a real item name with its tally |
| Stats.TopItemsDistinct | src/app/api/admin/stats/route.ts:90-93 | There are at most five top items, with distinct names, each with its tally |
| Stats.PrefixOutsells | src/app/api/admin/stats/route.ts:91-92 | In a list sorted by quantity, an entry outside the first m sold no more than each of them |
| Stats.TopItemsOrdered | src/app/api/admin/stats/route.ts:91 | Top items are ordered by quantity, largest first |
| Stats.TopItemsBeatTheRest | src/app/api/admin/stats/route.ts:90-93 | An item left out of the top list sold no more than any item in it |
| Stats.ReportOf | src/app/api/admin/stats/route.ts:62-103 | The response body over the fetched orders; `ReportBounds` and `StatsOf` state its properties |
| Stats.ReportBounds | src/app/api/admin/stats/route.ts:63-93 | The report's count is the number of orders, the status counts sum to at most that, the top list has at most five entries, and the average is 0 with no orders |
| Stats.StatsOf | src/app/api/admin/stats/route.ts:9-93 | The answer is a refusal iff the caller is not an admin of a café; otherwise it is the report over the café's fetched orders in the selected range |
| Stats.Post | src/app/api/admin/stats/route.ts:4-103 | The handler returns exactly the modelled answer |
| Search.Matches | src/components/customer/SearchBar.tsx:22-25 | The name, or a present description, contains the query, both lower-cased; `NoDescriptionMatchesByName` and `Results` state its use |
| Search.Results | src/components/customer/SearchBar.tsx:20-25 | A trimmed query shorter than 2 gives nothing; otherwise the results are exactly the matching items, in menu order |
| Search.Displayed | src/components/customer/SearchBar.tsx:68 | At most 8 results are shown, and they are the first ones |
| Search.LongerNeedleAbsent | src/components/customer/SearchBar.tsx:23 | A text never contains a longer query |
| Search.NoDescriptionMatchesByName | src/components/customer/SearchBar.tsx:24 | An item without description matches iff its lower-cased name contains the lower-cased query |
| Search.TrimOfSolid | src/components/customer/SearchBar.tsx:20 | Trim keeps a string that starts and ends with non-space |
| Search.TrimDropsTrailingSpace | src/components/customer/SearchBar.tsx:20 | Trim removes one trailing space |
| Search.TrailingSpaceMisses | src/components/customer/SearchBar.tsx:20-25 | An item's full name followed by a space passes the length test yet finds nothing, while the name alone finds that item |
| Search.NameFindsItsItem | src/components/customer/SearchBar.tsx:20-25 | An item without description is found by its own name when that name has no surrounding whitespace and at least 2 characters |
| Search.SingleMatch | src/components/customer/SearchBar.tsx:20-25 | A query that passes the length test and matches an item finds exactly that item |
| CategoryTabs.Filtered | src/components/customer/CategoryTabs.tsx:18-20 | "all" shows every item; any other tab shows exactly the items of that category, in order |
| CategoryTabs.TabsPartitionItems | src/components/customer/CategoryTabs.tsx:20 | Two different category tabs share no item |
| CategoryTabs.AllCategories | src/components/customer/CategoryTabs.tsx:29-32 | The tab list is the "All" entry followed by the categories |
| CategoryTabs.CountLabel | src/components/customer/CategoryTabs.tsx:60 | The caption starts with the count |
| CategoryTabs.CountLabelPlural | src/components/customer/CategoryTabs.tsx:60 | The caption ends in 's' iff the count is not 1, and reads "1 item" for one |
| PushKey.PadLength | src/hooks/usePushNotifications.ts:45 | The padding is 0..3 characters, makes the length a multiple of 4, and is 0 iff it already is |
| PushKey.Repeat | src/hooks/usePushNotifications.ts:45 | Repeating a character n times gives n copies of it |
| PushKey.Padded | src/hooks/usePushNotifications.ts:45-46 | Padding appends only '=' up to a multiple of 4 and leaves an aligned string unchanged |
| PushKey.ReplaceChar | src/hooks/usePushNotifications.ts:46 | Replacing one character everywhere changes no other position |
| PushKey.ToStandard | src/hooks/usePushNotifications.ts:45-46 | The padded key in the standard alphabet; `ToStandardShape` and `ToStandardReverses` prove what it changes and that it can be undone |
| PushKey.ToStandardShape | src/hooks/usePushNotifications.ts:45-46 | The standard form is the padded key with '-' as '+' and '_' as '/', all else in place, and no '-' or '_' left |
| PushKey.ToStandardReverses | src/hooks/usePushNotifications.ts:46 | Mapping '+' and '/' back recovers the padded URL-safe key |
| PushKey.ToBytes | src/hooks/usePushNotifications.ts:48 | One byte per character, equal to the character's code when below 256 |
| PushKey.ToBytesRoundTrip | src/hooks/usePushNotifications.ts:48 | For a byte string, the bytes read back as the same characters |

## Left out

- Database semantics are not modelled: `head: true` counts, `.single()`, row-level security, joins and the store's own errors beyond the success/failure outcomes that appear as parameters.
- The slot RPCs `book_slot` and `release_slot` are opaque calls. Capacity and blocking are not attributed to them; only the order and pairing of the calls is proved.
- An `ORDER BY` done by the store is modelled as a stable sort of the selected rows; ties between equal keys keep table order, which the store does not promise.
- Postgres timestamp comparison and ordering are modelled as string order on ISO timestamps: the `created_at` bound of the stats query, and the `created_at` order of the live board's fetch (`AdminOrders.ByCreatedAt`).
- The clock and id generation (`new Date()`, `toISOString`, `getHours`, `generateId`, `crypto.randomUUID`) are inputs: today, the current time, the week and month bounds, and fresh ids.
- Floating point is not modelled: `Math.round(total_amount * 100)` for Razorpay and `toFixed(2)` on the average. Money is an integer and the average a real.
- Razorpay order creation, web push, `atob`, and the payment signature check are foreign calls. Their results are parameters or they are not part of this model.
- The receipt string sent to Razorpay is not modelled.
- The realtime channel of the live board, toasts, routing and all rendering are not modelled.
- The `persist` middleware of the cart store (local storage) is not modelled.
- Request-body parse errors (`req.json()` throwing) and the catch-all 500 of the admin routes are not modelled, apart from the init route's insert error.
- JSON values of the wrong type (a number where a string is expected) are not modelled. Fields are typed as in `src/types/index.ts`, with `Option` for nullable ones.
- Case mapping is ASCII only; Unicode lower-casing in slugs and search is not modelled.
- Utils.CalcUnitPrice: stated by its body only; its meaning is proved where it is used, in Cart.PricedRoundTrip and MenuCard.ModalPriceIsCartPrice.
- Cart.CartStore.ItemCount and Cart.CartStore.Subtotal: read-only folds stated by their bodies; how each cart operation changes them is proved in Cart.CartStore.AddItem and the sum lemmas.
- `formatCurrency`, `formatDate` and `formatDateTime` use locale formatting and are not part of this model.
- Utils.FormatTime: returns None for a time whose hour or minute field is not a plain string of digits. JavaScript still formats those: a non-numeric hour as 12, a non-numeric minute as "NaN", a missing minutes field as "undefined". `Number` also accepts signs, decimals and surrounding whitespace. These displays are not modelled.
- String lengths count characters, while JavaScript's `.length` counts UTF-16 code units (`truncate` in `src/lib/utils.ts` and the query length test of the search bar). A character outside the Basic Multilingual Plane counts 1 in the model and 2 in JavaScript, so for example a single-emoji query such as "🍕" passes the search's length test in the source but gives no results in `Search.Results`.
- Utils.GetOrderStatusInfo and Utils.StatusLabels: the status table is a plain JavaScript object, so a status string that names an inherited `Object.prototype` member ("toString", "constructor", "valueOf", "hasOwnProperty", "__proto__" and the like) gets that inherited member back, whose `label` is undefined, rather than the default entry. This is not modelled; the model treats every string outside the seven known names as unknown.

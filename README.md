# Shipment ledger and admin panel, modelled in Dafny

This project models the core of a cargo-tracking service. It has three parts.

- **Express backend** (`backend/src/server.js`):
  - a store of four-digit delivery PINs, one per customer phone, kept as a salted digest plus the plaintext;
  - the shipment table, with its routes to create, replace (PUT, behind the delivery PIN gate), patch the status, book payments and list a filtered page;
  - the payment log.
- **Client mapping** (`moon-cargo-ui/src/api.js`):
  - `toUi` turns a server row into a UI record;
  - `toApi` turns a UI record into a request body;
  - `normalizePhone`.
- **Admin panel** (`moon-cargo-ui/src/components/AdminPanel.jsx`):
  - the derived views: the filtered list, its split into open records and settled deliveries ("documents"), the totals, the groups by phone, the delivery groups and page slices;
  - the handlers that send status changes and payments and merge the server's answers back.

Modules, one per concern:

| file | module | what it holds |
|---|---|---|
| `wrappers.dfy` | `Wrappers` | `Option` |
| `text.dfy` | `Text` | JavaScript white space, digits, `trim`, ASCII case mapping, `includes`, `normalizePhone` |
| `seqs.dfy` | `Seqs` | filters, sums, per-key selection, first-appearance key order, and the generic grouping loop `GroupInto` |
| `object_keys.dfy` | `ObjectKeys` | the order `Object.values` lists an object's properties in |
| `pin_store.dfy` | `PinStore` | the `customer_pins` table, `ensurePinForPhone`'s effect as a predicate, `verifyPinForPhone` |
| `ledger.dfy` | `Ledger` | shipment rows and the pure row logic of every route: create, merge, delivery gate, patch, pay, pagination, listing order |
| `server.dfy` | `Server` | the class `ShipmentServer`, whose fields are the three tables; one method per route |
| `api_mapping.dfy` | `ApiMapping` | `toUi`, `toApi`, and what a record looks like after a round trip through create or update |
| `admin_views.dfy` | `AdminViews` | the panel's derived lists, totals, groups and pages |
| `admin_actions.dfy` | `AdminActions` | `syncRecord` and the requests the panel's handlers send |

Modelling conventions:

- Money and counts are unbounded integers.
- `Number(x) || d` is `if x == 0 then d else x`; a value that is not a number reads as 0.
- A text column that is SQL `NULL`, or a JavaScript field that is `undefined`, is the empty string. `Text.Or` is JavaScript's `||` on strings.
- A JSON key the client left out is `None`.

The server keeps `balance == price - paid_amount` on every row in every reachable state: create, PUT, PATCH and payments all preserve it. This invariant is part of `ShipmentServer.Valid()`.

### Notes on the code's behaviour

- **Create's default status.** POST `/api/shipments` defaults `status` to "received" (`server.js:233`). The panel always sends a status (`toApi` fills in "pending").
- **When the PUT gate runs.** The PUT delivery gate runs whenever the *merged* location is "delivery" (`server.js:306-311`). A record already out for delivery is gated again on every edit.
- **PUT's delivery status.** On PUT the delivery status is `merged.delivery_status || merged.deliveryStatus || 'delivery'`. The merge keeps the stored `delivery_status` unless the body overrides it.
- **PUT does not lower-case.** PUT stores the location as sent, without lower-casing it. POST and PATCH lower-case it.
- **PATCH's delivery status.** PATCH prefers the stored delivery status over the one derived from the location (`server.js:373`).
- **The listing's PIN join.** The listing query joins PINs with the SQL literal `'\\D'`, which matches only a backslash followed by `D` (`server.js:192`). It therefore compares phones unnormalised.
  - A row whose phone is not already bare digits finds no PIN in the join. `ensurePinForPhone` then returns the stored plaintext, or mints one exactly when the normalised join would have.
  - The row shown and the PIN table afterwards are the same as with the normalised join. The model uses the normalised join (`Server.ShipmentServer.ShowListedRow`).
- **Unreachable branches.**
  - The 500 branch of POST `/api/pins/lookup` cannot be taken: after `ensurePinForPhone` a phone with digits always has a plaintext PIN (`Server.ShipmentServer.PinsLookup`).
  - In `payCustomForPhone` the `payNow <= 0` break cannot be taken: every payment it books is positive (`AdminActions.Allocate`).
- **Order of `Object.values`.** The panel's phone groups and delivery groups come from `Object.values` of an object keyed by phone. ECMAScript lists keys that are array indices first, in ascending numeric order (section 10.1.11.1 of ECMA-262, OrdinaryOwnPropertyKeys).
  - Eight-digit phone keys are array indices, so the groups are listed in ascending order of phone number.
  - Keys that are not indices (a phone with a leading zero, spaces, or the "no number" label) follow in first-appearance order.
  - `AdminViews.GroupOrder` models this with `ObjectKeys.ValuesOrder`.

## Model

| member | source | states |
|---|---|---|
| Text.NormalizePhone | backend/src/server.js:46 | the normalised phone is all digits, no longer than the input, and a digit string is its own normalisation |
| Text.NormalizePhoneKeepsDigits | moon-cargo-ui/src/api.js:38 | normalising keeps every digit exactly as often as it occurs and drops every other character |
| Text.NormalizePhoneConcat | backend/src/server.js:46 | normalisation distributes over concatenation |
| Text.NormalizePhoneNoDigits | backend/src/server.js:46 | a string without digits normalises to the empty phone, which every route rejects |
| Text.NormalizePhoneIdempotent | backend/src/server.js:109-112 | normalising the already normalised phone again (as the ensure route does) changes nothing |
| Text.NormalizePhoneTrim | backend/src/server.js:310 | trimming a phone never changes its digits |
| Text.TrimStart | backend/src/server.js:262-264 | the result is a suffix of the input; what it drops is white space and it starts with a non-space |
| Text.TrimEnd | backend/src/server.js:262-264 | the result is a prefix; what it drops is white space and it ends with a non-space |
| Text.Trim | backend/src/server.js:262-264 | the result is the slice between leading and trailing white space, with no white space at either end |
| Text.TrimIdempotent | moon-cargo-ui/src/components/AdminPanel.jsx:278 | trimming twice is trimming once |
| Text.TrimDigits | backend/src/server.js:263 | a digit string (a normalised phone) is unchanged by `trim` |
| Text.CaseMappingIdempotent | backend/src/server.js:242 | upper- and lower-casing are idempotent |
| Text.TrimUpperTrim | moon-cargo-ui/src/api.js:40-57 | an upper-cased trimmed code is still trimmed, so the server's second `trim` is a no-op |
| Text.StripSpaces | moon-cargo-ui/src/components/AdminPanel.jsx:275 | the result has no white space, is no longer than the input, and a string without white space is unchanged |
| Text.Includes | moon-cargo-ui/src/components/AdminPanel.jsx:275 | `includes` holds exactly when the needle occurs at some index |
| Text.IncludesEmpty | moon-cargo-ui/src/components/AdminPanel.jsx:274-276 | the empty needle occurs in every string, so a filter of spaces keeps every record |
| Seqs.GroupInto | moon-cargo-ui/src/components/AdminPanel.jsx:374-390 | the grouping loop builds one entry per key seen, in first-appearance order, each entry the fold of its own records in list order |
| Seqs.FilterPartition | moon-cargo-ui/src/components/AdminPanel.jsx:329-337 | a filter and its complement split a list with nothing lost or duplicated |
| ObjectKeys.ValuesOrder | moon-cargo-ui/src/components/AdminPanel.jsx:390 | `Object.values` lists each key once: a permutation of the insertion order, distinct when the keys are |
| ObjectKeys.ValuesOrderShape | moon-cargo-ui/src/components/AdminPanel.jsx:390 | the array-index keys come first by ascending value, then the others in insertion order |
| ObjectKeys.InsertionOrderWithoutIndices | moon-cargo-ui/src/components/AdminPanel.jsx:565 | without array-index keys, `Object.values` keeps insertion order |
| ObjectKeys.NumericOrderWithOnlyIndices | moon-cargo-ui/src/components/AdminPanel.jsx:390 | with only array-index keys (eight-digit phones) the groups come out sorted by number |
| ObjectKeys.SortKeys | moon-cargo-ui/src/components/AdminPanel.jsx:390 | the index keys are put in ascending numeric order, as a permutation |
| PinStore.FormatPin | backend/src/server.js:85 | `padStart(4, '0')` of a draw below 10000 is a four-digit PIN spelling that draw |
| PinStore.FormatPinOnto | backend/src/server.js:76 | every four-digit PIN is the padding of exactly one draw |
| PinStore.HashMessage | backend/src/server.js:47 | the digested text is the secret, a colon, the phone, a colon and the PIN, each at its own position |
| PinStore.HashMessageUnambiguous | backend/src/server.js:47 | for digit-only phones (the table's keys) one digested text comes from exactly one phone and PIN |
| PinStore.HashPin | backend/src/server.js:47 | the hash is the digest of `secret:phone:pin` |
| PinStore.Verify | backend/src/server.js:94-101 | verification fails without digits in the phone, without a PIN, or without a row; otherwise it is digest equality |
| PinStore.EnsurePreserves | backend/src/server.js:69-92 | ensuring keeps the table well formed, leaves a phone without digits alone and never replaces a stored plaintext PIN |
| PinStore.EnsureKeepsJoins | backend/src/server.js:69-92 | ensuring one phone leaves the joined PIN of every phone that already shows one as it was |
| PinStore.EnsureThenVerify | backend/src/server.js:69-101 | after ensuring, the phone has a plaintext PIN, the join shows it and it verifies |
| PinStore.EnsureIdempotent | backend/src/server.js:69-84 | a second ensure for the same phone reports `created = false` and changes nothing |
| PinStore.SecondAttemptSucceeds | backend/src/server.js:69-92 | the first ensure of a phone without a plaintext PIN mints one; the second finds it and it verifies |
| PinStore.FetchTwice | backend/src/server.js:62-65 | two fetches of one row mint at most once |
| PinStore.KeepsPlainPinsTransitive | backend/src/server.js:201-207 | keeping the plaintext PINs composes over a sequence of ensures |
| Ledger.DeliveryOrWarehouse | backend/src/server.js:245 | the fallback is "delivery" exactly for "delivery", else "warehouse" |
| Ledger.ToShipment | backend/src/server.js:36-44 | the row as answered: same id, texts and amounts, the joined PIN, and a balanced row answers with a balanced body |
| Ledger.CreateLocation | backend/src/server.js:242 | the stored location is the body's location lower-cased, or "warehouse" when it is missing or empty |
| Ledger.CreateDeliveryStatus | backend/src/server.js:243-245 | a supplied delivery status is stored as sent; otherwise it is "delivery" exactly when the location is "delivery", else "warehouse" |
| Ledger.NewShipment | backend/src/server.js:225-280 | the inserted row is balanced and takes every supplied field: barcode, phone and name trimmed, the body's status (default "received"), quantity (0 or missing becomes 1), weight, price, paid, notes, delivery note and courier; the location is the body's lower-cased (default "warehouse") and a supplied delivery status is kept, else derived from the location |
| Ledger.DeliveryGate | backend/src/server.js:297-330 | no gate unless the merged location is delivery; without a bypass a phone is required and the supplied PIN checked; with a bypass a PIN is only ensured |
| Ledger.GateWithPin | backend/src/server.js:311-318 | resubmitting the same body with a PIN checks exactly that PIN for the same phone |
| Ledger.UpdatedRow | backend/src/server.js:292-358 | the written row is `{...existing, ...body}`: each supplied field (barcode, phone, name, weight, price, paid, status, location, arrival date, notes, delivery note, courier) is written and each missing one kept; a merged quantity of 0 becomes 1; the row is balanced, keeps id and timestamps, and its delivery status is "warehouse" unless the row goes to delivery |
| Ledger.PatchLocation | backend/src/server.js:372 | the location is the body's, else the stored one, else "warehouse", lower-cased |
| Ledger.PatchDeliveryStatus | backend/src/server.js:373 | the delivery status is the body's, else the stored one, else derived from the new location |
| Ledger.PatchedRow | backend/src/server.js:371-390 | status, location and delivery status each take the body's value, else the stored one, else their default; the status change keeps the balance invariant; "pending" zeroes the payment and restores the price as the balance; "delivered" stamps a delivery time once, "canceled" and "pending" clear it; nothing else changes |
| Ledger.PaymentMethod | backend/src/server.js:416 | the recorded method is the given one, else "cash" |
| Ledger.PaidRow | backend/src/server.js:425-433 | a payment adds to the paid amount, keeps the row balanced, and marks it "paid" exactly when nothing is left owing |
| Ledger.PaymentsAdd | backend/src/server.js:425-433 | two payments book the same total and balance as one payment of their sum |
| Ledger.PayBalanceSettles | backend/src/server.js:425-427 | paying exactly the balance settles the row as "paid" |
| Ledger.PaymentsFor | backend/src/server.js:403 | a shipment's history holds exactly its own payments |
| Ledger.PaymentsForNone | backend/src/server.js:399-407 | a shipment no payment names has an empty history |
| Ledger.PaymentsForAppend | backend/src/server.js:419-423 | a new payment heads its shipment's history and leaves the others unchanged |
| Ledger.Pagination | backend/src/server.js:178-180 | the limit is clamped to 1..200 with default 20, the page is at least 1 with default 1, and the offset is `(page - 1) * limit` |
| Ledger.ListedBeforeTransitive | backend/src/server.js:194 | the listing order is transitive |
| Ledger.Insert | backend/src/server.js:194 | inserting a row into an ordered listing keeps it ordered, as a permutation |
| Ledger.SortRows | backend/src/server.js:194 | sorting yields an ordered permutation of the rows |
| Ledger.OrderDetermined | backend/src/server.js:194 | with distinct ids, `ORDER BY arrival_date DESC NULLS LAST, id DESC` admits exactly one arrangement of the rows |
| Ledger.Window | backend/src/server.js:195 | `LIMIT`/`OFFSET` yields the rows from the offset on, at most `limit` of them |
| Ledger.WindowsJoin | backend/src/server.js:180 | adjacent pages join without gap or overlap |
| Ledger.FirstPagesArePrefix | backend/src/server.js:178-180 | pages 1..n together are the first `n * limit` rows of the listing |
| Ledger.TableRows | backend/src/server.js:186-199 | the table's rows, each once |
| Ledger.Listing | backend/src/server.js:186-199 | the selected rows are exactly the stored rows the filter matches, ordered, with distinct ids |
| Ledger.SecondPageOfOne | backend/src/server.js:178-195 | `limit=1&page=2` returns exactly the second row of the listing |
| Server.ResubmitWithMintedPin | backend/src/server.js:311-327 | after a refused move to delivery, resubmitting with the PIN it minted passes the gate and mints nothing more |
| Server.StoreKeepsTableValid | backend/src/server.js:332-358 | storing a balanced row under its own id keeps the shipment table valid |
| Server.UntouchedNothing | backend/src/server.js:201-207 | a PIN table that touches no key is unchanged |
| Server.NoMintKeys | backend/src/server.js:201-204 | a page whose rows all join a PIN, or have no digits, has no phone to mint for |
| Server.MintKeysGrow | backend/src/server.js:201-204 | the phones to mint for grow row by row, and a row that joins no PIN adds its own |
| Server.UntouchedStore | backend/src/server.js:201-207 | storing a PIN under one of the phones to mint for keeps every other key as it was |
| Server.FramedStep | backend/src/server.js:201-207 | showing one more row touches at most that row's phone, and only when it joined no PIN at the start of the listing |
| Server.ShownStaysShown | backend/src/server.js:201-207 | rows already shown keep their PIN while later rows of the page mint theirs |
| Server.ShipmentServer.EnsurePinForPhone | backend/src/server.js:69-92 | `ensurePinForPhone`: reports `created` exactly when a PIN had to be minted and returns the PIN now joined to the phone |
| Server.ShipmentServer.FetchShipmentWithPin | backend/src/server.js:49-67 | the stored row and its customer's PIN, minting one when the join finds none; an unknown id changes nothing |
| Server.ShipmentServer.GetShipment | backend/src/server.js:213-220 | 404 for an unknown id, else the row with its PIN |
| Server.ShipmentServer.CreateShipment | backend/src/server.js:222-284 | 400 without a barcode; otherwise the new row is stored under the next id and answered |
| Server.ShipmentServer.UpdateShipment | backend/src/server.js:286-363 | 404 for an unknown id; the gate's answer (400 / 403 with `pinCreated`) when it refuses, table unchanged; else the merged row written and answered |
| Server.ShipmentServer.PatchStatus | backend/src/server.js:365-397 | 404 for an unknown id, else the patched row stored and answered with its PIN |
| Server.ShipmentServer.AddPayment | backend/src/server.js:409-444 | 404 for an unknown id; 400 for an amount that is not positive, nothing booked; else the payment is logged with the next id, the row paid, and the answer carries the row and its history |
| Server.ShipmentServer.PaymentHistory | backend/src/server.js:399-407 | a shipment's payments, newest first |
| Server.ShipmentServer.ShowListedRow | backend/src/server.js:202-206 | one listed row shown with its customer's PIN, minted when missing; other shown PINs kept |
| Server.ShipmentServer.ShowListedRows | backend/src/server.js:201-209 | every row of the page shown with the PIN its customer has once the page is done; the PIN table changes only under the phones of page rows that joined no PIN, and not at all when every row joined one |
| Server.ShipmentServer.ListShipments | backend/src/server.js:137-211 | the page of the ordered, filtered listing that the pagination selects, with the page number, the limit and the total count; PINs are minted only for the page's phones that joined none |
| Server.ShipmentServer.PinsEnsure | backend/src/server.js:105-115 | 400 for a phone without digits; else the PIN is ensured and exposed only to an admin |
| Server.ShipmentServer.PinsLookup | backend/src/server.js:117-127 | 400 for a phone without digits; else the PIN is ensured and always returned |
| ApiMapping.UiStatus | moon-cargo-ui/src/api.js:10-13 | a known status is kept; any other becomes "paid" exactly when nothing is owed, else "pending" |
| ApiMapping.ToUi | moon-cargo-ui/src/api.js:5-36 | the UI record: id, texts and amounts from the row, balance falling back to price less paid, delivery status and location each derived from the other when missing |
| ApiMapping.ToApi | moon-cargo-ui/src/api.js:40-57 | the body: tracking code trimmed and upper-cased, phone normalised, quantity never 0, status defaulting to "pending", delivery status and location filled in |
| ApiMapping.CreateNeedsTracking | moon-cargo-ui/src/api.js:87-91 | the backend refuses to create a record exactly when its tracking code is blank |
| ApiMapping.CreatedTracking | moon-cargo-ui/src/api.js:87-91 | a created record's tracking code comes back trimmed and upper-cased |
| ApiMapping.CreatedPhone | moon-cargo-ui/src/api.js:87-91 | a created record's phone comes back as its digits |
| ApiMapping.CreatedAmounts | moon-cargo-ui/src/api.js:87-91 | a created record's price and payment come back as sent, its balance as what is owed |
| ApiMapping.CreatedTexts | moon-cargo-ui/src/api.js:87-91 | a created record's address and chosen delivery status come back as sent |
| ApiMapping.CreatedStatus | moon-cargo-ui/src/api.js:87-91 | a created record's known status comes back as it was, a blank one as "pending" |
| ApiMapping.UpdatedKeepsEdits | moon-cargo-ui/src/api.js:93-97 | an update brings back the edited tracking code, phone digits, amounts and address |
| ApiMapping.UpdatedLocation | moon-cargo-ui/src/api.js:93-97 | an update keeps the location as sent and stores "warehouse" as delivery status unless the location is delivery |
| ApiMapping.BalanceAgrees | moon-cargo-ui/src/api.js:8 | on any stored row the UI's balance fallback agrees with the stored balance |
| AdminViews.Outstanding | moon-cargo-ui/src/components/AdminPanel.jsx:312 | what is owed is never negative, at least price less paid, and either 0 or exactly price less paid |
| AdminViews.FilteredRecords | moon-cargo-ui/src/components/AdminPanel.jsx:271-283 | exactly the records that pass both filters, in list order; filters of white space keep every record |
| AdminViews.IsDeliveredSettled | moon-cargo-ui/src/components/AdminPanel.jsx:321-327 | a record is settled exactly when `deliveryStatus || status` is "delivered" and paid covers the price, so nothing is owed |
| AdminViews.VisibleRecords | moon-cargo-ui/src/components/AdminPanel.jsx:329-332 | the filtered records that are not settled, every one of them, in the filtered order |
| AdminViews.DocumentRecords | moon-cargo-ui/src/components/AdminPanel.jsx:334-337 | the filtered records that are settled, every one of them, in the filtered order, each owing nothing |
| AdminViews.VisibleDocumentsPartition | moon-cargo-ui/src/components/AdminPanel.jsx:321-337 | the open list and the documents split the filtered list: every record in exactly one, settled deliveries only among the documents, order kept |
| AdminViews.ComputeTotals | moon-cargo-ui/src/components/AdminPanel.jsx:303-318 | the reduce loop computes the count and the sums of price, paid and owed |
| AdminViews.BalanceCoversShortfall | moon-cargo-ui/src/components/AdminPanel.jsx:303-318 | the owed total is never negative and at least total price less total paid |
| AdminViews.TotalsSplit | moon-cargo-ui/src/components/AdminPanel.jsx:303-353 | the totals of the filtered list are the open totals plus the document totals |
| AdminViews.DocumentsOweNothing | moon-cargo-ui/src/components/AdminPanel.jsx:339-353 | the documents owe nothing, so the open list carries the whole owed total |
| AdminViews.GroupKey | moon-cargo-ui/src/components/AdminPanel.jsx:377 | a group key is never empty: the trimmed phone, or the "no number" label |
| AdminViews.PhoneGroupFold | moon-cargo-ui/src/components/AdminPanel.jsx:378-388 | adding a group's records one by one yields their first PIN, the records in order and their sums |
| AdminViews.GroupOrder | moon-cargo-ui/src/components/AdminPanel.jsx:390 | the groups are listed in `Object.values` order, each key once |
| AdminViews.GroupOrderCovers | moon-cargo-ui/src/components/AdminPanel.jsx:376-390 | every visible record's key has a group |
| AdminViews.PhoneGroupsOf | moon-cargo-ui/src/components/AdminPanel.jsx:374-391 | one entry per listed key, each the summary of that key's records |
| AdminViews.PhoneGroups | moon-cargo-ui/src/components/AdminPanel.jsx:374-391 | the loop's result is the summary of each key's records in `Object.values` order |
| AdminViews.GroupSums | moon-cargo-ui/src/components/AdminPanel.jsx:385-388 | the group sizes and balances add up to the per-key sums |
| AdminViews.PhoneGroupsCover | moon-cargo-ui/src/components/AdminPanel.jsx:374-391 | the groups hold every visible record once and their balances add up to the open total |
| AdminViews.PhoneGroupMembers | moon-cargo-ui/src/components/AdminPanel.jsx:376-385 | each group is non-empty and holds exactly the visible records with its key |
| AdminViews.DeliveryGroupFold | moon-cargo-ui/src/components/AdminPanel.jsx:557-563 | adding a group's records one by one yields them in order and the first address among them |
| AdminViews.DeliveryGroupsOf | moon-cargo-ui/src/components/AdminPanel.jsx:544-566 | one entry per listed key, each the summary of that key's eligible records |
| AdminViews.DeliveryGroups | moon-cargo-ui/src/components/AdminPanel.jsx:544-566 | the loop over records out for delivery and not settled yields each key's summary in `Object.values` order |
| AdminViews.DeliveryVisibleCount | moon-cargo-ui/src/components/AdminPanel.jsx:568-571 | the counted items are exactly the records out for delivery and not settled |
| AdminViews.PageCount | moon-cargo-ui/src/components/AdminPanel.jsx:357 | at least one page, enough pages for every item, and no trailing empty page |
| AdminViews.PageSlice | moon-cargo-ui/src/components/AdminPanel.jsx:363-366 | `slice((page-1)*size, page*size)`: the items from `(page-1)*size` on, `size` of them on a full page, the remainder on the last, none past the end |
| AdminViews.PagesCoverAll | moon-cargo-ui/src/components/AdminPanel.jsx:363-366 | the page slices from 1 to the page count together are the whole list |
| AdminViews.PagesPastTheEnd | moon-cargo-ui/src/components/AdminPanel.jsx:400-403 | a page past the page count is empty |
| AdminActions.SyncRecord | moon-cargo-ui/src/components/AdminPanel.jsx:74-77 | a reply without a usable id changes nothing; otherwise exactly the records with its id become the reply, the others and every id stay |
| AdminActions.SyncIdempotent | moon-cargo-ui/src/components/AdminPanel.jsx:74-77 | merging the same reply twice is merging it once |
| AdminActions.SyncCommutes | moon-cargo-ui/src/components/AdminPanel.jsx:74-77 | replies about different shipments can be merged in either order |
| AdminActions.FindById | moon-cargo-ui/src/components/AdminPanel.jsx:109 | `find` yields the first record with the id, and nothing exactly when no record has it |
| AdminActions.UpdateRecordStatus | moon-cargo-ui/src/components/AdminPanel.jsx:108-115 | no request exactly when no record has the id; else the new status, with "pending" sending location and delivery state back to "warehouse" and other statuses sending the location and delivery state of the first record with the id |
| AdminActions.PendingResetsShipment | moon-cargo-ui/src/components/AdminPanel.jsx:108-115 | on the server, "pending" from the panel puts the shipment back in the warehouse with nothing paid and the whole price owed |
| AdminActions.HandleDeliveryChange | moon-cargo-ui/src/components/AdminPanel.jsx:143-152 | the status is kept, the delivery state is always the chosen one, and the location is "warehouse" exactly for "warehouse", else "delivery" |
| AdminActions.DeliveryChangeStored | moon-cargo-ui/src/components/AdminPanel.jsx:143-152 | the server stores the chosen delivery state, the matching location, and a delivery time for "delivered" |
| AdminActions.PayRemaining | moon-cargo-ui/src/components/AdminPanel.jsx:127-141 | a payment of exactly what is owed when something is, else a status change to "paid" at the record's location |
| AdminActions.PayRemainingSettles | moon-cargo-ui/src/components/AdminPanel.jsx:127-141 | either request leaves the mirrored shipment "paid" with nothing owed |
| AdminActions.PhoneRecords | moon-cargo-ui/src/components/AdminPanel.jsx:175 | exactly the filtered records whose phone, spaces removed, is the group's |
| AdminActions.Allocate | moon-cargo-ui/src/components/AdminPanel.jsx:176-184 | at most one payment per record, every one positive, in cash and no larger than the amount typed |
| AdminActions.PayCustomForPhone | moon-cargo-ui/src/components/AdminPanel.jsx:167-187 | no payment for a missing or non-positive amount; else the allocation of the amount over the group's records in list order |
| AdminActions.PayInOrder | moon-cargo-ui/src/components/AdminPanel.jsx:174-185 | the loop books exactly the allocation |
| AdminActions.AllocateTotal | moon-cargo-ui/src/components/AdminPanel.jsx:176-184 | the payments add up to the amount typed, or to the group's debt when that is smaller |
| AdminActions.AllocateInOrder | moon-cargo-ui/src/components/AdminPanel.jsx:174-184 | earlier records are paid in full before a later record gets anything |
| AdminActions.PayingTheDebtSettlesAll | moon-cargo-ui/src/components/AdminPanel.jsx:176-184 | an amount of at least the group's debt pays every owing record exactly what it owes |
| AdminActions.NothingOwed | moon-cargo-ui/src/components/AdminPanel.jsx:177-178 | a group that owes nothing gets no payment |

## Left out

- The digest: SHA-256 is an arbitrary deterministic function passed in through `PinStore.PinConfig`, so digest collisions are not modelled.
- Randomness: `randomInt(0, 10000)` is a nondeterministic choice of a draw below 10000.
- Concurrency: concurrent requests, and the `Promise.all` over a listed page, are modelled as one request at a time and the page's rows in order.
- Database and server plumbing: the connection, schema creation, `asyncHandler`, the error middleware and the startup code.
- The listing's SQL `WHERE` clause (`ILIKE` patterns, equality and date bounds): it is the parameter `matches` of `ListShipments`.
- Other routes: `/health`, `/api/stats` and the `/api/content` endpoints are not part of this model.
- Client transport: `fetch`, `request` and the error text it builds, `listShipments`, `ensurePin`, `lookupPin` and the content calls are not part of this model. Each handler is modelled by the request it sends.
- The panel's React state: form state, toasts, timers, copy buttons, the schedule image and analytics. Page numbers are plain parameters.
- Other panel handlers: `payAllForPhone`, `paymentFilteredRecords`, `updateRecordLocation`, `updateAddressForPhone`, `sendGroupToDelivery`, `payCustom` and the form submit handler are not modelled.
- Text:
  - Case mapping is ASCII only; JavaScript's full Unicode `toUpperCase`/`toLowerCase` is not modelled.
  - Strings are sequences of characters, without UTF-16 surrogates.
- Numbers: floating-point amounts, `NaN` beyond reading as 0, and JSON `null` versus a missing key are not modelled.
- Timestamps are integers passed in by the caller. Payments with equal `created_at` are listed newest first by insertion order.
- `AdminActions.PayCustomForPhone`: a failing `addPayment` throws out of the loop in the panel; the model assumes every payment is accepted.
- AdminViews.PhoneGroups: a group key that names an `Object.prototype` property ("constructor", "toString", "valueOf", "__proto__", ...) is grouped like any other key. The panel builds its groups in a plain `{}`, where such a key already holds a value, so it never creates the group and throws a `TypeError` at `map[key].items.push` (`AdminPanel.jsx:378-385`). For "constructor" it first writes `pin` onto the global `Object`. The model does not capture this throw.
- AdminViews.DeliveryGroups: the same `Object.prototype` key case (`AdminPanel.jsx:557-563`) is grouped like any other key; the panel's `TypeError` is not captured.
- `AdminViews.PageSlice`: requires `page >= 1`; the panel's page state never goes below 1.

/**
 * The UI's API client mapping: backend rows to admin-panel records (`toUi`)
 * and records to request bodies (`toApi`), and what survives a save and
 * reload through the backend.
 */
module ApiMapping {
  import opened Wrappers
  import opened Text
  import opened Ledger

  /**
   * A shipment record as the admin panel holds it. `id` is `None` for a
   * record without one; `deliveryPin`, `pinCode`, `admin` and `adminBypass`
   * are keys the panel may add before saving (`admin` is `=== true`).
   */
  datatype UiRecord = UiRecord(
    id: Option<nat>, tracking: string, phone: string, pin: string, customerName: string,
    quantity: int, weight: int, declared: int, paidAmount: int, balance: int,
    status: string, deliveryStatus: string, location: string, arrivalDate: Option<int>,
    deliveryAddress: string, deliveryNote: string, createdAt: Option<int>,
    deliveryPin: string, pinCode: string, admin: bool, adminBypass: bool)

  /** The statuses the UI shows as they are. */
  predicate KnownStatus(s: string) {
    s == "paid" || s == "pending" || s == "delivered" || s == "delayed" || s == "canceled"
  }

  /** A known status is kept; any other becomes "paid" when nothing is owed, else "pending". */
  function UiStatus(status: string, balance: int): (s: string)
    ensures KnownStatus(s)
    ensures KnownStatus(status) ==> s == status
    ensures !KnownStatus(status) ==> (s == "paid" <==> balance <= 0) && (s == "paid" || s == "pending")
  {
    if KnownStatus(status) then status else if balance <= 0 then "paid" else "pending"
  }

  /** `toUi`. */
  function ToUi(row: ApiRow): (r: UiRecord)
    ensures r.id == Some(row.id)
    ensures r.tracking == row.barcode && r.phone == row.phone && r.customerName == row.customerName
    ensures r.declared == row.price && r.paidAmount == row.paidAmount
    ensures row.balance != 0 ==> r.balance == row.balance
    ensures row.balance == 0 ==> r.balance == row.price - row.paidAmount
    ensures r.status == UiStatus(row.status, r.balance)
    ensures row.deliveryStatus != "" ==> r.deliveryStatus == row.deliveryStatus
    ensures row.deliveryStatus == "" ==> r.deliveryStatus == DeliveryOrWarehouse(row.location)
    ensures row.location != "" ==> r.location == row.location
    ensures row.location == "" ==> r.location == DeliveryOrWarehouse(r.deliveryStatus)
    ensures r.pin == (if row.pin != "" then row.pin else row.pinPlain)
    ensures r.quantity != 0 && (row.quantity != 0 ==> r.quantity == row.quantity)
    ensures r.deliveryAddress == row.notes && r.deliveryNote == row.deliveryNote
    ensures r.arrivalDate == row.arrivalDate && r.createdAt == row.createdAt
    ensures !r.admin && !r.adminBypass && r.deliveryPin == "" && r.pinCode == ""
  {
    var paidAmount := row.paidAmount;
    var price := row.price;
    var balance := OrNumber(row.balance, price - paidAmount);
    var deliveryStatus := Or(row.deliveryStatus, DeliveryOrWarehouse(row.location));
    UiRecord(
      Some(row.id), row.barcode, row.phone, Or(row.pin, row.pinPlain), row.customerName,
      OrNumber(row.quantity, 1), row.weight, price, paidAmount, balance,
      UiStatus(row.status, balance), deliveryStatus,
      Or(row.location, DeliveryOrWarehouse(deliveryStatus)),
      row.arrivalDate, row.notes, row.deliveryNote, row.createdAt,
      "", "", false, false)
  }

  /** `toApi`: the JSON body for POST and PUT, given today's date for a record without an arrival date. */
  function ToApi(record: UiRecord, today: int): (body: ShipmentBody)
    ensures body.barcode == Some(ToUpper(Trim(record.tracking)))
    ensures body.phone.Some? && AllDigits(body.phone.value) && body.phone.value == NormalizePhone(record.phone)
    ensures body.customerName == Some(record.customerName)
    ensures body.quantity.Some? && body.quantity.value != 0
    ensures record.quantity != 0 ==> body.quantity == Some(record.quantity)
    ensures body.price == Some(record.declared) && body.paidAmount == Some(record.paidAmount)
    ensures body.status.Some? && (record.status != "" ==> body.status.value == record.status)
    ensures record.status == "" ==> body.status == Some("pending")
    ensures record.deliveryStatus != "" ==> body.deliveryStatus == Some(record.deliveryStatus)
    ensures record.deliveryStatus == "" ==> body.deliveryStatus == Some(DeliveryOrWarehouse(record.location))
    ensures body.location.Some? && body.location.value != ""
    ensures record.location != "" ==> body.location == Some(record.location)
    ensures body.arrivalDate == Some(record.arrivalDate.GetOr(today))
    ensures body.notes == Some(record.deliveryAddress) && body.deliveryNote == Some(record.deliveryNote)
    ensures body.pin == (if record.pin != "" then record.pin else if record.deliveryPin != "" then record.deliveryPin else record.pinCode)
    ensures body.admin == record.admin && body.adminBypass == record.adminBypass
    ensures body.deliveryStatusCamel.None? && body.courier.None? && body.deliveredAt.None?
    ensures body.deliveryPinSnake == "" && body.deliveryPinCamel == ""
  {
    ShipmentBody(
      Some(ToUpper(Trim(record.tracking))),
      Some(NormalizePhone(record.phone)),
      Some(record.customerName),
      Some(OrNumber(record.quantity, 1)),
      Some(record.weight), Some(record.declared), Some(record.paidAmount),
      Some(Or(record.status, "pending")),
      Some(Or(record.deliveryStatus, DeliveryOrWarehouse(record.location))),
      None,
      Some(Or(record.location, "warehouse")),
      Some(record.arrivalDate.GetOr(today)),
      Some(record.deliveryAddress), Some(record.deliveryNote),
      None, None,
      Or(Or(record.pin, record.deliveryPin), record.pinCode), "", "",
      record.admin, record.adminBypass)
  }

  /** The backend refuses to create a record exactly when its tracking code is blank once trimmed. */
  lemma CreateNeedsTracking(record: UiRecord, today: int)
    ensures MissingBarcode(ToApi(record, today)) <==> Trim(record.tracking) == ""
  {
    assert |ToUpper(Trim(record.tracking))| == |Trim(record.tracking)|;
  }

  /**
   * `createShipment(record)`: the record as the UI holds it after the backend
   * created it from `toApi(record)` under `id`.
   */
  function CreatedRecord(record: UiRecord, id: nat, today: int, now: int): (ui: UiRecord)
    requires Trim(record.tracking) != ""
    ensures ui.id == Some(id)
  {
    CreateNeedsTracking(record, today);
    ToUi(ToShipment(NewShipment(ToApi(record, today), id, today, now), ""))
  }

  /** The tracking code comes back trimmed and upper-cased. */
  lemma CreatedTracking(record: UiRecord, id: nat, today: int, now: int)
    requires Trim(record.tracking) != ""
    ensures CreatedRecord(record, id, today, now).tracking == ToUpper(Trim(record.tracking))
  {
    CreateNeedsTracking(record, today);
    TrimUpperTrim(record.tracking);
  }

  /** The phone comes back as its digits. */
  lemma CreatedPhone(record: UiRecord, id: nat, today: int, now: int)
    requires Trim(record.tracking) != ""
    ensures CreatedRecord(record, id, today, now).phone == NormalizePhone(record.phone)
  {
    TrimDigits(NormalizePhone(record.phone));
  }

  /** The money fields come back as sent, and the balance as what is still owed. */
  lemma CreatedAmounts(record: UiRecord, id: nat, today: int, now: int)
    requires Trim(record.tracking) != ""
    ensures CreatedRecord(record, id, today, now).declared == record.declared
    ensures CreatedRecord(record, id, today, now).paidAmount == record.paidAmount
    ensures CreatedRecord(record, id, today, now).balance == record.declared - record.paidAmount
    ensures record.quantity != 0 ==> CreatedRecord(record, id, today, now).quantity == record.quantity
  {
  }

  /** The address and a chosen delivery status come back as sent. */
  lemma CreatedTexts(record: UiRecord, id: nat, today: int, now: int)
    requires Trim(record.tracking) != ""
    ensures CreatedRecord(record, id, today, now).deliveryAddress == record.deliveryAddress
    ensures record.deliveryStatus != "" ==> CreatedRecord(record, id, today, now).deliveryStatus == record.deliveryStatus
  {
  }

  /** A known status comes back as it was, a blank one as "pending". */
  lemma CreatedStatus(record: UiRecord, id: nat, today: int, now: int)
    requires Trim(record.tracking) != ""
    ensures KnownStatus(record.status) ==> CreatedRecord(record, id, today, now).status == record.status
    ensures record.status == "" ==> CreatedRecord(record, id, today, now).status == "pending"
  {
  }

  /**
   * `updateShipment(id, record)` once the delivery gate let it through: the
   * record as the UI holds it after the backend merged `toApi(record)` into
   * `existing`.
   */
  function UpdatedRecord(record: UiRecord, existing: Shipment, today: int, now: int, pinPlain: string): (ui: UiRecord)
    ensures ui.id == Some(existing.id)
  {
    ToUi(ToShipment(UpdatedRow(existing, ToApi(record, today), now), pinPlain))
  }

  /** A PUT of a record brings back its tracking code (trimmed, upper-cased), its phone digits and its amounts. */
  lemma UpdatedKeepsEdits(record: UiRecord, existing: Shipment, today: int, now: int, pinPlain: string)
    ensures UpdatedRecord(record, existing, today, now, pinPlain).tracking == ToUpper(Trim(record.tracking))
    ensures UpdatedRecord(record, existing, today, now, pinPlain).phone == NormalizePhone(record.phone)
    ensures UpdatedRecord(record, existing, today, now, pinPlain).declared == record.declared
    ensures UpdatedRecord(record, existing, today, now, pinPlain).paidAmount == record.paidAmount
    ensures UpdatedRecord(record, existing, today, now, pinPlain).balance == record.declared - record.paidAmount
    ensures UpdatedRecord(record, existing, today, now, pinPlain).deliveryAddress == record.deliveryAddress
  {
  }

  /**
   * A PUT keeps the record's location as sent (not lower-cased) and stores the
   * delivery status "warehouse" unless that location lower-cases to "delivery".
   */
  lemma UpdatedLocation(record: UiRecord, existing: Shipment, today: int, now: int, pinPlain: string)
    ensures record.location != "" ==> UpdatedRecord(record, existing, today, now, pinPlain).location == record.location
    ensures record.location == "" ==> UpdatedRecord(record, existing, today, now, pinPlain).location == "warehouse"
    ensures ToLower(record.location) != "delivery" ==>
              UpdatedRecord(record, existing, today, now, pinPlain).deliveryStatus == "warehouse"
  {
    var row := UpdatedRow(existing, ToApi(record, today), now);
    assert row.location == Or(record.location, "warehouse");
    if record.location == "" {
      assert ToLower("warehouse") == "warehouse";
    }
  }

  /** Every row the backend stores keeps `balance == price - paid`, so the UI's fallback agrees with the stored balance. */
  lemma BalanceAgrees(row: Shipment, pinPlain: string)
    requires Balanced(row)
    ensures ToUi(ToShipment(row, pinPlain)).balance == row.price - row.paidAmount
  {
  }
}

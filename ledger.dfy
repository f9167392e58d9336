/**
 * The rows of the backend's shipment ledger and the pure rules its routes
 * apply to them: creation defaults, the PUT merge and its delivery gate, the
 * PATCH status reset, payment booking, and list ordering and pagination.
 */
module Ledger {
  import opened Wrappers
  import opened Text
  import opened Seqs

  /**
   * A `shipments` row. Text columns hold "" for SQL NULL; dates and
   * timestamps are abstract day and instant numbers; money is whole tögrög.
   */
  datatype Shipment = Shipment(
    id: nat,
    barcode: string, phone: string, customerName: string,
    quantity: int, weight: int, price: int, paidAmount: int, balance: int,
    status: string, deliveryStatus: string, location: string,
    arrivalDate: Option<int>, notes: string, deliveryNote: string, courier: string,
    deliveredAt: Option<int>, createdAt: int, updatedAt: int)

  /**
   * The JSON body of POST and PUT `/api/shipments`; `None` is a key the
   * client left out. Numbers are already `Number(...)`, with a value that is
   * not a number read as 0. `admin` and `adminBypass` are `=== true`.
   */
  datatype ShipmentBody = ShipmentBody(
    barcode: Option<string>, phone: Option<string>, customerName: Option<string>,
    quantity: Option<int>, weight: Option<int>, price: Option<int>, paidAmount: Option<int>,
    status: Option<string>, deliveryStatus: Option<string>, deliveryStatusCamel: Option<string>,
    location: Option<string>, arrivalDate: Option<int>, notes: Option<string>,
    deliveryNote: Option<string>, courier: Option<string>, deliveredAt: Option<int>,
    pin: string, deliveryPinSnake: string, deliveryPinCamel: string,
    admin: bool, adminBypass: bool)

  /** The body of PATCH `/api/shipments/:id/status`; "" is an absent or empty field. */
  datatype StatusBody = StatusBody(status: string, location: string, deliveryStatus: string)

  /** A `payments` row. */
  datatype Payment = Payment(id: nat, shipmentId: nat, amount: int, via: string, createdAt: int)

  /**
   * A shipment as the routes answer with it (`toShipment`): the row's columns
   * plus the `pin_plain` of its customer, "" when there is none. `pin` is a
   * key the UI also reads; the backend never sets it.
   */
  datatype ApiRow = ApiRow(
    id: nat, barcode: string, phone: string, pin: string, pinPlain: string, customerName: string,
    quantity: int, weight: int, price: int, paidAmount: int, balance: int,
    status: string, deliveryStatus: string, location: string,
    arrivalDate: Option<int>, notes: string, deliveryNote: string, courier: string,
    deliveredAt: Option<int>, createdAt: Option<int>, updatedAt: Option<int>)

  /** JavaScript `Number(x) || fallback`: zero (and a non-number, read as zero) is falsy. */
  function OrNumber(x: int, fallback: int): int {
    if x != 0 then x else fallback
  }

  /** The ledger invariant: what is still owed is the price less what was paid. */
  predicate Balanced(row: Shipment) {
    row.balance == row.price - row.paidAmount
  }

  /**
   * `s === 'delivery' ? 'delivery' : 'warehouse'`: the fallback that derives a
   * delivery status from a location, and a location from a delivery status.
   */
  function DeliveryOrWarehouse(s: string): (r: string)
    ensures r == "delivery" <==> s == "delivery"
    ensures r == "delivery" || r == "warehouse"
  {
    if s == "delivery" then "delivery" else "warehouse"
  }

  /** `toShipment`: the row with its numbers coerced (integers already) and the joined PIN. */
  function ToShipment(row: Shipment, pinPlain: string): (a: ApiRow)
    ensures a.id == row.id && a.barcode == row.barcode && a.phone == row.phone
    ensures a.price == row.price && a.paidAmount == row.paidAmount && a.balance == row.balance
    ensures Balanced(row) ==> a.balance == a.price - a.paidAmount
    ensures a.status == row.status && a.location == row.location && a.notes == row.notes
    ensures a.pinPlain == pinPlain && a.pin == ""
  {
    ApiRow(row.id, row.barcode, row.phone, "", pinPlain, row.customerName,
           row.quantity, row.weight, row.price, row.paidAmount, row.balance,
           row.status, row.deliveryStatus, row.location, row.arrivalDate, row.notes,
           row.deliveryNote, row.courier, row.deliveredAt, Some(row.createdAt), Some(row.updatedAt))
  }

  // ---------------------------------------------------------------- create

  /** POST refuses a body without a (non-empty) barcode. */
  predicate MissingBarcode(body: ShipmentBody) {
    body.barcode.None? || body.barcode.value == ""
  }

  /** `(location || 'warehouse').toLowerCase()`, with `location` defaulting to "warehouse". */
  function CreateLocation(body: ShipmentBody): (l: string)
    ensures body.location.None? || body.location == Some("") ==> l == "warehouse"
    ensures body.location.Some? && body.location.value != "" ==> l == ToLower(body.location.value)
    ensures l == ToLower(l)
  {
    CaseMappingIdempotent(Or(body.location.GetOr("warehouse"), "warehouse"));
    ToLower(Or(body.location.GetOr("warehouse"), "warehouse"))
  }

  /** `delivery_status || (location === 'delivery' ? 'delivery' : 'warehouse')`. */
  function CreateDeliveryStatus(body: ShipmentBody, location: string): (d: string)
    ensures body.deliveryStatus.Some? && body.deliveryStatus.value != "" ==> d == body.deliveryStatus.value
    ensures body.deliveryStatus.None? || body.deliveryStatus == Some("") ==>
              (d == "delivery" <==> location == "delivery") && (d == "delivery" || d == "warehouse")
  {
    Or(body.deliveryStatus.GetOr(""), DeliveryOrWarehouse(location))
  }

  /** The row POST inserts, given the id the sequence hands out, today's date and the insert instant. */
  function NewShipment(body: ShipmentBody, id: nat, today: int, now: int): (row: Shipment)
    requires !MissingBarcode(body)
    ensures row.id == id && Balanced(row)
    ensures row.barcode == Trim(body.barcode.value) && row.phone == Trim(body.phone.GetOr(""))
    ensures row.customerName == Trim(body.customerName.GetOr(""))
    ensures row.quantity != 0
    ensures body.quantity.None? || body.quantity == Some(0) ==> row.quantity == 1
    ensures body.quantity.Some? && body.quantity.value != 0 ==> row.quantity == body.quantity.value
    ensures row.weight == body.weight.GetOr(0)
    ensures row.price == body.price.GetOr(0) && row.paidAmount == body.paidAmount.GetOr(0)
    ensures row.status == body.status.GetOr("received")
    ensures body.location.None? || body.location == Some("") ==> row.location == "warehouse"
    ensures body.location.Some? && body.location.value != "" ==> row.location == ToLower(body.location.value)
    ensures row.location == ToLower(row.location)
    ensures body.deliveryStatus.Some? && body.deliveryStatus.value != "" ==> row.deliveryStatus == body.deliveryStatus.value
    ensures body.deliveryStatus.None? || body.deliveryStatus == Some("") ==>
              (row.deliveryStatus == "delivery" <==> row.location == "delivery")
              && (row.deliveryStatus == "delivery" || row.deliveryStatus == "warehouse")
    ensures row.notes == body.notes.GetOr("") && row.deliveryNote == body.deliveryNote.GetOr("")
    ensures row.courier == body.courier.GetOr("")
    ensures row.arrivalDate == Some(body.arrivalDate.GetOr(today))
    ensures row.deliveredAt == body.deliveredAt
    ensures row.createdAt == now && row.updatedAt == now
  {
    var location := CreateLocation(body);
    var price := OrNumber(body.price.GetOr(0), 0);
    var paid := OrNumber(body.paidAmount.GetOr(0), 0);
    Shipment(
      id,
      Trim(body.barcode.value), Trim(body.phone.GetOr("")), Trim(body.customerName.GetOr("")),
      OrNumber(body.quantity.GetOr(1), 1), OrNumber(body.weight.GetOr(0), 0), price, paid, price - paid,
      body.status.GetOr("received"),
      CreateDeliveryStatus(body, location),
      location,
      Some(body.arrivalDate.GetOr(today)),
      body.notes.GetOr(""), body.deliveryNote.GetOr(""), body.courier.GetOr(""),
      body.deliveredAt, now, now)
  }

  // ---------------------------------------------------------------- PUT

  /** The location of `{...existing, ...body}`. */
  function MergedLocation(existing: Shipment, body: ShipmentBody): string {
    body.location.GetOr(existing.location)
  }

  /** PUT moves (or keeps) the shipment in delivery: the merged location lower-cases to "delivery". */
  predicate WantsDelivery(existing: Shipment, body: ShipmentBody) {
    ToLower(MergedLocation(existing, body)) == "delivery"
  }

  /** The phone the delivery gate checks: the merged phone, else the stored one, trimmed. */
  function GatePhone(existing: Shipment, body: ShipmentBody): string {
    Trim(Or(body.phone.GetOr(existing.phone), existing.phone))
  }

  /** The PIN the client supplied, from `pin`, `delivery_pin` or `deliveryPin`, trimmed. */
  function PinInput(body: ShipmentBody): string {
    Trim(Or(Or(body.pin, body.deliveryPinSnake), body.deliveryPinCamel))
  }

  /** What the PUT route must do about PINs before it writes the row. */
  datatype Gate =
    | NoGate                                   // not in delivery: no PIN work
    | PhoneRequired                            // 400: delivery without any phone
    | PinCheck(phone: string, pin: string)     // ensure a PIN for `phone`, then verify `pin`
    | BypassEnsure(phone: string)              // admin bypass: ensure a PIN exists, no check

  function DeliveryGate(existing: Shipment, body: ShipmentBody, headerBypass: bool): (g: Gate)
    ensures !WantsDelivery(existing, body) ==> g == NoGate
    ensures g.PhoneRequired? <==> WantsDelivery(existing, body) && !(body.admin || body.adminBypass || headerBypass)
                                  && GatePhone(existing, body) == ""
    ensures g.PinCheck? <==> WantsDelivery(existing, body) && !(body.admin || body.adminBypass || headerBypass)
                             && GatePhone(existing, body) != ""
    ensures g.PinCheck? ==> g.phone == GatePhone(existing, body) && g.pin == PinInput(body)
    ensures g.BypassEnsure? ==> (body.admin || body.adminBypass || headerBypass) && g.phone == GatePhone(existing, body) != ""
  {
    var skipPin := body.admin || body.adminBypass || headerBypass;
    var phone := GatePhone(existing, body);
    if !WantsDelivery(existing, body) then NoGate
    else if !skipPin then (if phone == "" then PhoneRequired else PinCheck(phone, PinInput(body)))
    else if phone != "" then BypassEnsure(phone)
    else NoGate
  }

  /** Resubmitting the same body with a digit PIN in `pin` keeps the gate and makes it check that PIN. */
  lemma GateWithPin(existing: Shipment, body: ShipmentBody, headerBypass: bool, pin: string)
    requires DeliveryGate(existing, body, headerBypass).PinCheck?
    requires pin != "" && AllDigits(pin)
    ensures DeliveryGate(existing, body.(pin := pin), headerBypass) == PinCheck(GatePhone(existing, body), pin)
  {
    TrimDigits(pin);
    assert PinInput(body.(pin := pin)) == pin;
  }

  /** The row PUT writes: `{...existing, ...body}` with numbers defaulted, the balance recomputed and the delivery status derived. */
  function UpdatedRow(existing: Shipment, body: ShipmentBody, now: int): (row: Shipment)
    ensures Balanced(row)
    ensures row.id == existing.id && row.createdAt == existing.createdAt && row.updatedAt == now
    ensures row.deliveredAt == existing.deliveredAt
    ensures row.barcode == body.barcode.GetOr(existing.barcode) && row.phone == body.phone.GetOr(existing.phone)
    ensures row.customerName == body.customerName.GetOr(existing.customerName)
    ensures row.quantity != 0
    ensures body.quantity.GetOr(existing.quantity) != 0 ==> row.quantity == body.quantity.GetOr(existing.quantity)
    ensures body.quantity.GetOr(existing.quantity) == 0 ==> row.quantity == 1
    ensures row.weight == body.weight.GetOr(existing.weight)
    ensures row.price == body.price.GetOr(existing.price) && row.paidAmount == body.paidAmount.GetOr(existing.paidAmount)
    ensures row.status == body.status.GetOr(existing.status)
    ensures row.notes == body.notes.GetOr(existing.notes) && row.deliveryNote == body.deliveryNote.GetOr(existing.deliveryNote)
    ensures row.courier == body.courier.GetOr(existing.courier)
    ensures row.arrivalDate == (if body.arrivalDate.Some? then body.arrivalDate else existing.arrivalDate)
    ensures row.location == MergedLocation(existing, body)
    ensures !WantsDelivery(existing, body) ==> row.deliveryStatus == "warehouse"
    ensures WantsDelivery(existing, body) && body.deliveryStatus.GetOr(existing.deliveryStatus) != "" ==>
              row.deliveryStatus == body.deliveryStatus.GetOr(existing.deliveryStatus)
    ensures (WantsDelivery(existing, body) && body.deliveryStatus.GetOr(existing.deliveryStatus) == ""
             && body.deliveryStatusCamel.GetOr("") == "") ==> row.deliveryStatus == "delivery"
  {
    var price := OrNumber(body.price.GetOr(existing.price), 0);
    var paid := OrNumber(body.paidAmount.GetOr(existing.paidAmount), 0);
    var ds := if WantsDelivery(existing, body)
              then Or(Or(body.deliveryStatus.GetOr(existing.deliveryStatus), body.deliveryStatusCamel.GetOr("")), "delivery")
              else "warehouse";
    Shipment(
      existing.id,
      body.barcode.GetOr(existing.barcode), body.phone.GetOr(existing.phone),
      body.customerName.GetOr(existing.customerName),
      OrNumber(body.quantity.GetOr(existing.quantity), 1), OrNumber(body.weight.GetOr(existing.weight), 0),
      price, paid, price - paid,
      body.status.GetOr(existing.status), ds, MergedLocation(existing, body),
      if body.arrivalDate.Some? then body.arrivalDate else existing.arrivalDate,
      body.notes.GetOr(existing.notes), body.deliveryNote.GetOr(existing.deliveryNote),
      body.courier.GetOr(existing.courier),
      existing.deliveredAt, existing.createdAt, now)
  }

  // ---------------------------------------------------------------- PATCH

  /** `(body.location || existing.location || 'warehouse').toLowerCase()`. */
  function PatchLocation(existing: Shipment, body: StatusBody): (l: string)
    ensures l == ToLower(l)
    ensures body.location != "" ==> l == ToLower(body.location)
    ensures body.location == "" && existing.location != "" ==> l == ToLower(existing.location)
    ensures body.location == "" && existing.location == "" ==> l == "warehouse"
  {
    CaseMappingIdempotent(Or(Or(body.location, existing.location), "warehouse"));
    ToLower(Or(Or(body.location, existing.location), "warehouse"))
  }

  /** `body.delivery_status || existing.delivery_status || (location === 'delivery' ? 'delivery' : 'warehouse')`. */
  function PatchDeliveryStatus(existing: Shipment, body: StatusBody, location: string): (d: string)
    ensures body.deliveryStatus != "" ==> d == body.deliveryStatus
    ensures body.deliveryStatus == "" && existing.deliveryStatus != "" ==> d == existing.deliveryStatus
    ensures body.deliveryStatus == "" && existing.deliveryStatus == "" ==> d == DeliveryOrWarehouse(location)
  {
    Or(Or(body.deliveryStatus, existing.deliveryStatus), DeliveryOrWarehouse(location))
  }

  /** The row PATCH `/status` writes. */
  function PatchedRow(existing: Shipment, body: StatusBody, now: int): (row: Shipment)
    ensures Balanced(existing) ==> Balanced(row)
    ensures row.status == Or(body.status, existing.status)
    ensures row.status == "pending" ==> row.paidAmount == 0 && row.balance == existing.price
    ensures row.status != "pending" ==> row.paidAmount == existing.paidAmount && row.balance == existing.balance
    ensures row.location == ToLower(row.location)
    ensures body.location != "" ==> row.location == ToLower(body.location)
    ensures body.location == "" && existing.location != "" ==> row.location == ToLower(existing.location)
    ensures body.location == "" && existing.location == "" ==> row.location == "warehouse"
    ensures body.deliveryStatus != "" ==> row.deliveryStatus == body.deliveryStatus
    ensures body.deliveryStatus == "" && existing.deliveryStatus != "" ==> row.deliveryStatus == existing.deliveryStatus
    ensures body.deliveryStatus == "" && existing.deliveryStatus == "" ==> row.deliveryStatus == DeliveryOrWarehouse(row.location)
    ensures row.deliveryStatus == "delivered" ==> row.deliveredAt.Some?
    ensures row.deliveryStatus == "delivered" && existing.deliveredAt.Some? ==> row.deliveredAt == existing.deliveredAt
    ensures row.deliveryStatus == "delivered" && existing.deliveredAt.None? ==> row.deliveredAt == Some(now)
    ensures row.deliveryStatus == "canceled" || row.deliveryStatus == "pending" ==> row.deliveredAt.None?
    ensures row.deliveryStatus !in {"delivered", "canceled", "pending"} ==> row.deliveredAt == existing.deliveredAt
    ensures row.id == existing.id && row.barcode == existing.barcode && row.phone == existing.phone
    ensures row.customerName == existing.customerName && row.price == existing.price
    ensures row.quantity == existing.quantity && row.weight == existing.weight
    ensures row.arrivalDate == existing.arrivalDate && row.notes == existing.notes
    ensures row.deliveryNote == existing.deliveryNote && row.courier == existing.courier
    ensures row.createdAt == existing.createdAt && row.updatedAt == now
  {
    var status := Or(body.status, existing.status);
    var location := PatchLocation(existing, body);
    var ds := PatchDeliveryStatus(existing, body, location);
    var deliveredAt :=
      if ds == "delivered" then (if existing.deliveredAt.Some? then existing.deliveredAt else Some(now))
      else if ds == "canceled" || ds == "pending" then None
      else existing.deliveredAt;
    existing.(status := status, location := location, deliveryStatus := ds, deliveredAt := deliveredAt,
              paidAmount := if status == "pending" then 0 else existing.paidAmount,
              balance := if status == "pending" then existing.price else existing.balance,
              updatedAt := now)
  }

  // ---------------------------------------------------------------- payments

  /** A payment amount is accepted only when positive (`Number(amount) || 0` must exceed 0). */
  predicate ValidAmount(amount: int) {
    amount > 0
  }

  /** The method recorded for a payment: the given one, else "cash". */
  function PaymentMethod(given: string): (m: string)
    ensures m != ""
    ensures given != "" ==> m == given
  {
    Or(given, "cash")
  }

  /** The row after booking a payment of `amount`. */
  function PaidRow(row: Shipment, amount: int, now: int): (r: Shipment)
    ensures r.paidAmount == row.paidAmount + amount
    ensures Balanced(r)
    ensures r.balance <= 0 ==> r.status == "paid"
    ensures r.balance > 0 ==> r.status == row.status
    ensures r == row.(paidAmount := r.paidAmount, balance := r.balance, status := r.status, updatedAt := now)
  {
    var paid := row.paidAmount + amount;
    var balance := row.price - paid;
    row.(paidAmount := paid, balance := balance, status := if balance <= 0 then "paid" else row.status, updatedAt := now)
  }

  /** Booking two payments is booking their sum, up to the status word (the second one may already find it "paid"). */
  lemma PaymentsAdd(row: Shipment, a: int, b: int, t1: int, t2: int)
    requires Balanced(row)
    ensures PaidRow(PaidRow(row, a, t1), b, t2).paidAmount == PaidRow(row, a + b, t2).paidAmount
    ensures PaidRow(PaidRow(row, a, t1), b, t2).balance == row.balance - a - b
    ensures a > 0 && b > 0 && PaidRow(row, a + b, t2).status != "paid" ==>
              PaidRow(PaidRow(row, a, t1), b, t2) == PaidRow(row, a + b, t2)
  {
  }

  /** Paying exactly what is owed settles the row. */
  lemma PayBalanceSettles(row: Shipment, now: int)
    requires Balanced(row)
    ensures PaidRow(row, row.balance, now).balance == 0
    ensures PaidRow(row, row.balance, now).status == "paid"
    ensures PaidRow(row, row.balance, now).paidAmount == row.price
  {
  }

  /**
   * The payment history of one shipment, newest first (`ORDER BY created_at DESC`,
   * with the log in insertion order).
   */
  function PaymentsFor(log: seq<Payment>, shipmentId: nat): (ps: seq<Payment>)
    ensures |ps| <= |log|
    ensures forall i :: 0 <= i < |ps| ==> ps[i].shipmentId == shipmentId && ps[i] in log
    ensures forall i :: 0 <= i < |log| && log[i].shipmentId == shipmentId ==> log[i] in ps
  {
    if log == [] then []
    else
      var last := log[|log| - 1];
      var older := PaymentsFor(log[..|log| - 1], shipmentId);
      assert forall i :: 0 <= i < |log| - 1 ==> log[i] == log[..|log| - 1][i];
      (if last.shipmentId == shipmentId then [last] else []) + older
  }

  /** A shipment no payment names has an empty history. */
  lemma {:induction false} PaymentsForNone(log: seq<Payment>, shipmentId: nat)
    requires forall i :: 0 <= i < |log| ==> log[i].shipmentId != shipmentId
    ensures PaymentsFor(log, shipmentId) == []
  {
    if log != [] {
      PaymentsForNone(log[..|log| - 1], shipmentId);
    }
  }

  /** A new payment heads its shipment's history and leaves every other history as it was. */
  lemma PaymentsForAppend(log: seq<Payment>, p: Payment, shipmentId: nat)
    ensures PaymentsFor(log + [p], shipmentId) ==
              (if p.shipmentId == shipmentId then [p] + PaymentsFor(log, shipmentId) else PaymentsFor(log, shipmentId))
  {
    assert (log + [p])[..|log|] == log;
  }

  // ---------------------------------------------------------------- listing

  /** The paging window of GET `/api/shipments`. */
  datatype PageWindow = PageWindow(page: int, limit: int, offset: int)

  /** `limit` and `page` after `Number(...) || default` and clamping; `None` is a query key left out. */
  function Pagination(limit: Option<int>, page: Option<int>): (w: PageWindow)
    ensures 1 <= w.limit <= 200 && w.page >= 1
    ensures w.offset == (w.page - 1) * w.limit && w.offset >= 0
    ensures limit.None? || limit == Some(0) ==> w.limit == 20
    ensures limit.Some? && 1 <= limit.value <= 200 ==> w.limit == limit.value
    ensures limit.Some? && limit.value > 200 ==> w.limit == 200
    ensures limit.Some? && limit.value < 0 ==> w.limit == 1
    ensures page.None? || page.value <= 0 ==> w.page == 1
    ensures page.Some? && page.value >= 1 ==> w.page == page.value
  {
    var l := OrNumber(limit.GetOr(20), 20);
    var limitNum := if l > 200 then 200 else if l < 1 then 1 else l;
    var p := OrNumber(page.GetOr(1), 1);
    var pageNum := if p < 1 then 1 else p;
    assert (pageNum - 1) * limitNum >= 0 by {
      assert pageNum - 1 >= 0 && limitNum >= 1;
    }
    PageWindow(pageNum, limitNum, (pageNum - 1) * limitNum)
  }

  /** `ORDER BY arrival_date DESC NULLS LAST, id DESC`: `a` may be listed before `b`. */
  predicate ListedBefore(a: Shipment, b: Shipment) {
    match (a.arrivalDate, b.arrivalDate)
    case (Some(x), Some(y)) => x > y || (x == y && a.id >= b.id)
    case (Some(_), None) => true
    case (None, Some(_)) => false
    case (None, None) => a.id >= b.id
  }

  lemma ListedBeforeTotal(a: Shipment, b: Shipment)
    ensures ListedBefore(a, b) || ListedBefore(b, a)
    ensures ListedBefore(a, b) && ListedBefore(b, a) ==> a.id == b.id && a.arrivalDate == b.arrivalDate
  {
  }

  lemma ListedBeforeTransitive(a: Shipment, b: Shipment, c: Shipment)
    requires ListedBefore(a, b) && ListedBefore(b, c)
    ensures ListedBefore(a, c)
  {
  }

  predicate Ordered(rows: seq<Shipment>) {
    forall i :: 0 < i < |rows| ==> ListedBefore(rows[i - 1], rows[i])
  }

  /** Every row of an ordered listing may come before every later row. */
  lemma {:induction false} OrderedPairwise(rows: seq<Shipment>)
    requires Ordered(rows)
    ensures forall i, j :: 0 <= i < j < |rows| ==> ListedBefore(rows[i], rows[j])
  {
    if |rows| > 1 {
      OrderedPairwise(rows[1..]);
      assert forall j :: 1 <= j < |rows| ==> rows[j] == rows[1..][j - 1];
      forall j | 1 < j < |rows|
        ensures ListedBefore(rows[0], rows[j])
      {
        ListedBeforeTransitive(rows[0], rows[1], rows[j]);
      }
    }
  }

  function Insert(x: Shipment, rows: seq<Shipment>): (r: seq<Shipment>)
    requires Ordered(rows)
    ensures Ordered(r)
    ensures multiset(r) == multiset(rows) + multiset{x}
    ensures |r| == |rows| + 1
    ensures r[0] == x || (rows != [] && r[0] == rows[0])
  {
    if rows == [] then [x]
    else if ListedBefore(x, rows[0]) then [x] + rows
    else
      ListedBeforeTotal(x, rows[0]);
      assert rows == [rows[0]] + rows[1..];
      [rows[0]] + Insert(x, rows[1..])
  }

  /** The rows in listing order. */
  function SortRows(rows: seq<Shipment>): (r: seq<Shipment>)
    ensures Ordered(r)
    ensures multiset(r) == multiset(rows)
    ensures |r| == |rows|
  {
    if rows == [] then []
    else
      assert rows == [rows[0]] + rows[1..];
      Insert(rows[0], SortRows(rows[1..]))
  }

  /** No two different rows share an id. */
  predicate IdsDistinct(rows: seq<Shipment>) {
    forall i, j :: 0 <= i < |rows| && 0 <= j < |rows| && rows[i].id == rows[j].id ==> rows[i] == rows[j]
  }

  lemma OrderedTail(rows: seq<Shipment>)
    requires Ordered(rows) && rows != []
    ensures Ordered(rows[1..])
  {
    assert forall k :: 1 <= k < |rows| ==> rows[k] == rows[1..][k - 1];
  }

  /** Two ordered arrangements of the same rows with distinct ids start with the same row. */
  lemma HeadsAgree(a: seq<Shipment>, b: seq<Shipment>)
    requires Ordered(a) && Ordered(b) && IdsDistinct(a)
    requires multiset(a) == multiset(b) && a != []
    ensures b != [] && a[0] == b[0]
  {
    assert a[0] in multiset(b);
    assert b[0] in multiset(a);
    var i :| 0 <= i < |a| && a[i] == b[0];
    var j :| 0 <= j < |b| && b[j] == a[0];
    OrderedPairwise(a);
    OrderedPairwise(b);
    assert ListedBefore(a[0], b[0]) by { if i > 0 { assert ListedBefore(a[0], a[i]); } }
    assert ListedBefore(b[0], a[0]) by { if j > 0 { assert ListedBefore(b[0], b[j]); } }
    ListedBeforeTotal(a[0], b[0]);
  }

  /**
   * The listing order is total on rows with distinct ids: any two ordered
   * arrangements of the same rows are the same sequence, so each page is
   * determined by the table and the filter.
   */
  lemma {:induction false} OrderDetermined(a: seq<Shipment>, b: seq<Shipment>)
    requires Ordered(a) && Ordered(b) && IdsDistinct(a)
    requires multiset(a) == multiset(b)
    ensures a == b
    decreases |a|
  {
    if a == [] {
      assert |b| == |multiset(b)| == 0;
    } else {
      HeadsAgree(a, b);
      SameTails(a, b);
      OrderedTail(a);
      OrderedTail(b);
      IdsDistinctTail(a);
      OrderDetermined(a[1..], b[1..]);
      assert a == [a[0]] + a[1..] && b == [b[0]] + b[1..];
    }
  }

  lemma SameTails(a: seq<Shipment>, b: seq<Shipment>)
    requires a != [] && b != [] && a[0] == b[0]
    requires multiset(a) == multiset(b)
    ensures multiset(a[1..]) == multiset(b[1..])
  {
    assert a == [a[0]] + a[1..] && b == [b[0]] + b[1..];
    assert multiset(a[1..]) == multiset(a) - multiset{a[0]};
    assert multiset(b[1..]) == multiset(b) - multiset{b[0]};
  }

  lemma IdsDistinctTail(a: seq<Shipment>)
    requires IdsDistinct(a) && a != []
    ensures IdsDistinct(a[1..])
  {
    assert forall k :: 1 <= k < |a| ==> a[k] == a[1..][k - 1];
  }

  /** LIMIT `limit` OFFSET `offset`. */
  function Window<T>(rows: seq<T>, offset: nat, limit: nat): (w: seq<T>)
    ensures |w| <= limit
    ensures |w| == if offset >= |rows| then 0 else if offset + limit <= |rows| then limit else |rows| - offset
    ensures forall i :: 0 <= i < |w| ==> w[i] == rows[offset + i]
  {
    var lo := if offset < |rows| then offset else |rows|;
    var hi := if offset + limit < |rows| then offset + limit else |rows|;
    rows[lo..hi]
  }

  /** Adjacent windows join into one: paging neither skips nor repeats a row. */
  lemma WindowsJoin<T>(rows: seq<T>, offset: nat, a: nat, b: nat)
    ensures Window(rows, offset, a) + Window(rows, offset + a, b) == Window(rows, offset, a + b)
  {
  }

  /** The first `n` pages of `limit` rows, concatenated. */
  function FirstPages<T>(rows: seq<T>, limit: nat, n: nat): seq<T> {
    if n == 0 then [] else FirstPages(rows, limit, n - 1) + Window(rows, (n - 1) * limit, limit)
  }

  /** Pages 1..n together are exactly the first `n * limit` rows of the listing. */
  lemma {:induction false} FirstPagesArePrefix<T>(rows: seq<T>, limit: nat, n: nat)
    ensures FirstPages(rows, limit, n) == Window(rows, 0, n * limit)
  {
    if n > 0 {
      FirstPagesArePrefix(rows, limit, n - 1);
      assert (n - 1) * limit + limit == n * limit;
      WindowsJoin(rows, 0, (n - 1) * limit, limit);
    }
  }

  /** The rows of the table with id below `bound`, by ascending id. */
  function TableRows(table: map<nat, Shipment>, bound: nat): (rows: seq<Shipment>)
    requires forall id :: id in table ==> table[id].id == id
    ensures forall i :: 0 <= i < |rows| ==> rows[i].id < bound && rows[i].id in table && table[rows[i].id] == rows[i]
    ensures forall id :: id in table && id < bound ==> table[id] in rows
    ensures IdsDistinct(rows)
  {
    if bound == 0 then []
    else TableRows(table, bound - 1) + (if bound - 1 in table then [table[bound - 1]] else [])
  }

  /** The rows a GET `/api/shipments` query selects, in listing order, before paging. */
  function Listing(table: map<nat, Shipment>, bound: nat, matches: Shipment -> bool): (rows: seq<Shipment>)
    requires forall id :: id in table ==> table[id].id == id
    ensures Ordered(rows)
    ensures forall i :: 0 <= i < |rows| ==> rows[i].id in table && table[rows[i].id] == rows[i] && matches(rows[i])
    ensures forall id :: id in table && id < bound && matches(table[id]) ==> table[id] in rows
    ensures IdsDistinct(rows)
  {
    var selected := Filter(TableRows(table, bound), matches);
    var rows := SortRows(selected);
    forall i | 0 <= i < |rows|
      ensures rows[i] in selected
    {
      assert rows[i] in multiset(rows);
    }
    forall x | x in selected
      ensures x in rows
    {
      assert x in multiset(selected);
    }
    rows
  }

  /** With one row per page, page 2 holds exactly the second row of the listing. */
  lemma SecondPageOfOne(rows: seq<Shipment>)
    requires |rows| >= 2
    ensures var w := Pagination(Some(1), Some(2)); Window(rows, w.offset, w.limit) == [rows[1]]
  {
  }
}

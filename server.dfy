/**
 * The backend as a state machine: the `customer_pins`, `shipments` and
 * `payments` tables, and one method per route that reads and writes them in
 * the order the handler does.
 */
module Server {
  import opened Wrappers
  import opened Text
  import opened PinStore
  import opened Ledger

  /** The reason of a 400 answer. */
  datatype Invalid = BarcodeRequired | DeliveryPhoneRequired | PhoneInvalid | AmountNotPositive

  /** What a route answers. */
  datatype Reply =
    | Found(shipment: ApiRow)                                  // 200 with one shipment
    | Created(shipment: ApiRow)                                // 201 from POST /api/shipments
    | Listed(data: seq<ApiRow>, page: int, limit: int, total: nat)
    | PaymentBooked(shipment: ApiRow, payments: seq<Payment>)  // 201 from POST .../payments
    | PinAnswer(created: bool, phone: string, pin: string)     // pin "" when not exposed
    | NotFound                                                 // 404
    | BadRequest(reason: Invalid)                              // 400
    | PinRequired(pinCreated: bool)                            // 403 PIN_REQUIRED

  /** The table after the PUT gate's PIN work, given the table before it. */
  ghost predicate GateEffect(cfg: PinConfig, before: PinTable, after: PinTable, gate: Gate) {
    match gate
    case PinCheck(phone, _) => EnsuredPin(cfg, before, after, phone)
    case BypassEnsure(phone) => EnsuredPin(cfg, before, after, phone)
    case _ => after == before
  }

  /** PUT may write the row: no gate, an admin bypass, or a PIN that verifies against the table after the gate. */
  predicate GatePassed(cfg: PinConfig, pins: PinTable, gate: Gate) {
    match gate
    case NoGate => true
    case BypassEnsure(_) => true
    case PhoneRequired => false
    case PinCheck(phone, pin) => Verify(cfg, pins, phone, pin)
  }

  /**
   * Resubmitting a refused delivery move with the PIN the refusal minted
   * passes the gate and mints nothing more.
   */
  lemma ResubmitWithMintedPin(cfg: PinConfig, a: PinTable, b: PinTable, c: PinTable,
                              existing: Shipment, body: ShipmentBody, bypass: bool)
    requires WellFormed(cfg, a)
    requires DeliveryGate(existing, body, bypass).PinCheck?
    requires GateEffect(cfg, a, b, DeliveryGate(existing, body, bypass))
    requires !GatePassed(cfg, b, DeliveryGate(existing, body, bypass))
    requires NormalizePhone(GatePhone(existing, body)) != ""
    ensures HasPlainPin(b, NormalizePhone(GatePhone(existing, body)))
    ensures var again := body.(pin := b[NormalizePhone(GatePhone(existing, body))].plain);
            var gate := DeliveryGate(existing, again, bypass);
            GateEffect(cfg, b, c, gate) ==> c == b && GatePassed(cfg, c, gate)
  {
    var phone := GatePhone(existing, body);
    var k := NormalizePhone(phone);
    assert EnsuredPin(cfg, a, b, phone);
    EnsureThenVerify(cfg, a, b, phone);
    EnsurePreserves(cfg, a, b, phone);
    var p := b[k].plain;
    GateWithPin(existing, body, bypass, p);
    var gate := DeliveryGate(existing, body.(pin := p), bypass);
    if GateEffect(cfg, b, c, gate) {
      assert EnsuredPin(cfg, b, c, phone);
    }
  }

  /**
   * Each shipment sits under its own id, below the next id the sequence hands
   * out, and owes its price less what was paid.
   */
  ghost predicate TableValid(shipments: map<nat, Shipment>, nextId: nat) {
    0 < nextId
    && forall id :: id in shipments ==> shipments[id].id == id && 0 < id < nextId && Balanced(shipments[id])
  }

  /** Each payment is positive, belongs to a stored shipment and has an id below the next one. */
  ghost predicate LogValid(payments: seq<Payment>, shipments: map<nat, Shipment>, nextId: nat) {
    forall i :: 0 <= i < |payments| ==> payments[i].amount > 0 && payments[i].shipmentId in shipments
                                        && payments[i].id < nextId
  }

  lemma StoreKeepsTableValid(shipments: map<nat, Shipment>, nextId: nat, row: Shipment)
    requires TableValid(shipments, nextId)
    requires 0 < row.id < nextId && Balanced(row)
    ensures TableValid(shipments[row.id := row], nextId)
    ensures forall ps, n :: LogValid(ps, shipments, n) ==> LogValid(ps, shipments[row.id := row], n)
  {
  }

  /**
   * A listed page as answered: each row with the PIN its customer has in
   * `pins`, and every row whose phone has digits showing one.
   */
  ghost predicate PageShown(pins: PinTable, rows: seq<Shipment>, data: seq<ApiRow>) {
    |data| == |rows|
    && (forall i :: 0 <= i < |rows| ==> data[i] == ToShipment(rows[i], JoinedPin(pins, rows[i].phone)))
    && (forall i :: 0 <= i < |rows| ==> NormalizePhone(rows[i].phone) == "" || JoinedPin(pins, rows[i].phone) != "")
  }

  lemma ShownExtend(pins: PinTable, rows: seq<Shipment>, data: seq<ApiRow>, row: Shipment, shown: ApiRow)
    requires PageShown(pins, rows, data)
    requires shown == ToShipment(row, JoinedPin(pins, row.phone))
    requires NormalizePhone(row.phone) != "" ==> HasPlainPin(pins, NormalizePhone(row.phone))
    ensures PageShown(pins, rows + [row], data + [shown])
  {
    var k := NormalizePhone(row.phone);
    assert k == "" || JoinedPin(pins, row.phone) != "";
    var rs, ds := rows + [row], data + [shown];
    forall i | 0 <= i < |rs|
      ensures ds[i] == ToShipment(rs[i], JoinedPin(pins, rs[i].phone))
      ensures NormalizePhone(rs[i].phone) == "" || JoinedPin(pins, rs[i].phone) != ""
    {
      if i < |rows| {
        assert rs[i] == rows[i] && ds[i] == data[i];
      }
    }
  }

  /** Rows already shown keep their PIN when a later row mints one. */
  lemma ShownStaysShown(before: PinTable, after: PinTable, rows: seq<Shipment>, data: seq<ApiRow>)
    requires PageShown(before, rows, data)
    requires forall q :: JoinedPin(before, q) != "" || NormalizePhone(q) == "" ==> JoinedPin(after, q) == JoinedPin(before, q)
    ensures PageShown(after, rows, data)
  {
    forall i | 0 <= i < |rows|
      ensures JoinedPin(after, rows[i].phone) == JoinedPin(before, rows[i].phone)
    {
    }
  }

  /** One more row of a page shown, after its PIN was fetched. */
  lemma ShownStep(before: PinTable, after: PinTable, rows: seq<Shipment>, i: nat, data: seq<ApiRow>, shown: ApiRow)
    requires i < |rows|
    requires PageShown(before, rows[..i], data)
    requires forall q :: JoinedPin(before, q) != "" || NormalizePhone(q) == "" ==> JoinedPin(after, q) == JoinedPin(before, q)
    requires shown == ToShipment(rows[i], JoinedPin(after, rows[i].phone))
    requires NormalizePhone(rows[i].phone) != "" ==> HasPlainPin(after, NormalizePhone(rows[i].phone))
    ensures PageShown(after, rows[..i + 1], data + [shown])
  {
    ShownStaysShown(before, after, rows[..i], data);
    ShownExtend(after, rows[..i], data, rows[i], shown);
    assert rows[..i + 1] == rows[..i] + [rows[i]];
  }

  /** The phones of a page whose rows have digits but join no PIN in `pins`: the only ones the listing mints for. */
  ghost function MintKeys(pins: PinTable, rows: seq<Shipment>): set<string> {
    set i | 0 <= i < |rows| && NormalizePhone(rows[i].phone) != "" && JoinedPin(pins, rows[i].phone) == ""
          :: NormalizePhone(rows[i].phone)
  }

  /** Every key outside `keys` is present in `after` exactly when in `before`, with the same row. */
  ghost predicate Untouched(before: PinTable, after: PinTable, keys: set<string>) {
    forall k :: k !in keys ==> (k in after <==> k in before) && (k in before ==> after[k] == before[k])
  }

  /** A table that touches no key is the same table. */
  lemma UntouchedNothing(before: PinTable, after: PinTable)
    requires Untouched(before, after, {})
    ensures after == before
  {
    assert after.Keys == before.Keys;
  }

  /** A page whose rows all join a PIN, or have no digits, has nothing to mint. */
  lemma NoMintKeys(pins: PinTable, rows: seq<Shipment>)
    requires forall i :: 0 <= i < |rows| ==> JoinedPin(pins, rows[i].phone) != "" || NormalizePhone(rows[i].phone) == ""
    ensures MintKeys(pins, rows) == {}
  {
  }

  /** The phones to mint for grow row by row; a row that joins nothing at the start adds its own. */
  lemma MintKeysGrow(pins: PinTable, rows: seq<Shipment>, i: nat)
    requires i < |rows|
    ensures MintKeys(pins, rows[..i]) <= MintKeys(pins, rows[..i + 1])
    ensures NormalizePhone(rows[i].phone) != "" && JoinedPin(pins, rows[i].phone) == "" ==>
              NormalizePhone(rows[i].phone) in MintKeys(pins, rows[..i + 1])
  {
    assert rows[..i + 1][i] == rows[i];
    assert forall j :: 0 <= j < i ==> rows[..i + 1][j] == rows[..i][j];
  }

  /** Storing under a key of a larger set keeps the frame. */
  lemma UntouchedStore(start: PinTable, before: PinTable, after: PinTable, small: set<string>, large: set<string>, k: string)
    requires Untouched(start, before, small) && small <= large
    requires after == before || (k in large && k in after && after == before[k := after[k]])
    ensures Untouched(start, after, large)
  {
  }

  /** Showing one more row of a page touches at most that row's phone, and only when it joined no PIN at the start. */
  lemma FramedStep(cfg: PinConfig, start: PinTable, before: PinTable, after: PinTable, rows: seq<Shipment>, i: nat)
    requires i < |rows|
    requires KeepsPlainPins(start, before)
    requires Untouched(start, before, MintKeys(start, rows[..i]))
    requires FetchedPin(cfg, before, after, rows[i].phone)
    ensures Untouched(start, after, MintKeys(start, rows[..i + 1]))
  {
    var phone := rows[i].phone;
    var k := NormalizePhone(phone);
    MintKeysGrow(start, rows, i);
    if after != before {
      assert MintNeeded(before, phone) && Minted(cfg, before, after, k);
      assert !HasPlainPin(start, k);
    }
    UntouchedStore(start, before, after, MintKeys(start, rows[..i]), MintKeys(start, rows[..i + 1]), k);
  }

  class ShipmentServer {
    const cfg: PinConfig
    var pins: PinTable
    var shipments: map<nat, Shipment>
    var payments: seq<Payment>
    var nextShipmentId: nat
    var nextPaymentId: nat

    /** The invariants of the three tables. */
    ghost predicate Valid()
      reads this
    {
      WellFormed(cfg, pins) && TableValid(shipments, nextShipmentId) && LogValid(payments, shipments, nextPaymentId)
    }

    constructor (cfg: PinConfig)
      ensures Valid()
      ensures this.cfg == cfg && pins == map[] && shipments == map[] && payments == []
      ensures nextShipmentId == 1 && nextPaymentId == 1
    {
      this.cfg := cfg;
      pins := map[];
      shipments := map[];
      payments := [];
      nextShipmentId := 1;
      nextPaymentId := 1;
    }

    /** `ensurePinForPhone`, always returning the PIN (the caller decides whether to expose it). */
    method EnsurePinForPhone(phone: string) returns (created: bool, pin: string)
      requires Valid()
      modifies this`pins
      ensures Valid()
      ensures EnsuredPin(cfg, old(pins), pins, phone)
      ensures created == MintNeeded(old(pins), phone)
      ensures pin == JoinedPin(pins, phone)
      ensures NormalizePhone(phone) != "" ==> pin != "" && HasPlainPin(pins, NormalizePhone(phone))
    {
      var k := NormalizePhone(phone);
      if k == "" {
        return false, "";
      }
      if k in pins && pins[k].plain != "" {
        return false, pins[k].plain;
      }
      var n :| 0 <= n < 10000;
      var minted := FormatPin(n);
      pins := pins[k := PinRow(HashPin(cfg, k, minted), minted)];
      return true, minted;
    }

    /** `fetchShipmentWithPin`: the row and its customer's PIN, minting one when the join finds none. */
    method FetchShipmentWithPin(id: nat) returns (row: Option<Shipment>, pinPlain: string)
      requires Valid()
      modifies this`pins
      ensures Valid()
      ensures id !in shipments ==> row.None? && pins == old(pins) && pinPlain == ""
      ensures id in shipments ==> row == Some(shipments[id])
                                  && FetchedPin(cfg, old(pins), pins, shipments[id].phone)
                                  && pinPlain == JoinedPin(pins, shipments[id].phone)
    {
      if id !in shipments {
        return None, "";
      }
      row := Some(shipments[id]);
      pinPlain := JoinedPin(pins, shipments[id].phone);
      if pinPlain == "" && shipments[id].phone != "" {
        var _, p := EnsurePinForPhone(shipments[id].phone);
        pinPlain := p;
      }
    }

    /** GET `/api/shipments/:id`. */
    method GetShipment(id: nat) returns (reply: Reply)
      requires Valid()
      modifies this`pins
      ensures Valid()
      ensures id !in shipments ==> reply == NotFound && pins == old(pins)
      ensures id in shipments ==> FetchedPin(cfg, old(pins), pins, shipments[id].phone)
                                  && reply == Found(ToShipment(shipments[id], JoinedPin(pins, shipments[id].phone)))
    {
      var row, pinPlain := FetchShipmentWithPin(id);
      if row.None? {
        return NotFound;
      }
      return Found(ToShipment(row.value, pinPlain));
    }

    /** POST `/api/shipments`. */
    method CreateShipment(body: ShipmentBody, today: int, now: int) returns (reply: Reply)
      requires Valid()
      modifies this`shipments, this`nextShipmentId
      ensures Valid()
      ensures MissingBarcode(body) ==> reply == BadRequest(BarcodeRequired)
                                       && shipments == old(shipments) && nextShipmentId == old(nextShipmentId)
      ensures !MissingBarcode(body) ==>
                var row := NewShipment(body, old(nextShipmentId), today, now);
                old(nextShipmentId) !in old(shipments)
                && shipments == old(shipments)[old(nextShipmentId) := row]
                && nextShipmentId == old(nextShipmentId) + 1
                && reply == Created(ToShipment(row, ""))
    {
      if MissingBarcode(body) {
        return BadRequest(BarcodeRequired);
      }
      var row := NewShipment(body, nextShipmentId, today, now);
      assert TableValid(shipments, nextShipmentId + 1);
      StoreKeepsTableValid(shipments, nextShipmentId + 1, row);
      shipments := shipments[nextShipmentId := row];
      nextShipmentId := nextShipmentId + 1;
      return Created(ToShipment(row, ""));
    }

    /**
     * PUT `/api/shipments/:id`. `bypassHeader` is the `x-admin-bypass-pin`
     * header; `gatePins` is the PIN table right after the gate's PIN work.
     */
    method UpdateShipment(id: nat, body: ShipmentBody, bypassHeader: Option<string>, now: int)
      returns (reply: Reply, ghost gatePins: PinTable)
      requires Valid()
      modifies this`shipments, this`pins
      ensures Valid()
      ensures id !in old(shipments) ==> reply == NotFound && shipments == old(shipments) && pins == old(pins)
      ensures id in old(shipments) ==>
                var gate := DeliveryGate(old(shipments)[id], body, bypassHeader == Some(cfg.secret));
                GateEffect(cfg, old(pins), gatePins, gate)
                && (gate.PhoneRequired? ==> reply == BadRequest(DeliveryPhoneRequired) && pins == old(pins))
                && (!GatePassed(cfg, gatePins, gate) ==>
                      shipments == old(shipments) && pins == gatePins
                      && (gate.PinCheck? ==> reply == PinRequired(MintNeeded(old(pins), gate.phone))))
                && (GatePassed(cfg, gatePins, gate) ==>
                      var row := UpdatedRow(old(shipments)[id], body, now);
                      shipments == old(shipments)[id := row]
                      && FetchedPin(cfg, gatePins, pins, row.phone)
                      && reply == Found(ToShipment(row, JoinedPin(pins, row.phone))))
    {
      gatePins := pins;
      if id !in shipments {
        return NotFound, gatePins;
      }
      var existing := shipments[id];
      var gate := DeliveryGate(existing, body, bypassHeader == Some(cfg.secret));
      match gate {
        case PhoneRequired =>
          return BadRequest(DeliveryPhoneRequired), gatePins;
        case PinCheck(phone, pin) =>
          var created, _ := EnsurePinForPhone(phone);
          gatePins := pins;
          if !Verify(cfg, pins, phone, pin) {
            return PinRequired(created), gatePins;
          }
        case BypassEnsure(phone) =>
          var _, _ := EnsurePinForPhone(phone);
          gatePins := pins;
        case NoGate =>
      }
      var row := UpdatedRow(existing, body, now);
      StoreKeepsTableValid(shipments, nextShipmentId, row);
      shipments := shipments[id := row];
      var _, pinPlain := FetchShipmentWithPin(id);
      return Found(ToShipment(row, pinPlain)), gatePins;
    }

    /** PATCH `/api/shipments/:id/status`. */
    method PatchStatus(id: nat, body: StatusBody, now: int) returns (reply: Reply)
      requires Valid()
      modifies this`shipments, this`pins
      ensures Valid()
      ensures id !in old(shipments) ==> reply == NotFound && shipments == old(shipments) && pins == old(pins)
      ensures id in old(shipments) ==>
                var row := PatchedRow(old(shipments)[id], body, now);
                shipments == old(shipments)[id := row]
                && FetchedPin(cfg, old(pins), pins, row.phone)
                && reply == Found(ToShipment(row, JoinedPin(pins, row.phone)))
    {
      var existing, _ := FetchShipmentWithPin(id);
      if existing.None? {
        return NotFound;
      }
      ghost var fetched := pins;
      var row := PatchedRow(existing.value, body, now);
      StoreKeepsTableValid(shipments, nextShipmentId, row);
      shipments := shipments[id := row];
      var _, pinPlain := FetchShipmentWithPin(id);
      FetchTwice(cfg, old(pins), fetched, pins, row.phone);
      return Found(ToShipment(row, pinPlain));
    }

    /** POST `/api/shipments/:id/payments`; `amount` is `Number(body.amount) || 0`. */
    method AddPayment(id: nat, amount: int, via: string, now: int) returns (reply: Reply)
      requires Valid()
      modifies this`shipments, this`pins, this`payments, this`nextPaymentId
      ensures Valid()
      ensures id !in old(shipments) ==>
                reply == NotFound && shipments == old(shipments) && pins == old(pins) && payments == old(payments)
      ensures id in old(shipments) ==> FetchedPin(cfg, old(pins), pins, old(shipments)[id].phone)
      ensures id in old(shipments) && !ValidAmount(amount) ==>
                reply == BadRequest(AmountNotPositive) && shipments == old(shipments) && payments == old(payments)
      ensures id in old(shipments) && ValidAmount(amount) ==>
                var row := PaidRow(old(shipments)[id], amount, now);
                payments == old(payments) + [Payment(old(nextPaymentId), id, amount, PaymentMethod(via), now)]
                && nextPaymentId == old(nextPaymentId) + 1
                && shipments == old(shipments)[id := row]
                && reply == PaymentBooked(ToShipment(row, JoinedPin(pins, row.phone)), PaymentsFor(payments, id))
    {
      var shipment, _ := FetchShipmentWithPin(id);
      if shipment.None? {
        return NotFound;
      }
      if !ValidAmount(amount) {
        return BadRequest(AmountNotPositive);
      }
      ghost var fetched := pins;
      var payment := Payment(nextPaymentId, id, amount, PaymentMethod(via), now);
      assert LogValid(payments + [payment], shipments, nextPaymentId + 1);
      payments := payments + [payment];
      nextPaymentId := nextPaymentId + 1;
      var row := PaidRow(shipment.value, amount, now);
      StoreKeepsTableValid(shipments, nextShipmentId, row);
      shipments := shipments[id := row];
      var _, pinPlain := FetchShipmentWithPin(id);
      FetchTwice(cfg, old(pins), fetched, pins, row.phone);
      return PaymentBooked(ToShipment(row, pinPlain), PaymentsFor(payments, id));
    }

    /** GET `/api/shipments/:id/payments`: the shipment's payments, newest first. */
    function PaymentHistory(id: nat): (ps: seq<Payment>)
      reads this
      requires Valid()
      ensures forall i :: 0 <= i < |ps| ==> ps[i].shipmentId == id && ps[i].amount > 0
      ensures id !in shipments ==> ps == []
    {
      if id !in shipments then
        PaymentsForNone(payments, id);
        PaymentsFor(payments, id)
      else
        PaymentsFor(payments, id)
    }

    /**
     * One row of a listed page: its `toShipment`, after minting a PIN when the
     * row has a phone but the join found none.
     */
    method ShowListedRow(row: Shipment) returns (shown: ApiRow)
      requires Valid()
      modifies this`pins
      ensures Valid()
      ensures FetchedPin(cfg, old(pins), pins, row.phone)
      ensures shown == ToShipment(row, JoinedPin(pins, row.phone))
      ensures NormalizePhone(row.phone) != "" ==> HasPlainPin(pins, NormalizePhone(row.phone))
      ensures forall q :: JoinedPin(old(pins), q) != "" || NormalizePhone(q) == "" ==> JoinedPin(pins, q) == JoinedPin(old(pins), q)
      ensures KeepsPlainPins(old(pins), pins)
    {
      var pinPlain := JoinedPin(pins, row.phone);
      if pinPlain == "" && row.phone != "" {
        ghost var before := pins;
        var _, p := EnsurePinForPhone(row.phone);
        EnsurePreserves(cfg, before, pins, row.phone);
        EnsureKeepsJoins(cfg, before, pins, row.phone);
        pinPlain := p;
      }
      return ToShipment(row, pinPlain);
    }

    /**
     * GET `/api/shipments`: `matches` is the WHERE clause the query builds from
     * the filters. The page's rows are shown one after another.
     */
    method ListShipments(matches: Shipment -> bool, limit: Option<int>, page: Option<int>) returns (reply: Reply)
      requires Valid()
      modifies this`pins
      ensures Valid()
      ensures var w := Pagination(limit, page);
              var all := Listing(shipments, nextShipmentId, matches);
              var rows := Window(all, w.offset, w.limit);
              reply.Listed? && reply.page == w.page && reply.limit == w.limit && reply.total == |all|
              && PageShown(pins, rows, reply.data)
      ensures var w := Pagination(limit, page);
              Untouched(old(pins), pins, MintKeys(old(pins), Window(Listing(shipments, nextShipmentId, matches), w.offset, w.limit)))
      ensures KeepsPlainPins(old(pins), pins)
    {
      var w := Pagination(limit, page);
      var all := Listing(shipments, nextShipmentId, matches);
      ghost var start := pins;
      var rows := Window(all, w.offset, w.limit);
      var data := ShowListedRows(rows);
      return Listed(data, w.page, w.limit, |all|);
    }

    /** The `rows.map(...)` over a page: every row shown with the PIN of its customer. */
    method ShowListedRows(rows: seq<Shipment>) returns (data: seq<ApiRow>)
      requires Valid()
      modifies this`pins
      ensures Valid()
      ensures PageShown(pins, rows, data)
      ensures KeepsPlainPins(old(pins), pins)
      ensures Untouched(old(pins), pins, MintKeys(old(pins), rows))
      ensures (forall i :: 0 <= i < |rows| ==> JoinedPin(old(pins), rows[i].phone) != "" || NormalizePhone(rows[i].phone) == "")
              ==> pins == old(pins)
    {
      data := [];
      for i := 0 to |rows|
        invariant Valid()
        invariant PageShown(pins, rows[..i], data)
        invariant KeepsPlainPins(old(pins), pins)
        invariant Untouched(old(pins), pins, MintKeys(old(pins), rows[..i]))
      {
        ghost var before := pins;
        var shown := ShowListedRow(rows[i]);
        FramedStep(cfg, old(pins), before, pins, rows, i);
        KeepsPlainPinsTransitive(old(pins), before, pins);
        ShownStep(before, pins, rows, i, data, shown);
        data := data + [shown];
      }
      assert rows[..|rows|] == rows;
      if forall i :: 0 <= i < |rows| ==> JoinedPin(old(pins), rows[i].phone) != "" || NormalizePhone(rows[i].phone) == "" {
        NoMintKeys(old(pins), rows);
        UntouchedNothing(old(pins), pins);
      }
    }

    /** POST `/api/pins/ensure`; `exposed` is `admin === true` or the `x-admin-pin` header equal to the secret. */
    method PinsEnsure(phone: string, admin: bool, adminHeader: Option<string>) returns (reply: Reply)
      requires Valid()
      modifies this`pins
      ensures Valid()
      ensures NormalizePhone(phone) == "" ==> reply == BadRequest(PhoneInvalid) && pins == old(pins)
      ensures NormalizePhone(phone) != "" ==>
                EnsuredPin(cfg, old(pins), pins, phone)
                && reply == PinAnswer(MintNeeded(old(pins), phone), NormalizePhone(phone),
                                      if admin || adminHeader == Some(cfg.secret) then JoinedPin(pins, phone) else "")
    {
      var k := NormalizePhone(phone);
      if k == "" {
        return BadRequest(PhoneInvalid);
      }
      NormalizePhoneIdempotent(phone);
      var exposePin := admin || adminHeader == Some(cfg.secret);
      var created, pin := EnsurePinForPhone(k);
      return PinAnswer(created, k, if exposePin then pin else "");
    }

    /** POST `/api/pins/lookup`: ensure and always expose; its 500 branch (no PIN after ensuring) cannot be taken. */
    method PinsLookup(phone: string) returns (reply: Reply)
      requires Valid()
      modifies this`pins
      ensures Valid()
      ensures NormalizePhone(phone) == "" ==> reply == BadRequest(PhoneInvalid) && pins == old(pins)
      ensures NormalizePhone(phone) != "" ==>
                EnsuredPin(cfg, old(pins), pins, phone)
                && reply == PinAnswer(MintNeeded(old(pins), phone), NormalizePhone(phone), JoinedPin(pins, phone))
                && reply.pin != "" && Verify(cfg, pins, phone, reply.pin)
    {
      var k := NormalizePhone(phone);
      if k == "" {
        return BadRequest(PhoneInvalid);
      }
      NormalizePhoneIdempotent(phone);
      ghost var before := pins;
      var created, pin := EnsurePinForPhone(k);
      EnsureThenVerify(cfg, before, pins, phone);
      return PinAnswer(created, k, pin);
    }
  }
}

/**
 * What the admin panel sends when an operator changes a status, a delivery
 * state or books a payment, and how it merges the server's answer back into
 * its list of records. Each handler is modelled by the request it issues;
 * the answer is merged with `SyncRecord`.
 */
module AdminActions {
  import opened Wrappers
  import opened Text
  import opened Seqs
  import opened ApiMapping
  import opened AdminViews
  import Ledger

  /** The two calls the handlers make: PATCH `/api/shipments/:id/status` and POST `/api/shipments/:id/payments`. */
  datatype Request =
    | StatusPatch(id: Option<nat>, body: Ledger.StatusBody)
    | PaymentPost(id: Option<nat>, amount: int, via: string)

  // ---------------------------------------------------------------- syncRecord

  /** A reply carries an id the panel can match (`updated?.id` is truthy). */
  predicate Matchable(updated: UiRecord) {
    updated.id.Some? && updated.id.value != 0
  }

  /** `syncRecord`: every record with the reply's id is replaced by the reply. */
  function SyncRecord(records: seq<UiRecord>, updated: UiRecord): (rs: seq<UiRecord>)
    ensures |rs| == |records|
    ensures !Matchable(updated) ==> rs == records
    ensures forall i :: 0 <= i < |rs| && records[i].id != updated.id ==> rs[i] == records[i]
    ensures forall i :: 0 <= i < |rs| && records[i].id == updated.id && Matchable(updated) ==> rs[i] == updated
    ensures forall i :: 0 <= i < |rs| ==> rs[i].id == records[i].id
  {
    if !Matchable(updated) then records
    else seq(|records|, i requires 0 <= i < |records| => if records[i].id == updated.id then updated else records[i])
  }

  /** Merging the same reply twice changes nothing more. */
  lemma SyncIdempotent(records: seq<UiRecord>, updated: UiRecord)
    ensures SyncRecord(SyncRecord(records, updated), updated) == SyncRecord(records, updated)
  {
    var once := SyncRecord(records, updated);
    var twice := SyncRecord(once, updated);
    assert |twice| == |once|;
    forall i | 0 <= i < |once|
      ensures twice[i] == once[i]
    {
    }
  }

  /** Replies about different shipments can be merged in either order. */
  lemma SyncCommutes(records: seq<UiRecord>, a: UiRecord, b: UiRecord)
    requires a.id != b.id
    ensures SyncRecord(SyncRecord(records, a), b) == SyncRecord(SyncRecord(records, b), a)
  {
    var ab := SyncRecord(SyncRecord(records, a), b);
    var ba := SyncRecord(SyncRecord(records, b), a);
    assert |ab| == |ba|;
    forall i | 0 <= i < |ab|
      ensures ab[i] == ba[i]
    {
    }
  }

  // ---------------------------------------------------------------- updateRecordStatus

  /** `records.find(r => r.id === id)`, as the index of the first match. */
  function FindById(records: seq<UiRecord>, id: nat): (r: Option<nat>)
    ensures r.None? <==> forall i :: 0 <= i < |records| ==> records[i].id != Some(id)
    ensures r.Some? ==> r.value < |records| && records[r.value].id == Some(id)
    ensures r.Some? ==> forall j :: 0 <= j < r.value ==> records[j].id != Some(id)
  {
    if records == [] then None
    else if records[0].id == Some(id) then Some(0)
    else
      match FindById(records[1..], id)
      case None => None
      case Some(k) => Some(k + 1)
  }

  /**
   * `updateRecordStatus`: nothing when no record has the id; otherwise the
   * new status, and for "pending" also location and delivery state back to
   * "warehouse", else the record's own ones.
   */
  function UpdateRecordStatus(records: seq<UiRecord>, id: nat, nextStatus: string): (req: Option<Request>)
    ensures req.None? <==> forall i :: 0 <= i < |records| ==> records[i].id != Some(id)
    ensures req.Some? ==> req.value.StatusPatch? && req.value.id == Some(id) && req.value.body.status == nextStatus
    ensures req.Some? && nextStatus == "pending" ==>
              req.value.body.location == "warehouse" && req.value.body.deliveryStatus == "warehouse"
    ensures req.Some? ==> FindById(records, id).Some?
    ensures req.Some? && nextStatus != "pending" ==>
              req.value.body.location == records[FindById(records, id).value].location
              && req.value.body.deliveryStatus == records[FindById(records, id).value].deliveryStatus
  {
    match FindById(records, id)
    case None => None
    case Some(k) =>
      var current := records[k];
      var reset := nextStatus == "pending";
      Some(StatusPatch(Some(id), Ledger.StatusBody(nextStatus,
                                                   if reset then "warehouse" else current.location,
                                                   if reset then "warehouse" else current.deliveryStatus)))
  }

  /**
   * Sending a shipment back to "pending" from the panel resets it on the
   * server: at the warehouse, nothing paid, the whole price owed.
   */
  lemma PendingResetsShipment(records: seq<UiRecord>, id: nat, existing: Ledger.Shipment, now: int)
    requires UpdateRecordStatus(records, id, "pending").Some?
    ensures var row := Ledger.PatchedRow(existing, UpdateRecordStatus(records, id, "pending").value.body, now);
            row.status == "pending" && row.location == "warehouse" && row.deliveryStatus == "warehouse"
            && row.paidAmount == 0 && row.balance == existing.price
  {
    var body := UpdateRecordStatus(records, id, "pending").value.body;
    assert ToLower("warehouse") == "warehouse";
  }

  // ---------------------------------------------------------------- handleDeliveryChange

  /**
   * `handleDeliveryChange`: the status is kept, the delivery state becomes
   * the chosen one, and the location is "warehouse" only for "warehouse".
   */
  function HandleDeliveryChange(record: UiRecord, next: string): (req: Request)
    ensures req.StatusPatch? && req.id == record.id
    ensures req.body.status == record.status && req.body.deliveryStatus == next
    ensures req.body.location == "warehouse" <==> next == "warehouse"
    ensures req.body.location == "warehouse" || req.body.location == "delivery"
  {
    if next == "warehouse" then
      StatusPatch(record.id, Ledger.StatusBody(record.status, "warehouse", "warehouse"))
    else if next == "delivery" then
      StatusPatch(record.id, Ledger.StatusBody(record.status, "delivery", "delivery"))
    else
      StatusPatch(record.id, Ledger.StatusBody(record.status, "delivery", next))
  }

  /**
   * On the server a chosen delivery state is stored as chosen, the location
   * follows it, and "delivered" gets a delivery time.
   */
  lemma DeliveryChangeStored(record: UiRecord, next: string, existing: Ledger.Shipment, now: int)
    requires next != ""
    ensures var row := Ledger.PatchedRow(existing, HandleDeliveryChange(record, next).body, now);
            row.deliveryStatus == next
            && (row.location == "warehouse" <==> next == "warehouse")
            && (next == "delivered" ==> row.deliveredAt.Some?)
            && row.paidAmount == (if row.status == "pending" then 0 else existing.paidAmount)
  {
    assert ToLower("warehouse") == "warehouse";
    assert ToLower("delivery") == "delivery";
  }

  // ---------------------------------------------------------------- payRemaining

  /**
   * `payRemaining`: a payment of what is still owed; when nothing is owed,
   * a status change to "paid" at the record's location, without a delivery state.
   */
  function PayRemaining(record: UiRecord): (req: Request)
    ensures req.id == record.id
    ensures req.PaymentPost? <==> AmountOf(record) > PaidOf(record)
    ensures req.PaymentPost? ==> req.amount == AmountOf(record) - PaidOf(record) && req.amount > 0 && req.via == "cash"
    ensures req.StatusPatch? ==> req.body == Ledger.StatusBody("paid", record.location, "")
  {
    var remaining := Outstanding(record);
    if remaining <= 0 then StatusPatch(record.id, Ledger.StatusBody("paid", record.location, ""))
    else PaymentPost(record.id, remaining, Ledger.PaymentMethod(""))
  }

  /** Whichever request `payRemaining` sends, the shipment ends up "paid" on a shipment the record mirrors. */
  lemma PayRemainingSettles(record: UiRecord, row: Ledger.Shipment, now: int)
    requires Ledger.Balanced(row)
    requires row.price == AmountOf(record) && row.paidAmount == PaidOf(record)
    ensures PayRemaining(record).PaymentPost? ==>
              var paid := Ledger.PaidRow(row, PayRemaining(record).amount, now);
              paid.balance == 0 && paid.status == "paid" && paid.paidAmount == row.price
    ensures PayRemaining(record).StatusPatch? ==>
              Ledger.PatchedRow(row, PayRemaining(record).body, now).status == "paid"
              && row.balance <= 0
  {
    if PayRemaining(record).PaymentPost? {
      Ledger.PayBalanceSettles(row, now);
    }
  }

  // ---------------------------------------------------------------- payCustomForPhone

  /** The records of one phone group: those whose phone, spaces removed, is the group's. */
  function PhoneRecords(filtered: seq<UiRecord>, phone: string): (rs: seq<UiRecord>)
    ensures forall i :: 0 <= i < |rs| ==> rs[i] in filtered && StripSpaces(rs[i].phone) == StripSpaces(phone)
    ensures forall i :: 0 <= i < |filtered| && StripSpaces(filtered[i].phone) == StripSpaces(phone) ==> filtered[i] in rs
  {
    var normalized := StripSpaces(phone);
    Filter(filtered, (r: UiRecord) => StripSpaces(r.phone) == normalized)
  }

  function Smaller(a: int, b: int): int {
    if a < b then a else b
  }

  /**
   * Spreading `remaining` over `rs` in order: every record that still owes
   * gets what it owes, or what is left, until nothing is left.
   */
  function Allocate(rs: seq<UiRecord>, remaining: int): (ps: seq<Request>)
    ensures |ps| <= |rs|
    ensures forall i :: 0 <= i < |ps| ==> ps[i].PaymentPost? && 0 < ps[i].amount <= remaining && ps[i].via == "cash"
  {
    if rs == [] || remaining <= 0 then []
    else if Outstanding(rs[0]) <= 0 then Allocate(rs[1..], remaining)
    else
      var payNow := Smaller(Outstanding(rs[0]), remaining);
      [PaymentPost(rs[0].id, payNow, "cash")] + Allocate(rs[1..], remaining - payNow)
  }

  /** The payments `payCustomForPhone` books for a typed amount (`None`: not a number). */
  function PhonePayments(filtered: seq<UiRecord>, phone: string, amount: Option<int>): seq<Request> {
    if amount.None? || amount.value <= 0 then [] else Allocate(PhoneRecords(filtered, phone), amount.value)
  }

  /**
   * `payCustomForPhone`: walks the group's records in list order, skipping
   * those that owe nothing, paying each the smaller of what it owes and what
   * is left, and stopping once nothing is left.
   */
  method PayCustomForPhone(filtered: seq<UiRecord>, phone: string, amount: Option<int>) returns (payments: seq<Request>)
    ensures payments == PhonePayments(filtered, phone, amount)
  {
    payments := [];
    if amount.None? || amount.value <= 0 {
      return;
    }
    var targets := PhoneRecords(filtered, phone);
    payments := PayInOrder(targets, amount.value);
  }

  /** The loop of `payCustomForPhone` over the group's records. */
  method PayInOrder(targets: seq<UiRecord>, amount: int) returns (payments: seq<Request>)
    requires amount > 0
    ensures payments == Allocate(targets, amount)
  {
    payments := [];
    var remaining := amount;
    var i := 0;
    while i < |targets|
      invariant 0 <= i <= |targets|
      invariant remaining > 0
      invariant payments + Allocate(targets[i..], remaining) == Allocate(targets, amount)
    {
      ghost var before := payments;
      var record := targets[i];
      AllocateStep(targets, i, remaining);
      var balance := Outstanding(record);
      if balance > 0 {
        var payNow := Smaller(balance, remaining);
        var p := PaymentPost(record.id, payNow, "cash");
        payments := payments + [p];
        remaining := remaining - payNow;
        Regroup(before, p, Allocate(targets[i + 1..], remaining));
        if remaining <= 0 {
          break;
        }
      }
      i := i + 1;
    }
    AllocateDone(targets, i, remaining);
  }

  /** One step of the walk, at the record at `i`. */
  lemma AllocateStep(rs: seq<UiRecord>, i: nat, remaining: int)
    requires i < |rs| && remaining > 0
    ensures Outstanding(rs[i]) <= 0 ==> Allocate(rs[i..], remaining) == Allocate(rs[i + 1..], remaining)
    ensures Outstanding(rs[i]) > 0 ==>
              Allocate(rs[i..], remaining)
              == [PaymentPost(rs[i].id, Smaller(Outstanding(rs[i]), remaining), "cash")]
                 + Allocate(rs[i + 1..], remaining - Smaller(Outstanding(rs[i]), remaining))
  {
    assert rs[i..][0] == rs[i];
    assert rs[i..][1..] == rs[i + 1..];
  }

  lemma Regroup(done: seq<Request>, p: Request, rest: seq<Request>)
    ensures done + ([p] + rest) == (done + [p]) + rest
  {
  }

  /** Whatever the loop left unwalked gets nothing. */
  lemma AllocateDone(rs: seq<UiRecord>, i: nat, remaining: int)
    requires i <= |rs|
    requires i == |rs| || remaining <= 0
    ensures Allocate(rs[i..], remaining) == []
  {
  }

  /** The amount a request books (a status change books none). */
  function Booked(p: Request): int {
    if p.PaymentPost? then p.amount else 0
  }

  /** What the records still owe in total. */
  function Owed(rs: seq<UiRecord>): int {
    Sum(rs, Outstanding)
  }

  /** The payments add up to the amount typed, or to what the group owes when that is less. */
  lemma {:induction false} AllocateTotal(rs: seq<UiRecord>, remaining: int)
    requires remaining >= 0
    ensures Sum(Allocate(rs, remaining), Booked) == Smaller(remaining, Owed(rs))
  {
    SumNonNegative(rs, Outstanding);
    if rs == [] || remaining <= 0 {
    } else {
      assert Owed(rs) == Outstanding(rs[0]) + Owed(rs[1..]);
      SumNonNegative(rs[1..], Outstanding);
      if Outstanding(rs[0]) <= 0 {
        AllocateTotal(rs[1..], remaining);
      } else {
        var payNow := Smaller(Outstanding(rs[0]), remaining);
        var rest := Allocate(rs[1..], remaining - payNow);
        AllocateTotal(rs[1..], remaining - payNow);
        SumConcat([PaymentPost(rs[0].id, payNow, "cash")], rest, Booked);
      }
    }
  }

  /** One payment per record that owes anything, of exactly what it owes. */
  function FullPayments(rs: seq<UiRecord>): (ps: seq<Request>)
    ensures |ps| <= |rs|
  {
    if rs == [] then []
    else if Outstanding(rs[0]) <= 0 then FullPayments(rs[1..])
    else [PaymentPost(rs[0].id, Outstanding(rs[0]), "cash")] + FullPayments(rs[1..])
  }

  /**
   * Records earlier in the list are paid in full before a later one gets
   * anything: an amount covering the first part pays it off and carries the
   * rest over, and an amount that does not reaches no later record.
   */
  lemma {:induction false} AllocateInOrder(a: seq<UiRecord>, b: seq<UiRecord>, remaining: int)
    ensures remaining > Owed(a) ==> Allocate(a + b, remaining) == FullPayments(a) + Allocate(b, remaining - Owed(a))
    ensures remaining <= Owed(a) ==> Allocate(a + b, remaining) == Allocate(a, remaining)
  {
    if a == [] {
      assert a + b == b;
    } else {
      assert (a + b)[0] == a[0];
      assert (a + b)[1..] == a[1..] + b;
      assert Owed(a) == Outstanding(a[0]) + Owed(a[1..]);
      SumNonNegative(a[1..], Outstanding);
      if remaining <= 0 {
      } else if Outstanding(a[0]) <= 0 {
        AllocateInOrder(a[1..], b, remaining);
      } else {
        var payNow := Smaller(Outstanding(a[0]), remaining);
        AllocateInOrder(a[1..], b, remaining - payNow);
        if remaining > Owed(a) {
          assert payNow == Outstanding(a[0]);
        } else {
          if remaining - payNow <= 0 {
            AllocateNothing(a[1..] + b);
            AllocateNothing(a[1..]);
          }
        }
      }
    }
  }

  lemma AllocateNothing(rs: seq<UiRecord>)
    ensures forall remaining :: remaining <= 0 ==> Allocate(rs, remaining) == []
  {
  }

  /** An amount of at least the group's debt pays every record off in full. */
  lemma PayingTheDebtSettlesAll(rs: seq<UiRecord>, remaining: int)
    requires remaining >= Owed(rs)
    ensures Allocate(rs, remaining) == FullPayments(rs)
  {
    AllocateInOrder(rs, [], remaining);
    assert rs + [] == rs;
    if remaining > Owed(rs) {
      assert FullPayments(rs) + [] == FullPayments(rs);
    } else {
      FullWhenExact(rs, remaining);
    }
  }

  lemma {:induction false} FullWhenExact(rs: seq<UiRecord>, remaining: int)
    requires remaining == Owed(rs)
    ensures Allocate(rs, remaining) == FullPayments(rs)
  {
    if rs == [] {
    } else {
      assert Owed(rs) == Outstanding(rs[0]) + Owed(rs[1..]);
      SumNonNegative(rs[1..], Outstanding);
      if remaining <= 0 {
        NothingOwed(rs);
      } else if Outstanding(rs[0]) <= 0 {
        FullWhenExact(rs[1..], remaining);
      } else {
        FullWhenExact(rs[1..], remaining - Outstanding(rs[0]));
      }
    }
  }

  /** A group that owes nothing gets no payment. */
  lemma {:induction false} NothingOwed(rs: seq<UiRecord>)
    requires Owed(rs) <= 0
    ensures FullPayments(rs) == []
  {
    if rs != [] {
      assert Owed(rs) == Outstanding(rs[0]) + Owed(rs[1..]);
      SumNonNegative(rs[1..], Outstanding);
      NothingOwed(rs[1..]);
    }
  }
}

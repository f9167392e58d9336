/**
 * What the admin panel derives from its list of records: the filtered list,
 * its split into open records and settled deliveries ("documents"), the
 * totals, the groups by phone and the delivery groups, and page slices.
 */
module AdminViews {
  import opened Text
  import opened Seqs
  import opened ObjectKeys
  import opened ApiMapping
  import Ledger

  /** `amountOf`: the declared price. */
  function AmountOf(r: UiRecord): int {
    r.declared
  }

  function PaidOf(r: UiRecord): int {
    r.paidAmount
  }

  /** `Math.max(0, amount - paid)`: what is still owed on a record. */
  function Outstanding(r: UiRecord): (b: int)
    ensures b >= 0 && b >= AmountOf(r) - PaidOf(r)
    ensures b == 0 || b == AmountOf(r) - PaidOf(r)
  {
    if AmountOf(r) - PaidOf(r) > 0 then AmountOf(r) - PaidOf(r) else 0
  }

  /** The phone filter: spaces are ignored on both sides; an empty filter accepts all. */
  predicate PhoneFilterOk(r: UiRecord, filterPhone: string) {
    filterPhone == "" || Includes(StripSpaces(r.phone), StripSpaces(filterPhone))
  }

  /** The tracking filter: case-insensitive, the filter trimmed; an empty filter accepts all. */
  predicate TrackingFilterOk(r: UiRecord, filterTracking: string) {
    filterTracking == "" || Includes(ToUpper(r.tracking), ToUpper(Trim(filterTracking)))
  }

  predicate MatchesFilters(r: UiRecord, filterPhone: string, filterTracking: string) {
    PhoneFilterOk(r, filterPhone) && TrackingFilterOk(r, filterTracking)
  }

  /**
   * `filteredRecords`: the records that pass both filters, in their order.
   * A filter of white space only keeps everything.
   */
  function FilteredRecords(records: seq<UiRecord>, filterPhone: string, filterTracking: string): (rs: seq<UiRecord>)
    ensures forall i :: 0 <= i < |rs| ==> rs[i] in records && MatchesFilters(rs[i], filterPhone, filterTracking)
    ensures forall i :: 0 <= i < |records| && MatchesFilters(records[i], filterPhone, filterTracking) ==> records[i] in rs
    ensures Subsequence(rs, records)
    ensures StripSpaces(filterPhone) == "" && Trim(filterTracking) == "" ==> rs == records
  {
    var keep := (r: UiRecord) => MatchesFilters(r, filterPhone, filterTracking);
    var rs := Filter(records, keep);
    assert StripSpaces(filterPhone) == "" && Trim(filterTracking) == "" ==> rs == records by {
      if StripSpaces(filterPhone) == "" && Trim(filterTracking) == "" {
        forall i | 0 <= i < |records|
          ensures keep(records[i])
        {
          IncludesEmpty(StripSpaces(records[i].phone));
          IncludesEmpty(ToUpper(records[i].tracking));
        }
        FilterKeepsAll(records, keep);
      }
    }
    rs
  }

  /** `isDeliveredSettled`: delivered (by delivery status, else status) and nothing owed. */
  predicate IsDeliveredSettled(r: UiRecord): (settled: bool)
    ensures settled <==> (r.deliveryStatus == "delivered" || (r.deliveryStatus == "" && r.status == "delivered"))
                         && AmountOf(r) <= PaidOf(r)
    ensures settled ==> Outstanding(r) == 0
  {
    Or(r.deliveryStatus, r.status) == "delivered" && Outstanding(r) <= 0
  }

  predicate IsOpen(r: UiRecord) {
    !IsDeliveredSettled(r)
  }

  /** `visibleRecords`: the filtered records still in play. */
  function VisibleRecords(filtered: seq<UiRecord>): (v: seq<UiRecord>)
    ensures Subsequence(v, filtered)
    ensures forall i :: 0 <= i < |v| ==> !IsDeliveredSettled(v[i])
    ensures forall i :: 0 <= i < |filtered| && !IsDeliveredSettled(filtered[i]) ==> filtered[i] in v
  {
    Filter(filtered, IsOpen)
  }

  /** `documentRecords`: the filtered records delivered and paid off. */
  function DocumentRecords(filtered: seq<UiRecord>): (d: seq<UiRecord>)
    ensures Subsequence(d, filtered)
    ensures forall i :: 0 <= i < |d| ==> IsDeliveredSettled(d[i]) && Outstanding(d[i]) == 0
    ensures forall i :: 0 <= i < |filtered| && IsDeliveredSettled(filtered[i]) ==> filtered[i] in d
  {
    Filter(filtered, IsDeliveredSettled)
  }

  /**
   * Every filtered record is in exactly one of the two lists, each list
   * keeps the filtered order, and the lists are what their names say.
   */
  lemma VisibleDocumentsPartition(filtered: seq<UiRecord>)
    ensures |VisibleRecords(filtered)| + |DocumentRecords(filtered)| == |filtered|
    ensures multiset(VisibleRecords(filtered)) + multiset(DocumentRecords(filtered)) == multiset(filtered)
    ensures forall i :: 0 <= i < |DocumentRecords(filtered)| ==> DocumentRecords(filtered)[i] !in VisibleRecords(filtered)
    ensures forall i :: 0 <= i < |VisibleRecords(filtered)| ==> !IsDeliveredSettled(VisibleRecords(filtered)[i])
    ensures forall i :: 0 <= i < |DocumentRecords(filtered)| ==> IsDeliveredSettled(DocumentRecords(filtered)[i])
    ensures Subsequence(VisibleRecords(filtered), filtered) && Subsequence(DocumentRecords(filtered), filtered)
  {
    FilterPartition(filtered, IsDeliveredSettled, IsOpen);
  }

  /** The running sums the panel shows under a list. */
  datatype Totals = Totals(count: nat, amount: int, paid: int, balance: int)

  /** The totals of a list, as sums over its records. */
  function TotalsOf(rs: seq<UiRecord>): Totals {
    Totals(|rs|, Sum(rs, AmountOf), Sum(rs, PaidOf), Sum(rs, Outstanding))
  }

  /** `totals` / `documentTotals`: one pass over the list adding up each column. */
  method ComputeTotals(rs: seq<UiRecord>) returns (t: Totals)
    ensures t == TotalsOf(rs)
  {
    t := Totals(0, 0, 0, 0);
    for i := 0 to |rs|
      invariant t == TotalsOf(rs[..i])
    {
      var record := rs[i];
      var amount := AmountOf(record);
      var paid := PaidOf(record);
      t := t.(count := t.count + 1, amount := t.amount + amount, paid := t.paid + paid,
              balance := t.balance + if amount - paid > 0 then amount - paid else 0);
      assert rs[..i + 1] == rs[..i] + [record];
      SumSnoc(rs[..i], record, AmountOf);
      SumSnoc(rs[..i], record, PaidOf);
      SumSnoc(rs[..i], record, Outstanding);
    }
    assert rs[..|rs|] == rs;
  }

  /** The balance column never goes negative and covers the amount not yet paid. */
  lemma {:induction false} BalanceCoversShortfall(rs: seq<UiRecord>)
    ensures TotalsOf(rs).balance >= 0
    ensures TotalsOf(rs).balance >= TotalsOf(rs).amount - TotalsOf(rs).paid
  {
    if rs != [] {
      BalanceCoversShortfall(rs[1..]);
    }
  }

  /** The filtered totals are the open totals plus the document totals. */
  lemma TotalsSplit(filtered: seq<UiRecord>)
    ensures TotalsOf(filtered).count == TotalsOf(VisibleRecords(filtered)).count + TotalsOf(DocumentRecords(filtered)).count
    ensures TotalsOf(filtered).amount == TotalsOf(VisibleRecords(filtered)).amount + TotalsOf(DocumentRecords(filtered)).amount
    ensures TotalsOf(filtered).paid == TotalsOf(VisibleRecords(filtered)).paid + TotalsOf(DocumentRecords(filtered)).paid
    ensures TotalsOf(filtered).balance == TotalsOf(VisibleRecords(filtered)).balance + TotalsOf(DocumentRecords(filtered)).balance
  {
    FilterPartition(filtered, IsDeliveredSettled, IsOpen);
    SumFilterPartition(filtered, IsDeliveredSettled, IsOpen, AmountOf);
    SumFilterPartition(filtered, IsDeliveredSettled, IsOpen, PaidOf);
    SumFilterPartition(filtered, IsDeliveredSettled, IsOpen, Outstanding);
  }

  /** Nothing is owed on the documents, so all of the filtered balance is in the open list. */
  lemma DocumentsOweNothing(filtered: seq<UiRecord>)
    ensures TotalsOf(DocumentRecords(filtered)).balance == 0
    ensures TotalsOf(VisibleRecords(filtered)).balance == TotalsOf(filtered).balance
  {
    var docs := DocumentRecords(filtered);
    SumZero(docs, Outstanding);
    TotalsSplit(filtered);
  }

  /** The group key of records without a phone. */
  const NoPhoneKey := "Дугаар оруулаагүй"

  /** `record.phone?.trim() || 'Дугаар оруулаагүй'`. */
  function GroupKey(r: UiRecord): (k: string)
    ensures k != ""
    ensures Trim(r.phone) != "" ==> k == Trim(r.phone)
  {
    Or(Trim(r.phone), NoPhoneKey)
  }

  function PinOf(r: UiRecord): string {
    r.pin
  }

  /** One entry of `phoneGroups`. */
  datatype PhoneGroup = PhoneGroup(phone: string, pin: string, items: seq<UiRecord>, total: int, paid: int, balance: int)

  /**
   * A new entry. The panel creates it with the first record's PIN and then
   * adds that record; starting from no PIN and adding the record is the same.
   */
  function NewPhoneGroup(k: string): PhoneGroup {
    PhoneGroup(k, "", [], 0, 0, 0)
  }

  /** Adding a record to an entry: take its PIN if the entry has none, push it, add up its amounts. */
  function AddToPhoneGroup(g: PhoneGroup, r: UiRecord): PhoneGroup {
    g.(pin := Or(g.pin, r.pin), items := g.items + [r], total := g.total + AmountOf(r),
       paid := g.paid + PaidOf(r), balance := g.balance + Outstanding(r))
  }

  /** The entry for key `k` holding `items`: the first PIN among them and their sums. */
  function PhoneSummary(k: string, items: seq<UiRecord>): PhoneGroup {
    PhoneGroup(k, FirstNonEmpty(items, PinOf), items, Sum(items, AmountOf), Sum(items, PaidOf), Sum(items, Outstanding))
  }

  /** The entry of key `k` over `rs`. */
  function PhoneGroupOf(rs: seq<UiRecord>, k: string): PhoneGroup {
    PhoneSummary(k, Select(rs, GroupKey, k))
  }

  lemma PhoneSummarySnoc(k: string, items: seq<UiRecord>, x: UiRecord)
    ensures PhoneSummary(k, items + [x]) == AddToPhoneGroup(PhoneSummary(k, items), x)
  {
    FirstNonEmptySnoc(items, x, PinOf);
    SumSnoc(items, x, AmountOf);
    SumSnoc(items, x, PaidOf);
    SumSnoc(items, x, Outstanding);
  }

  /** Adding the records of a group one by one yields the entry `PhoneSummary` describes. */
  lemma {:induction false} PhoneGroupFold(items: seq<UiRecord>, k: string)
    ensures Fold(items, NewPhoneGroup(k), AddToPhoneGroup) == PhoneSummary(k, items)
  {
    if items != [] {
      var init, x := items[..|items| - 1], items[|items| - 1];
      PhoneGroupFold(init, k);
      assert items == init + [x];
      PhoneSummarySnoc(k, init, x);
    }
  }

  /** The order of the entries: keys by first appearance, reordered as `Object.values` lists them. */
  function GroupOrder(rs: seq<UiRecord>): (ks: seq<string>)
    ensures Distinct(ks)
  {
    ValuesOrder(KeysInOrder(rs, GroupKey))
  }

  /** Every record's key has an entry. */
  lemma GroupOrderCovers(rs: seq<UiRecord>)
    ensures forall i :: 0 <= i < |rs| ==> GroupKey(rs[i]) in GroupOrder(rs)
  {
    KeysCover(rs, GroupKey);
  }

  function PhoneGroupsOf(rs: seq<UiRecord>, ks: seq<string>): (gs: seq<PhoneGroup>)
    ensures |gs| == |ks|
    ensures forall j :: 0 <= j < |ks| ==> gs[j] == PhoneGroupOf(rs, ks[j])
  {
    if ks == [] then [] else [PhoneGroupOf(rs, ks[0])] + PhoneGroupsOf(rs, ks[1..])
  }

  /** The object the `phoneGroups` pass fills holds, for each listed key, that key's entry. */
  lemma PhoneEntries(m: map<string, PhoneGroup>, keys: seq<string>, visible: seq<UiRecord>)
    requires keys == KeysInOrder(visible, GroupKey)
    requires forall k :: k in m <==> k in keys
    requires forall k :: k in m ==> m[k] == Fold(Select(visible, GroupKey, k), NewPhoneGroup(k), AddToPhoneGroup)
    ensures forall j :: 0 <= j < |ValuesOrder(keys)| ==>
              ValuesOrder(keys)[j] in m && m[ValuesOrder(keys)[j]] == PhoneGroupOf(visible, ValuesOrder(keys)[j])
  {
    var order := ValuesOrder(keys);
    forall j | 0 <= j < |order|
      ensures order[j] in m && m[order[j]] == PhoneGroupOf(visible, order[j])
    {
      assert order[j] in keys;
      PhoneGroupFold(Select(visible, GroupKey, order[j]), order[j]);
    }
  }

  lemma PhoneGroupsListed(visible: seq<UiRecord>, order: seq<string>, groups: seq<PhoneGroup>)
    requires order == GroupOrder(visible)
    requires |groups| == |order|
    requires forall j :: 0 <= j < |order| ==> groups[j] == PhoneGroupOf(visible, order[j])
    ensures groups == PhoneGroupsOf(visible, GroupOrder(visible))
  {
  }

  /**
   * `phoneGroups`: one pass over the open records filling an object keyed
   * by phone, then its values.
   */
  method PhoneGroups(visible: seq<UiRecord>) returns (groups: seq<PhoneGroup>)
    ensures groups == PhoneGroupsOf(visible, GroupOrder(visible))
  {
    var m, keys := GroupInto(visible, GroupKey, NewPhoneGroup, AddToPhoneGroup);
    PhoneEntries(m, keys, visible);
    var order := ValuesOrder(keys);
    groups := seq(|order|, j requires 0 <= j < |order| => m[order[j]]);
    PhoneGroupsListed(visible, order, groups);
  }

  function ItemCount(g: PhoneGroup): int {
    |g.items|
  }

  function GroupBalance(g: PhoneGroup): int {
    g.balance
  }

  lemma {:induction false} GroupSums(rs: seq<UiRecord>, ks: seq<string>)
    ensures Sum(PhoneGroupsOf(rs, ks), ItemCount) == SizeOverGroups(rs, GroupKey, ks)
    ensures Sum(PhoneGroupsOf(rs, ks), GroupBalance) == SumOverGroups(rs, GroupKey, ks, Outstanding)
  {
    if ks != [] {
      GroupSums(rs, ks[1..]);
    }
  }

  /**
   * The phone groups lose and repeat no record: their sizes add up to the
   * number of open records and their balances to the open balance.
   */
  lemma PhoneGroupsCover(visible: seq<UiRecord>)
    ensures Sum(PhoneGroupsOf(visible, GroupOrder(visible)), ItemCount) == |visible|
    ensures Sum(PhoneGroupsOf(visible, GroupOrder(visible)), GroupBalance) == TotalsOf(visible).balance
  {
    var ks := GroupOrder(visible);
    GroupOrderCovers(visible);
    GroupsCoverAll(visible, GroupKey, ks, Outstanding);
    GroupSums(visible, ks);
  }

  /** Each group holds exactly the records of its key, in list order, and no group is empty. */
  lemma PhoneGroupMembers(visible: seq<UiRecord>, j: nat)
    requires j < |GroupOrder(visible)|
    ensures var g := PhoneGroupsOf(visible, GroupOrder(visible))[j];
            && g.phone == GroupOrder(visible)[j]
            && g.items != []
            && (forall i :: 0 <= i < |g.items| ==> g.items[i] in visible && GroupKey(g.items[i]) == g.phone)
            && (forall i :: 0 <= i < |visible| && GroupKey(visible[i]) == g.phone ==> visible[i] in g.items)
  {
    var k := GroupOrder(visible)[j];
    assert k in KeysInOrder(visible, GroupKey);
    KeysAreUsed(visible, GroupKey, k);
  }

  /** The records the delivery view lists: out for delivery and not settled. */
  predicate DeliveryEligible(r: UiRecord) {
    r.location == "delivery" && !IsDeliveredSettled(r)
  }

  function DeliveryRecords(records: seq<UiRecord>): seq<UiRecord> {
    Filter(records, DeliveryEligible)
  }

  function AddressOf(r: UiRecord): string {
    r.deliveryAddress
  }

  /** One entry of `deliveryGroups`. */
  datatype DeliveryGroup = DeliveryGroup(phone: string, items: seq<UiRecord>, address: string)

  function NewDeliveryGroup(k: string): DeliveryGroup {
    DeliveryGroup(k, [], "")
  }

  /** Adding a record: take its address if the entry has none, push it. */
  function AddToDeliveryGroup(g: DeliveryGroup, r: UiRecord): DeliveryGroup {
    g.(address := Or(g.address, r.deliveryAddress), items := g.items + [r])
  }

  function DeliverySummary(k: string, items: seq<UiRecord>): DeliveryGroup {
    DeliveryGroup(k, items, FirstNonEmpty(items, AddressOf))
  }

  function DeliveryGroupOf(rs: seq<UiRecord>, k: string): DeliveryGroup {
    DeliverySummary(k, Select(rs, GroupKey, k))
  }

  lemma {:induction false} DeliveryGroupFold(items: seq<UiRecord>, k: string)
    ensures Fold(items, NewDeliveryGroup(k), AddToDeliveryGroup) == DeliverySummary(k, items)
  {
    if items != [] {
      var init, x := items[..|items| - 1], items[|items| - 1];
      DeliveryGroupFold(init, k);
      assert items == init + [x];
      FirstNonEmptySnoc(init, x, AddressOf);
    }
  }

  function DeliveryGroupsOf(rs: seq<UiRecord>, ks: seq<string>): (gs: seq<DeliveryGroup>)
    ensures |gs| == |ks|
    ensures forall j :: 0 <= j < |ks| ==> gs[j] == DeliveryGroupOf(rs, ks[j])
  {
    if ks == [] then [] else [DeliveryGroupOf(rs, ks[0])] + DeliveryGroupsOf(rs, ks[1..])
  }

  lemma DeliveryEntries(m: map<string, DeliveryGroup>, keys: seq<string>, eligible: seq<UiRecord>)
    requires keys == KeysInOrder(eligible, GroupKey)
    requires forall k :: k in m <==> k in keys
    requires forall k :: k in m ==> m[k] == Fold(Select(eligible, GroupKey, k), NewDeliveryGroup(k), AddToDeliveryGroup)
    ensures forall j :: 0 <= j < |ValuesOrder(keys)| ==>
              ValuesOrder(keys)[j] in m && m[ValuesOrder(keys)[j]] == DeliveryGroupOf(eligible, ValuesOrder(keys)[j])
  {
    var order := ValuesOrder(keys);
    forall j | 0 <= j < |order|
      ensures order[j] in m && m[order[j]] == DeliveryGroupOf(eligible, order[j])
    {
      assert order[j] in keys;
      DeliveryGroupFold(Select(eligible, GroupKey, order[j]), order[j]);
    }
  }

  lemma DeliveryGroupsListed(eligible: seq<UiRecord>, order: seq<string>, groups: seq<DeliveryGroup>)
    requires order == GroupOrder(eligible)
    requires |groups| == |order|
    requires forall j :: 0 <= j < |order| ==> groups[j] == DeliveryGroupOf(eligible, order[j])
    ensures groups == DeliveryGroupsOf(eligible, GroupOrder(eligible))
  {
  }

  /**
   * `deliveryGroups`: the records out for delivery and not settled, grouped
   * by phone, each group with the first delivery address among its records.
   */
  method DeliveryGroups(records: seq<UiRecord>) returns (groups: seq<DeliveryGroup>)
    ensures groups == DeliveryGroupsOf(DeliveryRecords(records), GroupOrder(DeliveryRecords(records)))
  {
    var eligible := Filter(records, DeliveryEligible);
    var m, keys := GroupInto(eligible, GroupKey, NewDeliveryGroup, AddToDeliveryGroup);
    DeliveryEntries(m, keys, eligible);
    var order := ValuesOrder(keys);
    groups := seq(|order|, j requires 0 <= j < |order| => m[order[j]]);
    DeliveryGroupsListed(eligible, order, groups);
  }

  function DeliveryItemCount(g: DeliveryGroup): int {
    |g.items|
  }

  lemma {:induction false} DeliverySizes(rs: seq<UiRecord>, ks: seq<string>)
    ensures Sum(DeliveryGroupsOf(rs, ks), DeliveryItemCount) == SizeOverGroups(rs, GroupKey, ks)
  {
    if ks != [] {
      DeliverySizes(rs, ks[1..]);
    }
  }

  /**
   * `deliveryVisibleCount`, the sum of the group sizes, is the number of
   * records out for delivery and not settled.
   */
  lemma DeliveryVisibleCount(records: seq<UiRecord>)
    ensures Sum(DeliveryGroupsOf(DeliveryRecords(records), GroupOrder(DeliveryRecords(records))), DeliveryItemCount)
            == |DeliveryRecords(records)|
  {
    var rs := DeliveryRecords(records);
    GroupOrderCovers(rs);
    GroupsCoverAll(rs, GroupKey, GroupOrder(rs), AmountOf);
    DeliverySizes(rs, GroupOrder(rs));
  }

  /** Page size of the document list and of the phone groups. */
  const PageSize := 10

  /** `Math.max(1, Math.ceil(n / size))`. */
  function PageCount(n: nat, size: nat): (c: nat)
    requires size > 0
    ensures c >= 1
    ensures n <= c * size
    ensures c == 1 || (c - 1) * size < n
  {
    if n == 0 then 1
    else
      var c := (n + size - 1) / size;
      assert c * size <= n + size - 1 < c * size + size;
      c
  }

  /** `list.slice((page - 1) * size, page * size)`. */
  function PageSlice<T>(s: seq<T>, page: nat, size: nat): (p: seq<T>)
    requires page >= 1
    ensures |p| <= size
    ensures forall i :: 0 <= i < |p| ==> (page - 1) * size + i < |s| && p[i] == s[(page - 1) * size + i]
    ensures page * size <= |s| ==> |p| == size
    ensures (page - 1) * size < |s| < page * size ==> |p| == |s| - (page - 1) * size
    ensures |s| <= (page - 1) * size ==> p == []
  {
    Ledger.Window(s, (page - 1) * size, size)
  }

  /** Pages 1 to `PageCount` together list every element once, in order. */
  lemma PagesCoverAll<T>(s: seq<T>, size: nat)
    requires size > 0
    ensures Ledger.FirstPages(s, size, PageCount(|s|, size)) == s
  {
    var c := PageCount(|s|, size);
    Ledger.FirstPagesArePrefix(s, size, c);
    assert Ledger.Window(s, 0, c * size) == s;
  }

  /** A page past `PageCount` is empty. */
  lemma PagesPastTheEnd<T>(s: seq<T>, size: nat, page: nat)
    requires size > 0 && page > PageCount(|s|, size)
    ensures PageSlice(s, page, size) == []
  {
    var c := PageCount(|s|, size);
    assert (page - 1) * size >= c * size by {
      assert page - 1 >= c;
    }
  }
}

/**
 * The customer PIN table of the backend: normalised phone -> (hash, plaintext).
 * The digest (SHA-256 in the source) is an arbitrary deterministic function
 * carried in the configuration; nothing here depends on it being injective.
 */
module PinStore {
  import opened Text

  /** The shared server secret and the one-way digest, passed in explicitly. */
  datatype PinConfig = PinConfig(secret: string, digest: string -> string)

  /** A `customer_pins` row; `plain == ""` is a row whose plaintext is missing. */
  datatype PinRow = PinRow(hash: string, plain: string)

  type PinTable = map<string, PinRow>

  /** The text `hashPin` digests: `${secret}:${phone}:${pin}`. */
  function HashMessage(secret: string, phone: string, pin: string): (m: string)
    ensures |m| == |secret| + |phone| + |pin| + 2
    ensures m[..|secret|] == secret && m[|secret|] == ':'
    ensures m[|secret| + 1..|secret| + 1 + |phone|] == phone && m[|secret| + 1 + |phone|] == ':'
    ensures m[|secret| + 2 + |phone|..] == pin
  {
    secret + ":" + phone + ":" + pin
  }

  /**
   * With digit-only phones (the table's keys) the message determines the
   * phone and the PIN: no two (phone, PIN) pairs are digested from one text.
   */
  lemma HashMessageUnambiguous(secret: string, phone1: string, pin1: string, phone2: string, pin2: string)
    requires AllDigits(phone1) && AllDigits(phone2)
    requires HashMessage(secret, phone1, pin1) == HashMessage(secret, phone2, pin2)
    ensures phone1 == phone2 && pin1 == pin2
  {
    var m := HashMessage(secret, phone1, pin1);
    var n := |secret| + 1;
    if |phone1| < |phone2| {
      assert false;
    } else if |phone2| < |phone1| {
      assert false;
    }
  }

  /** `hashPin`: the digest of `secret:phone:pin`. */
  function HashPin(cfg: PinConfig, phone: string, pin: string): (h: string)
    ensures h == cfg.digest(HashMessage(cfg.secret, phone, pin))
  {
    cfg.digest(HashMessage(cfg.secret, phone, pin))
  }

  /** A four-character, all-digit PIN text ("0000" .. "9999"). */
  predicate IsPinText(s: string) {
    |s| == 4 && AllDigits(s)
  }

  function DigitChar(d: nat): (c: char)
    requires d < 10
    ensures IsDigit(c)
  {
    ('0' as int + d) as char
  }

  function DigitValue(c: char): (d: nat)
    requires IsDigit(c)
    ensures d < 10
  {
    c as int - '0' as int
  }

  /** The number a PIN text spells. */
  function PinValue(pin: string): (n: nat)
    requires IsPinText(pin)
    ensures n < 10000
  {
    ((DigitValue(pin[0]) * 10 + DigitValue(pin[1])) * 10 + DigitValue(pin[2])) * 10 + DigitValue(pin[3])
  }

  /** `String(n).padStart(4, '0')` for a draw `n` of `randomInt(0, 10000)`. */
  function FormatPin(n: nat): (pin: string)
    requires n < 10000
    ensures IsPinText(pin)
    ensures PinValue(pin) == n
  {
    var tens := n / 10;
    var hundreds := tens / 10;
    var thousands := hundreds / 10;
    assert n == tens * 10 + n % 10 && tens == hundreds * 10 + tens % 10 && hundreds == thousands * 10 + hundreds % 10;
    [DigitChar(thousands), DigitChar(hundreds % 10), DigitChar(tens % 10), DigitChar(n % 10)]
  }

  /** Every PIN text is the padding of exactly one draw, so the draws and the PINs are in one-to-one correspondence. */
  lemma FormatPinOnto(pin: string)
    requires IsPinText(pin)
    ensures FormatPin(PinValue(pin)) == pin
  {
    var n := PinValue(pin);
    var a, b, c, d := DigitValue(pin[0]), DigitValue(pin[1]), DigitValue(pin[2]), DigitValue(pin[3]);
    assert n == (a * 100 + b * 10 + c) * 10 + d;
    assert n / 10 == a * 100 + b * 10 + c && n % 10 == d;
    assert n / 10 / 10 == a * 10 + b && n / 10 % 10 == c;
    assert n / 10 / 10 / 10 == a && n / 10 / 10 % 10 == b;
  }

  /** Keys of the table are non-empty digit strings: rows are only written under `normalizePhone` output. */
  predicate KeysNormalized(pins: PinTable) {
    forall k :: k in pins ==> k != "" && AllDigits(k)
  }

  /**
   * A row that holds a plaintext holds a four-digit PIN and the hash of that
   * PIN (the two are always written together, by `ensurePinForPhone`).
   */
  ghost predicate WellFormed(cfg: PinConfig, pins: PinTable) {
    KeysNormalized(pins)
    && forall k :: k in pins && pins[k].plain != "" ==>
         IsPinText(pins[k].plain) && pins[k].hash == HashPin(cfg, k, pins[k].plain)
  }

  predicate HasPlainPin(pins: PinTable, k: string) {
    k in pins && pins[k].plain != ""
  }

  /** `verifyPinForPhone`. */
  function Verify(cfg: PinConfig, pins: PinTable, phone: string, pin: string): (ok: bool)
    ensures NormalizePhone(phone) == "" ==> !ok
    ensures pin == "" ==> !ok
    ensures NormalizePhone(phone) !in pins ==> !ok
    ensures ok <==> NormalizePhone(phone) in pins && NormalizePhone(phone) != "" && pin != ""
                    && pins[NormalizePhone(phone)].hash == HashPin(cfg, NormalizePhone(phone), pin)
  {
    var k := NormalizePhone(phone);
    k != "" && pin != "" && k in pins && pins[k].hash == HashPin(cfg, k, pin)
  }

  /** The `created` answer of `ensurePinForPhone`: a phone with digits whose row is absent or lacks its plaintext. */
  function MintNeeded(pins: PinTable, phone: string): bool {
    var k := NormalizePhone(phone);
    k != "" && !HasPlainPin(pins, k)
  }

  /** `after` is `before` with a fresh, consistent four-digit PIN stored under `k` and nothing else changed. */
  ghost predicate Minted(cfg: PinConfig, before: PinTable, after: PinTable, k: string) {
    k in after && after == before[k := after[k]]
    && IsPinText(after[k].plain) && after[k].hash == HashPin(cfg, k, after[k].plain)
  }

  /** The effect of `ensurePinForPhone(phone)` on the table. */
  ghost predicate EnsuredPin(cfg: PinConfig, before: PinTable, after: PinTable, phone: string) {
    if MintNeeded(before, phone) then Minted(cfg, before, after, NormalizePhone(phone)) else after == before
  }

  /** The `pin_plain` the shipment queries join in: the row whose key is the phone's digits. */
  function JoinedPin(pins: PinTable, phone: string): string {
    var k := NormalizePhone(phone);
    if k in pins then pins[k].plain else ""
  }

  /** The effect of `fetchShipmentWithPin` on the table: a PIN is minted for a phone that has none joined. */
  ghost predicate FetchedPin(cfg: PinConfig, before: PinTable, after: PinTable, phone: string) {
    if JoinedPin(before, phone) == "" && phone != "" then EnsuredPin(cfg, before, after, phone) else after == before
  }

  /** Every plaintext PIN of `before` is still in `after`, with its row untouched. */
  ghost predicate KeepsPlainPins(before: PinTable, after: PinTable) {
    forall k :: HasPlainPin(before, k) ==> k in after && after[k] == before[k]
  }

  lemma KeepsPlainPinsTransitive(a: PinTable, b: PinTable, c: PinTable)
    requires KeepsPlainPins(a, b) && KeepsPlainPins(b, c)
    ensures KeepsPlainPins(a, c)
  {
  }

  /** Ensuring a PIN keeps the table well formed, leaves a phone without digits alone and never replaces an existing plaintext PIN. */
  lemma EnsurePreserves(cfg: PinConfig, before: PinTable, after: PinTable, phone: string)
    requires WellFormed(cfg, before)
    requires EnsuredPin(cfg, before, after, phone)
    ensures WellFormed(cfg, after)
    ensures NormalizePhone(phone) == "" ==> after == before
    ensures KeepsPlainPins(before, after)
    ensures forall k :: k in before ==> k in after
  {
  }

  /** Ensuring a PIN for one phone leaves the join of every phone that already shows a PIN, or has no digits, as it was. */
  lemma EnsureKeepsJoins(cfg: PinConfig, before: PinTable, after: PinTable, phone: string)
    requires WellFormed(cfg, before)
    requires EnsuredPin(cfg, before, after, phone)
    ensures forall q :: JoinedPin(before, q) != "" || NormalizePhone(q) == "" ==> JoinedPin(after, q) == JoinedPin(before, q)
  {
  }

  /**
   * After `ensure`, the phone has a plaintext PIN, the join shows it, and
   * verifying that PIN for the phone succeeds.
   */
  lemma EnsureThenVerify(cfg: PinConfig, before: PinTable, after: PinTable, phone: string)
    requires WellFormed(cfg, before)
    requires EnsuredPin(cfg, before, after, phone)
    requires NormalizePhone(phone) != ""
    ensures HasPlainPin(after, NormalizePhone(phone))
    ensures JoinedPin(after, phone) == after[NormalizePhone(phone)].plain
    ensures Verify(cfg, after, phone, after[NormalizePhone(phone)].plain)
  {
    var k := NormalizePhone(phone);
    if MintNeeded(before, phone) {
      assert Minted(cfg, before, after, k);
      assert |after[k].plain| == 4;
    }
  }

  /** A second `ensure` for the same phone changes nothing and reports `created = false`. */
  lemma {:induction false} EnsureIdempotent(cfg: PinConfig, a: PinTable, b: PinTable, c: PinTable, phone: string)
    requires EnsuredPin(cfg, a, b, phone)
    requires EnsuredPin(cfg, b, c, phone)
    ensures !MintNeeded(b, phone)
    ensures c == b
  {
    var k := NormalizePhone(phone);
    if MintNeeded(a, phone) {
      assert Minted(cfg, a, b, k);
      assert |b[k].plain| == 4;
    }
  }

  /**
   * The delivery gate's two-step flow: a first attempt for a phone without a
   * PIN mints one (`pinCreated = true`); a second attempt that supplies the
   * minted PIN passes verification and mints nothing.
   */
  lemma SecondAttemptSucceeds(cfg: PinConfig, a: PinTable, b: PinTable, c: PinTable, phone: string)
    requires WellFormed(cfg, a)
    requires NormalizePhone(phone) != "" && !HasPlainPin(a, NormalizePhone(phone))
    requires EnsuredPin(cfg, a, b, phone)
    requires EnsuredPin(cfg, b, c, phone)
    ensures MintNeeded(a, phone) && !MintNeeded(b, phone)
    ensures c == b && Verify(cfg, c, phone, b[NormalizePhone(phone)].plain)
  {
    EnsureThenVerify(cfg, a, b, phone);
    EnsureIdempotent(cfg, a, b, c, phone);
  }

  /** Two fetches of the same row mint at most once: the second finds the PIN the first one joined or minted. */
  lemma FetchTwice(cfg: PinConfig, a: PinTable, b: PinTable, c: PinTable, phone: string)
    requires KeysNormalized(a)
    requires FetchedPin(cfg, a, b, phone)
    requires FetchedPin(cfg, b, c, phone)
    ensures c == b
  {
    var k := NormalizePhone(phone);
    if JoinedPin(a, phone) == "" && phone != "" && MintNeeded(a, phone) {
      assert Minted(cfg, a, b, k);
      assert |b[k].plain| == 4;
    }
  }
}

/**
 * Characters and strings as the shipment code treats them: the JavaScript
 * white-space class (what `trim` removes and `\s` matches), ASCII digits
 * (what `\D` does not match), ASCII case mapping, substring search and the
 * phone normalisation shared by the backend and the UI.
 */
module Text {

  /** JavaScript `s || fallback` on a string: the empty string is falsy. */
  function Or(s: string, fallback: string): string {
    if s != "" then s else fallback
  }

  /** ECMAScript white space and line terminators. */
  predicate IsSpace(c: char) {
    ('\t' <= c <= '\r') || c == ' ' || c == '\U{A0}' || c == '\U{1680}'
    || ('\U{2000}' <= c <= '\U{200A}') || c == '\U{2028}' || c == '\U{2029}'
    || c == '\U{202F}' || c == '\U{205F}' || c == '\U{3000}' || c == '\U{FEFF}'
  }

  predicate IsDigit(c: char) {
    '0' <= c <= '9'
  }

  predicate AllDigits(s: string) {
    forall i :: 0 <= i < |s| ==> IsDigit(s[i])
  }

  predicate NoSpaces(s: string) {
    forall i :: 0 <= i < |s| ==> !IsSpace(s[i])
  }

  /** Number of occurrences of `c` in `s`. */
  function Occurrences(s: string, c: char): nat {
    multiset(s)[c]
  }

  /**
   * `(phone || '').replace(/\D+/g, '')`: keep the digits of `s`, in order.
   */
  function NormalizePhone(s: string): (r: string)
    ensures AllDigits(r)
    ensures |r| <= |s|
    ensures AllDigits(s) ==> r == s
  {
    if s == [] then []
    else (if IsDigit(s[0]) then [s[0]] else []) + NormalizePhone(s[1..])
  }

  /** Normalising keeps every digit as often as it occurs, and nothing else. */
  lemma {:induction false} NormalizePhoneKeepsDigits(s: string)
    ensures forall c :: IsDigit(c) ==> Occurrences(NormalizePhone(s), c) == Occurrences(s, c)
    ensures forall c :: !IsDigit(c) ==> Occurrences(NormalizePhone(s), c) == 0
  {
    if s != [] {
      assert s == [s[0]] + s[1..];
      NormalizePhoneKeepsDigits(s[1..]);
    }
  }

  /** Normalisation distributes over concatenation. */
  lemma {:induction false} NormalizePhoneConcat(a: string, b: string)
    ensures NormalizePhone(a + b) == NormalizePhone(a) + NormalizePhone(b)
  {
    if a == [] {
      assert a + b == b;
    } else {
      assert (a + b)[0] == a[0];
      assert (a + b)[1..] == a[1..] + b;
      NormalizePhoneConcat(a[1..], b);
    }
  }

  /** A string without digits normalises to the empty phone. */
  lemma {:induction false} NormalizePhoneNoDigits(s: string)
    requires forall i :: 0 <= i < |s| ==> !IsDigit(s[i])
    ensures NormalizePhone(s) == ""
  {
    if s != [] {
      NormalizePhoneNoDigits(s[1..]);
    }
  }

  /** Normalising twice is normalising once. */
  lemma NormalizePhoneIdempotent(s: string)
    ensures NormalizePhone(NormalizePhone(s)) == NormalizePhone(s)
  {
  }

  /** `s.trimStart()`: drop leading white space. */
  function TrimStart(s: string): (r: string)
    ensures |r| <= |s| && r == s[|s| - |r|..]
    ensures forall i :: 0 <= i < |s| - |r| ==> IsSpace(s[i])
    ensures r != [] ==> !IsSpace(r[0])
  {
    if s != [] && IsSpace(s[0]) then TrimStart(s[1..]) else s
  }

  /** `s.trimEnd()`: drop trailing white space. */
  function TrimEnd(s: string): (r: string)
    ensures |r| <= |s| && r == s[..|r|]
    ensures forall i :: |r| <= i < |s| ==> IsSpace(s[i])
    ensures r != [] ==> !IsSpace(r[|r| - 1])
  {
    if s != [] && IsSpace(s[|s| - 1]) then TrimEnd(s[..|s| - 1]) else s
  }

  /** `s.trim()`: the slice of `s` between its leading and trailing white space. */
  function Trim(s: string): (r: string)
    ensures |r| <= |TrimStart(s)| <= |s|
    ensures r == s[|s| - |TrimStart(s)|..|s| - |TrimStart(s)| + |r|]
    ensures forall i :: 0 <= i < |s| - |TrimStart(s)| ==> IsSpace(s[i])
    ensures forall i :: |s| - |TrimStart(s)| + |r| <= i < |s| ==> IsSpace(s[i])
    ensures r != [] ==> !IsSpace(r[0]) && !IsSpace(r[|r| - 1])
  {
    TrimEnd(TrimStart(s))
  }

  lemma NormalizePhoneTrimStart(s: string)
    ensures NormalizePhone(TrimStart(s)) == NormalizePhone(s)
  {
    var u := TrimStart(s);
    var lead := s[..|s| - |u|];
    assert s == lead + u;
    forall i | 0 <= i < |lead|
      ensures !IsDigit(lead[i])
    {
      assert lead[i] == s[i];
      assert IsSpace(s[i]);
    }
    NormalizePhoneConcat(lead, u);
    NormalizePhoneNoDigits(lead);
  }

  lemma NormalizePhoneTrimEnd(s: string)
    ensures NormalizePhone(TrimEnd(s)) == NormalizePhone(s)
  {
    var t := TrimEnd(s);
    var trail := s[|t|..];
    assert s == t + trail;
    forall i | 0 <= i < |trail|
      ensures !IsDigit(trail[i])
    {
      assert trail[i] == s[|t| + i];
      assert IsSpace(s[|t| + i]);
    }
    NormalizePhoneConcat(t, trail);
    NormalizePhoneNoDigits(trail);
  }

  /** Trimming removes only white space, so it never changes the digits of a phone. */
  lemma NormalizePhoneTrim(s: string)
    ensures NormalizePhone(Trim(s)) == NormalizePhone(s)
  {
    NormalizePhoneTrimStart(s);
    NormalizePhoneTrimEnd(TrimStart(s));
  }

  /** Trimming is idempotent. */
  lemma TrimIdempotent(s: string)
    ensures Trim(Trim(s)) == Trim(s)
  {
    var t := Trim(s);
    if t != [] {
      assert TrimStart(t) == t;
      assert TrimEnd(t) == t;
    }
  }

  /** A string that neither starts nor ends with white space is its own trim. */
  lemma TrimUnpadded(s: string)
    requires s != [] ==> !IsSpace(s[0]) && !IsSpace(s[|s| - 1])
    ensures Trim(s) == s
  {
    if s != [] {
      assert TrimStart(s) == s;
      assert TrimEnd(s) == s;
    }
  }

  /** A digit string, such as a normalised phone or a PIN, is unchanged by trimming. */
  lemma TrimDigits(s: string)
    requires AllDigits(s)
    ensures Trim(s) == s
  {
    TrimUnpadded(s);
  }

  /** `s.replace(/\s+/g, '')`: remove every white-space character. */
  function StripSpaces(s: string): (r: string)
    ensures NoSpaces(r)
    ensures |r| <= |s|
    ensures NoSpaces(s) ==> r == s
  {
    if s == [] then []
    else (if IsSpace(s[0]) then [] else [s[0]]) + StripSpaces(s[1..])
  }

  function UpperChar(c: char): char {
    if 'a' <= c <= 'z' then (c as int - 32) as char else c
  }

  function LowerChar(c: char): char {
    if 'A' <= c <= 'Z' then (c as int + 32) as char else c
  }

  /** `s.toUpperCase()` on the ASCII letters. */
  function ToUpper(s: string): (r: string)
    ensures |r| == |s|
    ensures forall i :: 0 <= i < |s| ==> r[i] == UpperChar(s[i])
  {
    seq(|s|, i requires 0 <= i < |s| => UpperChar(s[i]))
  }

  /** `s.toLowerCase()` on the ASCII letters. */
  function ToLower(s: string): (r: string)
    ensures |r| == |s|
    ensures forall i :: 0 <= i < |s| ==> r[i] == LowerChar(s[i])
  {
    seq(|s|, i requires 0 <= i < |s| => LowerChar(s[i]))
  }

  /** Case mapping is idempotent, so an upper-cased code compares equal to itself upper-cased. */
  lemma CaseMappingIdempotent(s: string)
    ensures ToUpper(ToUpper(s)) == ToUpper(s)
    ensures ToLower(ToLower(s)) == ToLower(s)
  {
  }

  /** Upper-casing a trimmed code leaves it trimmed: the server's second `trim` has nothing to remove. */
  lemma TrimUpperTrim(s: string)
    ensures Trim(ToUpper(Trim(s))) == ToUpper(Trim(s))
  {
    TrimUnpadded(ToUpper(Trim(s)));
  }

  /** `t` occurs in `s` starting at index `i`. */
  ghost predicate OccursAt(t: string, s: string, i: int) {
    0 <= i && i + |t| <= |s| && s[i..i + |t|] == t
  }

  lemma OccursShift(t: string, s: string)
    requires s != []
    ensures forall i :: 0 <= i ==> (OccursAt(t, s[1..], i) <==> OccursAt(t, s, i + 1))
  {
    forall i | 0 <= i
      ensures OccursAt(t, s[1..], i) <==> OccursAt(t, s, i + 1)
    {
      if 0 <= i && i + |t| <= |s[1..]| {
        assert s[1..][i..i + |t|] == s[i + 1..i + 1 + |t|];
      }
    }
  }

  /** `s.includes(t)`: `t` is a substring of `s`. */
  function Includes(s: string, t: string): (b: bool)
    ensures b <==> exists i :: OccursAt(t, s, i)
    decreases |s|
  {
    if |t| > |s| then false
    else if s[..|t|] == t then assert OccursAt(t, s, 0); true
    else
      OccursShift(t, s);
      assert forall i :: OccursAt(t, s, i) ==> i == 0 || OccursAt(t, s[1..], i - 1);
      Includes(s[1..], t)
  }

  /** The empty string is found in every string, so a blank filter keeps everything. */
  lemma IncludesEmpty(s: string)
    ensures Includes(s, "")
  {
    assert OccursAt("", s, 0);
  }
}

/**
 * The UTF-8 codec of netfilter/UTF-8.h.
 *
 * `Encode` and `Decode` are the reference definitions, in the terms of section 2 of RFC 2279:
 * a sequence is a lead byte that announces k continuation bytes, each carrying six bits.
 * The methods at the end run the program's own loops and are proved against them.
 * Shifts and masks of unsigned values are written as division and remainder by powers of two.
 */
module Utf8 {
  import opened Bytes

  // sizeof(wchar_t): two bytes (Narrow) or four bytes (Wide).
  datatype Width = Narrow | Wide

  const REPLACEMENT_CHAR := 0xFFFD

  function Limit(w: Width): int {
    if w.Narrow? then 0x1_0000 else 0x1_0000_0000
  }

  // A wide string holds code units of its width.
  predicate IsWideString(w: Width, s: seq<int>) {
    forall i | 0 <= i < |s| :: 0 <= s[i] < Limit(w)
  }

  // ---------------------------------------------------------------- encoding

  predicate Unencodable(c: int) {
    0xD800 <= c <= 0xDFFF || c == 0xFFFF || c == 0xFFFE || c >= 0x8000_0000
  }

  function Sanitize(c: int): int {
    if Unencodable(c) then REPLACEMENT_CHAR else c
  }

  function SanitizeAll(s: seq<int>): seq<int> {
    seq(|s|, i requires 0 <= i < |s| => Sanitize(s[i]))
  }

  // The number of continuation bytes of the shortest form.
  function Extra(c: int): nat {
    if c < 0x80 then 0
    else if c < 0x800 then 1
    else if c < 0x1_0000 then 2
    else if c < 0x20_0000 then 3
    else if c < 0x400_0000 then 4
    else 5
  }

  // The marker bits of a lead byte announcing k continuation bytes.
  function LeadMark(k: nat): int
    requires k <= 5
  {
    [0x00, 0xC0, 0xE0, 0xF0, 0xF8, 0xFC][k]
  }

  // c without its k low six-bit digits: c >> 6k.
  function Shift(c: nat, k: nat): (r: nat)
    ensures r <= c
  {
    if k == 0 then c else Shift(c / 64, k - 1)
  }

  // The k low six-bit digits of c, most significant first, as continuation bytes.
  function Digits(c: nat, k: nat): (r: seq<byte>)
    ensures |r| == k
    ensures forall i | 0 <= i < k :: IsContinuation(r[i])
  {
    if k == 0 then [] else Digits(c / 64, k - 1) + [0x80 + c % 64]
  }

  function EncodeChar(c: nat): (r: seq<byte>)
    ensures 1 <= |r| <= 6
  {
    var x := Sanitize(c);
    var k := Extra(x);
    LeadFits(x);
    [LeadMark(k) + Shift(x, k)] + Digits(x, k)
  }

  function Encode(s: seq<int>): (r: seq<byte>)
    requires forall i | 0 <= i < |s| :: 0 <= s[i]
  {
    if s == [] then [] else EncodeChar(s[0]) + Encode(s[1..])
  }

  /** The six-bit shifts are the divisions by powers of two of section 2 of RFC 2279. */
  lemma Shifts(c: nat)
    ensures Shift(c, 0) == c && Shift(c, 1) == c / 0x40 && Shift(c, 2) == c / 0x1000
    ensures Shift(c, 3) == c / 0x4_0000 && Shift(c, 4) == c / 0x100_0000 && Shift(c, 5) == c / 0x4000_0000
  {
    assert Shift(c, 2) == Shift(c / 0x40, 1);
    assert Shift(c, 3) == Shift(c / 0x40 / 0x40, 1);
    assert Shift(c, 4) == Shift(c / 0x40 / 0x40 / 0x40, 1);
    assert Shift(c, 5) == Shift(c / 0x40 / 0x40 / 0x40 / 0x40, 1);
  }

  lemma {:induction false} ShiftBound(c: nat, k: nat, room: nat)
    requires c < Room(k, room)
    ensures Shift(c, k) < room
  {
    if k > 0 {
      ShiftBound(c / 64, k - 1, room);
    }
  }

  // room * 64^k
  function Room(k: nat, room: nat): nat {
    if k == 0 then room else 64 * Room(k - 1, room)
  }

  lemma Rooms(x: nat)
    requires x < 0x8000_0000
    ensures x < Room(Extra(x), LeadSpan(Extra(x)))
  {
    assert Room(2, 16) == 64 * Room(1, 16);
    assert Room(3, 8) == 64 * Room(2, 8) == 4096 * Room(1, 8);
    assert Room(4, 4) == 64 * Room(3, 4) == 4096 * Room(2, 4) == 0x4_0000 * Room(1, 4);
    assert Room(5, 2) == 64 * Room(4, 2) == 4096 * Room(3, 2) == 0x4_0000 * Room(2, 2) == 0x100_0000 * Room(1, 2);
  }

  /** The lead byte of the shortest form announces exactly its continuation bytes and keeps the high digits. */
  lemma LeadFits(x: nat)
    requires x < 0x8000_0000
    ensures var k := Extra(x); var b := LeadMark(k) + Shift(x, k);
            0 <= b < 254 && !IsContinuation(b) && LeadExtra(b) == k && b % LeadSpan(k) == Shift(x, k)
  {
    Rooms(x);
    ShiftBound(x, Extra(x), LeadSpan(Extra(x)));
  }

  // ---------------------------------------------------------------- decoding

  predicate IsContinuation(b: byte) {
    0x80 <= b < 0xC0
  }

  // The continuation bytes a lead byte announces; -1 for bytes that start nothing.
  function LeadExtra(b: byte): int {
    if b < 0x80 then 0
    else if b < 0xC0 then -1
    else if b < 0xE0 then 1
    else if b < 0xF0 then 2
    else if b < 0xF8 then 3
    else if b < 0xFC then 4
    else if b < 0xFE then 5
    else -1
  }

  // One more than the mask of the data bits of such a lead byte.
  function LeadSpan(k: nat): int
    requires k <= 5
  {
    [128, 32, 16, 8, 4, 2][k]
  }

  // How many of the first `need` bytes are continuation bytes before one is not.
  function ContinuationRun(s: seq<byte>, need: nat): (k: nat)
    ensures k <= need && k <= |s|
    ensures forall i | 0 <= i < k :: IsContinuation(s[i])
    ensures k < need && k < |s| ==> !IsContinuation(s[k])
  {
    if need == 0 || s == [] || !IsContinuation(s[0]) then 0
    else 1 + ContinuationRun(s[1..], need - 1)
  }

  // Appends six-bit digits to n, in a variable as wide as wchar_t.
  function Accumulate(w: Width, n: int, s: seq<byte>): int {
    if s == [] then n
    else (Accumulate(w, n, s[..|s| - 1]) * 64 + s[|s| - 1] % 64) % Limit(w)
  }

  datatype Decoded = Decoded(unit: int, used: nat)

  // The unit at the front of s and the bytes it takes.
  function DecodeOne(w: Width, s: seq<byte>): (r: Decoded)
    requires s != []
    ensures 1 <= r.used <= |s|
    ensures 0 <= r.unit < Limit(w)
  {
    var k := LeadExtra(s[0]);
    if k < 0 || k > |s| then Decoded(REPLACEMENT_CHAR, 1)
    else
      var t := s[1..];
      var run := ContinuationRun(t, k);
      if run == k then
        AccumulateRange(w, s[0] % LeadSpan(k), t[..k]);
        Decoded(if w.Narrow? && k > 2 then REPLACEMENT_CHAR else Accumulate(w, s[0] % LeadSpan(k), t[..k]), k + 1)
      else if run < |t| && t[run] >= 0xFE then Decoded(REPLACEMENT_CHAR, run + 2)
      else Decoded(REPLACEMENT_CHAR, run + 1)
  }

  function Decode(w: Width, s: seq<byte>): (r: seq<int>)
    ensures IsWideString(w, r)
    ensures |r| <= |s|
  {
    if s == [] then []
    else
      var d := DecodeOne(w, s);
      [d.unit] + Decode(w, s[d.used..])
  }

  lemma AccumulateRange(w: Width, n: int, s: seq<byte>)
    requires 0 <= n < 256
    ensures 0 <= Accumulate(w, n, s) < Limit(w)
  {
  }

  // ---------------------------------------------------------------- what a unit is

  // All of s[from..to] are continuation bytes.
  predicate AllContinue(s: seq<byte>, from: nat, to: nat) {
    from <= to <= |s| && forall i | from <= i < to :: 0x80 <= s[i] <= 0xBF
  }

  // b begins a sequence with k continuation bytes: table of section 2 of RFC 2279.
  predicate Begins(b: byte, k: nat) {
    match k
    case 0 => b <= 0x7F
    case 1 => 0xC0 <= b <= 0xDF
    case 2 => 0xE0 <= b <= 0xEF
    case 3 => 0xF0 <= b <= 0xF7
    case 4 => 0xF8 <= b <= 0xFB
    case 5 => 0xFC <= b <= 0xFD
    case _ => false
  }

  // The data bits of a byte with these marker bits.
  function Bits(b: byte, mark: int): int {
    b - mark
  }

  // The number a complete sequence of k continuation bytes carries.
  function Carried(s: seq<byte>, k: nat): int
    requires k <= 5 && |s| > k
  {
    match k
    case 0 => s[0]
    case 1 => Bits(s[0], 0xC0) * 0x40 + Bits(s[1], 0x80)
    case 2 => Bits(s[0], 0xE0) * 0x1000 + Bits(s[1], 0x80) * 0x40 + Bits(s[2], 0x80)
    case 3 =>
      Bits(s[0], 0xF0) * 0x4_0000 + Bits(s[1], 0x80) * 0x1000 + Bits(s[2], 0x80) * 0x40 + Bits(s[3], 0x80)
    case 4 =>
      Bits(s[0], 0xF8) * 0x100_0000 + Bits(s[1], 0x80) * 0x4_0000 + Bits(s[2], 0x80) * 0x1000 +
      Bits(s[3], 0x80) * 0x40 + Bits(s[4], 0x80)
    case _ =>
      Bits(s[0], 0xFC) * 0x4000_0000 + Bits(s[1], 0x80) * 0x100_0000 + Bits(s[2], 0x80) * 0x4_0000 +
      Bits(s[3], 0x80) * 0x1000 + Bits(s[4], 0x80) * 0x40 + Bits(s[5], 0x80)
  }

  /** A complete sequence is its number, but for two-byte wchar_t FFFD when it has four bytes or more. */
  lemma Complete(w: Width, s: seq<byte>, k: nat)
    requires s != [] && Begins(s[0], k) && |s| > k && AllContinue(s, 1, k + 1)
    ensures DecodeOne(w, s) == Decoded(if w.Narrow? && k >= 3 then 0xFFFD else Carried(s, k), k + 1)
  {
    var t := s[1..];
    assert forall i | 0 <= i < k :: t[i] == s[i + 1];
    ContinuationRunAll(t, k);
    if w.Wide? || k < 3 {
      Digested(w, s, k);
    }
  }

  lemma Digested(w: Width, s: seq<byte>, k: nat)
    requires s != [] && Begins(s[0], k) && |s| > k && AllContinue(s, 1, k + 1) && (w.Wide? || k < 3)
    ensures Accumulate(w, s[0] % LeadSpan(k), s[1..][..k]) == Carried(s, k)
  {
    LeadRoom(w, s[0], k);
    Appended(w, s[0] % LeadSpan(k), s, k);
    Positional(s, k);
  }

  // The digits of the first k continuation bytes after a lead that carries n.
  function Value(n: int, s: seq<byte>, k: nat): int
    requires |s| > k
  {
    if k == 0 then n else Value(n, s, k - 1) * 0x40 + Bits(s[k], 0x80)
  }

  lemma {:induction false} Appended(w: Width, n: nat, s: seq<byte>, k: nat)
    requires |s| > k && AllContinue(s, 1, k + 1) && Room(k, n + 1) <= Limit(w)
    ensures Accumulate(w, n, s[1..][..k]) == Value(n, s, k)
  {
    if k > 0 {
      var t := s[1..];
      Bounded(n, s, k - 1);
      Bounded(n, s, k);
      assert t[..k][..k - 1] == t[..k - 1] && t[..k][k - 1] == s[k];
      Appended(w, n, s, k - 1);
      SixBits(s[k]);
      hide Bits, Limit;
    }
  }

  lemma SixBits(b: byte)
    requires 0x80 <= b <= 0xBF
    ensures b % 64 == Bits(b, 0x80) && 0 <= Bits(b, 0x80) < 0x40
  {
  }

  lemma LeadRoom(w: Width, b: byte, k: nat)
    requires Begins(b, k) && (w.Wide? || k < 3)
    ensures Room(k, b % LeadSpan(k) + 1) <= Limit(w)
  {
    var n: int := b % LeadSpan(k);
    assert Room(0, n + 1) == n + 1;
    assert Room(1, n + 1) == 0x40 * Room(0, n + 1);
    assert Room(2, n + 1) == 0x40 * Room(1, n + 1);
    assert Room(3, n + 1) == 0x40 * Room(2, n + 1);
    assert Room(4, n + 1) == 0x40 * Room(3, n + 1);
    assert Room(5, n + 1) == 0x40 * Room(4, n + 1);
    assert n < LeadSpan(k);
  }

  lemma LeadBits(b: byte, k: nat) returns (n: int)
    requires Begins(b, k)
    ensures n == b % LeadSpan(k) == Bits(b, [0x00, 0xC0, 0xE0, 0xF0, 0xF8, 0xFC][k])
  {
    n := b % LeadSpan(k);
  }

  lemma Positional(s: seq<byte>, k: nat)
    requires s != [] && Begins(s[0], k) && |s| > k
    ensures Value(s[0] % LeadSpan(k), s, k) == Carried(s, k)
  {
    var n: int := LeadBits(s[0], k);
    hide Bits, LeadSpan, Begins, LeadMark;
    assert Value(n, s, 0) == n;
    assert k >= 1 ==> Value(n, s, 1) == Value(n, s, 0) * 0x40 + Bits(s[1], 0x80);
    assert k >= 2 ==> Value(n, s, 2) == Value(n, s, 1) * 0x40 + Bits(s[2], 0x80);
    assert k >= 3 ==> Value(n, s, 3) == Value(n, s, 2) * 0x40 + Bits(s[3], 0x80);
    assert k >= 4 ==> Value(n, s, 4) == Value(n, s, 3) * 0x40 + Bits(s[4], 0x80);
    assert k >= 5 ==> Value(n, s, 5) == Value(n, s, 4) * 0x40 + Bits(s[5], 0x80);
  }

  /** A sequence cut short after j continuation bytes is FFFD. It takes its bytes up to where it is cut, and the byte
      there if that is FE or FF; or its first byte only when the string could not hold the rest at all. */
  lemma CutShort(w: Width, s: seq<byte>, k: nat, j: nat)
    requires s != [] && Begins(s[0], k) && j < k && AllContinue(s, 1, j + 1)
    requires |s| > j + 1 ==> !(0x80 <= s[j + 1] <= 0xBF)
    ensures DecodeOne(w, s) == Decoded(0xFFFD,
              if k > |s| then 1 else if |s| > j + 1 && s[j + 1] >= 0xFE then j + 2 else j + 1)
  {
    var t := s[1..];
    assert forall i | 0 <= i < j :: t[i] == s[i + 1];
    RunStops(t, k, j);
  }

  /** A byte that begins nothing, FE, FF or a stray continuation byte, is FFFD. */
  lemma BeginsNothing(w: Width, s: seq<byte>)
    requires s != [] && (0x80 <= s[0] <= 0xBF || s[0] >= 0xFE)
    ensures DecodeOne(w, s) == Decoded(0xFFFD, 1)
  {
  }

  /** So the unit at the front is the number of a complete sequence, of at most three bytes for two-byte wchar_t and
      six for four-byte, or it is FFFD. */
  lemma UnitOrReplaced(w: Width, s: seq<byte>)
    requires s != []
    ensures DecodeOne(w, s).unit == 0xFFFD || exists k ::
              0 <= k <= (if w.Narrow? then 2 else 5) && Begins(s[0], k) && |s| > k && AllContinue(s, 1, k + 1) &&
              DecodeOne(w, s) == Decoded(Carried(s, k), k + 1)
  {
    var k := LeadExtra(s[0]);
    if k < 0 {
      BeginsNothing(w, s);
    } else {
      assert Begins(s[0], k);
      var run := ContinuationRun(s[1..], k);
      assert forall i | 1 <= i < run + 1 :: s[i] == s[1..][i - 1];
      if run == k {
        Complete(w, s, k);
      } else {
        assert |s| > run + 1 ==> s[run + 1] == s[1..][run];
        CutShort(w, s, k, run);
      }
    }
  }

  // ---------------------------------------------------------------- round trip

  /** Six-bit digits appended to the quotient rebuild the number. */
  lemma {:induction false} AccumulateDigits(w: Width, c: nat, k: nat)
    requires c < Limit(w)
    ensures Accumulate(w, Shift(c, k), Digits(c, k)) == c
  {
    if k > 0 {
      var d := Digits(c, k);
      assert d[..k - 1] == Digits(c / 64, k - 1);
      AccumulateDigits(w, c / 64, k - 1);
      LastDigit(w, c);
    }
  }

  lemma LastDigit(w: Width, c: nat)
    requires c < Limit(w)
    ensures (c / 64 * 64 + (0x80 + c % 64) % 64) % Limit(w) == c
  {
    assert (0x80 + c % 64) % 64 == c % 64;
  }

  lemma ContinuationRunAll(s: seq<byte>, need: nat)
    requires need <= |s| && forall i | 0 <= i < need :: IsContinuation(s[i])
    ensures ContinuationRun(s, need) == need
  {
  }

  /** One encoded unit, whatever follows it, decodes to the sanitised unit and nothing more is consumed. */
  lemma DecodeEncodedChar(w: Width, c: nat, rest: seq<byte>)
    requires c < Limit(w)
    ensures DecodeOne(w, EncodeChar(c) + rest) == Decoded(Sanitize(c), |EncodeChar(c)|)
  {
    var x := Sanitize(c);
    var k := Extra(x);
    var s := EncodeChar(c) + rest;
    LeadFits(x);
    DigitsRun(s, x, k);
    AccumulateDigits(w, x, k);
  }

  lemma DigitsRun(s: seq<byte>, x: nat, k: nat)
    requires |s| > k && s[1..k + 1] == Digits(x, k)
    ensures ContinuationRun(s[1..], k) == k && s[1..][..k] == Digits(x, k)
  {
    assert s[1..][..k] == s[1..k + 1];
    assert forall i | 0 <= i < k :: s[1..][i] == Digits(x, k)[i];
    ContinuationRunAll(s[1..], k);
  }

  /** decodeUTF8(encodeUTF8(w)) is w with the values that have no encoding replaced by U+FFFD. */
  lemma {:induction false} RoundTrip(w: Width, s: seq<int>)
    requires IsWideString(w, s)
    ensures Decode(w, Encode(s)) == SanitizeAll(s)
  {
    if s != [] {
      DecodeEncodedChar(w, s[0], Encode(s[1..]));
      assert Encode(s)[|EncodeChar(s[0])|..] == Encode(s[1..]);
      RoundTrip(w, s[1..]);
      assert SanitizeAll(s) == [Sanitize(s[0])] + SanitizeAll(s[1..]);
      hide EncodeChar, DecodeOne, Sanitize;
    }
  }

  // Not a surrogate, neither FFFE nor FFFF, and of at most 31 bits.
  predicate Encodable(c: int) {
    c < 0xD800 || 0xE000 <= c <= 0xFFFD || 0x1_0000 <= c < 0x8000_0000
  }

  /** What comes back is the string with FFFD for every unit that is not encodable: the string itself exactly when
      all are. */
  lemma {:induction false} RoundTripExactly(w: Width, s: seq<int>)
    requires IsWideString(w, s)
    ensures |Decode(w, Encode(s))| == |s|
    ensures forall i | 0 <= i < |s| :: Decode(w, Encode(s))[i] == if Encodable(s[i]) then s[i] else 0xFFFD
    ensures Decode(w, Encode(s)) == s <==> forall i | 0 <= i < |s| :: Encodable(s[i])
  {
    RoundTrip(w, s);
    if i :| 0 <= i < |s| && !Encodable(s[i]) {
      assert SanitizeAll(s)[i] != s[i];
    }
  }

  /** A unit is encoded as a complete sequence carrying it. */
  lemma EncodedForm(c: nat)
    requires Encodable(c)
    ensures var e := EncodeChar(c); var k := |e| - 1;
            k <= 5 && Begins(e[0], k) && AllContinue(e, 1, k + 1) && Carried(e, k) == c
  {
    var e := EncodeChar(c);
    LeadFits(c);
    DecodeEncodedChar(Wide, c, []);
    assert e + [] == e;
    hide EncodeChar, Shift, Digits, LeadMark;
    Complete(Wide, e, Extra(c));
    hide Carried, DecodeOne;
  }

  /** And any other complete sequence carrying it is longer: section 2 of RFC 2279 knows one encoding of a character. */
  lemma ShortestForm(c: nat, s: seq<byte>, k: nat)
    requires Encodable(c) && |s| == k + 1 && Begins(s[0], k) && AllContinue(s, 1, k + 1) && Carried(s, k) == c
    ensures EncodeChar(c) == s || |EncodeChar(c)| < |s|
  {
    var n := LeadBits(s[0], k);
    Positional(s, k);
    Places(n, s, k);
    FitsIn(c, n, s, k);
    if Extra(c) == k {
      assert s == [s[0]] + s[1..k + 1];
    }
  }

  lemma {:induction false} Places(n: nat, s: seq<byte>, k: nat)
    requires |s| > k && AllContinue(s, 1, k + 1)
    ensures Value(n, s, k) >= 0 && Shift(Value(n, s, k), k) == n && Digits(Value(n, s, k), k) == s[1..k + 1]
  {
    if k > 0 {
      Places(n, s, k - 1);
      SixBits(s[k]);
      hide Bits;
      assert Value(n, s, k) / 64 == Value(n, s, k - 1);
      assert s[1..k] + [s[k]] == s[1..k + 1];
    }
  }

  lemma FitsIn(c: nat, n: nat, s: seq<byte>, k: nat)
    requires k <= 5 && |s| > k && AllContinue(s, 1, k + 1) && n < LeadSpan(k) && c == Value(n, s, k)
    ensures Extra(c) <= k
  {
    Bounded(n, s, k);
    assert Room(1, n + 1) == 64 * Room(0, n + 1);
    assert Room(2, n + 1) == 64 * Room(1, n + 1);
    assert Room(3, n + 1) == 64 * Room(2, n + 1);
    assert Room(4, n + 1) == 64 * Room(3, n + 1);
  }

  lemma {:induction false} Bounded(n: nat, s: seq<byte>, k: nat)
    requires |s| > k && AllContinue(s, 1, k + 1)
    ensures 0 <= Value(n, s, k) < Room(k, n + 1)
  {
    if k > 0 {
      Bounded(n, s, k - 1);
      SixBits(s[k]);
      hide Bits;
    }
  }

  lemma {:induction false} EncodeSanitized(s: seq<int>)
    requires forall i | 0 <= i < |s| :: 0 <= s[i]
    ensures Encode(SanitizeAll(s)) == Encode(s)
  {
    if s != [] {
      assert SanitizeAll(s)[1..] == SanitizeAll(s[1..]);
      EncodeSanitized(s[1..]);
    }
  }

  /** Decoding arbitrary bytes and encoding again is a normal form: doing it twice changes nothing more. */
  lemma {:induction false} NormalizationIdempotent(w: Width, s: seq<byte>)
    ensures Encode(Decode(w, Encode(Decode(w, s)))) == Encode(Decode(w, s))
  {
    RoundTrip(w, Decode(w, s));
    EncodeSanitized(Decode(w, s));
  }

  // ---------------------------------------------------------------- self-synchronisation

  lemma {:induction false} FirstByte(s: seq<int>)
    requires s != [] && forall i | 0 <= i < |s| :: 0 <= s[i]
    ensures Encode(s) != [] && !IsContinuation(Encode(s)[0]) && Encode(s)[0] < 0xFE
  {
    LeadFits(Sanitize(s[0]));
    assert Encode(s)[0] == EncodeChar(s[0])[0];
  }

  lemma BoundaryAt(s: seq<byte>, e: seq<byte>)
    requires s != [] && e != []
    ensures (s + e)[1..][|s| - 1] == e[0]
  {
  }

  /** A unit begun before a boundary byte never reaches past it. */
  lemma StopsAtBoundary(w: Width, s: seq<byte>, e: seq<byte>)
    requires s != [] && e != [] && !IsContinuation(e[0]) && e[0] < 0xFE
    ensures DecodeOne(w, s + e).used <= |s|
  {
    var t := s + e;
    var k := LeadExtra(t[0]);
    if 0 <= k <= |t| {
      var run := ContinuationRun(t[1..], k);
      if run >= |s| {
        BoundaryAt(s, e);
        assert false;
      }
      if run + 1 == |s| {
        assert t[run + 1] == e[0];
      }
    }
  }

  /** Whatever bytes stand in front, a well-formed text after them is decoded completely,
      and the garbage costs at most one unit a byte. */
  lemma {:induction false} SelfSynchronising(w: Width, s: seq<byte>, t: seq<int>)
    requires IsWideString(w, t)
    ensures var r := Decode(w, s + Encode(t));
            |t| <= |r| <= |s| + |t| && r[|r| - |t|..] == SanitizeAll(t)
    decreases |s|
  {
    var e := Encode(t);
    if s == [] {
      assert s + e == e;
      RoundTrip(w, t);
    } else if t == [] {
      assert s + e == s;
    } else {
      FirstByte(t);
      StopsAtBoundary(w, s, e);
      DecodeStep(w, s, e);
      var k := DecodeOne(w, s + e).used;
      SelfSynchronising(w, s[k..], t);
    }
  }

  lemma DecodeStep(w: Width, s: seq<byte>, e: seq<byte>)
    requires s != [] && DecodeOne(w, s + e).used <= |s|
    ensures var d := DecodeOne(w, s + e); Decode(w, s + e) == [d.unit] + Decode(w, s[d.used..] + e)
  {
    var k := DecodeOne(w, s + e).used;
    assert (s + e)[k..] == s[k..] + e;
  }

  // ---------------------------------------------------------------- order

  // Lexicographic order, a proper prefix coming first.
  predicate LexLess(a: seq<int>, b: seq<int>) {
    b != [] && (a == [] || a[0] < b[0] || (a[0] == b[0] && LexLess(a[1..], b[1..])))
  }

  // Lexicographic order decided at a position both have.
  predicate Before(a: seq<int>, b: seq<int>) {
    a != [] && b != [] && (a[0] < b[0] || (a[0] == b[0] && Before(a[1..], b[1..])))
  }

  lemma {:induction false} BeforeDecides(a: seq<int>, b: seq<int>, x: seq<int>, y: seq<int>)
    requires Before(a, b)
    ensures Before(a + x, b + y) && LexLess(a + x, b + y) && !LexLess(b + y, a + x)
  {
    if a[0] == b[0] {
      assert (a + x)[1..] == a[1..] + x && (b + y)[1..] == b[1..] + y;
      BeforeDecides(a[1..], b[1..], x, y);
    }
  }

  lemma {:induction false} CommonPrefix(p: seq<int>, x: seq<int>, y: seq<int>)
    ensures LexLess(p + x, p + y) <==> LexLess(x, y)
    ensures Before(p + x, p + y) <==> Before(x, y)
  {
    if p == [] {
      assert p + x == x && p + y == y;
    } else {
      assert (p + x)[1..] == p[1..] + x && (p + y)[1..] == p[1..] + y;
      CommonPrefix(p[1..], x, y);
    }
  }

  lemma {:induction false} DigitsOrder(c: nat, d: nat, k: nat)
    requires c < d && Shift(c, k) == Shift(d, k)
    ensures Before(Digits(c, k), Digits(d, k))
  {
    if k > 0 {
      if c / 64 < d / 64 {
        DigitsOrder(c / 64, d / 64, k - 1);
        BeforeDecides(Digits(c / 64, k - 1), Digits(d / 64, k - 1), [0x80 + c % 64], [0x80 + d % 64]);
      } else {
        CommonPrefix(Digits(c / 64, k - 1), [0x80 + c % 64], [0x80 + d % 64]);
      }
    }
  }

  lemma {:induction false} ShiftMonotone(c: nat, d: nat, k: nat)
    requires c <= d
    ensures Shift(c, k) <= Shift(d, k)
  {
    if k > 0 {
      ShiftMonotone(c / 64, d / 64, k - 1);
    }
  }

  lemma CharOrder(c: nat, d: nat)
    requires Sanitize(c) < Sanitize(d)
    ensures Before(EncodeChar(c), EncodeChar(d))
  {
    var x, y := Sanitize(c), Sanitize(d);
    var k := Extra(x);
    LeadFits(x);
    LeadFits(y);
    if k == Extra(y) {
      ShiftMonotone(x, y, k);
      if Shift(x, k) == Shift(y, k) {
        DigitsOrder(x, y, k);
        CommonPrefix([LeadMark(k) + Shift(x, k)], Digits(x, k), Digits(y, k));
      }
    }
  }

  /** Sorting encoded strings byte by byte sorts the texts: section 1 of RFC 2279. */
  lemma {:induction false} OrderPreserved(a: seq<int>, b: seq<int>)
    requires forall i | 0 <= i < |a| :: 0 <= a[i]
    requires forall i | 0 <= i < |b| :: 0 <= b[i]
    ensures LexLess(Encode(a), Encode(b)) <==> LexLess(SanitizeAll(a), SanitizeAll(b))
  {
    if a != [] && b != [] {
      assert SanitizeAll(a)[1..] == SanitizeAll(a[1..]) && SanitizeAll(b)[1..] == SanitizeAll(b[1..]);
      var p, q := EncodeChar(a[0]), EncodeChar(b[0]);
      if Sanitize(a[0]) == Sanitize(b[0]) {
        CommonPrefix(p, Encode(a[1..]), Encode(b[1..]));
        OrderPreserved(a[1..], b[1..]);
      } else if Sanitize(a[0]) < Sanitize(b[0]) {
        CharOrder(a[0], b[0]);
        BeforeDecides(p, q, Encode(a[1..]), Encode(b[1..]));
      } else {
        CharOrder(b[0], a[0]);
        BeforeDecides(q, p, Encode(b[1..]), Encode(a[1..]));
      }
    }
  }

  /** Two texts share an encoding exactly when they agree after sanitising. */
  lemma Injective(w: Width, a: seq<int>, b: seq<int>)
    requires IsWideString(w, a) && IsWideString(w, b)
    ensures Encode(a) == Encode(b) <==> SanitizeAll(a) == SanitizeAll(b)
  {
    RoundTrip(w, a);
    RoundTrip(w, b);
    EncodeSanitized(a);
    EncodeSanitized(b);
  }

  /** At most three bytes a unit for two-byte wchar_t, six for four-byte. */
  lemma {:induction false} EncodedLength(w: Width, s: seq<int>)
    requires IsWideString(w, s)
    ensures |s| <= |Encode(s)| <= (if w.Narrow? then 3 else 6) * |s|
  {
    if s != [] {
      EncodedLength(w, s[1..]);
    }
  }

  // ---------------------------------------------------------------- the program's loops

  /** Appends the encoding of one character, by the six explicit forms. */
  method EncodeUTF8Char(w: Width, str: seq<byte>, character: int) returns (r: seq<byte>)
    requires 0 <= character < Limit(w)
    ensures r == str + EncodeChar(character)
  {
    var c := character;
    r := str;
    if (c >= 0xD800 && c <= 0xDFFF) || c == 0xFFFF || c == 0xFFFE || c >= 0x8000_0000 {
      c := 0xFFFD;
    }
    assert EncodeChar(character) == EncodeChar(c);
    if c < 0x80 {
      assert EncodeChar(c) == [c];
      r := r + [c];
    } else if c < 0x800 {
      Form1(c);
      hide EncodeChar;
      r := r + [0xC0 + c / 0x40];
      r := r + [0x80 + c % 0x40];
    } else if w.Narrow? || c < 0x1_0000 {
      Form2(c);
      hide EncodeChar;
      r := r + [0xE0 + c / 0x1000];
      r := r + [0x80 + c / 0x40 % 0x40];
      r := r + [0x80 + c % 0x40];
    } else {
      hide EncodeChar;
      r := EncodeWideForm(r, c);
    }
  }

  /** The forms only a four-byte wchar_t reaches. */
  method EncodeWideForm(str: seq<byte>, c: nat) returns (r: seq<byte>)
    requires 0x1_0000 <= c < 0x8000_0000
    ensures r == str + EncodeChar(c)
  {
    hide EncodeChar;
    r := str;
    if c < 0x20_0000 {
      Form3(c);
      r := r + [0xF0 + c / 0x4_0000];
      r := r + [0x80 + c / 0x1000 % 0x40];
      r := r + [0x80 + c / 0x40 % 0x40];
      r := r + [0x80 + c % 0x40];
    } else if c < 0x400_0000 {
      Form4(c);
      r := r + [0xF8 + c / 0x100_0000];
      r := r + [0x80 + c / 0x4_0000 % 0x40];
      r := r + [0x80 + c / 0x1000 % 0x40];
      r := r + [0x80 + c / 0x40 % 0x40];
      r := r + [0x80 + c % 0x40];
    } else {
      Form5(c);
      r := r + [0xFC + c / 0x4000_0000];
      r := r + [0x80 + c / 0x100_0000 % 0x40];
      r := r + [0x80 + c / 0x4_0000 % 0x40];
      r := r + [0x80 + c / 0x1000 % 0x40];
      r := r + [0x80 + c / 0x40 % 0x40];
      r := r + [0x80 + c % 0x40];
    }
  }

  // The bytes of each form, for the characters that have it.
  lemma Form1(c: nat)
    requires 0x80 <= c < 0x800
    ensures EncodeChar(c) == [0xC0 + c / 0x40, 0x80 + c % 0x40]
  {
    Shifts(c);
    Digits1(c);
  }

  lemma Form2(c: nat)
    requires 0x800 <= c < 0x1_0000 && !Unencodable(c)
    ensures EncodeChar(c) == [0xE0 + c / 0x1000, 0x80 + c / 0x40 % 0x40, 0x80 + c % 0x40]
  {
    Shifts(c);
    Digits2(c);
  }

  lemma Form3(c: nat)
    requires 0x1_0000 <= c < 0x20_0000
    ensures EncodeChar(c)
         == [0xF0 + c / 0x4_0000, 0x80 + c / 0x1000 % 0x40, 0x80 + c / 0x40 % 0x40, 0x80 + c % 0x40]
  {
    Shifts(c);
    Digits3(c);
  }

  lemma Form4(c: nat)
    requires 0x20_0000 <= c < 0x400_0000
    ensures EncodeChar(c)
         == [0xF8 + c / 0x100_0000, 0x80 + c / 0x4_0000 % 0x40, 0x80 + c / 0x1000 % 0x40, 0x80 + c / 0x40 % 0x40,
             0x80 + c % 0x40]
  {
    Shifts(c);
    Digits4(c);
  }

  lemma Form5(c: nat)
    requires 0x400_0000 <= c < 0x8000_0000
    ensures EncodeChar(c)
         == [0xFC + c / 0x4000_0000, 0x80 + c / 0x100_0000 % 0x40, 0x80 + c / 0x4_0000 % 0x40,
             0x80 + c / 0x1000 % 0x40, 0x80 + c / 0x40 % 0x40, 0x80 + c % 0x40]
  {
    Shifts(c);
    Digits5(c);
  }

  lemma Digits1(c: nat)
    ensures Digits(c, 1) == [0x80 + c % 0x40]
  {
    Shifts(c);
    DigitsFromFront(c, 1);
  }

  lemma Digits2(c: nat)
    ensures Digits(c, 2) == [0x80 + c / 0x40 % 0x40, 0x80 + c % 0x40]
  {
    Digits1(c);
    Shifts(c);
    DigitsFromFront(c, 2);
  }

  lemma Digits3(c: nat)
    ensures Digits(c, 3) == [0x80 + c / 0x1000 % 0x40, 0x80 + c / 0x40 % 0x40, 0x80 + c % 0x40]
  {
    Digits2(c);
    Shifts(c);
    DigitsFromFront(c, 3);
  }

  lemma Digits4(c: nat)
    ensures Digits(c, 4)
         == [0x80 + c / 0x4_0000 % 0x40, 0x80 + c / 0x1000 % 0x40, 0x80 + c / 0x40 % 0x40, 0x80 + c % 0x40]
  {
    Digits3(c);
    Shifts(c);
    DigitsFromFront(c, 4);
  }

  lemma Digits5(c: nat)
    ensures Digits(c, 5)
         == [0x80 + c / 0x100_0000 % 0x40, 0x80 + c / 0x4_0000 % 0x40, 0x80 + c / 0x1000 % 0x40, 0x80 + c / 0x40 % 0x40,
             0x80 + c % 0x40]
  {
    Digits4(c);
    Shifts(c);
    DigitsFromFront(c, 5);
  }

  lemma {:induction false} DigitsFromFront(c: nat, k: nat)
    requires k > 0
    ensures Digits(c, k) == [0x80 + Shift(c, k - 1) % 0x40] + Digits(c, k - 1)
  {
    if k > 1 {
      DigitsFromFront(c / 64, k - 1);
    }
  }

  method EncodeUTF8(w: Width, source: seq<int>) returns (result: seq<byte>)
    requires IsWideString(w, source)
    ensures result == Encode(source)
  {
    result := [];
    for it := 0 to |source|
      invariant result == Encode(source[..it])
    {
      result := EncodeUTF8Char(w, result, source[it]);
      EncodeAppend(source[..it], source[it]);
      assert source[..it] + [source[it]] == source[..it + 1];
    }
    assert source[..|source|] == source;
  }

  lemma {:induction false} EncodeAppend(s: seq<int>, c: int)
    requires 0 <= c && forall i | 0 <= i < |s| :: 0 <= s[i]
    ensures Encode(s + [c]) == Encode(s) + EncodeChar(c)
  {
    if s == [] {
      assert s + [c] == [c];
    } else {
      assert (s + [c])[1..] == s[1..] + [c];
      EncodeAppend(s[1..], c);
    }
  }

  // Reading a std::string at its length yields the terminator; beyond it there is nothing to read.
  function At(source: seq<byte>, i: nat): byte
    requires i <= |source|
  {
    if i == |source| then 0 else source[i]
  }

  /** The bit-counting loop: the sequence length announced by a lead byte and the mask of its data bits. */
  method LeadByte(c: byte) returns (extraBytesForChar: int, dataMask: int)
    requires c < 0xFE && !IsContinuation(c)
    ensures extraBytesForChar == (if LeadExtra(c) == 0 then -1 else LeadExtra(c))
    ensures dataMask + 1 == LeadSpan(LeadExtra(c))
  {
    var d: byte := c;
    dataMask := 0x7F;
    extraBytesForChar := -1;
    while d >= 0x80
      invariant -1 <= extraBytesForChar <= 5
      invariant extraBytesForChar == -1 ==> d == c && dataMask == 0x7F
      invariant extraBytesForChar == 0 ==> c >= 0xC0 && d == 2 * c - 0x100 && dataMask == 0x3F
      invariant extraBytesForChar == 1 ==> c >= 0xC0 && d == 4 * c - 0x300 && dataMask == 0x1F
      invariant extraBytesForChar == 2 ==> c >= 0xE0 && d == 8 * c - 0x700 && dataMask == 0x0F
      invariant extraBytesForChar == 3 ==> c >= 0xF0 && d == 16 * c - 0xF00 && dataMask == 0x07
      invariant extraBytesForChar == 4 ==> c >= 0xF8 && d == 32 * c - 0x1F00 && dataMask == 0x03
      invariant extraBytesForChar == 5 ==> c >= 0xFC && d == 64 * c - 0x3F00 && dataMask == 0x01
      decreases 5 - extraBytesForChar
    {
      dataMask := dataMask / 2;
      extraBytesForChar := extraBytesForChar + 1;
      d := d * 2 % 256;
    }
  }

  /** The inner loop: reads the announced continuation bytes after position `start`, backing up over a byte
      that may start another character. */
  method ContinuationBytes(w: Width, source: seq<byte>, start: nat, extraBytesForChar: nat, n0: int)
    returns (n: int, i: nat)
    requires start < |source| && extraBytesForChar <= |source| - start
    ensures var t := source[start + 1..]; var run := ContinuationRun(t, extraBytesForChar);
            if run == extraBytesForChar then
              n == Accumulate(w, n0, t[..run]) && i == start + run
            else
              n == REPLACEMENT_CHAR && i == start + run + (if run < |t| && t[run] >= 0xFE then 1 else 0)
  {
    ghost var t := source[start + 1..];
    i, n := start, n0;
    var j := 0;
    while j < extraBytesForChar
      invariant 0 <= j <= extraBytesForChar && i == start + j && j <= |t|
      invariant forall m | 0 <= m < j :: IsContinuation(t[m])
      invariant n == Accumulate(w, n0, t[..j])
    {
      i := i + 1;
      var c := At(source, i);
      if c == 0xFF || c == 0xFE {
        RunStops(t, extraBytesForChar, j);
        n := REPLACEMENT_CHAR;
        return;
      }
      if c / 64 == 2 {
        n := (n * 64 + c % 64) % Limit(w);
        assert t[..j + 1][..j] == t[..j];
      } else {
        i := i - 1;
        RunStops(t, extraBytesForChar, j);
        n := REPLACEMENT_CHAR;
        return;
      }
      j := j + 1;
    }
    ContinuationRunAll(t, extraBytesForChar);
  }

  // `result` holds the units decoded from the bytes before position i.
  ghost predicate DecodedUpTo(w: Width, source: seq<byte>, i: nat, result: seq<int>) {
    i <= |source| && result + Decode(w, source[i..]) == Decode(w, source)
  }

  lemma DecodedOneMore(w: Width, source: seq<byte>, i: nat, result: seq<int>)
    requires DecodedUpTo(w, source, i, result) && i < |source|
    ensures var d := DecodeOne(w, source[i..]); DecodedUpTo(w, source, i + d.used, result + [d.unit])
  {
    var d := DecodeOne(w, source[i..]);
    var rest := Decode(w, source[i + d.used..]);
    assert source[i..][d.used..] == source[i + d.used..];
    assert result + ([d.unit] + rest) == (result + [d.unit]) + rest;
  }

  lemma DecodedAtStart(w: Width, source: seq<byte>)
    ensures DecodedUpTo(w, source, 0, [])
  {
    assert source[0..] == source;
  }

  lemma DecodedAtEnd(w: Width, source: seq<byte>, i: nat, result: seq<int>)
    requires DecodedUpTo(w, source, i, result) && i == |source|
    ensures result == Decode(w, source)
  {
    assert source[i..] == [];
  }

  /** The decoder. Its index only backs up over a byte read in the same round, and no read passes the terminator. */
  method DecodeUTF8(w: Width, source: seq<byte>) returns (result: seq<int>)
    ensures result == Decode(w, source)
  {
    hide DecodeOne, Decode;
    result := [];
    var i := 0;
    DecodedAtStart(w, source);
    while i < |source|
      invariant DecodedUpTo(w, source, i, result)
    {
      DecodedOneMore(w, source, i, result);
      var n;
      n, i := DecodeAt(w, source, i);
      result := result + [n];
      i := i + 1;
    }
    DecodedAtEnd(w, source, i, result);
  }

  /** One round of the decoder: the unit at position `start` and the position of the last byte it takes. */
  method DecodeAt(w: Width, source: seq<byte>, start: nat) returns (n: int, i: nat)
    requires start < |source|
    ensures start <= i < |source|
    ensures Decoded(n, i + 1 - start) == DecodeOne(w, source[start..])
  {
    i := start;
    var c := source[i];
    assert source[start..][1..] == source[start + 1..];
    if c != 0xFF && c != 0xFE {
      var remainingBytes := |source| - i;
      var extraBytesForChar := -1;
      if c / 64 != 2 {
        var dataMask;
        extraBytesForChar, dataMask := LeadByte(c);
        n := c % (dataMask + 1);
        if extraBytesForChar > remainingBytes {
          n := REPLACEMENT_CHAR;
        } else if extraBytesForChar > 0 {
          n, i := ContinuationBytes(w, source, i, extraBytesForChar, n);
        }
      } else {
        n := REPLACEMENT_CHAR;
      }
      if w.Narrow? && extraBytesForChar > 2 {
        n := REPLACEMENT_CHAR;
      } else if w.Wide? && extraBytesForChar > 5 {
        n := REPLACEMENT_CHAR;
      }
    } else {
      n := REPLACEMENT_CHAR;
    }
  }

  lemma {:induction false} RunStops(s: seq<byte>, need: nat, j: nat)
    requires j < need && j <= |s| && forall t | 0 <= t < j :: IsContinuation(s[t])
    requires j < |s| ==> !IsContinuation(s[j])
    ensures ContinuationRun(s, need) == j
  {
    if j > 0 {
      RunStops(s[1..], need - 1, j - 1);
    }
  }
}

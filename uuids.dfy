/**
 * 128-bit UUIDs as the connection manager builds them: a 16-bit assigned
 * number expanded against the Bluetooth Base UUID
 * 00000000-0000-1000-8000-00805F9B34FB (Bluetooth Core Specification,
 * Vol 3, Part B, section 2.5.1), by formatting it with `%04X` and parsing the
 * resulting text with `UUID.fromString`.
 */
module Uuids {
  import opened Wrappers

  /** A Java `int`. */
  type Int32 = x: int | -0x8000_0000 <= x < 0x8000_0000

  const TwoTo32: nat := 0x1_0000_0000
  const TwoTo96: nat := 0x1_0000_0000_0000_0000_0000_0000
  const TwoTo128: nat := 0x1_0000_0000_0000_0000_0000_0000_0000_0000

  /** A UUID is the 128-bit number its text denotes; `UUID.equals` compares these. */
  type Uuid = x: nat | x < 0x1_0000_0000_0000_0000_0000_0000_0000_0000

  const BluetoothBaseUuid: Uuid := 0x0000_0000_0000_1000_8000_0080_5F9B_34FB

  /** The text that `uuidFromShortUuid16` appends after the formatted number. */
  const BaseUuidTail: string := "-0000-1000-8000-00805F9B34FB"


  // ---------------------------------------------------------------------------
  // Hexadecimal digits

  predicate IsHexChar(c: char) {
    '0' <= c <= '9' || 'a' <= c <= 'f' || 'A' <= c <= 'F'
  }

  predicate IsUpperHexChar(c: char) {
    '0' <= c <= '9' || 'A' <= c <= 'F'
  }

  predicate IsHex(s: string) {
    forall i :: 0 <= i < |s| ==> IsHexChar(s[i])
  }

  /** The value of one hexadecimal digit, in either case. */
  function HexCharValue(c: char): (d: nat)
    requires IsHexChar(c)
    ensures d < 16
  {
    if '0' <= c <= '9' then c as int - '0' as int
    else if 'a' <= c <= 'f' then c as int - 'a' as int + 10
    else c as int - 'A' as int + 10
  }

  function Pow16(n: nat): (p: nat)
    ensures p >= 1
  {
    if n == 0 then 1 else 16 * Pow16(n - 1)
  }

  /** The number a string of hexadecimal digits denotes, most significant first. */
  function HexValue(s: string): (v: nat)
    requires IsHex(s)
    ensures v < Pow16(|s|)
  {
    if s == [] then 0 else HexValue(s[..|s| - 1]) * 16 + HexCharValue(s[|s| - 1])
  }

  /** The upper-case digit for a value below 16; it reads back as that value. */
  function UpperHexChar(d: nat): (c: char)
    requires d < 16
    ensures IsUpperHexChar(c) && IsHexChar(c) && HexCharValue(c) == d
  {
    if d < 10 then ('0' as int + d) as char else ('A' as int + d - 10) as char
  }

  /** Upper-case hexadecimal digits of `n`, without leading zeros (at least one digit). */
  function ToHex(n: nat): (s: string)
    ensures |s| >= 1
    ensures forall i :: 0 <= i < |s| ==> IsUpperHexChar(s[i])
  {
    if n < 16 then [UpperHexChar(n)] else ToHex(n / 16) + [UpperHexChar(n % 16)]
  }

  function Zeros(k: nat): (z: string)
    ensures |z| == k
    ensures forall i :: 0 <= i < k ==> z[i] == '0'
  {
    if k == 0 then [] else Zeros(k - 1) + "0"
  }

  /**
   * `String.format("%04X", n)` for a Java `int`: a negative value is printed
   * as its 32-bit two's-complement bit pattern, and the digits are padded with
   * zeros on the left to at least four characters.
   */
  function FormatHex04(n: Int32): (r: string)
    ensures |r| >= 4
    ensures forall i :: 0 <= i < |r| ==> IsUpperHexChar(r[i])
    ensures IsHex(r) && HexValue(r) == (if n < 0 then n + TwoTo32 else n)
  {
    var m := if n < 0 then n + TwoTo32 else n;
    var digits := ToHex(m);
    ToHexRoundTrip(m);
    if |digits| < 4 then
      PaddedHex(4 - |digits|, digits);
      Zeros(4 - |digits|) + digits
    else digits
  }

  /** Zeros on the left do not change the value of a hexadecimal text. */
  lemma PaddedHex(k: nat, digits: string)
    requires IsHex(digits)
    ensures IsHex(Zeros(k) + digits) && HexValue(Zeros(k) + digits) == HexValue(digits)
  {
    ZerosValue(k);
    HexValueAppend(Zeros(k), digits);
  }

  // ---------------------------------------------------------------------------
  // UUID text

  /** The 32 hexadecimal digits of a canonical UUID text, its four dashes removed. */
  function UuidDigits(s: string): string
    requires |s| == 36
  {
    s[..8] + s[9..13] + s[14..18] + s[19..23] + s[24..]
  }

  /** The canonical 8-4-4-4-12 form, digits in either case. */
  predicate IsCanonicalUuidText(s: string) {
    && |s| == 36
    && s[8] == '-' && s[13] == '-' && s[18] == '-' && s[23] == '-'
    && IsHex(UuidDigits(s))
  }

  /**
   * `UUID.fromString`: the canonical text denotes the 128-bit number of its
   * digits; any other text is rejected (`None` stands for the thrown
   * `IllegalArgumentException`).
   */
  function ParseUuid(s: string): (r: Option<Uuid>)
    ensures r.Some? <==> IsCanonicalUuidText(s)
  {
    if IsCanonicalUuidText(s) then
      var v := HexValue(UuidDigits(s));
      Pow16Is(32);
      Some(v)
    else
      None
  }

  /**
   * The text `uuidFromShortUuid16` hands to `UUID.fromString`: `0000`, the
   * printed number, and the Base UUID's tail; never shorter than 36 characters.
   */
  function ShortUuidText(uuid16: Int32): (t: string)
    ensures |t| >= 36
    ensures t[..4] == "0000" && t[|t| - |BaseUuidTail|..] == BaseUuidTail
  {
    "0000" + FormatHex04(uuid16) + BaseUuidTail
  }

  /**
   * `uuidFromShortUuid16`: `None` stands for the exception `UUID.fromString`
   * throws. Every 16-bit number yields `uuid16 * 2^96 + Base`; every other
   * `int` is rejected.
   */
  function UuidFromShortUuid16(uuid16: Int32): (r: Option<Uuid>)
    ensures 0 <= uuid16 < 0x1_0000 ==> r == Some(ExpandShortUuid(uuid16))
    ensures uuid16 < 0 || uuid16 >= 0x1_0000 ==> r == None
  {
    if 0 <= uuid16 < 0x1_0000 then
      ShortUuidTextExpands(uuid16);
      ParseUuid(ShortUuidText(uuid16))
    else
      ShortUuidTextRejected(uuid16);
      ParseUuid(ShortUuidText(uuid16))
  }

  /** The expansion the comment in the source states: `uuid16 * 2^96 + Base`. */
  function ExpandShortUuid(uuid16: nat): (u: Uuid)
    requires uuid16 < 0x1_0000
    ensures u % TwoTo96 == BluetoothBaseUuid && u / TwoTo96 == uuid16
  {
    uuid16 * TwoTo96 + BluetoothBaseUuid
  }

  // The UUIDs of the peripheral's services and characteristics.
  const ServiceTimeSync: Uuid := ExpandShortUuid(0x1805)
  const CharacteristicPhoneTime: Uuid := ExpandShortUuid(0x2A2B)
  const ServiceServoControl: Uuid := ExpandShortUuid(0x1815)
  const CharacteristicServoSignal: Uuid := ExpandShortUuid(0x2A56)

  /** The literal text of `CLIENT_CHARACTERISTIC_CONFIG_UUID`, in lower case. */
  const ClientCharacteristicConfigText: string := "00002902-0000-1000-8000-00805f9b34fb"

  // ---------------------------------------------------------------------------
  // Lemmas

  lemma {:induction false} Pow16Add(a: nat, b: nat)
    ensures Pow16(a + b) == Pow16(a) * Pow16(b)
  {
    if b > 0 {
      Pow16Add(a, b - 1);
    }
  }

  lemma Pow16Is(n: nat)
    ensures n == 4 ==> Pow16(n) == 0x1_0000
    ensures n == 24 ==> Pow16(n) == TwoTo96
    ensures n == 32 ==> Pow16(n) == TwoTo128
  {
    assert Pow16(4) == 0x1_0000;
    Pow16Add(4, 4);
    Pow16Add(8, 8);
    Pow16Add(16, 8);
    Pow16Add(16, 16);
  }

  lemma HexAppend(a: string, b: string)
    requires IsHex(a) && IsHex(b)
    ensures IsHex(a + b)
  {
    forall i | 0 <= i < |a + b| ensures IsHexChar((a + b)[i]) {
      if i >= |a| { assert (a + b)[i] == b[i - |a|]; }
    }
  }

  lemma ShiftStep(x: nat, p: nat, y: nat, d: nat)
    ensures (x * p + y) * 16 + d == x * (p * 16) + (y * 16 + d)
  {
  }

  lemma {:induction false} HexValueAppend(a: string, b: string)
    requires IsHex(a) && IsHex(b)
    ensures IsHex(a + b)
    ensures HexValue(a + b) == HexValue(a) * Pow16(|b|) + HexValue(b)
  {
    HexAppend(a, b);
    if b == [] {
      assert a + b == a;
    } else {
      var c := b[..|b| - 1];
      var d := HexCharValue(b[|b| - 1]);
      assert IsHex(c);
      assert (a + b)[..|a + b| - 1] == a + c;
      assert (a + b)[|a + b| - 1] == b[|b| - 1];
      HexValueAppend(a, c);
      assert HexValue(a + b) == HexValue(a + c) * 16 + d;
      assert HexValue(b) == HexValue(c) * 16 + d;
      assert Pow16(|b|) == Pow16(|c|) * 16;
      ShiftStep(HexValue(a), Pow16(|c|), HexValue(c), d);
    }
  }

  lemma {:induction false} ZerosValue(k: nat)
    ensures IsHex(Zeros(k)) && HexValue(Zeros(k)) == 0
  {
    if k > 0 {
      ZerosValue(k - 1);
      assert Zeros(k)[..k - 1] == Zeros(k - 1);
    }
  }

  /** The digits `ToHex` prints read back as the number printed. */
  lemma {:induction false} ToHexRoundTrip(n: nat)
    ensures IsHex(ToHex(n)) && HexValue(ToHex(n)) == n
  {
    var s := ToHex(n);
    assert IsHex(s) by {
      forall i | 0 <= i < |s| ensures IsHexChar(s[i]) {
        assert IsUpperHexChar(s[i]);
      }
    }
    if n >= 16 {
      ToHexRoundTrip(n / 16);
      assert s[..|s| - 1] == ToHex(n / 16);
      assert HexValue(s) == HexValue(ToHex(n / 16)) * 16 + HexCharValue(s[|s| - 1]);
      assert HexCharValue(s[|s| - 1]) == n % 16;
    } else {
      assert s[..0] == [];
    }
  }

  /** `ToHex` prints no more digits than the number needs. */
  lemma {:induction false} ToHexLength(n: nat, k: nat)
    requires n < Pow16(k)
    ensures |ToHex(n)| <= if k == 0 then 1 else k
  {
    if n >= 16 {
      ToHexLength(n / 16, k - 1);
    }
  }

  /** Every 16-bit number is printed by `%04X` as exactly four digits. */
  lemma FormatHex04Shape(n: Int32)
    requires 0 <= n < 0x1_0000
    ensures |FormatHex04(n)| == 4
  {
    Pow16Is(4);
    ToHexLength(n, 4);
  }

  /** A number of at least `16^k` prints as more than `k` digits. */
  lemma {:induction false} ToHexLong(n: nat, k: nat)
    requires n >= Pow16(k)
    ensures |ToHex(n)| > k
  {
    if k > 0 {
      ToHexLong(n / 16, k - 1);
    }
  }

  /** Four hexadecimal digits, written out. */
  lemma HexValue4(s: string)
    requires |s| == 4 && IsHex(s)
    ensures HexValue(s) ==
      ((HexCharValue(s[0]) * 16 + HexCharValue(s[1])) * 16 + HexCharValue(s[2])) * 16 + HexCharValue(s[3])
  {
    var s3, s2, s1 := s[..3], s[..2], s[..1];
    assert s3[..2] == s2 && s2[..1] == s1 && s1[..0] == [];
    assert HexValue(s1) == HexCharValue(s[0]);
    assert HexValue(s2) == HexValue(s1) * 16 + HexCharValue(s[1]);
    assert HexValue(s3) == HexValue(s2) * 16 + HexCharValue(s[2]);
  }

  /** Six groups of four digits denote the number with those groups as base-65536 digits. */
  lemma HexValue6x4(c0: string, c1: string, c2: string, c3: string, c4: string, c5: string)
    requires |c0| == |c1| == |c2| == |c3| == |c4| == |c5| == 4
    requires IsHex(c0) && IsHex(c1) && IsHex(c2) && IsHex(c3) && IsHex(c4) && IsHex(c5)
    ensures IsHex(c0 + c1 + c2 + c3 + c4 + c5)
    ensures HexValue(c0 + c1 + c2 + c3 + c4 + c5) ==
      ((((HexValue(c0) * 0x1_0000 + HexValue(c1)) * 0x1_0000 + HexValue(c2)) * 0x1_0000
        + HexValue(c3)) * 0x1_0000 + HexValue(c4)) * 0x1_0000 + HexValue(c5)
  {
    Pow16Is(4);
    HexValueAppend(c0, c1);
    HexValueAppend(c0 + c1, c2);
    HexValueAppend(c0 + c1 + c2, c3);
    HexValueAppend(c0 + c1 + c2 + c3, c4);
    HexValueAppend(c0 + c1 + c2 + c3 + c4, c5);
  }

  lemma BaseFromGroups(g0: nat, g1: nat, g2: nat, g3: nat, g4: nat, g5: nat)
    requires g0 == 0 && g1 == 0x1000 && g2 == 0x8000 && g3 == 0x0080 && g4 == 0x5F9B && g5 == 0x34FB
    ensures ((((g0 * 0x1_0000 + g1) * 0x1_0000 + g2) * 0x1_0000 + g3) * 0x1_0000 + g4) * 0x1_0000 + g5
      == BluetoothBaseUuid
  {
  }

  /** The values of the four-digit groups that make up the Base UUID's tail. */
  lemma GroupsOfUpperTail()
    ensures IsHex("1000") && HexValue("1000") == 0x1000
    ensures IsHex("8000") && HexValue("8000") == 0x8000
    ensures IsHex("0080") && HexValue("0080") == 0x0080
  {
    HexValue4("1000"); HexValue4("8000"); HexValue4("0080");
  }

  lemma GroupsOfNodeUpper()
    ensures IsHex("5F9B") && HexValue("5F9B") == 0x5F9B
    ensures IsHex("34FB") && HexValue("34FB") == 0x34FB
  {
    HexValue4("5F9B"); HexValue4("34FB");
  }

  lemma GroupsOfNodeLower()
    ensures IsHex("5f9b") && HexValue("5f9b") == 0x5F9B
    ensures IsHex("34fb") && HexValue("34fb") == 0x34FB
  {
    HexValue4("5f9b"); HexValue4("34fb");
  }

  /**
   * The 24 digits after the short number denote the Base UUID, whichever case
   * its last two groups (`5F9B`, `34FB`) are written in.
   */
  lemma BaseDigitsValue(g4: string, g5: string)
    requires (g4 == "5F9B" && g5 == "34FB") || (g4 == "5f9b" && g5 == "34fb")
    ensures IsHex("0000" + "1000" + "8000" + "0080" + g4 + g5)
    ensures HexValue("0000" + "1000" + "8000" + "0080" + g4 + g5) == BluetoothBaseUuid
  {
    ZerosValue(4);
    assert Zeros(4) == "0000";
    GroupsOfUpperTail();
    if g4 == "5F9B" {
      GroupsOfNodeUpper();
    } else {
      GroupsOfNodeLower();
    }
    HexValue6x4("0000", "1000", "8000", "0080", g4, g5);
    BaseFromGroups(HexValue("0000"), HexValue("1000"), HexValue("8000"), HexValue("0080"), HexValue(g4), HexValue(g5));
  }

  /** Four zero digits, four digits `h`, then 24 digits: `h` lands at bits 96 to 111. */
  lemma PrefixedValue(h: string, tail: string)
    requires |h| == 4 && IsHex(h) && |tail| == 24 && IsHex(tail)
    ensures IsHex("0000" + h + tail)
    ensures HexValue("0000" + h + tail) == HexValue(h) * TwoTo96 + HexValue(tail)
  {
    ZerosValue(4);
    var z := Zeros(4);
    assert z == "0000";
    HexValueAppend(z, h);
    assert HexValue(z + h) == HexValue(h);
    HexValueAppend(z + h, tail);
    Pow16Is(24);
  }

  /** The 32 digits `0000 h <Base tail>` denote `h * 2^96 + Base`. */
  lemma ExpandedDigitsValue(h: string, g4: string, g5: string)
    requires |h| == 4 && IsHex(h)
    requires (g4 == "5F9B" && g5 == "34FB") || (g4 == "5f9b" && g5 == "34fb")
    ensures IsHex("0000" + h + ("0000" + "1000" + "8000" + "0080" + g4 + g5))
    ensures HexValue("0000" + h + ("0000" + "1000" + "8000" + "0080" + g4 + g5))
      == HexValue(h) * TwoTo96 + BluetoothBaseUuid
  {
    BaseDigitsValue(g4, g5);
    PrefixedValue(h, "0000" + "1000" + "8000" + "0080" + g4 + g5);
  }

  // ---------------------------------------------------------------------------
  // What uuidFromShortUuid16 promises

  /** A text built from five groups and four dashes is canonical when its groups are hexadecimal. */
  lemma UuidTextFromGroups(t: string, a: string, b: string, c: string, d: string, e: string)
    requires |a| == 8 && |b| == 4 && |c| == 4 && |d| == 4 && |e| == 12
    requires t == a + "-" + b + "-" + c + "-" + d + "-" + e
    ensures |t| == 36
    ensures t[8] == '-' && t[13] == '-' && t[18] == '-' && t[23] == '-'
    ensures UuidDigits(t) == a + b + c + d + e
  {
    assert t[..8] == a;
    assert t[9..13] == b;
    assert t[14..18] == c;
    assert t[19..23] == d;
    assert t[24..] == e;
  }

  /**
   * For a 16-bit number the text handed to the parser is `0000`, exactly four
   * upper-case hexadecimal digits that read back as the number, and the Base
   * UUID's tail: 36 characters in all.
   */
  lemma ShortUuidTextShape(uuid16: Int32)
    requires 0 <= uuid16 < 0x1_0000
    ensures |ShortUuidText(uuid16)| == 36
    ensures ShortUuidText(uuid16)[..4] == "0000"
    ensures ShortUuidText(uuid16)[8..] == BaseUuidTail
    ensures forall i :: 4 <= i < 8 ==> IsUpperHexChar(ShortUuidText(uuid16)[i])
    ensures IsHex(ShortUuidText(uuid16)[4..8]) && HexValue(ShortUuidText(uuid16)[4..8]) == uuid16
  {
    FormatHex04Shape(uuid16);
    var t := ShortUuidText(uuid16);
    assert t[4..8] == FormatHex04(uuid16);
    assert t[8..] == BaseUuidTail;
    assert t[..4] == "0000";
  }

  /** Digits of the text `0000h-0000-1000-8000-0080<g4><g5>`. */
  lemma ExpandedTextDigits(t: string, h: string, g4: string, g5: string)
    requires |h| == 4 && |g4| == 4 && |g5| == 4
    requires t == ("0000" + h) + "-" + "0000" + "-" + "1000" + "-" + "8000" + "-" + ("0080" + g4 + g5)
    ensures |t| == 36 && t[8] == '-' && t[13] == '-' && t[18] == '-' && t[23] == '-'
    ensures UuidDigits(t) == "0000" + h + ("0000" + "1000" + "8000" + "0080" + g4 + g5)
  {
    UuidTextFromGroups(t, "0000" + h, "0000", "1000", "8000", "0080" + g4 + g5);
  }

  /** The text `0000h-0000-1000-8000-00805F9B34FB`, in either case, parses to `h * 2^96 + Base`. */
  lemma ExpandedTextParses(t: string, h: string, g4: string, g5: string)
    requires |h| == 4 && IsHex(h)
    requires (g4 == "5F9B" && g5 == "34FB") || (g4 == "5f9b" && g5 == "34fb")
    requires |t| == 36 && t[8] == '-' && t[13] == '-' && t[18] == '-' && t[23] == '-'
    requires UuidDigits(t) == "0000" + h + ("0000" + "1000" + "8000" + "0080" + g4 + g5)
    ensures ParseUuid(t) == Some(HexValue(h) * TwoTo96 + BluetoothBaseUuid)
  {
    ExpandedDigitsValue(h, g4, g5);
  }

  lemma ShortUuidTextDigits(h: string)
    requires |h| == 4
    ensures var t := "0000" + h + BaseUuidTail;
      && |t| == 36 && t[8] == '-' && t[13] == '-' && t[18] == '-' && t[23] == '-'
      && UuidDigits(t) == "0000" + h + ("0000" + "1000" + "8000" + "0080" + "5F9B" + "34FB")
  {
    var t := "0000" + h + BaseUuidTail;
    assert t == ("0000" + h) + "-" + "0000" + "-" + "1000" + "-" + "8000" + "-" + ("0080" + "5F9B" + "34FB") by {
      assert BaseUuidTail == "-" + "0000" + "-" + "1000" + "-" + "8000" + "-" + ("0080" + "5F9B" + "34FB");
    }
    ExpandedTextDigits(t, h, "5F9B", "34FB");
  }

  lemma ShortUuidTextParses(h: string)
    requires |h| == 4 && IsHex(h)
    ensures ParseUuid("0000" + h + BaseUuidTail) == Some(HexValue(h) * TwoTo96 + BluetoothBaseUuid)
  {
    ShortUuidTextDigits(h);
    ExpandedTextParses("0000" + h + BaseUuidTail, h, "5F9B", "34FB");
  }

  /** For a 16-bit number the text parses, read as a 128-bit number, to `uuid16 * 2^96 + Base`. */
  lemma ShortUuidTextExpands(uuid16: Int32)
    requires 0 <= uuid16 < 0x1_0000
    ensures ParseUuid(ShortUuidText(uuid16)) == Some(ExpandShortUuid(uuid16))
  {
    FormatHex04Shape(uuid16);
    ShortUuidTextParses(FormatHex04(uuid16));
  }

  /** Any other `int` is printed with more than four digits, and the parser rejects the text. */
  lemma ShortUuidTextRejected(uuid16: Int32)
    requires uuid16 < 0 || uuid16 >= 0x1_0000
    ensures |ShortUuidText(uuid16)| > 36
    ensures ParseUuid(ShortUuidText(uuid16)) == None
  {
    Pow16Is(4);
    ToHexLong(if uuid16 < 0 then uuid16 + TwoTo32 else uuid16, 4);
  }

  /** Distinct 16-bit numbers expand to distinct UUIDs. */
  lemma UuidFromShortUuid16Injective(a: Int32, b: Int32)
    requires UuidFromShortUuid16(a).Some?
    requires UuidFromShortUuid16(a) == UuidFromShortUuid16(b)
    ensures a == b
  {
  }

  /**
   * The lower-case literal of the Client Characteristic Configuration
   * descriptor denotes the same UUID as the expansion of 0x2902.
   */
  lemma ClientCharacteristicConfigParses()
    ensures ParseUuid(ClientCharacteristicConfigText) == Some(0x2902 * TwoTo96 + BluetoothBaseUuid)
  {
    var t := ClientCharacteristicConfigText;
    assert t == ("0000" + "2902") + "-" + "0000" + "-" + "1000" + "-" + "8000" + "-" + ("0080" + "5f9b" + "34fb");
    HexValue4("2902");
    ExpandedTextDigits(t, "2902", "5f9b", "34fb");
    ExpandedTextParses(t, "2902", "5f9b", "34fb");
  }

  lemma ClientCharacteristicConfigIs2902()
    ensures ParseUuid(ClientCharacteristicConfigText) == UuidFromShortUuid16(0x2902)
    ensures ParseUuid(ClientCharacteristicConfigText) == Some(ExpandShortUuid(0x2902))
  {
    ClientCharacteristicConfigParses();
  }

  /** The four UUID constants are what `uuidFromShortUuid16` returns for their numbers, and are distinct. */
  lemma UuidConstants()
    ensures UuidFromShortUuid16(0x1805) == Some(ServiceTimeSync)
    ensures UuidFromShortUuid16(0x2A2B) == Some(CharacteristicPhoneTime)
    ensures UuidFromShortUuid16(0x1815) == Some(ServiceServoControl)
    ensures UuidFromShortUuid16(0x2A56) == Some(CharacteristicServoSignal)
    ensures ServiceTimeSync != ServiceServoControl
    ensures CharacteristicPhoneTime != CharacteristicServoSignal
  {
  }
}

/** The fallback path of the version 4 UUID: sixteen random bytes, two of them masked, and their text. */
module Uuid {
  import opened Prelude

  type Byte = bv8

  // ---------- One byte ----------

  predicate IsHexDigit(c: char) {
    '0' <= c <= '9' || 'a' <= c <= 'f'
  }

  function HexDigit(n: nat): (c: char)
    requires n < 16
    ensures IsHexDigit(c)
  {
    if n < 10 then '0' + n as char else 'a' + (n - 10) as char
  }

  function DigitValue(c: char): (n: nat)
    requires IsHexDigit(c)
    ensures n < 16
  {
    if c <= '9' then (c - '0') as int else (c - 'a') as int + 10
  }

  /** toString(16) of a byte, without leading zeros. */
  function ToString16(n: nat): (s: string)
    requires n < 256
  {
    if n < 16 then [HexDigit(n)] else [HexDigit(n / 16), HexDigit(n % 16)]
  }

  function PadStart2(s: string): string {
    if |s| < 2 then seq(2 - |s|, _ => '0') + s else s
  }

  function Hex(b: Byte): string {
    PadStart2(ToString16(b as nat))
  }

  function ReadByte(hi: char, lo: char): Byte
    requires IsHexDigit(hi) && IsHexDigit(lo)
  {
    (16 * DigitValue(hi) + DigitValue(lo)) as Byte
  }

  lemma {:induction false} DigitReadBack(n: nat)
    requires n < 16
    ensures DigitValue(HexDigit(n)) == n
  {
  }

  lemma {:induction false} HexDigitsAre(n: nat)
    requires n < 256
    ensures PadStart2(ToString16(n)) == [HexDigit(n / 16), HexDigit(n % 16)]
  {
    assert HexDigit(0) == '0';
  }

  /** Two digits, for the upper and the lower half of the byte. */
  lemma {:induction false} HexIs(b: Byte)
    ensures Hex(b) == [HexDigit(b as nat / 16), HexDigit(b as nat % 16)]
  {
    HexDigitsAre(b as nat);
  }

  /** The byte is read back from its two digits. */
  lemma {:induction false} HexReadBack(b: Byte)
    ensures ReadByte(HexDigit(b as nat / 16), HexDigit(b as nat % 16)) == b
  {
    DigitReadBack(b as nat / 16);
    DigitReadBack(b as nat % 16);
    assert 16 * (b as nat / 16) + b as nat % 16 == b as nat;
  }

  // ---------- The masks ----------

  /** The mask of the bits that stay random in byte i, and the bits that are set. */
  function Free(i: nat): Byte {
    if i == 6 then 0x0f else if i == 8 then 0x3f else 0xff
  }

  function Fixed(i: nat): Byte {
    if i == 6 then 0x40 else if i == 8 then 0x80 else 0
  }

  function MaskedByte(b: Byte, i: nat): Byte {
    (b & Free(i)) | Fixed(i)
  }

  lemma {:induction false} MaskedByteSameIff(a: Byte, b: Byte, i: nat)
    ensures MaskedByte(a, i) == MaskedByte(b, i) <==> a & Free(i) == b & Free(i)
  {
  }

  lemma {:induction false} VersionAndVariant(b: Byte)
    ensures MaskedByte(b, 6) as nat / 16 == 4
    ensures 8 <= MaskedByte(b, 8) as nat / 16 <= 11
  {
    var m6, m8 := MaskedByte(b, 6), MaskedByte(b, 8);
    assert 0x40 <= m6 <= 0x4f;
    assert 0x80 <= m8 <= 0xbf;
  }

  function Masked(bytes: seq<Byte>): (r: seq<Byte>)
    ensures |r| == |bytes|
  {
    seq(|bytes|, i requires 0 <= i < |bytes| => MaskedByte(bytes[i], i))
  }

  // ---------- The text ----------

  function HexText(bytes: seq<Byte>): string {
    if bytes == [] then "" else HexText(bytes[..|bytes| - 1]) + Hex(bytes[|bytes| - 1])
  }

  function Format(bytes: seq<Byte>): string
    requires |bytes| == 16
  {
    HexText(bytes[0..4]) + "-" + HexText(bytes[4..6]) + "-" + HexText(bytes[6..8]) + "-" + HexText(bytes[8..10]) + "-" +
    HexText(bytes[10..16])
  }

  function Uuid(bytes: seq<Byte>): string
    requires |bytes| == 16
  {
    Format(Masked(bytes))
  }

  /** crypto.getRandomValues and Math.random are the source; next answers one byte at a time. */
  method SafeRandomUuid(source: nat -> Byte) returns (text: string)
    ensures text == Uuid(seq(16, (i: nat) => source(i)))
  {
    var bytes := new Byte[16];
    for i := 0 to bytes.Length
      invariant forall j :: 0 <= j < i ==> bytes[j] == source(j)
    {
      bytes[i] := source(i);
    }
    bytes[6] := (bytes[6] & 0x0f) | 0x40;
    bytes[8] := (bytes[8] & 0x3f) | 0x80;
    assert bytes[..] == Masked(seq(16, (i: nat) => source(i))) by {
      forall i | 0 <= i < 16 ensures bytes[i] == MaskedByte(source(i), i) {
        UnmaskedByte(source(i));
      }
    }
    text := HexText(bytes[0..4]) + "-" + HexText(bytes[4..6]) + "-" + HexText(bytes[6..8]) + "-" + HexText(bytes[8..10]) + "-" +
      HexText(bytes[10..16]);
    assert forall i, j :: 0 <= i <= j <= 16 ==> bytes[i..j] == bytes[..][i..j];
  }

  lemma {:induction false} UnmaskedByte(b: Byte)
    ensures (b & 0xff) | 0 == b
  {
  }

  lemma {:induction false} HexTextLength(bytes: seq<Byte>)
    ensures |HexText(bytes)| == 2 * |bytes|
  {
    if bytes == [] {
    } else {
      HexTextLength(bytes[..|bytes| - 1]);
      HexIs(bytes[|bytes| - 1]);
    }
  }

  lemma {:induction false} HexTextAt(bytes: seq<Byte>, i: nat)
    requires i < |bytes|
    ensures 2 * i + 1 < |HexText(bytes)|
    ensures HexText(bytes)[2 * i] == HexDigit(bytes[i] as nat / 16) && HexText(bytes)[2 * i + 1] == HexDigit(bytes[i] as nat % 16)
  {
    var n := |bytes| - 1;
    HexIs(bytes[n]);
    HexTextLength(bytes[..n]);
    if i < n {
      HexTextAt(bytes[..n], i);
    }
  }

  /** Where the first digit of byte i stands: after two digits for each byte and the hyphens before it. */
  function Position(i: nat): nat {
    2 * i + (if i < 4 then 0 else if i < 6 then 1 else if i < 8 then 2 else if i < 10 then 3 else 4)
  }

  /** The shape of the text: 36 characters, four hyphens, and the digits of byte i at its position. */
  ghost predicate Spells(text: string, bytes: seq<Byte>)
    requires |bytes| == 16
  {
    && |text| == 36
    && text[8] == text[13] == text[18] == text[23] == '-'
    && forall i :: 0 <= i < 16 ==> SpellsByte(text, bytes[i], Position(i))
  }

  ghost predicate SpellsByte(text: string, b: Byte, at: nat) {
    at + 1 < |text| && text[at] == HexDigit(b as nat / 16) && text[at + 1] == HexDigit(b as nat % 16)
  }

  /** A group of digits that stands at a position spells its bytes there. */
  lemma {:induction false} GroupSpells(text: string, at: nat, bytes: seq<Byte>, i: nat)
    requires at + 2 * |bytes| <= |text| && text[at..at + 2 * |bytes|] == HexText(bytes) && i < |bytes|
    ensures SpellsByte(text, bytes[i], at + 2 * i)
  {
    HexTextAt(bytes, i);
    var group := HexText(bytes);
    assert text[at + 2 * i] == group[2 * i] && text[at + 2 * i + 1] == group[2 * i + 1];
  }

  lemma {:induction false} Groups(a: string, b: string, c: string, d: string, e: string)
    requires |a| == 8 && |b| == |c| == |d| == 4 && |e| == 12
    ensures var text := a + "-" + b + "-" + c + "-" + d + "-" + e;
            && |text| == 36 && text[8] == text[13] == text[18] == text[23] == '-'
            && text[0..8] == a && text[9..13] == b && text[14..18] == c && text[19..23] == d && text[24..36] == e
  {
  }

  lemma {:induction false} FormatGroups(bytes: seq<Byte>)
    requires |bytes| == 16
    ensures var text := Format(bytes);
            && |text| == 36 && text[8] == text[13] == text[18] == text[23] == '-'
            && text[0..8] == HexText(bytes[0..4]) && text[9..13] == HexText(bytes[4..6]) && text[14..18] == HexText(bytes[6..8])
            && text[19..23] == HexText(bytes[8..10]) && text[24..36] == HexText(bytes[10..16])
  {
    HexTextLength(bytes[0..4]);
    HexTextLength(bytes[4..6]);
    HexTextLength(bytes[6..8]);
    HexTextLength(bytes[8..10]);
    HexTextLength(bytes[10..16]);
    Groups(HexText(bytes[0..4]), HexText(bytes[4..6]), HexText(bytes[6..8]), HexText(bytes[8..10]), HexText(bytes[10..16]));
  }

  lemma {:induction false} FormatSpells(bytes: seq<Byte>)
    requires |bytes| == 16
    ensures Spells(Format(bytes), bytes)
  {
    var text := Format(bytes);
    FormatGroups(bytes);
    forall i | 0 <= i < 16 ensures SpellsByte(text, bytes[i], Position(i)) {
      ByteSpelled(text, bytes, i);
    }
  }

  lemma {:induction false} ByteSpelled(text: string, bytes: seq<Byte>, i: nat)
    requires |bytes| == 16 && i < 16 && |text| == 36
    requires text[0..8] == HexText(bytes[0..4]) && text[9..13] == HexText(bytes[4..6]) && text[14..18] == HexText(bytes[6..8])
    requires text[19..23] == HexText(bytes[8..10]) && text[24..36] == HexText(bytes[10..16])
    ensures SpellsByte(text, bytes[i], Position(i))
  {
    if i < 4 {
      GroupSpells(text, 0, bytes[0..4], i);
    } else if i < 6 {
      GroupSpells(text, 9, bytes[4..6], i - 4);
    } else if i < 8 {
      GroupSpells(text, 14, bytes[6..8], i - 6);
    } else if i < 10 {
      GroupSpells(text, 19, bytes[8..10], i - 8);
    } else {
      GroupSpells(text, 24, bytes[10..16], i - 10);
    }
  }

  // ---------- What the text tells ----------

  /** The bytes that a well-formed text stands for. */
  function Parse(text: string): (r: Option<seq<Byte>>)
  {
    if |text| == 36 && forall i :: 0 <= i < 16 ==> IsHexDigit(text[Position(i)]) && IsHexDigit(text[Position(i) + 1])
    then Some(seq(16, i requires 0 <= i < 16 => ReadByte(text[Position(i)], text[Position(i) + 1])))
    else None
  }

  lemma {:induction false} SpelledByteReads(text: string, b: Byte, at: nat)
    requires SpellsByte(text, b, at)
    ensures IsHexDigit(text[at]) && IsHexDigit(text[at + 1]) && ReadByte(text[at], text[at + 1]) == b
  {
    HexReadBack(b);
  }

  /** The text reads back as the masked bytes. */
  lemma {:induction false} ParseUuid(bytes: seq<Byte>)
    requires |bytes| == 16
    ensures Parse(Uuid(bytes)) == Some(Masked(bytes))
  {
    var text, masked := Uuid(bytes), Masked(bytes);
    FormatSpells(masked);
    forall i | 0 <= i < 16
      ensures IsHexDigit(text[Position(i)]) && IsHexDigit(text[Position(i) + 1])
      ensures ReadByte(text[Position(i)], text[Position(i) + 1]) == masked[i]
    {
      SpelledByteReads(text, masked[i], Position(i));
    }
    assert Parse(text).Some? && Parse(text).value == masked;
  }

  /** The byte whose digits stand around character k. */
  function ByteOf(k: nat): nat {
    (if k < 8 then k else if k < 13 then k - 1 else if k < 18 then k - 2 else if k < 23 then k - 3 else k - 4) / 2
  }

  lemma {:induction false} DigitAt(text: string, bytes: seq<Byte>, k: nat)
    requires |bytes| == 16 && Spells(text, bytes) && k < 36 && k !in {8, 13, 18, 23}
    ensures IsHexDigit(text[k])
  {
    var i := ByteOf(k);
    assert SpellsByte(text, bytes[i], Position(i));
    assert k == Position(i) || k == Position(i) + 1;
  }

  /** The layout of sections 4.1.1 and 4.1.3 of RFC 4122: hyphens, version digit 4, variant digit 8 to b. */
  lemma {:induction false} Layout(bytes: seq<Byte>)
    requires |bytes| == 16
    ensures var text := Uuid(bytes);
            && |text| == 36
            && (forall k :: 0 <= k < 36 ==> if k in {8, 13, 18, 23} then text[k] == '-' else IsHexDigit(text[k]))
            && text[14] == '4' && text[19] in {'8', '9', 'a', 'b'}
  {
    var text, masked := Uuid(bytes), Masked(bytes);
    FormatSpells(masked);
    SpelledLayout(text, masked);
    VersionAndVariant(bytes[6]);
    VersionAndVariant(bytes[8]);
    VersionDigits(text, masked);
  }

  lemma {:induction false} SpelledLayout(text: string, bytes: seq<Byte>)
    requires |bytes| == 16 && Spells(text, bytes)
    ensures forall k :: 0 <= k < 36 ==> if k in {8, 13, 18, 23} then text[k] == '-' else IsHexDigit(text[k])
  {
    forall k | 0 <= k < 36 && k !in {8, 13, 18, 23} ensures IsHexDigit(text[k]) {
      DigitAt(text, bytes, k);
    }
  }

  lemma {:induction false} VersionDigits(text: string, bytes: seq<Byte>)
    requires |bytes| == 16 && Spells(text, bytes)
    requires bytes[6] as nat / 16 == 4 && 8 <= bytes[8] as nat / 16 <= 11
    ensures text[14] == '4' && text[19] in {'8', '9', 'a', 'b'}
  {
    assert SpellsByte(text, bytes[6], Position(6)) && SpellsByte(text, bytes[8], Position(8));
    assert HexDigit(4) == '4';
    assert HexDigit(8) == '8' && HexDigit(9) == '9' && HexDigit(10) == 'a' && HexDigit(11) == 'b';
  }

  /** Two inputs give the same text exactly when they agree on the free bits. */
  lemma {:induction false} CollideIff(a: seq<Byte>, b: seq<Byte>)
    requires |a| == |b| == 16
    ensures Uuid(a) == Uuid(b) <==> forall i :: 0 <= i < 16 ==> a[i] & Free(i) == b[i] & Free(i)
  {
    ParseUuid(a);
    ParseUuid(b);
    MaskedSameIff(a, b);
  }

  lemma {:induction false} MaskedSameIff(a: seq<Byte>, b: seq<Byte>)
    requires |a| == |b|
    ensures Masked(a) == Masked(b) <==> forall i :: 0 <= i < |a| ==> a[i] & Free(i) == b[i] & Free(i)
  {
    forall i | 0 <= i < |a| ensures Masked(a)[i] == Masked(b)[i] <==> a[i] & Free(i) == b[i] & Free(i) {
      MaskedByteSameIff(a[i], b[i], i);
    }
  }

  function BitsOf(b: Byte): nat {
    (if b & 1 != 0 then 1 else 0) + (if b & 2 != 0 then 1 else 0) + (if b & 4 != 0 then 1 else 0) + (if b & 8 != 0 then 1 else 0) +
    (if b & 16 != 0 then 1 else 0) + (if b & 32 != 0 then 1 else 0) + (if b & 64 != 0 then 1 else 0) + (if b & 128 != 0 then 1 else 0)
  }

  function FreeBits(n: nat): nat {
    if n == 0 then 0 else FreeBits(n - 1) + BitsOf(Free(n - 1))
  }

  lemma {:induction false} FreeBitsAre(n: nat)
    requires n <= 16
    ensures FreeBits(n) == 8 * n - (if n > 6 then 4 else 0) - (if n > 8 then 2 else 0)
    ensures n == 16 ==> FreeBits(n) == 122
  {
    if n == 0 {
    } else {
      FreeBitsAre(n - 1);
    }
  }
}

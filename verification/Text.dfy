/** Strings as sequences of runes: white space, trimming, containment and UTF-8 size. */
module Text {

  /** unicode.IsSpace. */
  predicate IsSpace(c: char) {
    var r := c as int;
    || 0x09 <= r <= 0x0D
    || r == 0x20 || r == 0x85 || r == 0xA0 || r == 0x1680
    || 0x2000 <= r <= 0x200A
    || r == 0x2028 || r == 0x2029 || r == 0x202F || r == 0x205F || r == 0x3000
  }

  /** The white space of Unicode, one by one. */
  const SPACES := {
    0x0009, 0x000A, 0x000B, 0x000C, 0x000D, 0x0020, 0x0085, 0x00A0, 0x1680,
    0x2000, 0x2001, 0x2002, 0x2003, 0x2004, 0x2005, 0x2006, 0x2007, 0x2008, 0x2009, 0x200A,
    0x2028, 0x2029, 0x202F, 0x205F, 0x3000}

  lemma SpacesListed(c: char)
    ensures IsSpace(c) <==> c as int in SPACES
  {
  }

  function TrimLeft(s: string): string {
    if s != "" && IsSpace(s[0]) then TrimLeft(s[1..]) else s
  }

  function TrimRight(s: string): string {
    if s != "" && IsSpace(s[|s| - 1]) then TrimRight(s[..|s| - 1]) else s
  }

  /** strings.TrimSpace. */
  function TrimSpace(s: string): string {
    TrimRight(TrimLeft(s))
  }

  ghost predicate AllSpace(s: string) {
    forall i | 0 <= i < |s| :: IsSpace(s[i])
  }

  /** The test the chunker uses to skip a chunk holds of white space only. */
  lemma {:induction false} BlankIffAllSpace(s: string)
    ensures TrimSpace(s) == "" <==> AllSpace(s)
  {
    TrimLeftBlank(s);
    var t := TrimLeft(s);
    if t != "" && IsSpace(t[|t| - 1]) { TrimRightKeepsHead(t); }
  }

  lemma {:induction false} TrimLeftBlank(s: string)
    ensures AllSpace(s) ==> TrimLeft(s) == ""
    ensures TrimLeft(s) == "" ==> AllSpace(s)
    ensures TrimLeft(s) != "" ==> !IsSpace(TrimLeft(s)[0])
    ensures TrimLeft(s) != "" ==> !AllSpace(s)
  {
    if s != "" && IsSpace(s[0]) {
      TrimLeftBlank(s[1..]);
      assert forall i | 0 < i < |s| :: s[i] == s[1..][i - 1];
    }
  }

  lemma {:induction false} TrimRightKeepsHead(s: string)
    requires s != "" && !IsSpace(s[0])
    ensures TrimRight(s) != ""
  {
    if IsSpace(s[|s| - 1]) { TrimRightKeepsHead(s[..|s| - 1]); }
  }

  predicate OccursAt(s: string, sub: string, i: int) {
    0 <= i <= |s| - |sub| && s[i..i + |sub|] == sub
  }

  /** strings.Contains. */
  predicate Contains(s: string, sub: string) {
    exists i | 0 <= i <= |s| :: OccursAt(s, sub, i)
  }

  /** UTF-8 bytes of one rune. */
  function RuneSize(c: char): nat {
    var r := c as int;
    if r < 0x80 then 1 else if r < 0x800 then 2 else if r < 0x1_0000 then 3 else 4
  }

  /** len(s) of the Go string: its bytes. */
  function Utf8Size(s: string): nat {
    if s == "" then 0 else RuneSize(s[0]) + Utf8Size(s[1..])
  }

  lemma {:induction false} Utf8SizeBounds(s: string)
    ensures |s| <= Utf8Size(s) <= 4 * |s|
  {
    if s != "" { Utf8SizeBounds(s[1..]); }
  }

  // Encoding, as section 3 of RFC 3629 has it: a reference for the size.

  function Encode(c: char): seq<int> {
    var r := c as int;
    if r < 0x80 then [r]
    else if r < 0x800 then [0xC0 + r / 0x40, 0x80 + r % 0x40]
    else if r < 0x1_0000 then [0xE0 + r / 0x1000, 0x80 + r / 0x40 % 0x40, 0x80 + r % 0x40]
    else [0xF0 + r / 0x4_0000, 0x80 + r / 0x1000 % 0x40, 0x80 + r / 0x40 % 0x40, 0x80 + r % 0x40]
  }

  function EncodeAll(s: string): seq<int> {
    if s == "" then [] else Encode(s[0]) + EncodeAll(s[1..])
  }

  /** The bytes a first byte announces. */
  function SizeAnnounced(b: int): nat {
    if b < 0xC0 then 1 else if b < 0xE0 then 2 else if b < 0xF0 then 3 else 4
  }

  /** The code point of an encoded rune. */
  function Decode(bs: seq<int>): int
    requires 1 <= |bs| <= 4
  {
    if |bs| == 1 then bs[0]
    else if |bs| == 2 then (bs[0] - 0xC0) * 0x40 + (bs[1] - 0x80)
    else if |bs| == 3 then (bs[0] - 0xE0) * 0x1000 + (bs[1] - 0x80) * 0x40 + (bs[2] - 0x80)
    else (bs[0] - 0xF0) * 0x4_0000 + (bs[1] - 0x80) * 0x1000 + (bs[2] - 0x80) * 0x40 + (bs[3] - 0x80)
  }

  function DecodeAll(bs: seq<int>): seq<int> {
    if bs == [] || |bs| < SizeAnnounced(bs[0]) then []
    else [Decode(bs[..SizeAnnounced(bs[0])])] + DecodeAll(bs[SizeAnnounced(bs[0])..])
  }

  function CodePoints(s: string): seq<int> {
    if s == "" then [] else [s[0] as int] + CodePoints(s[1..])
  }

  lemma EncodeSize(c: char)
    ensures |Encode(c)| == RuneSize(c) == SizeAnnounced(Encode(c)[0])
  {
  }

  lemma SixBits(r: nat)
    ensures r == r / 0x40 * 0x40 + r % 0x40
    ensures r / 0x1000 == r / 0x40 / 0x40 && r / 0x4_0000 == r / 0x1000 / 0x40
  {
  }

  lemma DecodeOne(c: char)
    ensures Decode(Encode(c)) == c as int
  {
    var r := c as int;
    SixBits(r);
    SixBits(r / 0x40);
    SixBits(r / 0x1000);
  }

  /** Encoding loses nothing: a decoder that goes by the first byte of each rune reads back every text. */
  lemma {:induction false} EncodingRoundTrip(s: string)
    ensures DecodeAll(EncodeAll(s)) == CodePoints(s)
  {
    if s != "" {
      EncodeSize(s[0]);
      DecodeOne(s[0]);
      EncodingRoundTrip(s[1..]);
      var e, rest := Encode(s[0]), EncodeAll(s[1..]);
      assert (e + rest)[..|e|] == e && (e + rest)[|e|..] == rest;
    }
  }

  /** The size the gateway checks is the number of bytes of the encoded text. */
  lemma {:induction false} SizeIsEncodedLength(s: string)
    ensures Utf8Size(s) == |EncodeAll(s)|
  {
    if s != "" {
      EncodeSize(s[0]);
      SizeIsEncodedLength(s[1..]);
    }
  }
}

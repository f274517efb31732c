/** Unpadded base64url, section 5 of RFC 4648, as Go's RawURLEncoding writes and reads it. */
module Base64Url {
  import opened Results

  type byte = b: int | 0 <= b < 256

  function Value(c: char): (r: Option<int>)
    ensures r.Some? ==> 0 <= r.value < 64
  {
    if 'A' <= c <= 'Z' then Some(c as int - 'A' as int)
    else if 'a' <= c <= 'z' then Some(c as int - 'a' as int + 26)
    else if '0' <= c <= '9' then Some(c as int - '0' as int + 52)
    else if c == '-' then Some(62)
    else if c == '_' then Some(63)
    else None
  }

  /** Table 2 of the RFC: the upper-case letters, the lower-case letters, the digits, '-' and '_'. */
  function Char(v: int): (c: char)
    requires 0 <= v < 64
    ensures c != '.' && c != '\n' && c != '\r'
    ensures Value(c) == Some(v)
  {
    if v < 26 then ('A' as int + v) as char
    else if v < 52 then ('a' as int + v - 26) as char
    else if v < 62 then ('0' as int + v - 52) as char
    else if v == 62 then '-' else '_'
  }

  predicate SixBit(v: int) {
    0 <= v < 64
  }

  // The four six-bit pieces of three bytes.

  function Piece0(x: byte): (v: int)
    ensures SixBit(v)
  {
    x / 4
  }

  function Piece1(x: byte, y: byte): (v: int)
    ensures SixBit(v)
  {
    x % 4 * 16 + y / 16
  }

  function Piece2(y: byte, z: byte): (v: int)
    ensures SixBit(v)
  {
    y % 16 * 4 + z / 64
  }

  function Piece3(z: byte): (v: int)
    ensures SixBit(v)
  {
    z % 64
  }

  /** A last group of one or two bytes is padded with zero bits and written without the characters it lacks. */
  function EncodeToString(bs: seq<byte>): string {
    if |bs| == 0 then ""
    else if |bs| == 1 then [Char(Piece0(bs[0])), Char(Piece1(bs[0], 0))]
    else if |bs| == 2 then [Char(Piece0(bs[0])), Char(Piece1(bs[0], bs[1])), Char(Piece2(bs[1], 0))]
    else
      [Char(Piece0(bs[0])), Char(Piece1(bs[0], bs[1])), Char(Piece2(bs[1], bs[2])), Char(Piece3(bs[2]))]
      + EncodeToString(bs[3..])
  }

  /** Go's decoder skips line breaks. */
  function WithoutBreaks(s: string): string {
    if s == "" then ""
    else (if s[0] == '\n' || s[0] == '\r' then "" else [s[0]]) + WithoutBreaks(s[1..])
  }

  function First(a: int, b: int): byte
    requires 0 <= a < 64 && 0 <= b < 64
  {
    a * 4 + b / 16
  }

  function Second(b: int, c: int): byte
    requires 0 <= b < 64 && 0 <= c < 64
  {
    b % 16 * 16 + c / 4
  }

  function Third(c: int, d: int): byte
    requires 0 <= c < 64 && 0 <= d < 64
  {
    c % 4 * 64 + d
  }

  /** Quads of characters to triples of bytes; a last group of two or three leaves one or two bytes. Left-over bits
      are ignored, a last group of one character and anything outside the alphabet is an error. */
  function DecodeQuads(s: string): Option<seq<byte>> {
    if s == "" then Some([])
    else if |s| == 1 || Value(s[0]).None? || Value(s[1]).None? then None
    else
      var a, b := Value(s[0]).value, Value(s[1]).value;
      if |s| == 2 then Some([First(a, b)])
      else if Value(s[2]).None? then None
      else if |s| == 3 then Some([First(a, b), Second(b, Value(s[2]).value)])
      else if Value(s[3]).None? then None
      else match DecodeQuads(s[4..])
        case None => None
        case Some(rest) =>
          Some([First(a, b), Second(b, Value(s[2]).value), Third(Value(s[2]).value, Value(s[3]).value)] + rest)
  }

  function DecodeString(s: string): Option<seq<byte>> {
    DecodeQuads(WithoutBreaks(s))
  }

  // ---------- what is written ----------

  /** Table 2 of the RFC. */
  const ALPHABET := "ABCDEFGHIJKLM" + "NOPQRSTUVWXYZ" + "abcdefghijklm" + "nopqrstuvwxyz" + "0123456789" + "-_"

  lemma CharIsInTable(v: int)
    requires SixBit(v)
    ensures |ALPHABET| == 64 && Char(v) == ALPHABET[v]
  {}

  /** Three bytes are one number of 24 bits, the first byte leading; its four digits to the base 64 are written in
      order. */
  lemma GroupIsNumber(x: byte, y: byte, z: byte) returns (a: int, b: int, c: int, d: int)
    ensures SixBit(a) && SixBit(b) && SixBit(c) && SixBit(d) && |ALPHABET| == 64
    ensures (x as int) * 65_536 + (y as int) * 256 + z == a * 262_144 + b * 4096 + c * 64 + d
    ensures EncodeToString([x, y, z]) == [ALPHABET[a], ALPHABET[b], ALPHABET[c], ALPHABET[d]]
  {
    a, b, c, d := Piece0(x), Piece1(x, y), Piece2(y, z), Piece3(z);
    CharIsInTable(a);
    CharIsInTable(b);
    CharIsInTable(c);
    CharIsInTable(d);
    assert EncodeToString([x, y, z]) == [Char(a), Char(b), Char(c), Char(d)] + EncodeToString([]);
  }

  /** A group is written before what follows it. */
  lemma GroupFirst(x: byte, y: byte, z: byte, rest: seq<byte>)
    ensures EncodeToString([x, y, z] + rest) == EncodeToString([x, y, z]) + EncodeToString(rest)
  {
    var all := [x, y, z] + rest;
    assert all[3..] == rest && all[0] == x && all[1] == y && all[2] == z;
    var group := [Char(Piece0(x)), Char(Piece1(x, y)), Char(Piece2(y, z)), Char(Piece3(z))];
    assert EncodeToString([x, y, z]) == group + EncodeToString([]) == group;
  }

  /** One or two bytes at the end are written like a group filled up with zeros, cut off after two or three
      characters. */
  lemma LastGroup(x: byte, y: byte)
    ensures EncodeToString([x]) == EncodeToString([x, 0, 0])[..2]
    ensures EncodeToString([x, y]) == EncodeToString([x, y, 0])[..3]
  {}

  // ---------- decoding undoes encoding ----------

  predicate InAlphabet(s: string) {
    forall i :: 0 <= i < |s| ==> Value(s[i]).Some?
  }

  lemma {:induction false} EncodedInAlphabet(bs: seq<byte>)
    ensures InAlphabet(EncodeToString(bs))
  {
    if |bs| >= 3 {
      EncodedInAlphabet(bs[3..]);
    }
  }

  lemma AlphabetExcludes(s: string, c: char)
    requires InAlphabet(s) && Value(c).None?
    ensures c !in s
  {}

  lemma {:induction false} NoBreaks(s: string)
    requires InAlphabet(s)
    ensures WithoutBreaks(s) == s
  {
    if s != "" {
      assert Value(s[0]).Some?;
      NoBreaks(s[1..]);
      assert s == [s[0]] + s[1..];
    }
  }

  lemma PiecesFit(x: byte, y: byte, z: byte)
    ensures First(Piece0(x), Piece1(x, y)) == x
    ensures Second(Piece1(x, y), Piece2(y, z)) == y
    ensures Third(Piece2(y, z), Piece3(z)) == z
  {}

  /** One full group of four characters. */
  lemma DecodeGroup(a: int, b: int, c: int, d: int, rest: string)
    requires SixBit(a) && SixBit(b) && SixBit(c) && SixBit(d)
    ensures DecodeQuads([Char(a), Char(b), Char(c), Char(d)] + rest) ==
            (match DecodeQuads(rest)
             case None => None
             case Some(bs) => Some([First(a, b), Second(b, c), Third(c, d)] + bs))
  {
    var s := [Char(a), Char(b), Char(c), Char(d)] + rest;
    assert s[4..] == rest && |s| >= 4;
    assert s[0] == Char(a) && s[1] == Char(b) && s[2] == Char(c) && s[3] == Char(d);
  }

  lemma DecodeTwo(a: int, b: int)
    requires SixBit(a) && SixBit(b)
    ensures DecodeQuads([Char(a), Char(b)]) == Some([First(a, b)])
  {}

  lemma DecodeThree(a: int, b: int, c: int)
    requires SixBit(a) && SixBit(b) && SixBit(c)
    ensures DecodeQuads([Char(a), Char(b), Char(c)]) == Some([First(a, b), Second(b, c)])
  {}

  predicate ReadsBack(bs: seq<byte>) {
    DecodeQuads(EncodeToString(bs)) == Some(bs)
  }

  lemma OneByte(x: byte)
    ensures ReadsBack([x])
  {
    PiecesFit(x, 0, 0);
    DecodeTwo(Piece0(x), Piece1(x, 0));
  }

  lemma TwoBytes(x: byte, y: byte)
    ensures ReadsBack([x, y])
  {
    PiecesFit(x, y, 0);
    DecodeThree(Piece0(x), Piece1(x, y), Piece2(y, 0));
  }

  lemma ThreeBytes(x: byte, y: byte, z: byte, rest: seq<byte>)
    requires ReadsBack(rest)
    ensures ReadsBack([x, y, z] + rest)
  {
    PiecesFit(x, y, z);
    DecodeGroup(Piece0(x), Piece1(x, y), Piece2(y, z), Piece3(z), EncodeToString(rest));
    var bs := [x, y, z] + rest;
    assert bs[3..] == rest && bs[0] == x && bs[1] == y && bs[2] == z;
  }

  lemma {:induction false} QuadsRoundTrip(bs: seq<byte>)
    ensures ReadsBack(bs)
    decreases |bs|
  {
    if |bs| == 1 {
      OneByte(bs[0]);
      assert bs == [bs[0]];
    } else if |bs| == 2 {
      TwoBytes(bs[0], bs[1]);
      assert bs == [bs[0], bs[1]];
    } else if |bs| >= 3 {
      QuadsRoundTrip(bs[3..]);
      ThreeBytes(bs[0], bs[1], bs[2], bs[3..]);
      assert bs == [bs[0], bs[1], bs[2]] + bs[3..];
    }
  }

  lemma RoundTrip(bs: seq<byte>)
    ensures DecodeString(EncodeToString(bs)) == Some(bs)
  {
    EncodedInAlphabet(bs);
    NoBreaks(EncodeToString(bs));
    QuadsRoundTrip(bs);
  }

  /** Different bytes never share an encoding. */
  lemma Injective(a: seq<byte>, b: seq<byte>)
    requires EncodeToString(a) == EncodeToString(b)
    ensures a == b
  {
    RoundTrip(a);
    RoundTrip(b);
  }
}

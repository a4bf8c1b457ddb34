/** UTF-16 in little-endian bytes, and the encoder of internal/notify/toast.go:84-92. */
module Utf16 {
  import opened Options
  import Base64

  type byte = Base64.byte

  type unit = x: int | 0 <= x < 0x10000

  /** What the encoder writes for each rune: its low 16 bits, whatever the rune is. */
  function Truncated(s: string): seq<unit> {
    if s == "" then [] else [s[0] as int % 0x10000] + Truncated(s[1..])
  }

  function LittleEndian(units: seq<unit>): seq<byte> {
    if units == [] then [] else TwoBytes(units[0]) + LittleEndian(units[1..])
  }

  function TwoBytes(u: int): (bytes: seq<byte>)
    requires 0 <= u < 0x10000
    ensures |bytes| == 2 && FromBytes(bytes[0], bytes[1]) == u
  {
    [u % 256, u / 256]
  }

  function FromBytes(lo: int, hi: int): unit
    requires 0 <= lo < 256 && 0 <= hi < 256
  {
    lo + 256 * hi
  }

  /** The rune of a surrogate pair. */
  function Paired(w1: int, w2: int): char
    requires 0xD800 <= w1 < 0xDC00 <= w2 < 0xE000
  {
    (0x10000 + (w1 - 0xD800) * 0x400 + (w2 - 0xDC00)) as char
  }

  function Units(bytes: seq<byte>): Option<seq<unit>> {
    if bytes == [] then Some([])
    else if |bytes| == 1 then None
    else
      match Units(bytes[2..])
      case Some(rest) => Some([FromBytes(bytes[0], bytes[1])] + rest)
      case None => None
  }

  /** Decoding UTF-16, section 2.2 of RFC 2781: a surrogate pair makes one rune, a lone surrogate is an error. */
  function Runes(units: seq<unit>): Option<string> {
    if units == [] then Some("")
    else if units[0] < 0xD800 || units[0] >= 0xE000 then
      (match Runes(units[1..])
       case Some(rest) => Some([units[0] as char] + rest)
       case None => None)
    else if units[0] < 0xDC00 && |units| >= 2 && 0xDC00 <= units[1] < 0xE000 then
      (match Runes(units[2..])
       case Some(rest) => Some([Paired(units[0], units[1])] + rest)
       case None => None)
    else None
  }

  lemma {:induction false} UnitsRoundTrip(units: seq<unit>)
    ensures Units(LittleEndian(units)) == Some(units)
  {
    if units != [] {
      UnitsRoundTrip(units[1..]);
      var b := TwoBytes(units[0]);
      assert LittleEndian(units)[0] == b[0] && LittleEndian(units)[1] == b[1];
      assert units == [units[0]] + units[1..];
      assert LittleEndian(units)[2..] == LittleEndian(units[1..]);
    }
  }

  /** How many runes need a surrogate pair. */
  function Wide(s: string): nat {
    if s == "" then 0 else (if s[0] as int >= 0x10000 then 1 else 0) + Wide(s[1..])
  }

  /** A decoder uses one unit per rune and one more for each wide rune. */
  lemma {:induction false} UnitsUsed(units: seq<unit>)
    requires Runes(units).Some?
    ensures |units| == |Runes(units).value| + Wide(Runes(units).value)
  {
    if units != [] {
      var s := Runes(units).value;
      var k := if units[0] < 0xD800 || units[0] >= 0xE000 then 1 else 2;
      UnitsUsed(units[k..]);
      assert s[1..] == Runes(units[k..]).value;
    }
  }

  lemma {:induction false} NarrowSurvives(s: string)
    requires Wide(s) == 0
    ensures Runes(Truncated(s)) == Some(s)
  {
    if s != "" {
      NarrowSurvives(s[1..]);
      assert Truncated(s)[1..] == Truncated(s[1..]);
      assert s == [s[0]] + s[1..];
    }
  }

  lemma {:induction false} TruncatedLength(s: string)
    ensures |Truncated(s)| == |s|
  {
    if s != "" { TruncatedLength(s[1..]); }
  }

  /** The truncating encoder is lossless exactly on strings without runes above U+FFFF. */
  lemma {:induction false} LosslessIff(s: string)
    ensures Runes(Truncated(s)) == Some(s) <==> Wide(s) == 0
  {
    if Wide(s) == 0 {
      NarrowSurvives(s);
    } else if Runes(Truncated(s)) == Some(s) {
      UnitsUsed(Truncated(s));
      TruncatedLength(s);
    }
  }

  /** encodeUTF16LEBase64: each rune is written as a little-endian uint16, then the bytes are base64-encoded. */
  method EncodeUtf16LeBase64(s: string) returns (encoded: string)
    ensures encoded == Base64.Encode(LittleEndian(Truncated(s)))
  {
    var buf: seq<byte> := [];
    var i := 0;
    while i < |s|
      invariant 0 <= i <= |s|
      invariant buf + LittleEndian(Truncated(s[i..])) == LittleEndian(Truncated(s))
    {
      var u := s[i] as int % 0x10000;
      assert (buf + TwoBytes(u)) + LittleEndian(Truncated(s[i + 1..]))
             == buf + (TwoBytes(u) + LittleEndian(Truncated(s[i + 1..])));
      buf := buf + TwoBytes(u);
      i := i + 1;
    }
    assert s[i..] == "" && buf + [] == buf;
    encoded := Base64.Encode(buf);
  }

  /** What -EncodedCommand does with its argument. */
  function Received(encoded: string): Option<string> {
    match Base64.Decode(encoded)
    case Some(bytes) => (match Units(bytes) case Some(units) => Runes(units) case None => None)
    case None => None
  }

  /** Through base64 and back: the receiver gets the string exactly when it has no rune above U+FFFF. */
  lemma {:induction false} ReceivedIff(s: string, encoded: string)
    requires encoded == Base64.Encode(LittleEndian(Truncated(s)))
    ensures Received(encoded) == Some(s) <==> Wide(s) == 0
  {
    Base64.DecodeEncode(LittleEndian(Truncated(s)));
    UnitsRoundTrip(Truncated(s));
    LosslessIff(s);
  }
}

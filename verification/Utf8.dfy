/** UTF-8 (RFC 3629, section 3), which the pattern engine steps over rune by rune: internal/serial/session.go:195. */
module Utf8 {
  import opened AnsiEscape

  predicate IsScalar(r: int) { 0 <= r < 0xD800 || 0xE000 <= r < 0x11_0000 }

  function Byte(n: int): char
    requires 0 <= n < 256
  {
    n as char
  }

  /** The bytes of a scalar value. */
  function Encoded(r: int): (s: string)
    requires IsScalar(r)
    ensures s != ""
  {
    if r < 0x80 then [Byte(r)]
    else if r < 0x800 then [Byte(0xC0 + r / 64), Byte(0x80 + r % 64)]
    else if r < 0x1_0000 then [Byte(0xE0 + r / 64 / 64), Byte(0x80 + r / 64 % 64), Byte(0x80 + r % 64)]
    else
      [Byte(0xF0 + r / 64 / 64 / 64), Byte(0x80 + r / 64 / 64 % 64), Byte(0x80 + r / 64 % 64), Byte(0x80 + r % 64)]
  }

  lemma {:induction false} EncodedWidth(r: int, s: string)
    requires IsScalar(r) && Encoded(r) <= s
    ensures RuneWidth(s) == |Encoded(r)|
  {
    var e := Encoded(r);
    assert forall k :: 0 <= k < |e| ==> s[k] == e[k];
  }

  /** The six low bits of a continuation byte. */
  function Bits(s: string, i: nat): int
    requires i < |s|
  {
    s[i] as int - 0x80
  }

  predicate Sextet(n: int) { 0 <= n < 64 }

  lemma {:induction false} LastSextet(a: int, b: int)
    requires 0 <= a && Sextet(b)
    ensures (a * 64 + b) / 64 == a && (a * 64 + b) % 64 == b
  {
  }

  lemma {:induction false} JoinedTwo(s: string)
    requires s != "" && RuneWidth(s) == 2
    ensures var r := (s[0] as int - 0xC0) * 64 + Bits(s, 1);
            0x80 <= r && IsScalar(r) && Encoded(r) == s[..2]
  {
    LastSextet(s[0] as int - 0xC0, Bits(s, 1));
  }

  lemma {:induction false} JoinedThree(s: string)
    requires s != "" && RuneWidth(s) == 3
    ensures var r := ((s[0] as int - 0xE0) * 64 + Bits(s, 1)) * 64 + Bits(s, 2);
            0x80 <= r && IsScalar(r) && Encoded(r) == s[..3]
  {
    var a := s[0] as int - 0xE0;
    LastSextet(a, Bits(s, 1));
    LastSextet(a * 64 + Bits(s, 1), Bits(s, 2));
  }

  lemma {:induction false} JoinedFour(s: string)
    requires s != "" && RuneWidth(s) == 4
    ensures var r := (((s[0] as int - 0xF0) * 64 + Bits(s, 1)) * 64 + Bits(s, 2)) * 64 + Bits(s, 3);
            0x80 <= r && IsScalar(r) && Encoded(r) == s[..4]
  {
    var a := s[0] as int - 0xF0;
    LastSextet(a, Bits(s, 1));
    LastSextet(a * 64 + Bits(s, 1), Bits(s, 2));
    LastSextet((a * 64 + Bits(s, 1)) * 64 + Bits(s, 2), Bits(s, 3));
  }

  /** Stepping over a string goes exactly rune by rune: the width is that of the encoded rune the string starts with, if it
      starts with one above ASCII, and 1 if not. */
  lemma {:induction false} RuneWidthIff(s: string, w: nat)
    requires s != "" && w > 1
    ensures RuneWidth(s) == w <==> exists r: int :: r >= 0x80 && IsScalar(r) && |Encoded(r)| == w && Encoded(r) <= s
  {
    if RuneWidth(s) == w {
      match w
      case 2 => JoinedTwo(s);
      case 3 => JoinedThree(s);
      case _ => JoinedFour(s);
    }
    if r: int :| r >= 0x80 && IsScalar(r) && |Encoded(r)| == w && Encoded(r) <= s { EncodedWidth(r, s); }
  }
}

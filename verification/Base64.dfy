/** Standard base64 with padding, section 4 of RFC 4648, as base64.StdEncoding produces it. */
module Base64 {
  import opened Options

  type byte = x: int | 0 <= x < 256

  type sextet = x: int | 0 <= x < 64

  function Digit(n: sextet): char {
    if n < 26 then ('A' as int + n) as char
    else if n < 52 then ('a' as int + n - 26) as char
    else if n < 62 then ('0' as int + n - 52) as char
    else if n == 62 then '+' else '/'
  }

  function Undigit(c: char): Option<sextet> {
    if 'A' <= c <= 'Z' then Some(c as int - 'A' as int)
    else if 'a' <= c <= 'z' then Some(c as int - 'a' as int + 26)
    else if '0' <= c <= '9' then Some(c as int - '0' as int + 52)
    else if c == '+' then Some(62)
    else if c == '/' then Some(63)
    else None
  }

  lemma {:induction false} DigitInverse(n: sextet)
    ensures Undigit(Digit(n)) == Some(n) && Digit(n) != '='
  {
  }

  lemma {:induction false} UndigitInverse(c: char)
    requires Undigit(c).Some?
    ensures Digit(Undigit(c).value) == c && c != '='
  {
  }

  /** The four sextets of three bytes. */
  function Split(a: byte, b: byte, c: byte): (sextet, sextet, sextet, sextet) {
    (a / 4, a % 4 * 16 + b / 16, b % 16 * 4 + c / 64, c % 64)
  }

  function Join(p: sextet, q: sextet, r: sextet, s: sextet): (byte, byte, byte) {
    (p * 4 + q / 16, q % 16 * 16 + r / 4, r % 4 * 64 + s)
  }

  lemma {:induction false} Pack16(x: int, y: int)
    requires 0 <= y < 16
    ensures (x * 16 + y) / 16 == x && (x * 16 + y) % 16 == y
  {
  }

  lemma {:induction false} JoinSplit(a: byte, b: byte, c: byte)
    ensures var (p, q, r, s) := Split(a, b, c); Join(p, q, r, s) == (a, b, c)
  {
    Pack16(a % 4, b / 16);
  }

  lemma {:induction false} SplitJoin(p: sextet, q: sextet, r: sextet, s: sextet)
    ensures var (a, b, c) := Join(p, q, r, s); Split(a, b, c) == (p, q, r, s)
  {
    Pack16(q % 16, r / 4);
  }

  function Encode(bytes: seq<byte>): string {
    if bytes == [] then ""
    else if |bytes| == 1 then
      var (p, q, _, _) := Split(bytes[0], 0, 0);
      [Digit(p), Digit(q), '=', '=']
    else if |bytes| == 2 then
      var (p, q, r, _) := Split(bytes[0], bytes[1], 0);
      [Digit(p), Digit(q), Digit(r), '=']
    else
      var (p, q, r, s) := Split(bytes[0], bytes[1], bytes[2]);
      [Digit(p), Digit(q), Digit(r), Digit(s)] + Encode(bytes[3..])
  }

  /** Padding ends the text, and the bits it cuts off must be zero. */
  function Decode(text: string): Option<seq<byte>> {
    if text == "" then Some([])
    else if |text| < 4 then None
    else
      match (Undigit(text[0]), Undigit(text[1]), Undigit(text[2]), Undigit(text[3]))
      case (Some(p), Some(q), Some(r), Some(s)) =>
        (match Decode(text[4..])
         case Some(rest) => var (a, b, c) := Join(p, q, r, s); Some([a, b, c] + rest)
         case None => None)
      case (Some(p), Some(q), Some(r), None) =>
        if text[3] == '=' && |text| == 4 && r % 4 == 0 then
          var (a, b, _) := Join(p, q, r, 0);
          Some([a, b])
        else None
      case (Some(p), Some(q), None, None) =>
        if text[2] == '=' && text[3] == '=' && |text| == 4 && q % 16 == 0 then
          var (a, _, _) := Join(p, q, 0, 0);
          Some([a])
        else None
      case _ => None
  }

  lemma {:induction false} DecodeThree(a: byte, b: byte, c: byte, rest: string)
    requires Decode(rest).Some?
    ensures var (p, q, r, s) := Split(a, b, c);
            Decode([Digit(p), Digit(q), Digit(r), Digit(s)] + rest) == Some([a, b, c] + Decode(rest).value)
  {
    var (p, q, r, s) := Split(a, b, c);
    JoinSplit(a, b, c);
    DigitInverse(p);
    DigitInverse(q);
    DigitInverse(r);
    DigitInverse(s);
    assert ([Digit(p), Digit(q), Digit(r), Digit(s)] + rest)[4..] == rest;
  }

  lemma {:induction false} DecodeTwo(a: byte, b: byte)
    ensures Decode(Encode([a, b])) == Some([a, b])
  {
    var (p, q, r, _) := Split(a, b, 0);
    JoinSplit(a, b, 0);
    DigitInverse(p);
    DigitInverse(q);
    DigitInverse(r);
    assert Encode([a, b]) == [Digit(p), Digit(q), Digit(r), '='];
  }

  lemma {:induction false} DecodeOne(a: byte)
    ensures Decode(Encode([a])) == Some([a])
  {
    var (p, q, _, _) := Split(a, 0, 0);
    JoinSplit(a, 0, 0);
    DigitInverse(p);
    DigitInverse(q);
    assert Encode([a]) == [Digit(p), Digit(q), '=', '='];
  }

  lemma {:induction false} DecodeMore(bytes: seq<byte>)
    requires |bytes| >= 3 && Decode(Encode(bytes[3..])) == Some(bytes[3..])
    ensures Decode(Encode(bytes)) == Some(bytes)
  {
    DecodeThree(bytes[0], bytes[1], bytes[2], Encode(bytes[3..]));
    assert bytes == [bytes[0], bytes[1], bytes[2]] + bytes[3..];
  }

  lemma {:induction false} DecodeEncode(bytes: seq<byte>)
    ensures Decode(Encode(bytes)) == Some(bytes)
  {
    if |bytes| == 1 {
      DecodeOne(bytes[0]);
      assert bytes == [bytes[0]];
    } else if |bytes| == 2 {
      DecodeTwo(bytes[0], bytes[1]);
      assert bytes == [bytes[0], bytes[1]];
    } else if |bytes| >= 3 {
      DecodeEncode(bytes[3..]);
      DecodeMore(bytes);
    }
  }

  lemma {:induction false} EncodeOne(text: string)
    requires |text| == 4 && Undigit(text[0]).Some? && Undigit(text[1]).Some? && text[2] == '=' && text[3] == '='
    requires Undigit(text[1]).value % 16 == 0
    ensures Encode([Join(Undigit(text[0]).value, Undigit(text[1]).value, 0, 0).0]) == text
  {
    UndigitInverse(text[0]);
    UndigitInverse(text[1]);
    SplitJoin(Undigit(text[0]).value, Undigit(text[1]).value, 0, 0);
    assert text == [text[0], text[1], '=', '='];
  }

  lemma {:induction false} EncodeTwo(text: string)
    requires |text| == 4 && Undigit(text[0]).Some? && Undigit(text[1]).Some? && Undigit(text[2]).Some? && text[3] == '='
    requires Undigit(text[2]).value % 4 == 0
    ensures var (a, b, _) := Join(Undigit(text[0]).value, Undigit(text[1]).value, Undigit(text[2]).value, 0);
            Encode([a, b]) == text
  {
    UndigitInverse(text[0]);
    UndigitInverse(text[1]);
    UndigitInverse(text[2]);
    SplitJoin(Undigit(text[0]).value, Undigit(text[1]).value, Undigit(text[2]).value, 0);
    assert text == [text[0], text[1], text[2], '='];
  }

  /** Only the encoding of some bytes decodes to them: the two functions are inverse to each other. */
  lemma {:induction false} EncodeDecode(text: string)
    requires Decode(text).Some?
    ensures Encode(Decode(text).value) == text
  {
    if text != "" {
      if Undigit(text[2]).None? {
        EncodeOne(text);
      } else if Undigit(text[3]).None? {
        EncodeTwo(text);
      } else {
        EncodeDecode(text[4..]);
        FourDigits(text);
        EncodeJoined(Undigit(text[0]).value, Undigit(text[1]).value, Undigit(text[2]).value, Undigit(text[3]).value,
                     Decode(text[4..]).value);
      }
    }
  }

  lemma {:induction false} EncodeJoined(p: sextet, q: sextet, r: sextet, s: sextet, rest: seq<byte>)
    ensures var (a, b, c) := Join(p, q, r, s);
            Encode([a, b, c] + rest) == [Digit(p), Digit(q), Digit(r), Digit(s)] + Encode(rest)
  {
    var (a, b, c) := Join(p, q, r, s);
    SplitJoin(p, q, r, s);
    assert ([a, b, c] + rest)[3..] == rest;
  }

  lemma {:induction false} FourDigits(text: string)
    requires |text| >= 4 && Undigit(text[0]).Some? && Undigit(text[1]).Some?
    requires Undigit(text[2]).Some? && Undigit(text[3]).Some?
    ensures text == [Digit(Undigit(text[0]).value), Digit(Undigit(text[1]).value),
                     Digit(Undigit(text[2]).value), Digit(Undigit(text[3]).value)] + text[4..]
  {
    UndigitInverse(text[0]);
    UndigitInverse(text[1]);
    UndigitInverse(text[2]);
    UndigitInverse(text[3]);
  }
}

/** XML text content: the escaper of internal/notify/toast.go:26-50 and a reader for what it writes. */
module XmlText {
  import opened Options
  import opened Bytes
  import opened Strconv

  /** The reference that stands for a rune: a predefined entity, or a decimal number for a non-ASCII rune. */
  function EntityName(r: char): Option<string> {
    if r == '&' then Some("amp")
    else if r == '<' then Some("lt")
    else if r == '>' then Some("gt")
    else if r == '"' then Some("quot")
    else if r == '\'' then Some("apos")
    else if r as int > 127 then Some("#" + Decimal(r as int))
    else None
  }

  function EscapedRune(r: char): string {
    match EntityName(r)
    case Some(name) => "&" + name + ";"
    case None => [r]
  }

  function Escaped(s: string): string {
    if s == "" then "" else EscapedRune(s[0]) + Escaped(s[1..])
  }

  method XmlEscapeText(s: string) returns (buf: string)
    ensures buf == Escaped(s)
  {
    buf := "";
    var i := 0;
    while i < |s|
      invariant 0 <= i <= |s| && buf + Escaped(s[i..]) == Escaped(s)
    {
      assert s[i..][1..] == s[i + 1..];
      Assoc(buf, EscapedRune(s[i]), Escaped(s[i + 1..]));
      buf := buf + EscapedRune(s[i]);
      i := i + 1;
    }
    assert s[i..] == "" && buf + "" == buf;
  }

  /** Plain ASCII that is neither markup nor a quote. */
  predicate SafeChar(c: char) {
    c as int < 128 && c != '<' && c != '>' && c != '"' && c != '\''
  }

  ghost predicate SafeText(s: string) { forall k :: 0 <= k < |s| ==> SafeChar(s[k]) }

  lemma {:induction false} EscapedRuneSafe(r: char)
    ensures SafeText(EscapedRune(r))
  {
    if EntityName(r).Some? { EntityNames(r); }
  }

  /** The escaped text is pure ASCII with no raw markup character or quote. */
  lemma {:induction false} EscapedIsSafe(s: string)
    ensures SafeText(Escaped(s))
  {
    if s != "" {
      EscapedRuneSafe(s[0]);
      EscapedIsSafe(s[1..]);
    }
  }

  predicate IsScalar(n: int) { 0 <= n < 0xD800 || 0xE000 <= n < 0x11_0000 }

  /** A predefined entity (section 4.6 of XML 1.0) or a decimal character reference (section 4.1). */
  function Referenced(name: string): Option<char> {
    if name == "amp" then Some('&')
    else if name == "lt" then Some('<')
    else if name == "gt" then Some('>')
    else if name == "quot" then Some('"')
    else if name == "apos" then Some('\'')
    else if |name| >= 2 && name[0] == '#' && AllDigits(name[1..]) && IsScalar(Value(name[1..])) then
      Some(Value(name[1..]) as char)
    else None
  }

  /** Character data with its references resolved. */
  function Decoded(s: string): Option<string>
    decreases |s|
  {
    if s == "" then Some("")
    else if s[0] == '<' then None
    else if s[0] == '&' then
      var i := IndexByte(s, ';');
      if i < 1 then None
      else
        match (Referenced(s[1..i]), Decoded(s[i + 1..]))
        case (Some(c), Some(rest)) => Some([c] + rest)
        case _ => None
    else
      match Decoded(s[1..])
      case Some(rest) => Some(s[..1] + rest)
      case None => None
  }

  lemma {:induction false} DecodedReference(name: string, t: string)
    requires ';' !in name
    ensures Decoded("&" + name + ";" + t)
            == (match (Referenced(name), Decoded(t)) case (Some(c), Some(rest)) => Some([c] + rest) case _ => None)
  {
    var s := "&" + name + ";" + t;
    assert s == ("&" + name) + [';'] + t;
    IndexByteOf("&" + name, ';', t);
    assert s[1..|name| + 1] == name && s[|name| + 2..] == t;
  }

  ghost predicate NameText(name: string) {
    SafeText(name) && ';' !in name && CR !in name
  }

  lemma {:induction false} DecimalName(n: nat)
    requires IsScalar(n) && n > 127
    ensures NameText("#" + Decimal(n)) && Referenced("#" + Decimal(n)) == Some(n as char)
  {
    var d := Decimal(n);
    DecimalRoundTrip(n);
    forall k | 0 <= k < |d| ensures IsDigit(d[k]) { DigitsOnly(d, d[k]); }
    assert ("#" + d)[1..] == d && ("#" + d)[0] == '#';
  }

  /** Each reference names the rune it stands for, and is made of safe characters. */
  lemma {:induction false} EntityNames(r: char)
    requires EntityName(r).Some?
    ensures Referenced(EntityName(r).value) == Some(r)
    ensures NameText(EntityName(r).value)
  {
    if r as int > 127 { DecimalName(r as int); }
  }

  lemma {:induction false} DecodedRune(r: char, t: string)
    requires Decoded(t).Some?
    ensures Decoded(EscapedRune(r) + t) == Some([r] + Decoded(t).value)
  {
    if EntityName(r).Some? {
      EntityNames(r);
      DecodedReference(EntityName(r).value, t);
    } else {
      assert ([r] + t)[1..] == t && ([r] + t)[..1] == [r];
    }
  }

  /** Decoding entities returns the original, for every string of Unicode scalar values. */
  lemma {:induction false} DecodedEscaped(s: string)
    ensures Decoded(Escaped(s)) == Some(s)
  {
    if s != "" {
      DecodedEscaped(s[1..]);
      DecodedRune(s[0], Escaped(s[1..]));
      assert [s[0]] + s[1..] == s;
    }
  }

  /** Line ends are normalised before parsing, section 2.11 of XML 1.0. */
  function EolNormalised(s: string): string
    decreases |s|
  {
    if s == "" then ""
    else if s[0] == CR && |s| >= 2 && s[1] == LF then [LF] + EolNormalised(s[2..])
    else (if s[0] == CR then [LF] else s[..1]) + EolNormalised(s[1..])
  }

  /** The Char production, section 2.2 of XML 1.0. */
  predicate IsXmlChar(c: char) {
    var n := c as int;
    n == 0x9 || n == 0xA || n == 0xD || 0x20 <= n <= 0xD7FF || 0xE000 <= n <= 0xFFFD || n >= 0x10000
  }

  predicate AllXmlChars(s: string) {
    s == "" || (IsXmlChar(s[0]) && AllXmlChars(s[1..]))
  }

  /** What a conforming parser reports for a piece of character data: every character, literal or referenced, must be
      a Char. */
  function ParsedText(s: string): Option<string> {
    match Decoded(EolNormalised(s))
    case Some(t) => if AllXmlChars(t) then Some(t) else None
    case None => None
  }

  lemma {:induction false} EolPlain(a: string, t: string)
    requires CR !in a
    ensures EolNormalised(a + t) == a + EolNormalised(t)
  {
    if a == "" {
      assert a + t == t && a + EolNormalised(t) == EolNormalised(t);
    } else {
      assert (a + t)[0] == a[0] && a[0] in a;
      assert (a + t)[1..] == a[1..] + t && (a + t)[..1] == a[..1];
      EolPlain(a[1..], t);
      assert a == a[..1] + a[1..];
      Assoc(a[..1], a[1..], EolNormalised(t));
    }
  }

  lemma {:induction false} EscapedRuneNoCR(r: char)
    requires r != CR
    ensures CR !in EscapedRune(r)
  {
    if EntityName(r).Some? {
      EntityNames(r);
    }
  }

  lemma {:induction false} EscapedCons(r: char, t: string)
    ensures Escaped([r] + t) == EscapedRune(r) + Escaped(t)
  {
    assert ([r] + t)[1..] == t;
  }

  lemma {:induction false} EolEscapedPlain(r: char, t: string)
    requires r != CR && EolNormalised(Escaped(t)) == Escaped(EolNormalised(t))
    ensures EolNormalised(Escaped([r] + t)) == Escaped(EolNormalised([r] + t))
  {
    EscapedRuneNoCR(r);
    EscapedCons(r, t);
    EolPlain(EscapedRune(r), Escaped(t));
    EolPlain([r], t);
    EscapedCons(r, EolNormalised(t));
  }

  lemma {:induction false} EolEscapedLone(t: string)
    requires EolNormalised(Escaped(t)) == Escaped(EolNormalised(t)) && (t == "" || t[0] != LF)
    ensures EolNormalised(Escaped([CR] + t)) == Escaped(EolNormalised([CR] + t))
  {
    EscapedCons(CR, t);
    EscapedCons(LF, EolNormalised(t));
  }

  /** Escaping leaves line ends alone, so normalising them commutes with it. */
  lemma {:induction false} EolEscaped(s: string)
    ensures EolNormalised(Escaped(s)) == Escaped(EolNormalised(s))
    decreases |s|
  {
    if s != "" {
      var t := s[1..];
      assert s == [s[0]] + t;
      EolEscaped(t);
      if s[0] != CR {
        EolEscapedPlain(s[0], t);
      } else if t != "" && t[0] == LF {
        assert s == [CR, LF] + s[2..];
        EolEscaped(s[2..]);
      } else {
        EolEscapedLone(t);
      }
    }
  }

  lemma {:induction false} EolUnchangedIff(s: string)
    ensures CR !in EolNormalised(s)
    ensures EolNormalised(s) == s <==> CR !in s
    decreases |s|
  {
    EolNoCR(s);
    if CR !in s {
      EolPlain(s, "");
      assert s + "" == s;
    }
  }

  lemma {:induction false} EolNoCR(s: string)
    ensures CR !in EolNormalised(s)
    decreases |s|
  {
    if s != "" {
      EolNoCR(s[1..]);
      if |s| >= 2 { EolNoCR(s[2..]); }
    }
  }

  /** A conforming XML parser reports the original text exactly when it is made of XML characters and holds no carriage
      return; other control characters are rejected and line ends are rewritten. */
  lemma {:induction false} ParsedIff(s: string)
    ensures ParsedText(Escaped(s)) == Some(s) <==> AllXmlChars(s) && CR !in s
  {
    EolEscaped(s);
    DecodedEscaped(EolNormalised(s));
    EolUnchangedIff(s);
  }
}

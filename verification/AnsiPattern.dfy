/** The escape-sequence pattern as a regular expression over runes, internal/serial/session.go:17, and its language. */
module AnsiPattern {
  import opened AnsiEscape

  /** One rune in (or, negated, not in) some ASCII ranges, and the operators the pattern uses. */
  datatype Regex =
    | Class(negated: bool, ranges: seq<(char, char)>)
    | Cat(first: Regex, second: Regex)
    | Alt(left: Regex, right: Regex)
    | Opt(inner: Regex)
    | Star(inner: Regex)

  const FINAL := Class(false, [('A', 'Z'), ('a', 'z')])
  const PARAM := Class(false, [('0', '9'), (';', ';')])
  const OTHER := Class(true, [('[', '['), ('A', 'Z'), ('a', 'z')])

  function Literal(c: char): Regex { Class(false, [(c, c)]) }

  const CSI := Cat(Literal('\U{1B}'), Cat(Literal('['), Cat(Star(PARAM), FINAL)))
  const SHORT := Cat(Literal('\U{1B}'), Cat(Opt(OTHER), FINAL))
  const PATTERN := Alt(CSI, SHORT)

  predicate InRanges(c: char, ranges: seq<(char, char)>) {
    ranges != [] && (ranges[0].0 <= c <= ranges[0].1 || InRanges(c, ranges[1..]))
  }

  /** `s` is one whole rune. */
  predicate OneRune(s: string) { s != "" && RuneWidth(s) == |s| }

  /** The strings an expression stands for; a rune above ASCII is in no range. */
  ghost predicate InLanguage(re: Regex, s: string)
    decreases re, |s|
  {
    match re
    case Class(negated, ranges) =>
      OneRune(s) && negated != (|s| == 1 && s[0] as int < 0x80 && InRanges(s[0], ranges))
    case Cat(first, second) => exists k: nat :: k <= |s| && InLanguage(first, s[..k]) && InLanguage(second, s[k..])
    case Alt(left, right) => InLanguage(left, s) || InLanguage(right, s)
    case Opt(inner) => s == "" || InLanguage(inner, s)
    case Star(inner) =>
      s == "" || exists k: nat :: 0 < k <= |s| && InLanguage(inner, s[..k]) && InLanguage(re, s[k..])
  }

  lemma {:induction false} InOne(c: char, lo: char, hi: char)
    ensures InRanges(c, [(lo, hi)]) <==> lo <= c <= hi
  {
    assert [(lo, hi)][1..] == [];
  }

  lemma {:induction false} InTwo(c: char, r: (char, char), rest: seq<(char, char)>)
    ensures InRanges(c, [r] + rest) <==> r.0 <= c <= r.1 || InRanges(c, rest)
  {
    assert ([r] + rest)[1..] == rest;
  }

  lemma {:induction false} LiteralIs(c: char, s: string)
    requires c as int < 0x80
    ensures InLanguage(Literal(c), s) <==> s == [c]
  {
    if |s| == 1 { InOne(s[0], c, c); }
  }

  lemma {:induction false} FinalIs(s: string)
    ensures InLanguage(FINAL, s) <==> |s| == 1 && IsLetter(s[0])
  {
    if s != "" { RangesAre(s[0]); }
  }

  lemma {:induction false} RangesAre(c: char)
    ensures InRanges(c, FINAL.ranges) <==> IsLetter(c)
    ensures InRanges(c, PARAM.ranges) <==> IsParam(c)
    ensures InRanges(c, OTHER.ranges) <==> c == '[' || IsLetter(c)
  {
    InOne(c, 'a', 'z');
    InTwo(c, ('A', 'Z'), [('a', 'z')]);
    assert FINAL.ranges == [('A', 'Z')] + [('a', 'z')];
    InOne(c, ';', ';');
    InTwo(c, ('0', '9'), [(';', ';')]);
    assert PARAM.ranges == [('0', '9')] + [(';', ';')];
    InTwo(c, ('[', '['), FINAL.ranges);
    assert OTHER.ranges == [('[', '[')] + FINAL.ranges;
  }

  lemma {:induction false} ParamsAre(s: string)
    ensures InLanguage(Star(PARAM), s) <==> forall i :: 0 <= i < |s| ==> IsParam(s[i])
    decreases |s|
  {
    if s != "" {
      RangesAre(s[0]);
      ParamsAre(s[1..]);
      if k: nat :| 0 < k <= |s| && InLanguage(PARAM, s[..k]) && InLanguage(Star(PARAM), s[k..]) {
        assert k == 1;
        assert forall i :: 1 <= i < |s| ==> s[i] == s[1..][i - 1];
      }
      if forall i :: 0 <= i < |s| ==> IsParam(s[i]) { assert InLanguage(PARAM, s[..1]); }
    }
  }

  /** A rune in front of an ASCII character is as wide as it is alone. */
  lemma {:induction false} WidthAlone(s: string, w: nat)
    requires 0 < w < |s| && s[w] as int < 0x80
    ensures RuneWidth(s) == w <==> RuneWidth(s[..w]) == w
  {
  }

  lemma {:induction false} OtherIs(s: string)
    ensures InLanguage(OTHER, s) <==> OneRune(s) && !(|s| == 1 && (s[0] == '[' || IsLetter(s[0])))
  {
    if s != "" { RangesAre(s[0]); }
  }

  /** A literal in front takes the first character. */
  lemma {:induction false} LiteralThen(c: char, re: Regex, s: string)
    requires c as int < 0x80
    ensures InLanguage(Cat(Literal(c), re), s) <==> s != "" && s[0] == c && InLanguage(re, s[1..])
  {
    if k: nat :| k <= |s| && InLanguage(Literal(c), s[..k]) && InLanguage(re, s[k..]) { LiteralIs(c, s[..k]); }
    if s != "" && s[0] == c && InLanguage(re, s[1..]) {
      LiteralIs(c, s[..1]);
      assert s[..1] == [c];
    }
  }

  /** A final letter takes the last character. */
  lemma {:induction false} ThenFinal(re: Regex, s: string)
    ensures InLanguage(Cat(re, FINAL), s)
            <==> s != "" && IsLetter(s[|s| - 1]) && InLanguage(re, s[..|s| - 1])
  {
    if k: nat :| k <= |s| && InLanguage(re, s[..k]) && InLanguage(FINAL, s[k..]) { FinalIs(s[k..]); }
    if s != "" && IsLetter(s[|s| - 1]) && InLanguage(re, s[..|s| - 1]) { FinalIs(s[|s| - 1..]); }
  }

  lemma {:induction false} ParamsThenFinal(u: string)
    ensures InLanguage(Cat(Star(PARAM), FINAL), u)
            <==> u != "" && IsLetter(u[|u| - 1]) && forall i :: 0 <= i < |u| - 1 ==> IsParam(u[i])
  {
    ThenFinal(Star(PARAM), u);
    if u != "" { ParamsAre(u[..|u| - 1]); }
  }

  lemma {:induction false} CsiIs(s: string)
    ensures InLanguage(CSI, s) <==> IsCsi(s, |s|)
  {
    LiteralThen('\U{1B}', Cat(Literal('['), Cat(Star(PARAM), FINAL)), s);
    if |s| >= 2 {
      var u := s[2..];
      LiteralThen('[', Cat(Star(PARAM), FINAL), s[1..]);
      assert s[1..][1..] == u;
      ParamsThenFinal(u);
      assert forall i :: 2 <= i < |s| ==> s[i] == u[i - 2];
      assert forall i :: 0 <= i < |u| ==> u[i] == s[i + 2];
    } else if |s| == 1 {
      LiteralThen('[', Cat(Star(PARAM), FINAL), s[1..]);
    }
  }

  lemma {:induction false} ShortIs(s: string)
    ensures InLanguage(SHORT, s) <==> IsShort(s, |s|) || IsLong(s, |s|)
  {
    LiteralThen('\U{1B}', Cat(Opt(OTHER), FINAL), s);
    if s != "" {
      var t := s[1..];
      ThenFinal(Opt(OTHER), t);
      if t != "" {
        var x := t[..|t| - 1];
        OtherIs(x);
        if x != "" && IsLetter(t[|t| - 1]) { WidthAlone(t, |x|); }
      }
    }
  }

  /** What the pattern matches at the start of a string, bytes after the match included or not, is its language. */
  lemma {:induction false} PatternIs(s: string, n: nat)
    requires n <= |s|
    ensures Matches(s, n) <==> InLanguage(PATTERN, s[..n])
  {
    CsiIs(s[..n]);
    ShortIs(s[..n]);
    LongAlone(s, n);
  }

  lemma {:induction false} LongAlone(s: string, n: nat)
    requires n <= |s|
    ensures IsLong(s, n) <==> IsLong(s[..n], n)
  {
    if n >= 3 && IsLetter(s[n - 1]) {
      WidthAlone(s[1..], n - 2);
      WidthAlone(s[..n][1..], n - 2);
      assert s[1..][..n - 2] == s[..n][1..][..n - 2];
    }
  }
}

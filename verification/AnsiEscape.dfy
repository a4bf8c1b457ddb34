/** The escape-sequence pattern of internal/serial/session.go:17,

        ESC [ params final  |  ESC (one rune that is neither '[' nor a letter)? letter

    and its removal by a left-to-right scan that steps over whole UTF-8 runes, as the regexp engine does. */
module AnsiEscape {
  import opened Bytes

  const ESC: char := '\U{1B}'

  predicate IsLetter(c: char) { 'A' <= c <= 'Z' || 'a' <= c <= 'z' }

  predicate IsParam(c: char) { '0' <= c <= '9' || c == ';' }

  predicate InRange(s: string, i: nat, lo: int, hi: int) {
    i < |s| && lo <= s[i] as int <= hi
  }

  predicate IsCont(s: string, i: nat) { InRange(s, i, 0x80, 0xBF) }

  /** utf8.DecodeRune: the width of the first rune; an invalid byte is one rune of width 1. */
  function RuneWidth(s: string): (w: nat)
    requires s != ""
    ensures 1 <= w <= |s|
    ensures forall k :: 1 <= k < w ==> 0x80 <= s[k] as int
  {
    if InRange(s, 0, 0xC2, 0xDF) && IsCont(s, 1) then 2
    else if InRange(s, 0, 0xE0, 0xE0) && InRange(s, 1, 0xA0, 0xBF) && IsCont(s, 2) then 3
    else if InRange(s, 0, 0xED, 0xED) && InRange(s, 1, 0x80, 0x9F) && IsCont(s, 2) then 3
    else if InRange(s, 0, 0xE1, 0xEF) && s[0] as int != 0xED && IsCont(s, 1) && IsCont(s, 2) then 3
    else if InRange(s, 0, 0xF0, 0xF0) && InRange(s, 1, 0x90, 0xBF) && IsCont(s, 2) && IsCont(s, 3) then 4
    else if InRange(s, 0, 0xF1, 0xF3) && IsCont(s, 1) && IsCont(s, 2) && IsCont(s, 3) then 4
    else if InRange(s, 0, 0xF4, 0xF4) && InRange(s, 1, 0x80, 0x8F) && IsCont(s, 2) && IsCont(s, 3) then 4
    else 1
  }

  /** First alternative: ESC '[' params letter, `n` bytes long. */
  ghost predicate IsCsi(s: string, n: nat) {
    && 3 <= n <= |s|
    && s[0] == ESC && s[1] == '['
    && (forall i :: 2 <= i < n - 1 ==> IsParam(s[i]))
    && IsLetter(s[n - 1])
  }

  /** Second alternative without its optional rune. */
  ghost predicate IsShort(s: string, n: nat) {
    n == 2 <= |s| && s[0] == ESC && IsLetter(s[1])
  }

  /** Second alternative with its optional rune. */
  ghost predicate IsLong(s: string, n: nat) {
    && 3 <= n <= |s|
    && s[0] == ESC && s[1] != '[' && !IsLetter(s[1])
    && n == RuneWidth(s[1..]) + 2
    && IsLetter(s[n - 1])
  }

  /** The pattern matches the first `n` bytes of `s`. */
  ghost predicate Matches(s: string, n: nat) {
    IsCsi(s, n) || IsShort(s, n) || IsLong(s, n)
  }

  /** How many parameter bytes `s` starts with. */
  function ParamRun(s: string): (k: nat)
    ensures k <= |s|
    ensures forall i :: 0 <= i < k ==> IsParam(s[i])
    ensures k < |s| ==> !IsParam(s[k])
  {
    if s == "" || !IsParam(s[0]) then 0 else 1 + ParamRun(s[1..])
  }

  /** The scanner: the length of the match at the start of `s`, 0 when there is none. */
  function MatchLen(s: string): (n: nat)
    ensures n <= |s|
  {
    if |s| < 2 || s[0] != ESC then 0
    else if s[1] == '[' then
      var k := ParamRun(s[2..]);
      if k + 2 < |s| && IsLetter(s[k + 2]) then k + 3 else 0
    else if IsLetter(s[1]) then 2
    else
      var w := RuneWidth(s[1..]);
      if w + 1 < |s| && IsLetter(s[w + 1]) then w + 2 else 0
  }

  lemma {:induction false} ParamRunIs(s: string, n: nat)
    requires IsCsi(s, n)
    ensures ParamRun(s[2..]) == n - 3
  {
    var k := ParamRun(s[2..]);
    var t := s[2..];
    assert forall i :: 0 <= i < |t| ==> t[i] == s[i + 2];
    assert !IsParam(t[n - 3]);
  }

  lemma {:induction false} ScannerIsSound(s: string)
    requires MatchLen(s) > 0
    ensures Matches(s, MatchLen(s))
  {
    if s[1] == '[' {
      var t := s[2..];
      assert forall i :: 2 <= i < |s| ==> s[i] == t[i - 2];
      assert IsCsi(s, MatchLen(s));
    }
  }

  /** The pattern is unambiguous: at a position there is at most one match, and the scanner finds it. */
  lemma {:induction false} Unambiguous(s: string, n: nat)
    ensures Matches(s, n) <==> n == MatchLen(s) && n > 0
  {
    if MatchLen(s) > 0 { ScannerIsSound(s); }
    if IsCsi(s, n) { ParamRunIs(s, n); }
  }

  /** ansiEscape.ReplaceAllString(s, ""): the engine tries a match at each rune and steps over runes. */
  function Strip(s: string): string
    decreases |s|
  {
    if s == "" then ""
    else
      var n := MatchLen(s);
      if n > 0 then Strip(s[n..])
      else
        var w := RuneWidth(s);
        s[..w] + Strip(s[w..])
  }

  /** The same removal scanning byte by byte. */
  function StripBytes(s: string): string
    decreases |s|
  {
    if s == "" then ""
    else
      var n := MatchLen(s);
      if n > 0 then StripBytes(s[n..]) else s[..1] + StripBytes(s[1..])
  }

  /** A stretch of kept bytes followed by one removed match. */
  datatype Piece = Piece(gap: string, hit: string)

  function Assemble(pieces: seq<Piece>, tail: string): string {
    if pieces == [] then tail else pieces[0].gap + pieces[0].hit + Assemble(pieces[1..], tail)
  }

  function Kept(pieces: seq<Piece>, tail: string): string {
    if pieces == [] then tail else pieces[0].gap + Kept(pieces[1..], tail)
  }

  /** No match starts at any of the first `g` positions of `s`. */
  ghost predicate NoMatchBefore(s: string, g: nat) {
    g <= |s| && forall i, n :: 0 <= i < g ==> !Matches(s[i..], n)
  }

  /** The declarative meaning of "all leftmost non-overlapping matches": each gap holds no match start,
      each hit is a match where it stands, and the tail holds no match. */
  ghost predicate LeftmostCut(pieces: seq<Piece>, tail: string) {
    if pieces == [] then NoMatchBefore(tail, |tail|)
    else
      var s := Assemble(pieces, tail);
      && NoMatchBefore(s, |pieces[0].gap|)
      && pieces[0].hit != ""
      && Matches(s[|pieces[0].gap|..], |pieces[0].hit|)
      && LeftmostCut(pieces[1..], tail)
  }

  /** Where no match starts, bytes are kept. */
  lemma {:induction false} GapIsKept(s: string, g: nat)
    requires g <= |s| && forall i :: 0 <= i < g ==> MatchLen(s[i..]) == 0
    ensures StripBytes(s) == s[..g] + StripBytes(s[g..])
  {
    if g == 0 {
      assert s[..g] == "" && s[g..] == s;
    } else {
      assert s[0..] == s;
      forall i | 0 <= i < g - 1 ensures MatchLen(s[1..][i..]) == 0 {
        assert s[1..][i..] == s[i + 1..];
      }
      GapIsKept(s[1..], g - 1);
    }
  }

  /** The bytes inside a rune never start a match, so scanning by runes and by bytes agree. */
  lemma {:induction false} RunesOrBytes(s: string)
    ensures Strip(s) == StripBytes(s)
    decreases |s|
  {
    if s != "" {
      var n := MatchLen(s);
      if n > 0 {
        RunesOrBytes(s[n..]);
      } else {
        var w := RuneWidth(s);
        assert s[0..] == s;
        assert forall i :: 1 <= i < w ==> s[i..][0] == s[i];
        GapIsKept(s, w);
        RunesOrBytes(s[w..]);
      }
    }
  }

  lemma {:induction false} StripPiece(s: string, g: nat, n: nat)
    requires NoMatchBefore(s, g)
    requires n > 0 && Matches(s[g..], n)
    ensures StripBytes(s) == s[..g] + StripBytes(s[g..][n..])
  {
    forall i | 0 <= i < g ensures MatchLen(s[i..]) == 0 {
      Unambiguous(s[i..], MatchLen(s[i..]));
    }
    GapIsKept(s, g);
    Unambiguous(s[g..], n);
  }

  lemma {:induction false} StripTail(s: string)
    requires NoMatchBefore(s, |s|)
    ensures StripBytes(s) == s
  {
    forall i | 0 <= i < |s| ensures MatchLen(s[i..]) == 0 {
      Unambiguous(s[i..], MatchLen(s[i..]));
    }
    GapIsKept(s, |s|);
    assert s[..|s|] == s;
  }

  lemma {:induction false} Pieces(gap: string, hit: string, rest: string)
    ensures (gap + hit + rest)[..|gap|] == gap
    ensures (gap + hit + rest)[|gap|..][|hit|..] == rest
  {
  }

  lemma {:induction false} BytesAreLeftmostRemoval(pieces: seq<Piece>, tail: string)
    requires LeftmostCut(pieces, tail)
    ensures StripBytes(Assemble(pieces, tail)) == Kept(pieces, tail)
  {
    if pieces == [] {
      StripTail(tail);
    } else {
      var gap, hit, rest := pieces[0].gap, pieces[0].hit, Assemble(pieces[1..], tail);
      StripPiece(Assemble(pieces, tail), |gap|, |hit|);
      Pieces(gap, hit, rest);
      BytesAreLeftmostRemoval(pieces[1..], tail);
    }
  }

  /** Refinement: whatever leftmost cut describes a string, the scanner keeps exactly the cut's gaps and tail. */
  lemma {:induction false} StripIsLeftmostRemoval(pieces: seq<Piece>, tail: string)
    requires LeftmostCut(pieces, tail)
    ensures Strip(Assemble(pieces, tail)) == Kept(pieces, tail)
  {
    RunesOrBytes(Assemble(pieces, tail));
    BytesAreLeftmostRemoval(pieces, tail);
  }

  /** Every string has a leftmost cut. */
  lemma {:induction false} LeftmostCutExists(s: string) returns (pieces: seq<Piece>, tail: string)
    ensures LeftmostCut(pieces, tail) && Assemble(pieces, tail) == s
    decreases |s|
  {
    var g := 0;
    while g < |s| && MatchLen(s[g..]) == 0
      invariant NoMatchBefore(s, g)
    {
      forall n ensures !Matches(s[g..], n) { Unambiguous(s[g..], n); }
      g := g + 1;
    }
    if g == |s| {
      pieces, tail := [], s;
    } else {
      var n := MatchLen(s[g..]);
      Unambiguous(s[g..], n);
      var more, t := LeftmostCutExists(s[g + n..]);
      var head := Piece(s[..g], s[g..][..n]);
      pieces, tail := [head] + more, t;
      assert pieces[1..] == more;
      assert s == head.gap + head.hit + s[g + n..];
    }
  }

  lemma {:induction false} StripIsSubsequence(s: string)
    ensures Subsequence(Strip(s), s)
    decreases |s|
  {
    if s != "" {
      var n := MatchLen(s);
      if n > 0 {
        StripIsSubsequence(s[n..]);
        SubsequencePrepend(s[..n], Strip(s[n..]), s[n..]);
        assert s[..n] + s[n..] == s;
      } else {
        var w := RuneWidth(s);
        StripIsSubsequence(s[w..]);
        SubsequenceRefl(s[..w]);
        SubsequenceConcat(s[..w], s[..w], Strip(s[w..]), s[w..]);
        assert s[..w] + s[w..] == s;
      }
    }
  }

  /** Whether the pattern matches `n` bytes depends on those bytes alone. */
  lemma {:induction false} MatchIsLocal(s: string, t: string, n: nat)
    requires Matches(s, n) && n <= |t| && s[..n] == t[..n]
    ensures Matches(t, n)
  {
    assert forall i :: 0 <= i < n ==> s[i] == s[..n][i] && t[i] == t[..n][i];
    if IsLong(s, n) {
      assert forall i :: 0 <= i < n - 1 ==> s[1..][i] == s[i + 1] && t[1..][i] == t[i + 1];
      assert RuneWidth(t[1..]) == RuneWidth(s[1..]);
    }
  }

  lemma {:induction false} KeptShorter(pieces: seq<Piece>, tail: string)
    requires LeftmostCut(pieces, tail)
    ensures |Kept(pieces, tail)| <= |Assemble(pieces, tail)|
    ensures pieces != [] ==> |Kept(pieces, tail)| < |Assemble(pieces, tail)|
  {
    if pieces != [] { KeptShorter(pieces[1..], tail); }
  }

  /** Stripping changes nothing exactly where there is no match. */
  lemma {:induction false} StripFixed(s: string)
    ensures Strip(s) == s <==> NoMatchBefore(s, |s|)
  {
    if NoMatchBefore(s, |s|) {
      RunesOrBytes(s);
      StripTail(s);
    } else {
      var pieces, tail := LeftmostCutExists(s);
      StripIsLeftmostRemoval(pieces, tail);
      KeptShorter(pieces, tail);
    }
  }

  /** No match starts in a gap and ends in what the removal brought next to it. */
  ghost predicate SeamFree(pieces: seq<Piece>, tail: string) {
    pieces == [] ||
    (var gap := pieces[0].gap;
     && SeamFree(pieces[1..], tail)
     && forall i: nat, n: nat :: i < |gap| < i + n ==> !Matches((gap + Kept(pieces[1..], tail))[i..], n))
  }

  lemma {:induction false} NoMatchAfter(gap: string, rest: string, hit: string, more: string)
    requires NoMatchBefore(gap + hit + more, |gap|)
    ensures NoMatchBefore(gap + rest, |gap + rest|) <==>
            && NoMatchBefore(rest, |rest|)
            && forall i: nat, n: nat :: i < |gap| < i + n ==> !Matches((gap + rest)[i..], n)
  {
    var k, s := gap + rest, gap + hit + more;
    forall i: nat, n: nat | i < |gap| && i + n <= |gap| ensures !Matches(k[i..], n) {
      if Matches(k[i..], n) {
        assert k[i..][..n] == s[i..][..n];
        MatchIsLocal(k[i..], s[i..], n);
        assert false;
      }
    }
    assert forall i :: 0 <= i < |rest| ==> k[|gap| + i..] == rest[i..];
    if NoMatchBefore(k, |k|) {
      forall i, n: nat | 0 <= i < |rest| ensures !Matches(rest[i..], n) { assert !Matches(k[|gap| + i..], n); }
    } else if NoMatchBefore(rest, |rest|) {
      forall i, n: nat | |gap| <= i < |k| ensures !Matches(k[i..], n) { assert k[i..] == rest[i - |gap|..]; }
    }
  }

  lemma {:induction false} SeamFreeIs(pieces: seq<Piece>, tail: string)
    requires LeftmostCut(pieces, tail)
    ensures NoMatchBefore(Kept(pieces, tail), |Kept(pieces, tail)|) <==> SeamFree(pieces, tail)
  {
    if pieces != [] {
      SeamFreeIs(pieces[1..], tail);
      NoMatchAfter(pieces[0].gap, Kept(pieces[1..], tail), pieces[0].hit, Assemble(pieces[1..], tail));
    }
  }

  /** A second removal finds nothing exactly when the first one brought no match together across a removed one. */
  lemma {:induction false} StripIdempotentIff(pieces: seq<Piece>, tail: string)
    requires LeftmostCut(pieces, tail)
    ensures var s := Assemble(pieces, tail); Strip(Strip(s)) == Strip(s) <==> SeamFree(pieces, tail)
  {
    StripIsLeftmostRemoval(pieces, tail);
    StripFixed(Kept(pieces, tail));
    SeamFreeIs(pieces, tail);
  }

  lemma {:induction false} StripHit(hit: string, t: string)
    requires hit != "" && MatchLen(hit + t) == |hit|
    ensures Strip(hit + t) == Strip(t)
  {
    assert (hit + t)[|hit|..] == t;
  }

  /** Removal is not idempotent: taking one match out can bring another together. */
  lemma {:induction false} StripTwice()
    ensures Strip([ESC] + ([ESC, '[', 'm'] + ['A'])) == [ESC, 'A']
    ensures Strip([ESC, 'A']) == ""
  {
    var csi := [ESC, '[', 'm'];
    assert IsCsi(csi + ['A'], 3);
    Unambiguous(csi + ['A'], 3);
    StripHit(csi, ['A']);
  }
}

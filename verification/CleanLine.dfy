/** Cleaning one raw line before it is stored: internal/serial/session.go:191-195. */
module CleanLine {
  import opened Bytes
  import opened AnsiEscape

  /** strings.TrimRight(s, "\r"). */
  function TrimRightCR(s: string): (r: string)
    ensures r <= s && (forall k :: |r| <= k < |s| ==> s[k] == CR)
    ensures r == "" || r[|r| - 1] != CR
  {
    if s != "" && s[|s| - 1] == CR then TrimRightCR(s[..|s| - 1]) else s
  }

  /** strings.LastIndex for one byte. */
  function LastIndexByte(s: string, c: char): (i: int)
    ensures -1 <= i < |s|
    ensures i >= 0 ==> s[i] == c
    ensures forall k :: i < k < |s| ==> s[k] != c
  {
    if s == "" then -1
    else if s[|s| - 1] == c then |s| - 1
    else
      var t := s[..|s| - 1];
      assert forall k :: 0 <= k < |t| ==> t[k] == s[k];
      LastIndexByte(t, c)
  }

  /** What a terminal would still show: the text after the last carriage return that is not trailing. */
  function Visible(line: string): string {
    var t := TrimRightCR(line);
    var i := LastIndexByte(t, CR);
    if i >= 0 then t[i + 1..] else t
  }

  function Clean(raw: string): string {
    Strip(Visible(raw))
  }

  ghost predicate AllCR(s: string) { forall k :: 0 <= k < |s| ==> s[k] == CR }

  /** `line` is overwritten text `p`, the surviving text `v`, and trailing carriage returns `t`. */
  ghost predicate Overwritten(line: string, p: string, v: string, t: string) {
    && line == p + v + t
    && AllCR(t) && CR !in v
    && (p == "" || p[|p| - 1] == CR)
    && (v == "" ==> p == "")
  }

  lemma {:induction false} NotAfter(s: string, lo: nat, c: char)
    requires lo <= |s| && forall k :: lo <= k < |s| ==> s[k] != c
    ensures c !in s[lo..]
  {
    var t := s[lo..];
    forall k | 0 <= k < |t| ensures t[k] != c {
      assert t[k] == s[lo + k];
    }
  }

  /** Everything after the last CR of `r` survives. */
  lemma {:induction false} LastStretch(r: string, i: nat)
    requires i == LastIndexByte(r, CR)
    ensures r == r[..i + 1] + r[i + 1..] && CR !in r[i + 1..]
  {
    NotAfter(r, i + 1, CR);
  }

  lemma {:induction false} VisibleCut(line: string) returns (p: string, t: string)
    ensures Overwritten(line, p, Visible(line), t)
  {
    var r := TrimRightCR(line);
    var i := LastIndexByte(r, CR);
    t := line[|r|..];
    if i < 0 {
      p := "";
      assert p + r == r;
      NotAfter(r, 0, CR);
    } else {
      p := r[..i + 1];
      LastStretch(r, i);
    }
  }

  /** The surviving text is determined by those conditions alone. */
  lemma {:induction false} VisibleIsUnique(line: string, p: string, v: string, t: string)
    requires Overwritten(line, p, v, t)
    ensures Visible(line) == v
  {
    var q, u := VisibleCut(line);
    var w := Visible(line);
    SameCut(line, p, v, t, q, w, u);
  }

  lemma {:induction false} SameCut(line: string, p: string, v: string, t: string, q: string, w: string, u: string)
    requires Overwritten(line, p, v, t) && Overwritten(line, q, w, u)
    ensures v == w
  {
    TrailLength(line, p, v, t, q, w, u);
    TrailLength(line, q, w, u, p, v, t);
    HeadLength(line, p, v, t, q, w, u);
    HeadLength(line, q, w, u, p, v, t);
    assert v == line[|p|..|p| + |v|] && w == line[|q|..|q| + |w|];
  }

  lemma {:induction false} TrailLength(line: string, p: string, v: string, t: string, q: string, w: string, u: string)
    requires Overwritten(line, p, v, t) && Overwritten(line, q, w, u)
    ensures |t| <= |u|
  {
    if w != "" {
      assert w[|w| - 1] in w && line[|q| + |w| - 1] == w[|w| - 1];
      assert forall k :: |p| + |v| <= k < |line| ==> line[k] == t[k - |p| - |v|];
    }
  }

  lemma {:induction false} HeadLength(line: string, p: string, v: string, t: string, q: string, w: string, u: string)
    requires Overwritten(line, p, v, t) && Overwritten(line, q, w, u) && |t| == |u|
    ensures |p| <= |q|
  {
    if p != "" {
      assert line[|p| - 1] == CR;
      assert forall k :: |q| <= k < |q| + |w| ==> line[k] == w[k - |q|] && w[k - |q|] in w;
    }
  }

  /** Some overwritten text, surviving text and leftmost cut of it exist for every raw line. */
  lemma {:induction false} CleanCutExists(raw: string)
    returns (p: string, pieces: seq<Piece>, tail: string, t: string)
    ensures LeftmostCut(pieces, tail) && Overwritten(raw, p, Assemble(pieces, tail), t)
  {
    p, t := VisibleCut(raw);
    pieces, tail := LeftmostCutExists(Visible(raw));
  }

  /** The stored line is the surviving text with its leftmost escape sequences taken out, whatever p and t are. */
  lemma {:induction false} CleanIs(raw: string, p: string, pieces: seq<Piece>, tail: string, t: string)
    requires LeftmostCut(pieces, tail) && Overwritten(raw, p, Assemble(pieces, tail), t)
    ensures Clean(raw) == Kept(pieces, tail)
  {
    VisibleIsUnique(raw, p, Assemble(pieces, tail), t);
    StripIsLeftmostRemoval(pieces, tail);
  }

  /** A stored line is the raw line with bytes deleted, and holds no CR; an LF-free line stays LF-free. */
  lemma {:induction false} CleanProperties(raw: string)
    ensures Subsequence(Clean(raw), raw)
    ensures CR !in Clean(raw)
    ensures LF !in raw ==> LF !in Clean(raw)
  {
    var v := Visible(raw);
    var p, t := VisibleCut(raw);
    StripIsSubsequence(v);
    SubsequencePrepend(p, Clean(raw), v);
    assert p + v + t == raw && (p + v) + t == raw;
    assert Subsequence<char>([], t);
    SubsequenceConcat(Clean(raw), p + v, [], t);
    assert Clean(raw) + [] == Clean(raw);
    if CR in Clean(raw) { SubsequenceMembers(Clean(raw), v, CR); }
    if LF in Clean(raw) { SubsequenceMembers(Clean(raw), raw, LF); }
  }

  /** Cleaning a list of raw lines. */
  function CleanAll(raws: seq<string>): (lines: seq<string>)
    ensures |lines| == |raws|
  {
    if raws == [] then [] else [Clean(raws[0])] + CleanAll(raws[1..])
  }

  lemma {:induction false} CleanAllAt(raws: seq<string>, k: nat)
    requires k < |raws|
    ensures CleanAll(raws)[k] == Clean(raws[k])
  {
    if k > 0 { CleanAllAt(raws[1..], k - 1); }
  }

  lemma {:induction false} CleanAllConcat(a: seq<string>, b: seq<string>)
    ensures CleanAll(a + b) == CleanAll(a) + CleanAll(b)
  {
    if a == [] {
      assert a + b == b;
    } else {
      assert (a + b)[1..] == a[1..] + b;
      CleanAllConcat(a[1..], b);
    }
  }
}

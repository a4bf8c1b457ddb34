/** Splitting a byte stream at LF: the batch specification the incremental readers are held to. */
module Lines {
  import opened Bytes

  /** The complete lines of a stream, without their LF. */
  function Complete(s: string): (lines: seq<string>)
    decreases |s|
  {
    var i := IndexByte(s, LF);
    if i < 0 then [] else [s[..i]] + Complete(s[i + 1..])
  }

  /** What follows the last LF. */
  function Leftover(s: string): (rest: string)
    decreases |s|
  {
    var i := IndexByte(s, LF);
    if i < 0 then s else Leftover(s[i + 1..])
  }

  /** Every line followed by one LF. */
  function Unlines(lines: seq<string>): string {
    if lines == [] then "" else lines[0] + [LF] + Unlines(lines[1..])
  }

  lemma {:induction false} CompleteCons(line: string, s: string)
    requires LF !in line
    ensures Complete(line + [LF] + s) == [line] + Complete(s)
    ensures Leftover(line + [LF] + s) == Leftover(s)
  {
    IndexByteOf(line, LF, s);
    assert (line + [LF] + s)[..|line|] == line;
    assert (line + [LF] + s)[|line| + 1..] == s;
  }

  lemma {:induction false} UnlinesCons(line: string, lines: seq<string>)
    ensures Unlines([line] + lines) == line + [LF] + Unlines(lines)
  {
    assert ([line] + lines)[1..] == lines;
  }

  /** A stream holding an LF is its first line, the LF and the rest. */
  lemma {:induction false} Uncons(s: string) returns (line: string, t: string)
    requires LF in s
    ensures s == line + [LF] + t && LF !in line
    ensures Complete(s) == [line] + Complete(t) && Leftover(s) == Leftover(t)
  {
    var i := IndexByte(s, LF);
    IndexByteFinds(s, LF);
    line, t := s[..i], s[i + 1..];
    assert s == line + [LF] + t;
  }

  /** Nothing is lost: the raw lines rejoined with LF, then the leftover, are the stream. */
  lemma {:induction false} Rejoin(s: string)
    ensures Unlines(Complete(s)) + Leftover(s) == s
    decreases |s|
  {
    if LF in s {
      var line, t := Uncons(s);
      Rejoin(t);
      UnlinesCons(line, Complete(t));
      Assoc(line + [LF], Unlines(Complete(t)), Leftover(t));
    } else {
      IndexByteFinds(s, LF);
      assert "" + s == s;
    }
  }

  lemma {:induction false} CompleteHasNoLF(s: string)
    ensures forall k :: 0 <= k < |Complete(s)| ==> '\n' !in Complete(s)[k]
    ensures '\n' !in Leftover(s)
    decreases |s|
  {
    IndexByteFinds(s, LF);
    if LF in s {
      var line, t := Uncons(s);
      CompleteHasNoLF(t);
    }
  }

  /** The inverse direction: any LF-free lines and leftover are read back exactly. */
  lemma {:induction false} ReadBack(lines: seq<string>, rest: string)
    requires forall k :: 0 <= k < |lines| ==> LF !in lines[k]
    requires LF !in rest
    ensures Complete(Unlines(lines) + rest) == lines
    ensures Leftover(Unlines(lines) + rest) == rest
  {
    if lines == [] {
      assert Unlines(lines) + rest == rest;
      IndexByteFinds(rest, LF);
    } else {
      ReadBack(lines[1..], rest);
      assert Unlines(lines) + rest == lines[0] + [LF] + (Unlines(lines[1..]) + rest);
      CompleteCons(lines[0], Unlines(lines[1..]) + rest);
    }
  }

  /** Feeding `b` after `a` only needs the leftover of `a`. */
  lemma {:induction false} Resume(a: string, b: string)
    ensures Complete(a + b) == Complete(a) + Complete(Leftover(a) + b)
    ensures Leftover(a + b) == Leftover(Leftover(a) + b)
    decreases |a|
  {
    if LF in a {
      var line, t := Uncons(a);
      Resume(t, b);
      Assoc(line + [LF], t, b);
      CompleteCons(line, t + b);
      Assoc([line], Complete(t), Complete(Leftover(t) + b));
    } else {
      IndexByteFinds(a, LF);
      assert [] + Complete(a + b) == Complete(a + b);
    }
  }

  lemma {:induction false} UnlinesConcat(a: seq<string>, b: seq<string>)
    ensures Unlines(a + b) == Unlines(a) + Unlines(b)
  {
    if a == [] {
      assert a + b == b;
    } else {
      assert (a + b)[1..] == a[1..] + b;
      UnlinesConcat(a[1..], b);
    }
  }

  /** The reader fed one chunk at a time: lines so far and current leftover. */
  function Fed(chunks: seq<string>): (r: (seq<string>, string)) {
    if chunks == [] then ([], "")
    else
      var (lines, rest) := Fed(chunks[..|chunks| - 1]);
      var s := rest + chunks[|chunks| - 1];
      (lines + Complete(s), Leftover(s))
  }

  /** Incremental equals batch. */
  lemma {:induction false} FedIsBatch(chunks: seq<string>)
    ensures Fed(chunks) == (Complete(Flatten(chunks)), Leftover(Flatten(chunks)))
  {
    if chunks != [] {
      var init, last := chunks[..|chunks| - 1], chunks[|chunks| - 1];
      assert chunks == init + [last];
      FedIsBatch(init);
      FlattenSnoc(init, last);
      Resume(Flatten(init), last);
    }
  }

  /** Two ways of cutting the same bytes into reads give the same lines and leftover. */
  lemma {:induction false} ChunkInvariance(a: seq<string>, b: seq<string>)
    requires Flatten(a) == Flatten(b)
    ensures Fed(a) == Fed(b)
  {
    FedIsBatch(a);
    FedIsBatch(b);
  }

  /** strings.Join(lines, "\n"). */
  function JoinLF(lines: seq<string>): string {
    if lines == [] then ""
    else if |lines| == 1 then lines[0]
    else lines[0] + [LF] + JoinLF(lines[1..])
  }
}

/** GET /tail: internal/http/handlers.go:176-191. */
module Tail {
  import opened Options
  import opened Bytes
  import opened Lines
  import opened Strconv
  import opened RingBuffer
  import opened History

  /** How many lines are asked for: the query value when it is a positive number, else 200. */
  function Count(query: string): (n: nat)
    ensures n > 0
  {
    match Atoi(query)
    case Some(n) => if n > 0 then n else 200
    case None => 200
  }

  /** A printed positive number asks for that many lines; no query, a number that is not positive or too large, and
      anything that is no number ask for 200. */
  lemma {:induction false} CountIs(query: string, n: nat)
    ensures 0 < n <= MAX_INT ==> Count(Decimal(n)) == n
    ensures n == 0 || n > MAX_INT ==> Count(Decimal(n)) == 200
    ensures Count("") == 200 && Count("-" + Decimal(n)) == 200
    ensures Atoi(query) == None ==> Count(query) == 200
  {
    AtoiDecimal(n);
    DecimalRoundTrip(n);
    assert ("-" + Decimal(n))[1..] == Decimal(n);
  }

  /** strings.Split(body, "\n"). */
  function SplitLF(body: string): (lines: seq<string>)
    ensures lines != []
  {
    Complete(body) + [Leftover(body)]
  }

  lemma {:induction false} TextsTo(es: seq<Entry>, i: nat)
    requires i < |es|
    ensures Texts(es[..i + 1]) == Texts(es[..i]) + [es[i].line]
  {
    assert es[..i + 1][..i] == es[..i];
  }

  method HandleTail(ring: RingBuffer, query: string) returns (body: string)
    ensures body == JoinLF(Texts(LastN(ring.entries, Count(query))))
    ensures ring.entries == [] ==> body == ""
  {
    var lines := 200;
    if query != "" {
      var n := Atoi(query);
      if n.Some? && n.value > 0 {
        lines := n.value;
      }
    }
    var entries := ring.Tail(lines);
    var textLines: seq<string> := [];
    var i := 0;
    while i < |entries|
      invariant 0 <= i <= |entries| && textLines == Texts(entries[..i])
    {
      TextsTo(entries, i);
      textLines := textLines + [entries[i].line];
      i := i + 1;
    }
    assert entries[..i] == entries;
    body := JoinLF(textLines);
  }

  lemma {:induction false} JoinIsUnlines(lines: seq<string>)
    requires lines != []
    ensures JoinLF(lines) == Unlines(lines[..|lines| - 1]) + lines[|lines| - 1]
  {
    if |lines| == 1 {
      assert lines[..0] == [] && "" + lines[0] == lines[0];
    } else {
      var t := lines[1..];
      JoinIsUnlines(t);
      assert lines[..|lines| - 1] == [lines[0]] + t[..|t| - 1];
      UnlinesCons(lines[0], t[..|t| - 1]);
      Assoc(lines[0] + [LF], Unlines(t[..|t| - 1]), t[|t| - 1]);
    }
  }

  /** Splitting the body gives the lines back exactly when there was at least one. */
  lemma {:induction false} JoinSplit(lines: seq<string>)
    requires forall k :: 0 <= k < |lines| ==> LF !in lines[k]
    ensures SplitLF(JoinLF(lines)) == lines <==> lines != []
  {
    if lines != [] {
      var n := |lines| - 1;
      JoinIsUnlines(lines);
      ReadBack(lines[..n], lines[n]);
      assert lines == lines[..n] + [lines[n]];
    }
  }

  lemma {:induction false} TextsAt(es: seq<Entry>, k: nat)
    requires k < |es|
    ensures Texts(es)[k] == es[k].line
  {
    if k < |es| - 1 { TextsAt(es[..|es| - 1], k); }
  }

  /** The lines behind a /tail body: the newest of everything ever received that the limits still hold. */
  lemma {:induction false} TailTexts(lines: seq<string>, maxLines: nat, maxBytes: nat, n: nat)
    ensures var kept := Retained(Numbered(lines), maxLines, maxBytes);
            && |kept| <= |lines|
            && Texts(LastN(kept, n)) == LastN(LastN(lines, |kept|), n)
  {
    var kept := Retained(Numbered(lines), maxLines, maxBytes);
    RetainedIsLongestFit(Numbered(lines), maxLines, maxBytes);
    RingNumbers(kept, lines, maxLines, maxBytes);
    LastTexts(kept, lines, n);
  }

  lemma {:induction false} LastTexts(kept: seq<Entry>, lines: seq<string>, n: nat)
    requires |kept| <= |lines|
    requires forall k :: 0 <= k < |kept| ==> kept[k].line == lines[|lines| - |kept| + k]
    ensures Texts(LastN(kept, n)) == LastN(LastN(lines, |kept|), n)
  {
    var es, ls := LastN(kept, n), LastN(LastN(lines, |kept|), n);
    forall k | 0 <= k < |es| ensures Texts(es)[k] == ls[k] {
      TextsAt(es, k);
    }
  }

  /** End to end: whatever the connections sent, splitting a /tail body at LF returns exactly the last min(n, held)
      stored lines, provided the ring holds any. */
  lemma {:induction false} TailRoundTrip(streams: seq<string>, maxLines: nat, maxBytes: nat, n: nat)
    requires n > 0
    ensures var lines := SessionLines(streams);
            var kept := Retained(Numbered(lines), maxLines, maxBytes);
            && |kept| <= |lines|
            && (SplitLF(JoinLF(Texts(LastN(kept, n)))) == LastN(LastN(lines, |kept|), n) <==> kept != [])
  {
    var lines := SessionLines(streams);
    TailTexts(lines, maxLines, maxBytes, n);
    SessionLinesAreClean(streams);
    JoinSplit(LastN(LastN(lines, |Retained(Numbered(lines), maxLines, maxBytes)|), n));
  }
}

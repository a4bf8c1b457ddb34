/** Line endings on the way to an SSH client: internal/ssh/handler.go:37-40. */
module Crlf {
  import opened Bytes

  /** strings.ReplaceAll for a non-empty `old`: leftmost occurrences, not overlapping. */
  function ReplaceAll(s: string, old_: string, new_: string): string
    requires old_ != ""
    decreases |s|
  {
    if |s| < |old_| then s
    else if s[..|old_|] == old_ then new_ + ReplaceAll(s[|old_|..], old_, new_)
    else s[..1] + ReplaceAll(s[1..], old_, new_)
  }

  const CRLF: string := [CR, LF]

  function Collapse(s: string): string { ReplaceAll(s, CRLF, [LF]) }

  function Expand(s: string): string { ReplaceAll(s, [LF], CRLF) }

  /** What one broadcast message becomes. */
  function Normalise(msg: string): string { Expand(Collapse(msg)) }

  predicate StartsPair(s: string) { |s| >= 2 && s[0] == CR && s[1] == LF }

  lemma {:induction false} CollapseStep(s: string)
    requires s != ""
    ensures StartsPair(s) ==> Collapse(s) == [LF] + Collapse(s[2..])
    ensures !StartsPair(s) ==> Collapse(s) == s[..1] + Collapse(s[1..])
  {
    if StartsPair(s) {
      assert s[..2] == CRLF;
    } else if |s| >= 2 {
      assert s[..2][0] == s[0] && s[..2][1] == s[1];
    } else {
      assert s[1..] == "" && s[..1] == s && s[..1] + "" == s;
    }
  }

  function Expanded(c: char): string { if c == LF then CRLF else [c] }

  lemma {:induction false} ExpandStep(s: string)
    requires s != ""
    ensures Expand(s) == Expanded(s[0]) + Expand(s[1..])
  {
    assert s[..1] == [s[0]];
    if s[0] == LF {
      assert s[..1] == [LF];
    } else {
      assert s[..1][0] != [LF][0];
    }
  }

  lemma {:induction false} ExpandConcat(a: string, b: string)
    ensures Expand(a + b) == Expand(a) + Expand(b)
  {
    if a == "" {
      assert a + b == b && "" + Expand(b) == Expand(b);
    } else {
      ExpandStep(a + b);
      ExpandStep(a);
      assert (a + b)[1..] == a[1..] + b;
      ExpandConcat(a[1..], b);
      Assoc(Expanded(a[0]), Expand(a[1..]), Expand(b));
    }
  }

  /** Collapsing undoes expanding, for every string. */
  lemma {:induction false} CollapseExpand(s: string)
    ensures Collapse(Expand(s)) == s
  {
    if s != "" {
      var t := s[1..];
      var e := Expand(s);
      CollapseExpand(t);
      ExpandStep(s);
      if s[0] == LF {
        CollapseStep(e);
        assert e[2..] == Expand(t);
      } else {
        if t != "" { ExpandStep(t); }
        CollapseStep(e);
        assert e[1..] == Expand(t) && e[..1] == [s[0]];
      }
      assert s == [s[0]] + t;
    }
  }

  /** A message that was already normalised is left alone. */
  lemma {:induction false} NormaliseIdempotent(msg: string)
    ensures Normalise(Normalise(msg)) == Normalise(msg)
  {
    CollapseExpand(Collapse(msg));
  }

  /** Every LF an SSH client receives stands right after a CR. */
  ghost predicate LfAfterCr(s: string) {
    forall k :: 0 <= k < |s| && s[k] == LF ==> k > 0 && s[k - 1] == CR
  }

  lemma {:induction false} ExpandLfAfterCr(s: string)
    ensures LfAfterCr(Expand(s))
  {
    if s != "" {
      ExpandLfAfterCr(s[1..]);
      ExpandStep(s);
      var h, e := |Expanded(s[0])|, Expand(s[1..]);
      forall k | 0 <= k < |Expand(s)| && Expand(s)[k] == LF ensures k > 0 && Expand(s)[k - 1] == CR {
        if k >= h { assert e[k - h] == LF; }
      }
    }
  }

  lemma {:induction false} NormalisedLfAfterCr(msg: string)
    ensures LfAfterCr(Normalise(msg))
  {
    ExpandLfAfterCr(Collapse(msg));
  }

  /** The characters other than CR. */
  function NonCr(s: string): string {
    if s == "" then "" else (if s[0] == CR then "" else s[..1]) + NonCr(s[1..])
  }

  lemma {:induction false} NonCrConcat(a: string, b: string)
    ensures NonCr(a + b) == NonCr(a) + NonCr(b)
  {
    if a == "" {
      assert a + b == b && "" + NonCr(b) == NonCr(b);
    } else {
      assert (a + b)[1..] == a[1..] + b && (a + b)[..1] == a[..1];
      NonCrConcat(a[1..], b);
      Assoc(if a[0] == CR then "" else a[..1], NonCr(a[1..]), NonCr(b));
    }
  }

  lemma {:induction false} NonCrExpand(s: string)
    ensures NonCr(Expand(s)) == NonCr(s)
  {
    if s != "" {
      ExpandStep(s);
      NonCrExpand(s[1..]);
      NonCrConcat(Expanded(s[0]), Expand(s[1..]));
      NonCrConcat(s[..1], s[1..]);
      assert s == s[..1] + s[1..];
      assert CRLF[1..] == [LF] && [LF][1..] == "" && s[..1][1..] == "";
      assert NonCr(Expanded(s[0])) == NonCr(s[..1]);
    }
  }

  lemma {:induction false} NonCrCollapse(s: string)
    ensures NonCr(Collapse(s)) == NonCr(s)
    decreases |s|
  {
    if s != "" {
      CollapseStep(s);
      if StartsPair(s) {
        NonCrCollapse(s[2..]);
        NonCrConcat([LF], Collapse(s[2..]));
        NonCrConcat(s[..2], s[2..]);
        assert s == s[..2] + s[2..];
        assert s[..2] == CRLF && CRLF[1..] == [LF] && [LF][1..] == "";
        assert NonCr([LF]) == NonCr(s[..2]);
      } else {
        NonCrCollapse(s[1..]);
        NonCrConcat(s[..1], Collapse(s[1..]));
        NonCrConcat(s[..1], s[1..]);
        assert s == s[..1] + s[1..];
      }
    }
  }

  /** The stream one client receives for a sequence of messages. */
  function Output(msgs: seq<string>): string {
    if msgs == [] then "" else Normalise(msgs[0]) + Output(msgs[1..])
  }

  /** The relay goroutine: each message is rewritten and sent on as it arrives. */
  method Relay(msgs: seq<string>) returns (sent: string)
    ensures sent == Output(msgs)
  {
    sent := "";
    var i := 0;
    while i < |msgs|
      invariant 0 <= i <= |msgs| && sent + Output(msgs[i..]) == Output(msgs)
    {
      var msg := msgs[i];
      msg := ReplaceAll(msg, CRLF, [LF]);
      msg := ReplaceAll(msg, [LF], CRLF);
      assert msgs[i..][1..] == msgs[i + 1..];
      Assoc(sent, msg, Output(msgs[i + 1..]));
      sent := sent + msg;
      i := i + 1;
    }
  }

  /** However the stream was chunked, only carriage returns are added or removed. */
  lemma {:induction false} OnlyCrChanges(msgs: seq<string>)
    ensures NonCr(Output(msgs)) == NonCr(Flatten(msgs))
  {
    if msgs != [] {
      OnlyCrChanges(msgs[1..]);
      NonCrExpand(Collapse(msgs[0]));
      NonCrCollapse(msgs[0]);
      NonCrConcat(Normalise(msgs[0]), Output(msgs[1..]));
      NonCrConcat(msgs[0], Flatten(msgs[1..]));
    }
  }

  /** A CRLF pair cut in two by a message boundary. */
  predicate SplitPair(a: string, b: string) {
    a != "" && b != "" && a[|a| - 1] == CR && b[0] == LF
  }

  function CountLf(s: string): nat {
    if s == "" then 0 else (if s[0] == LF then 1 else 0) + CountLf(s[1..])
  }

  lemma {:induction false} ExpandLength(s: string)
    ensures |Expand(s)| == |s| + CountLf(s)
  {
    if s != "" {
      ExpandStep(s);
      ExpandLength(s[1..]);
    }
  }

  lemma {:induction false} CountLfConcat(a: string, b: string)
    ensures CountLf(a + b) == CountLf(a) + CountLf(b)
  {
    if a == "" {
      assert a + b == b;
    } else {
      assert (a + b)[1..] == a[1..] + b;
      CountLfConcat(a[1..], b);
    }
  }

  lemma {:induction false} CollapseCount(s: string)
    ensures CountLf(Collapse(s)) == CountLf(s)
    decreases |s|
  {
    if s != "" {
      CollapseStep(s);
      if StartsPair(s) {
        CollapseCount(s[2..]);
        assert s[1..][1..] == s[2..];
        assert ([LF] + Collapse(s[2..]))[1..] == Collapse(s[2..]);
      } else {
        CollapseCount(s[1..]);
        assert (s[..1] + Collapse(s[1..]))[1..] == Collapse(s[1..]);
      }
    }
  }

  /** Collapsing two messages separately differs from collapsing them joined only at a pair cut in two. */
  lemma {:induction false} CollapseJoin(a: string, b: string)
    ensures !SplitPair(a, b) ==> Collapse(a + b) == Collapse(a) + Collapse(b)
    ensures SplitPair(a, b) ==> |Collapse(a + b)| + 1 == |Collapse(a)| + |Collapse(b)|
    decreases |a|
  {
    if a == "" {
      assert a + b == b && "" + Collapse(b) == Collapse(b);
    } else {
      CollapseStep(a);
      CollapseStep(a + b);
      if StartsPair(a) {
        assert (a + b)[2..] == a[2..] + b;
        CollapseJoin(a[2..], b);
        Assoc([LF], Collapse(a[2..]), Collapse(b));
      } else if |a| == 1 && SplitPair(a, b) {
        CollapseStep(b);
        assert (a + b)[2..] == b[1..];
        assert a[1..] == "" && !StartsPair(b);
      } else {
        assert (a + b)[1..] == a[1..] + b && (a + b)[..1] == a[..1];
        CollapseJoin(a[1..], b);
        Assoc(a[..1], Collapse(a[1..]), Collapse(b));
      }
    }
  }

  lemma {:induction false} NormaliseJoin(a: string, b: string)
    ensures !SplitPair(a, b) ==> Normalise(a + b) == Normalise(a) + Normalise(b)
    ensures SplitPair(a, b) ==> |Normalise(a + b)| + 1 == |Normalise(a)| + |Normalise(b)|
  {
    CollapseJoin(a, b);
    ExpandConcat(Collapse(a), Collapse(b));
    if SplitPair(a, b) {
      ExpandLength(Collapse(a));
      ExpandLength(Collapse(b));
      ExpandLength(Collapse(a + b));
      CollapseCount(a);
      CollapseCount(b);
      CollapseCount(a + b);
      CountLfConcat(a, b);
    }
  }

  /** How many message boundaries cut a CRLF pair: the message ends with CR and what follows it, empty messages skipped,
      starts with LF. */
  function Cuts(msgs: seq<string>): nat {
    if msgs == [] then 0
    else (if SplitPair(msgs[0], Flatten(msgs[1..])) then 1 else 0) + Cuts(msgs[1..])
  }

  /** Every cut pair reaches the client one character longer. */
  lemma {:induction false} CutsLengthen(msgs: seq<string>)
    ensures |Output(msgs)| == |Normalise(Flatten(msgs))| + Cuts(msgs)
    ensures Cuts(msgs) == 0 ==> Output(msgs) == Normalise(Flatten(msgs))
  {
    if msgs != [] {
      CutsLengthen(msgs[1..]);
      NormaliseJoin(msgs[0], Flatten(msgs[1..]));
    }
  }

  /** However many messages the stream was cut into, the chunking is invisible to the client exactly when no boundary cuts
      a CRLF pair. */
  lemma {:induction false} ChunkingVisibleIff(msgs: seq<string>)
    ensures Output(msgs) == Normalise(Flatten(msgs)) <==> Cuts(msgs) == 0
  {
    CutsLengthen(msgs);
  }

  /** Looking at neighbouring messages is not enough: an empty one may stand between the halves of a pair. */
  lemma {:induction false} CutAcrossEmpty()
    ensures var msgs := [[CR], "", [LF]];
            && Cuts(msgs) == 1
            && forall k :: 0 < k < |msgs| ==> !SplitPair(msgs[k - 1], msgs[k])
  {
    var msgs := [[CR], "", [LF]];
    assert msgs[1..] == ["", [LF]] && msgs[1..][1..] == [[LF]] && [[LF]][1..] == [];
    assert Flatten([[LF]]) == [LF] + Flatten<char>([]) == [LF];
    assert Flatten(["", [LF]]) == "" + [LF] == [LF];
    assert Cuts([[LF]]) == 0 && Cuts(["", [LF]]) == 0;
  }
}

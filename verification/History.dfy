/** The append history of a session as a function of the bytes each connection delivered. */
module History {
  import opened Bytes
  import opened Lines
  import opened CleanLine
  import opened RingBuffer

  /** The cleaned complete lines of one connection; its unfinished last line is dropped. */
  function StreamLines(stream: string): seq<string> {
    CleanAll(Complete(stream))
  }

  /** The lines of every connection, in order. */
  function SessionLines(streams: seq<string>): seq<string> {
    if streams == [] then [] else SessionLines(streams[..|streams| - 1]) + StreamLines(streams[|streams| - 1])
  }

  /** The i-th line ever appended carries sequence number i, counting from 1. */
  function Numbered(lines: seq<string>): (es: seq<Entry>)
    ensures |es| == |lines|
  {
    if lines == [] then []
    else
      var n := |lines| - 1;
      Numbered(lines[..n]) + [Entry(n + 1, lines[n], |lines[n]|)]
  }

  /** The lines of some entries. */
  function Texts(es: seq<Entry>): (lines: seq<string>)
    ensures |lines| == |es|
  {
    if es == [] then [] else Texts(es[..|es| - 1]) + [es[|es| - 1].line]
  }

  lemma {:induction false} NumberedPrefix(lines: seq<string>, more: seq<string>)
    ensures Numbered(lines) <= Numbered(lines + more)
  {
    if more == [] {
      assert lines + more == lines;
    } else {
      var n := |more| - 1;
      assert (lines + more)[..|lines + more| - 1] == lines + more[..n];
      NumberedPrefix(lines, more[..n]);
    }
  }

  lemma {:induction false} NumberedAt(lines: seq<string>)
    ensures forall k :: 0 <= k < |lines| ==> Numbered(lines)[k] == Entry(k + 1, lines[k], |lines[k]|)
  {
    if lines != [] { NumberedAt(lines[..|lines| - 1]); }
  }

  /** A new connection adds no line; bytes on the last connection add the lines they complete. */
  lemma {:induction false} NewStream(streams: seq<string>)
    ensures SessionLines(streams + [""]) == SessionLines(streams)
  {
    assert (streams + [""])[..|streams|] == streams;
  }

  lemma {:induction false} MoreBytes(streams: seq<string>, chunk: string)
    requires streams != []
    ensures var last := streams[|streams| - 1];
            SessionLines(streams[|streams| - 1 := last + chunk])
            == SessionLines(streams) + CleanAll(Complete(Leftover(last) + chunk))
  {
    var n := |streams| - 1;
    var last := streams[n];
    var after := streams[n := last + chunk];
    assert after[..n] == streams[..n];
    Resume(last, chunk);
    CleanAllConcat(Complete(last), Complete(Leftover(last) + chunk));
  }

  /** Sequence numbers held by the ring: a contiguous interval that ends at the number of lines ever appended. */
  lemma {:induction false} RingNumbers(kept: seq<Entry>, lines: seq<string>, maxLines: nat, maxBytes: int)
    requires LongestFit(kept, Numbered(lines), maxLines, maxBytes)
    ensures forall k :: 0 <= k < |kept| ==> kept[k].seq_ == |lines| - |kept| + 1 + k
    ensures forall k :: 0 <= k < |kept| ==> kept[k].line == lines[|lines| - |kept| + k]
  {
    NumberedAt(lines);
  }

  lemma {:induction false} SessionLinesAreClean(streams: seq<string>)
    ensures forall k :: 0 <= k < |SessionLines(streams)| ==>
              '\n' !in SessionLines(streams)[k] && '\r' !in SessionLines(streams)[k]
  {
    if streams != [] {
      var n := |streams| - 1;
      SessionLinesAreClean(streams[..n]);
      var raws := Complete(streams[n]);
      CompleteHasNoLF(streams[n]);
      forall k | 0 <= k < |raws| ensures LF !in CleanAll(raws)[k] && CR !in CleanAll(raws)[k] {
        CleanAllAt(raws, k);
        CleanProperties(raws[k]);
      }
    }
  }
}

/** The doubly bounded line history of internal/serial/ringbuffer.go. */
module RingBuffer {

  /** A stored line; `bytes` is its length. The timestamp is not part of this model. */
  datatype Entry = Entry(seq_: int, line: string, bytes: nat)

  function TotalBytes(es: seq<Entry>): nat {
    if es == [] then 0 else es[0].bytes + TotalBytes(es[1..])
  }

  lemma {:induction false} TotalBytesConcat(a: seq<Entry>, b: seq<Entry>)
    ensures TotalBytes(a + b) == TotalBytes(a) + TotalBytes(b)
  {
    if a == [] {
      assert a + b == b;
    } else {
      assert (a + b)[1..] == a[1..] + b;
      TotalBytesConcat(a[1..], b);
    }
  }

  /** Both limits are met. */
  predicate Fits(es: seq<Entry>, maxLines: nat, maxBytes: int) {
    |es| <= maxLines && TotalBytes(es) <= maxBytes
  }

  ghost predicate SuffixFits(es: seq<Entry>, k: int, maxLines: nat, maxBytes: int) {
    0 <= k <= |es| && Fits(es[k..], maxLines, maxBytes)
  }

  /** `kept` is the longest suffix of the history that meets both limits. */
  ghost predicate LongestFit(kept: seq<Entry>, history: seq<Entry>, maxLines: nat, maxBytes: int) {
    && |kept| <= |history|
    && kept == history[|history| - |kept|..]
    && Fits(kept, maxLines, maxBytes)
    && forall k :: 0 <= k < |history| - |kept| ==> !SuffixFits(history, k, maxLines, maxBytes)
  }

  /** What a history is cut down to: entries leave from the front until both limits are met. */
  function Retained(history: seq<Entry>, maxLines: nat, maxBytes: int): seq<Entry> {
    if history == [] || Fits(history, maxLines, maxBytes) then history
    else Retained(history[1..], maxLines, maxBytes)
  }

  lemma {:induction false} LongestFitIsUnique(a: seq<Entry>, b: seq<Entry>, history: seq<Entry>,
                                              maxLines: nat, maxBytes: int)
    requires LongestFit(a, history, maxLines, maxBytes) && LongestFit(b, history, maxLines, maxBytes)
    ensures a == b
  {
    assert SuffixFits(history, |history| - |a|, maxLines, maxBytes);
    assert SuffixFits(history, |history| - |b|, maxLines, maxBytes);
  }

  /** The retained entries are the longest suffix meeting both limits, even when one entry alone is too large. */
  lemma {:induction false} RetainedIsLongestFit(history: seq<Entry>, maxLines: nat, maxBytes: nat)
    ensures LongestFit(Retained(history, maxLines, maxBytes), history, maxLines, maxBytes)
  {
    if history == [] || Fits(history, maxLines, maxBytes) {
      assert history[0..] == history;
    } else {
      var t := history[1..];
      RetainedIsLongestFit(t, maxLines, maxBytes);
      forall k | 0 <= k < |history| - |Retained(t, maxLines, maxBytes)|
        ensures !SuffixFits(history, k, maxLines, maxBytes)
      {
        if k == 0 {
          assert history[0..] == history;
        } else {
          assert t[k - 1..] == history[k..];
          assert !SuffixFits(t, k - 1, maxLines, maxBytes);
        }
      }
    }
  }

  /** Online eviction refines the offline cut: only what was already retained matters for the next append. */
  lemma {:induction false} RetainedOnline(history: seq<Entry>, e: Entry, maxLines: nat, maxBytes: int)
    ensures Retained(history + [e], maxLines, maxBytes)
            == Retained(Retained(history, maxLines, maxBytes) + [e], maxLines, maxBytes)
  {
    if history != [] && !Fits(history, maxLines, maxBytes) {
      TotalBytesConcat(history, [e]);
      assert (history + [e])[1..] == history[1..] + [e];
      RetainedOnline(history[1..], e, maxLines, maxBytes);
    }
  }

  class RingBuffer {
    const maxLines: nat
    const maxBytes: int
    var entries: seq<Entry>
    var totalBytes: int
    ghost var history: seq<Entry>

    /** The buffer holds what the limits retain of everything ever appended, and its byte count is exact. */
    ghost predicate Valid()
      reads this
    {
      && entries == Retained(history, maxLines, maxBytes)
      && totalBytes == TotalBytes(entries)
    }

    /** `make` panics on a negative line capacity, so a caller must not pass one; the byte limit is unchecked. */
    constructor (maxLines: nat, maxBytes: int)
      ensures this.maxLines == maxLines && this.maxBytes == maxBytes
      ensures Valid() && history == []
    {
      this.maxLines, this.maxBytes := maxLines, maxBytes;
      entries, totalBytes, history := [], 0, [];
    }

    /** `panicked` reports an index into the empty slice; it happens exactly when the byte limit is negative. */
    method Append(e: Entry) returns (panicked: bool)
      requires Valid()
      modifies this
      ensures Valid() && history == old(history) + [e]
      ensures panicked <==> maxBytes < 0
    {
      TotalBytesConcat(entries, [e]);
      RetainedOnline(history, e, maxLines, maxBytes);
      history := history + [e];
      entries := entries + [e];
      totalBytes := totalBytes + e.bytes;
      while |entries| > maxLines || totalBytes > maxBytes
        invariant totalBytes == TotalBytes(entries)
        invariant Retained(entries, maxLines, maxBytes) == Retained(history, maxLines, maxBytes)
        invariant history == old(history) + [e]
        decreases |entries|
      {
        if entries == [] {
          return true;
        }
        var removed := entries[0];
        entries := entries[1..];
        totalBytes := totalBytes - removed.bytes;
      }
      panicked := false;
    }

    /** The newest `n` entries in order, or all of them. */
    method Tail(n: nat) returns (result: seq<Entry>)
      ensures result == LastN(entries, n)
    {
      var m := n;
      if m > |entries| {
        m := |entries|;
      }
      result := entries[|entries| - m..];
    }

    /** A copy of the whole buffer: the longest suffix of everything ever appended that meets both limits. */
    method All() returns (result: seq<Entry>)
      requires Valid()
      ensures result == Retained(history, maxLines, maxBytes)
      ensures maxBytes >= 0 ==> LongestFit(result, history, maxLines, maxBytes)
    {
      result := entries;
      if maxBytes >= 0 { RetainedIsLongestFit(history, maxLines, maxBytes); }
    }
  }

  /** The last `n` elements, or all of them. */
  function LastN<T>(s: seq<T>, n: nat): seq<T> {
    if n >= |s| then s else s[|s| - n..]
  }

  lemma {:induction false} LastNIs<T>(s: seq<T>, n: nat)
    ensures var t := LastN(s, n);
            && |t| == (if n <= |s| then n else |s|)
            && forall k :: 0 <= k < |t| ==> t[k] == s[|s| - |t| + k]
  {
  }
}

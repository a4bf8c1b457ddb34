/** The head-trimmed log file of internal/recorder/recorder.go:119-200, on the path without I/O errors. */
module Recorder {
  import opened Bytes
  import opened Strconv

  /** The file without its first `trimSize` bytes; seeking past the end leaves nothing to keep. */
  function Trimmed(file: string, trimSize: nat): string {
    if trimSize <= |file| then file[trimSize..] else ""
  }

  /** The file after one write, with the check before it and the check after it. */
  function Written(file: string, data: string, maxSize: int, trimSize: nat): string {
    var before := if |file| >= maxSize then Trimmed(file, trimSize) else file;
    var longer := before + data;
    if |longer| >= maxSize then Trimmed(longer, trimSize) else longer
  }

  class FileRecorder {
    const maxSize: int
    const trimSize: nat
    var file: string
    var fileSize: int

    ghost predicate Valid()
      reads this
    {
      fileSize == |file|
    }

    /** Sizes are given in megabytes and multiplied in 64 bits; `existing` is what the file already holds. A negative
        trim size would make the seek fail, an I/O error. */
    constructor (existing: string, maxSizeMB: int, trimSizeMB: int)
      requires Wrap64(trimSizeMB * 1048576) >= 0
      ensures Valid() && file == existing
      ensures maxSize == Wrap64(maxSizeMB * 1048576) && trimSize == Wrap64(trimSizeMB * 1048576)
    {
      maxSize := Wrap64(maxSizeMB * 1048576);
      trimSize := Wrap64(trimSizeMB * 1048576);
      file, fileSize := existing, |existing|;
    }

    method ProcessWrite(data: string)
      requires Valid()
      modifies this
      ensures Valid() && file == Written(old(file), data, maxSize, trimSize)
    {
      if fileSize >= maxSize {
        Trim();
      }
      file := file + data;
      fileSize := fileSize + |data|;
      if fileSize >= maxSize {
        Trim();
      }
    }

    /** Reads what follows the head, truncates the file and writes it back. */
    method Trim()
      requires Valid()
      modifies this
      ensures Valid() && file == Trimmed(old(file), trimSize)
    {
      var remaining := if trimSize <= |file| then file[trimSize..] else "";
      file := remaining;
      fileSize := |remaining|;
    }
  }

  /** The file after a sequence of writes. */
  function WrittenAll(file: string, chunks: seq<string>, maxSize: int, trimSize: nat): string {
    if chunks == [] then file
    else Written(WrittenAll(file, chunks[..|chunks| - 1], maxSize, trimSize), chunks[|chunks| - 1], maxSize, trimSize)
  }

  ghost predicate IsSuffix(a: string, b: string) {
    |a| <= |b| && b[|b| - |a|..] == a
  }

  lemma {:induction false} TrimmedSuffix(a: string, b: string, trimSize: nat)
    requires IsSuffix(a, b)
    ensures IsSuffix(Trimmed(a, trimSize), b)
  {
  }

  lemma {:induction false} SuffixAppend(a: string, b: string, data: string)
    requires IsSuffix(a, b)
    ensures IsSuffix(a + data, b + data)
  {
  }

  /** `file` is a suffix of the log `h`, long enough for both limits. */
  ghost predicate Recent(file: string, h: string, maxSize: int, trimSize: nat) {
    IsSuffix(file, h) && (|file| == |h| || |file| >= maxSize - trimSize)
  }

  lemma {:induction false} WrittenRecent(file: string, h: string, data: string, maxSize: int, trimSize: nat)
    requires Recent(file, h, maxSize, trimSize)
    ensures Recent(Written(file, data, maxSize, trimSize), h + data, maxSize, trimSize)
  {
    var before := if |file| >= maxSize then Trimmed(file, trimSize) else file;
    TrimmedSuffix(file, h, trimSize);
    SuffixAppend(before, h, data);
    TrimmedSuffix(before + data, h + data, trimSize);
  }

  /** The file is what the last writes left: a suffix of the initial content and everything processed, holding at least
      the last min(|H|, maxSize - trimSize) bytes of it. No bound on the chunks is needed. */
  lemma {:induction false} FileIsRecentSuffix(file: string, chunks: seq<string>, maxSize: int, trimSize: nat)
    ensures Recent(WrittenAll(file, chunks, maxSize, trimSize), file + Flatten(chunks), maxSize, trimSize)
  {
    if chunks == [] {
      assert file + Flatten(chunks) == file;
    } else {
      var n := |chunks| - 1;
      FileIsRecentSuffix(file, chunks[..n], maxSize, trimSize);
      WrittenRecent(WrittenAll(file, chunks[..n], maxSize, trimSize), file + Flatten(chunks[..n]), chunks[n],
                    maxSize, trimSize);
      assert chunks == chunks[..n] + [chunks[n]];
      FlattenSnoc(chunks[..n], chunks[n]);
      Assoc(file, Flatten(chunks[..n]), chunks[n]);
    }
  }

  /** The size bookkeeping of one write. */
  function SizeAfter(size: nat, data: nat, maxSize: int, trimSize: nat): nat {
    var before := if size < maxSize then size else if trimSize <= size then size - trimSize else 0;
    var longer := before + data;
    if longer < maxSize then longer else if trimSize <= longer then longer - trimSize else 0
  }

  lemma {:induction false} WrittenSize(file: string, data: string, maxSize: int, trimSize: nat)
    ensures |Written(file, data, maxSize, trimSize)| == SizeAfter(|file|, |data|, maxSize, trimSize)
  {
  }

  /** A write keeps every smaller file below the limit exactly when its chunk is no longer than the trim. */
  lemma {:induction false} StaysBelowIff(data: nat, maxSize: int, trimSize: nat)
    requires maxSize > 0
    ensures (forall size: nat :: size < maxSize ==> SizeAfter(size, data, maxSize, trimSize) < maxSize)
            <==> data <= trimSize
  {
    if data > trimSize {
      assert SizeAfter(maxSize - 1, data, maxSize, trimSize) >= maxSize;
    }
  }

  ghost predicate ChunksUpTo(chunks: seq<string>, limit: nat) {
    forall k :: 0 <= k < |chunks| ==> |chunks[k]| <= limit
  }

  /** A file that began below the limit is below it after every write. */
  lemma {:induction false} StaysBelow(file: string, chunks: seq<string>, maxSize: int, trimSize: nat)
    requires |file| < maxSize && ChunksUpTo(chunks, trimSize)
    ensures |WrittenAll(file, chunks, maxSize, trimSize)| < maxSize
  {
    if chunks != [] {
      var n := |chunks| - 1;
      StaysBelow(file, chunks[..n], maxSize, trimSize);
      WrittenSize(WrittenAll(file, chunks[..n], maxSize, trimSize), chunks[n], maxSize, trimSize);
    }
  }

  lemma {:induction false} Product(k: nat, trimSize: nat)
    ensures (k + 1) * trimSize == k * trimSize + trimSize
  {
  }

  /** A file reopened at an oversize L is below the limit once k writes satisfy k * trimSize > L - maxSize, that is
      after ceil((L - maxSize + 1) / trimSize) writes, and from then on. */
  lemma {:induction false} Recovers(file: string, chunks: seq<string>, maxSize: int, trimSize: nat)
    requires 0 < trimSize <= maxSize && ChunksUpTo(chunks, trimSize)
    requires |chunks| * trimSize >= |file| - maxSize + 1
    ensures |WrittenAll(file, chunks, maxSize, trimSize)| < maxSize
  {
    ShrinksBy(file, chunks, maxSize, trimSize);
  }

  /** Each write either brings the file below the limit for good or takes at least `trimSize` off it. */
  lemma {:induction false} ShrinksBy(file: string, chunks: seq<string>, maxSize: int, trimSize: nat)
    requires 0 < trimSize <= maxSize && ChunksUpTo(chunks, trimSize)
    ensures var size := |WrittenAll(file, chunks, maxSize, trimSize)|;
            size < maxSize || size + |chunks| * trimSize <= |file|
  {
    if chunks != [] {
      var n := |chunks| - 1;
      ShrinksBy(file, chunks[..n], maxSize, trimSize);
      WrittenSize(WrittenAll(file, chunks[..n], maxSize, trimSize), chunks[n], maxSize, trimSize);
      Product(n, trimSize);
    }
  }

  /** Each write takes off nothing, one trim or two trims, and every trim is exactly `trimSize` bytes: after `n` trims the
      file is what came in less `n * trimSize`. */
  lemma {:induction false} TrimsAreWhole(file: string, chunks: seq<string>, maxSize: int, trimSize: nat)
    returns (n: nat)
    requires 0 < trimSize <= maxSize
    ensures |WrittenAll(file, chunks, maxSize, trimSize)| + n * trimSize == |file| + |Flatten(chunks)|
    ensures n <= 2 * |chunks|
  {
    if chunks == [] {
      n := 0;
    } else {
      var before, data := chunks[..|chunks| - 1], chunks[|chunks| - 1];
      assert chunks == before + [data];
      FlattenSnoc(before, data);
      var k := TrimsAreWhole(file, before, maxSize, trimSize);
      var size := |WrittenAll(file, before, maxSize, trimSize)|;
      var longer := |data| + if size >= maxSize then size - trimSize else size;
      WrittenSize(WrittenAll(file, before, maxSize, trimSize), data, maxSize, trimSize);
      n := k + (if size >= maxSize then 1 else 0) + (if longer >= maxSize then 1 else 0);
      Product(k, trimSize);
      Product(k + 1, trimSize);
    }
  }

  /** While the total stays below the limit nothing is ever trimmed. */
  lemma {:induction false} NothingTrimmed(file: string, chunks: seq<string>, maxSize: int, trimSize: nat)
    requires |file| + |Flatten(chunks)| < maxSize
    ensures WrittenAll(file, chunks, maxSize, trimSize) == file + Flatten(chunks)
  {
    if chunks == [] {
      assert file + Flatten(chunks) == file;
    } else {
      var n := |chunks| - 1;
      assert chunks == chunks[..n] + [chunks[n]];
      FlattenSnoc(chunks[..n], chunks[n]);
      NothingTrimmed(file, chunks[..n], maxSize, trimSize);
      Assoc(file, Flatten(chunks[..n]), chunks[n]);
    }
  }
}

/** The reading side of a session: the loop body of readLoop, internal/serial/session.go:152-208. */
module LineReader {
  import opened Bytes
  import opened Lines
  import opened CleanLine
  import opened RingBuffer
  import opened History

  /** The byte stream of each connection, given the chunks read on it. */
  function Streams(received: seq<seq<string>>): (streams: seq<string>)
    ensures |streams| == |received|
  {
    if received == [] then []
    else
      var n := |received| - 1;
      Streams(received[..n]) + [Flatten(received[n])]
  }

  /** What the session stores and hands on, given the chunks read on each connection: the three sinks agree. */
  ghost predicate SinksAgree(received: seq<seq<string>>, history: seq<Entry>, seqCounter: int,
                             broadcasts: seq<string>, recorded: seq<string>) {
    && history == Numbered(SessionLines(Streams(received)))
    && seqCounter == |history|
    && broadcasts == Flatten(received)
    && recorded == Flatten(received)
  }

  /** The chunk is added to the last connection. */
  function Received(received: seq<seq<string>>, buf: string): seq<seq<string>>
    requires received != []
  {
    received[..|received| - 1] + [received[|received| - 1] + [buf]]
  }

  function Last<T>(s: seq<T>): T
    requires s != []
  {
    s[|s| - 1]
  }

  class Reader {
    const ring: RingBuffer
    var seqCounter: int
    var lineBuf: string
    var broadcasts: seq<string>
    var recorded: seq<string>
    ghost var received: seq<seq<string>>

    ghost predicate Valid()
      reads this, ring
    {
      && ring.maxBytes >= 0 && ring.Valid()
      && SinksAgree(received, ring.history, seqCounter, broadcasts, recorded)
      && (received != [] ==> lineBuf == Leftover(Flatten(Last(received))))
    }

    constructor (ring: RingBuffer)
      requires ring.maxBytes >= 0 && ring.Valid() && ring.history == []
      ensures Valid() && this.ring == ring && received == []
    {
      this.ring := ring;
      seqCounter, lineBuf, broadcasts, recorded, received := 0, "", [], [], [];
    }

    /** A new readLoop starts with an empty line buffer. */
    method Start()
      requires Valid()
      modifies this
      ensures Valid() && received == old(received) + [[]]
    {
      lineBuf := "";
      StartAgrees(received, ring.history, seqCounter, broadcasts, recorded);
      received := received + [[]];
    }

    /** One successful port read. An empty read changes nothing. */
    method OnRead(buf: string)
      requires Valid() && received != []
      modifies this, ring
      ensures Valid()
      ensures received == if buf == "" then old(received) else Received(old(received), buf)
    {
      if buf == "" {
        return;
      }
      broadcasts := broadcasts + [buf];
      recorded := recorded + [buf];
      lineBuf := lineBuf + buf;
      ghost var lines := SessionLines(Streams(received));
      StoreLines(lines);
      ReadAgrees(received, buf);
      received := Received(received, buf);
    }

    /** Every complete line in the buffer is cleaned, numbered and stored; the rest stays. */
    method StoreLines(ghost lines: seq<string>)
      requires ring.maxBytes >= 0 && ring.Valid()
      requires ring.history == Numbered(lines) && seqCounter == |lines|
      modifies this`lineBuf, this`seqCounter, ring
      ensures ring.Valid()
      ensures ring.history == Numbered(lines + CleanAll(Complete(old(lineBuf))))
      ensures seqCounter == |ring.history| && lineBuf == Leftover(old(lineBuf))
    {
      ghost var stored, whole := lines, lineBuf;
      while true
        invariant ring.Valid()
        invariant SameOutcome(stored, lineBuf, lines, whole)
        invariant ring.history == Numbered(stored) && seqCounter == |stored|
        decreases |lineBuf|
      {
        var idx := IndexByte(lineBuf, LF);
        if idx < 0 {
          NoLine(stored, lineBuf, lines, whole);
          break;
        }
        var raw := lineBuf[..idx];
        NextOutcome(stored, lineBuf, idx, lines, whole);
        lineBuf := lineBuf[idx + 1..];
        var line := Clean(raw);
        seqCounter := seqCounter + 1;
        var entry := Entry(seqCounter, line, |line|);
        stored := stored + [line];
        assert Numbered(stored) == ring.history + [entry];
        var panicked := ring.Append(entry);
      }
    }
  }

  /** With `stored` already appended and `buf` still to split, the end result is that of `lines` and `whole`. */
  ghost predicate SameOutcome(stored: seq<string>, buf: string, lines: seq<string>, whole: string) {
    && stored + CleanAll(Complete(buf)) == lines + CleanAll(Complete(whole))
    && Leftover(buf) == Leftover(whole)
  }

  lemma {:induction false} NoLine(stored: seq<string>, buf: string, lines: seq<string>, whole: string)
    requires SameOutcome(stored, buf, lines, whole) && IndexByte(buf, LF) < 0
    ensures stored == lines + CleanAll(Complete(whole)) && buf == Leftover(whole)
  {
    assert stored + [] == stored;
  }

  lemma {:induction false} NextOutcome(stored: seq<string>, buf: string, idx: nat, lines: seq<string>, whole: string)
    requires SameOutcome(stored, buf, lines, whole) && idx == IndexByte(buf, LF)
    ensures SameOutcome(stored + [Clean(buf[..idx])], buf[idx + 1..], lines, whole)
  {
  }

  lemma {:induction false} StartAgrees(received: seq<seq<string>>, history: seq<Entry>, seqCounter: int,
                    broadcasts: seq<string>, recorded: seq<string>)
    requires SinksAgree(received, history, seqCounter, broadcasts, recorded)
    ensures SinksAgree(received + [[]], history, seqCounter, broadcasts, recorded)
    ensures Leftover(Flatten(Last(received + [[]]))) == ""
  {
    assert (received + [[]])[..|received|] == received;
    assert Flatten<char>([]) == "";
    NewStream(Streams(received));
    FlattenSnoc(received, []);
  }

  lemma {:induction false} ReadAgrees(received: seq<seq<string>>, buf: string)
    requires received != []
    ensures var rest := Leftover(Flatten(Last(received)));
            && SessionLines(Streams(Received(received, buf)))
               == SessionLines(Streams(received)) + CleanAll(Complete(rest + buf))
            && Leftover(Flatten(Last(Received(received, buf)))) == Leftover(rest + buf)
    ensures Flatten(Received(received, buf)) == Flatten(received) + [buf]
  {
    var n := |received| - 1;
    var init, last := received[..n], received[n];
    assert received == init + [last];
    FlattenSnoc(init, last);
    FlattenSnoc(init, last + [buf]);
    FlattenSnoc(last, buf);
    var streams := Streams(received);
    assert Received(received, buf)[..n] == init;
    assert Streams(Received(received, buf)) == streams[n := streams[n] + buf];
    MoreBytes(streams, buf);
    Resume(Flatten(last), buf);
  }
}

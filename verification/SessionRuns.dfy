/** Runs of a session that show what does not hold: internal/serial/session.go:75-129, 196-280. */
module SessionRuns {
  import opened Options
  import opened Bytes
  import opened CleanLine
  import opened RingBuffer
  import opened SessionMachine
  import opened SessionLoops

  lemma {:induction false} Extended(ss: seq<State>, ls: seq<Label>, l: Label)
    returns (t: State, ss': seq<State>, ls': seq<Label>)
    requires Run(ss, ls) && Enabled(ss[|ss| - 1], l)
    ensures Run(ss', ls') && t == ss'[|ss'| - 1] == Next(ss[|ss| - 1], l)
    ensures ls' == ls + [l] && (CloseFree(ls) && l != CloseLocked ==> CloseFree(ls'))
  {
    t := Next(ss[|ss| - 1], l);
    ss', ls' := ss + [t], ls + [l];
  }

  /** A session that was opened and completely closed: its first reader still has to notice. */
  lemma {:induction false} ClosedOnce(maxLines: nat, maxBytes: nat) returns (ss: seq<State>, ls: seq<Label>)
    ensures Run(ss, ls)
    ensures var s := ss[|ss| - 1];
            && !s.connected && s.closing == 0 && s.stopCh in s.closedChs && s.nextId == 2
            && s.readers == map[0 := ReadLoop(Some(s.stopCh), 0, "", Check)]
  {
    var s := Start(maxLines, maxBytes);
    ss, ls := [s], [];
    s, ss, ls := Extended(ss, ls, Open(External, true));
    s, ss, ls := Extended(ss, ls, ReaderStarts(0));
    s, ss, ls := Extended(ss, ls, CloseLocked);
    s, ss, ls := Extended(ss, ls, CloseStop);
  }

  /** Reopening after a complete Close leaves the port connected with no reader at all, because its loops capture the
      closed channel. */
  lemma {:induction false} ReopenedButUnread(maxLines: nat, maxBytes: nat) returns (ss: seq<State>, ls: seq<Label>)
    ensures Run(ss, ls)
    ensures var s := ss[|ss| - 1]; s.connected && s.readers.Keys == {} && s.closing == 0
  {
    ss, ls := ClosedOnce(maxLines, maxBytes);
    var s;
    s, ss, ls := Extended(ss, ls, ReaderCheck(0));
    assert s.readers == map[];
    s, ss, ls := Extended(ss, ls, Open(External, true));
    assert s.readers.Keys == {2};
    s, ss, ls := Extended(ss, ls, ReaderStarts(2));
    s, ss, ls := Extended(ss, ls, ReaderCheck(2));
  }

  /** An Open between the two sections of Close leaves two active readers on one port. */
  lemma {:induction false} TwoReaders(maxLines: nat, maxBytes: nat) returns (ss: seq<State>, ls: seq<Label>)
    ensures Run(ss, ls)
    ensures var s := ss[|ss| - 1]; ActiveReader(s, 0) && ActiveReader(s, 2)
    ensures var s := ss[|ss| - 1];
            && s.port.Some? && s.maxLines == maxLines && s.maxBytes == maxBytes && s.streams == ["", ""]
            && s.readers == map[0 := ReadLoop(Some(0), 0, "", Check), 2 := ReadLoop(Some(0), 1, "", Check)]
            && s.closedChs == {} && s.seqCounter == 0 && s.ring == [] && s.appended == []
  {
    var s := Start(maxLines, maxBytes);
    ss, ls := [s], [];
    s, ss, ls := Extended(ss, ls, Open(External, true));
    s, ss, ls := Extended(ss, ls, ReaderStarts(0));
    s, ss, ls := Extended(ss, ls, CloseLocked);
    s, ss, ls := Extended(ss, ls, Open(External, true));
    s, ss, ls := Extended(ss, ls, ReaderStarts(2));
  }

  lemma {:induction false} FirstRead() returns (ss: seq<State>, ls: seq<Label>)
    ensures Run(ss, ls) && CloseFree(ls)
    ensures var s := ss[|ss| - 1];
            && s.port.Some? && s.connected && s.stopCh == 0 && s.closedChs == {} && s.nextCh == 1 && s.nextId == 2
            && s.readers == map[0 := ReadLoop(Some(0), 0, "", Reading(0))]
            && s.writers == map[1 := None] && s.retries == map[]
  {
    var s := Start(10, 100);
    ss, ls := [s], [];
    s, ss, ls := Extended(ss, ls, Open(External, true));
    assert s.readers == map[0 := ReadLoop(None, 0, "", Check)] && s.writers == map[1 := None];
    s, ss, ls := Extended(ss, ls, ReaderStarts(0));
    s, ss, ls := Extended(ss, ls, ReaderCheck(0));
    s, ss, ls := Extended(ss, ls, ReaderGrab(0));
  }

  /** A connection that is lost before its writer first runs. */
  lemma {:induction false} LostBeforeWriter() returns (ss: seq<State>, ls: seq<Label>)
    ensures Run(ss, ls) && CloseFree(ls)
    ensures var s := ss[|ss| - 1];
            && !s.connected && s.stopCh == 1 && s.closedChs == {0} && s.nextId == 3
            && s.writers == map[1 := None] && s.retries == map[2 := RetryLoop(None, false)]
  {
    ss, ls := FirstRead();
    var s;
    s, ss, ls := Extended(ss, ls, ReaderError(0));
    s, ss, ls := Extended(ss, ls, ReaderDisconnect(0));
  }

  lemma {:induction false} LateWriter() returns (ss: seq<State>, ls: seq<Label>)
    ensures Run(ss, ls) && CloseFree(ls)
    ensures var s := ss[|ss| - 1];
            && !s.connected && s.stopCh == 1 && s.closedChs == {0} && s.nextId == 3
            && s.writers == map[1 := Some(1)] && s.retries == map[2 := RetryLoop(Some(1), true)]
  {
    ss, ls := LostBeforeWriter();
    var s;
    s, ss, ls := Extended(ss, ls, WriterStarts(1));
    s, ss, ls := Extended(ss, ls, RetryStarts(2));
    s, ss, ls := Extended(ss, ls, RetryCheck(2));
  }

  /** Without any Close: the late writer captures the next connection's channel, and that connection has two active
      writers. */
  lemma {:induction false} TwoWriters() returns (ss: seq<State>, ls: seq<Label>)
    ensures Run(ss, ls) && CloseFree(ls)
    ensures var s := ss[|ss| - 1];
            s.connected && s.writers == map[1 := Some(1), 4 := Some(1)] && ActiveWriter(s, 1) && ActiveWriter(s, 4)
  {
    ss, ls := LateWriter();
    var s;
    s, ss, ls := Extended(ss, ls, Open(Retry(2), true));
    assert s.writers == map[1 := Some(1), 4 := None];
    s, ss, ls := Extended(ss, ls, WriterStarts(4));
  }

  /** A reconnect loop that is past its stop check opens the port again after a complete Close. */
  lemma {:induction false} ReopenedAfterClose() returns (ss: seq<State>, ls: seq<Label>)
    ensures Run(ss, ls)
    ensures |ls| >= 3 && ls[|ls| - 3..] == [CloseLocked, CloseStop, Open(Retry(2), true)]
    ensures ss[|ss| - 1].connected
  {
    ss, ls := LateWriter();
    var s;
    s, ss, ls := Extended(ss, ls, CloseLocked);
    s, ss, ls := Extended(ss, ls, CloseStop);
    s, ss, ls := Extended(ss, ls, Open(Retry(2), true));
  }

  predicate ReadyToRead(s: State, id: Id) {
    && s.port.Some? && s.closedChs == {}
    && id in s.readers && s.readers[id].conn < |s.streams|
    && s.readers[id].stop.Some? && s.readers[id].lineBuf == "" && s.readers[id].pc == Check
  }

  /** Nothing but the bytes and this reader have changed. */
  predicate OnlyRead(s: State, t: State, id: Id, r: ReadLoop) {
    && t.port == s.port && t.closedChs == s.closedChs && |t.streams| == |s.streams|
    && t.maxLines == s.maxLines && t.maxBytes == s.maxBytes && t.ring == s.ring && t.appended == s.appended
    && t.readers == s.readers[id := r]
  }

  /** A reader at its check reads a line feed. */
  lemma {:induction false} ReadsLf(ss: seq<State>, ls: seq<Label>, id: Id) returns (ss': seq<State>, ls': seq<Label>)
    requires Run(ss, ls) && ReadyToRead(ss[|ss| - 1], id)
    ensures Run(ss', ls')
    ensures var s, t := ss[|ss| - 1], ss'[|ss'| - 1];
            && OnlyRead(s, t, id, s.readers[id].(lineBuf := [LF], pc := Splitting))
            && t.seqCounter == s.seqCounter
  {
    var s;
    s, ss', ls' := Extended(ss, ls, ReaderCheck(id));
    s, ss', ls' := Extended(ss', ls', ReaderGrab(id));
    s, ss', ls' := Extended(ss', ls', ReaderData(id, [LF]));
    assert "" + [LF] == [LF];
  }

  /** And numbers the empty line it completes. */
  lemma {:induction false} ReadsEmptyLine(ss: seq<State>, ls: seq<Label>, id: Id)
    returns (ss': seq<State>, ls': seq<Label>)
    requires Run(ss, ls) && ReadyToRead(ss[|ss| - 1], id)
    ensures Run(ss', ls')
    ensures var s, t := ss[|ss| - 1], ss'[|ss'| - 1];
            && OnlyRead(s, t, id, s.readers[id].(pc := Appending(Entry(s.seqCounter + 1, "", 0))))
            && t.seqCounter == s.seqCounter + 1
  {
    ss', ls' := ReadsLf(ss, ls, id);
    CleanNothing();
    var s;
    s, ss', ls' := Extended(ss', ls', ReaderLine(id));
  }

  lemma {:induction false} CleanNothing()
    ensures IndexByte([LF], LF) == 0 && [LF][..0] == "" && [LF][1..] == "" && Clean("") == ""
  {
  }

  /** Two readers can append their lines in the opposite order of their numbers. */
  lemma {:induction false} NumbersOutOfOrder() returns (ss: seq<State>, ls: seq<Label>)
    ensures Run(ss, ls)
    ensures ss[|ss| - 1].ring == [Entry(2, "", 0), Entry(1, "", 0)]
  {
    ss, ls := TwoReaders(10, 100);
    ss, ls := ReadsEmptyLine(ss, ls, 0);
    ss, ls := ReadsEmptyLine(ss, ls, 2);
    var s;
    s, ss, ls := Extended(ss, ls, ReaderAppend(2));
    assert s.ring == [Entry(2, "", 0)] by { TotalBytesOne(); }
    s, ss, ls := Extended(ss, ls, ReaderAppend(0));
    TotalBytesOne();
  }

  lemma {:induction false} TotalBytesOne()
    ensures [] + [Entry(2, "", 0)] == [Entry(2, "", 0)] && TotalBytes([Entry(2, "", 0)]) == 0
    ensures [Entry(2, "", 0)] + [Entry(1, "", 0)] == [Entry(2, "", 0), Entry(1, "", 0)]
    ensures TotalBytes([Entry(2, "", 0), Entry(1, "", 0)]) == 0
  {
    assert [Entry(2, "", 0), Entry(1, "", 0)][1..] == [Entry(1, "", 0)];
    assert [Entry(2, "", 0)][1..] == [] && [Entry(1, "", 0)][1..] == [];
  }
}

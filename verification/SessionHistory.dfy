/** What a session stores, records and broadcasts over a whole run: internal/serial/session.go:152-208. */
module SessionHistory {
  import opened Bytes
  import opened Lines
  import opened CleanLine
  import opened RingBuffer
  import opened History
  import opened SessionMachine
  import opened SessionLoops
  import T = Tickets

  /** The ring buffer holds what the limits retain of everything ever appended. */
  ghost predicate Kept(s: State) { s.ring == Retained(s.appended, s.maxLines, s.maxBytes) }

  lemma {:induction false} KeptStep(s: State, l: Label)
    requires Enabled(s, l) && Kept(s)
    ensures Kept(Next(s, l))
  {
    if l.ReaderAppend? { RetainedOnline(s.appended, s.readers[l.id].pc.entry, s.maxLines, s.maxBytes); }
  }

  /** In every run, Close included, the ring buffer is what the limits retain of everything appended. */
  lemma {:induction false} RunKept(ss: seq<State>, ls: seq<Label>, i: nat)
    requires Run(ss, ls) && i < |ss|
    ensures Kept(ss[i])
  {
    if i > 0 {
      RunKept(ss, ls, i - 1);
      KeptStep(ss[i - 1], ls[i - 1]);
    }
  }

  /** The byte side of a run with one reader: the entries numbered so far (counting the one about to be appended), the
      counter, the reader's line buffer, the bytes of the connections and the chunks recorded. */
  datatype Ledger = Ledger(
    entries: seq<Entry>, counter: nat, lineBuf: string, streams: seq<string>, recorded: seq<string>, live: bool)

  function LedgerOf(s: State): Ledger {
    if s.liveReader in s.readers then
      var r := s.readers[s.liveReader];
      Ledger(s.appended + if r.pc.Appending? then [r.pc.entry] else [], s.seqCounter, r.lineBuf, s.streams, s.recorded,
             true)
    else Ledger(s.appended, s.seqCounter, "", s.streams, s.recorded, false)
  }

  /** The lines are numbered without a gap, or still in the line buffer. */
  ghost predicate CaughtUp(es: seq<Entry>, lineBuf: string, lines: seq<string>) {
    es == Numbered(Texts(es)) && Texts(es) + CleanAll(Complete(lineBuf)) == lines
  }

  /** So it is with the lines that the connections delivered, in order. */
  ghost predicate Balanced(g: Ledger) {
    && g.counter == |g.entries|
    && CaughtUp(g.entries, g.lineBuf, SessionLines(g.streams))
    && Flatten(g.recorded) == Flatten(g.streams)
    && (g.live ==> g.streams != [] && Leftover(g.lineBuf) == Leftover(g.streams[|g.streams| - 1]))
  }

  lemma {:induction false} StreamsGrow(streams: seq<string>, chunk: string)
    requires streams != []
    ensures Flatten(streams[|streams| - 1 := streams[|streams| - 1] + chunk]) == Flatten(streams) + chunk
  {
    var n := |streams| - 1;
    assert streams == streams[..n] + [streams[n]];
    assert streams[n := streams[n] + chunk] == streams[..n] + [streams[n] + chunk];
    FlattenSnoc(streams[..n], streams[n]);
    FlattenSnoc(streams[..n], streams[n] + chunk);
    Assoc(Flatten(streams[..n]), streams[n], chunk);
  }

  lemma {:induction false} BalancedOpen(g: Ledger)
    requires Balanced(g) && g.lineBuf == ""
    ensures Balanced(g.(streams := g.streams + [""], live := true))
  {
    NewStream(g.streams);
    FlattenSnoc(g.streams, "");
  }

  lemma {:induction false} BalancedEnd(g: Ledger)
    requires Balanced(g) && LF !in g.lineBuf
    ensures Balanced(g.(lineBuf := "", live := false))
  {
    IndexByteFinds(g.lineBuf, LF);
  }

  lemma {:induction false} CaughtUpData(es: seq<Entry>, lineBuf: string, streams: seq<string>, chunk: string)
    requires CaughtUp(es, lineBuf, SessionLines(streams)) && LF !in lineBuf
    requires streams != [] && Leftover(lineBuf) == Leftover(streams[|streams| - 1])
    ensures var n := |streams| - 1;
            CaughtUp(es, lineBuf + chunk, SessionLines(streams[n := streams[n] + chunk]))
  {
    IndexByteFinds(lineBuf, LF);
    assert Texts(es) + [] == Texts(es);
    MoreBytes(streams, chunk);
  }

  lemma {:induction false} LeftoverData(lineBuf: string, stream: string, chunk: string)
    requires LF !in lineBuf && Leftover(lineBuf) == Leftover(stream)
    ensures Leftover(lineBuf + chunk) == Leftover(stream + chunk)
  {
    IndexByteFinds(lineBuf, LF);
    Resume(stream, chunk);
  }

  lemma {:induction false} BalancedData(g: Ledger, h: Ledger, chunk: string)
    requires Balanced(g) && g.live && LF !in g.lineBuf && g.streams != []
    requires h.entries == g.entries && h.counter == g.counter && h.lineBuf == g.lineBuf + chunk
    requires h.streams == g.streams[|g.streams| - 1 := g.streams[|g.streams| - 1] + chunk]
    requires h.recorded == g.recorded + [chunk]
    ensures Balanced(h)
  {
    CaughtUpData(g.entries, g.lineBuf, g.streams, chunk);
    LeftoverData(g.lineBuf, g.streams[|g.streams| - 1], chunk);
    StreamsGrow(g.streams, chunk);
    FlattenSnoc(g.recorded, chunk);
  }

  lemma {:induction false} CaughtUpLine(es: seq<Entry>, lineBuf: string, lines: seq<string>)
    requires CaughtUp(es, lineBuf, lines) && IndexByte(lineBuf, LF) >= 0
    ensures var rest := lineBuf[IndexByte(lineBuf, LF) + 1..];
            CaughtUp(es + [CutEntry(lineBuf, |es|)], rest, lines) && Leftover(rest) == Leftover(lineBuf)
  {
    var idx := IndexByte(lineBuf, LF);
    var line, rest := Clean(lineBuf[..idx]), Complete(lineBuf[idx + 1..]);
    Assoc(Texts(es), [line], CleanAll(rest));
  }

  ghost predicate NothingLeft(r: ReadLoop) { r.pc != Splitting && !r.pc.Appending? ==> LF !in r.lineBuf }

  /** A reader that is through with its last read has no complete line left. */
  ghost predicate Tidy(s: State) { forall id :: id in s.readers ==> NothingLeft(s.readers[id]) }

  lemma {:induction false} CutLeaves(s: State, id: Id)
    requires id in s.readers
    ensures NothingLeft(LineCut(s, id).readers[id])
  {
    IndexByteFinds(s.readers[id].lineBuf, LF);
  }

  lemma {:induction false} MoveLeaves(s: State, l: Label)
    requires Enabled(s, l) && IsMove(l) && Tidy(s)
    ensures l.id in Next(s, l).readers && NothingLeft(Next(s, l).readers[l.id])
  {
    if l.ReaderLine? { CutLeaves(s, l.id); }
  }

  lemma {:induction false} TidyStep(s: State, l: Label)
    requires Enabled(s, l) && Tidy(s)
    ensures Tidy(Next(s, l))
  {
    if IsMove(l) {
      MoveMoves(s, l);
      MoveLeaves(s, l);
    }
  }

  ghost predicate OneReader(s: State) { SoleReader(s) && Tidy(s) }

  lemma {:induction false} LedgerOpen(s: State, caller: Caller)
    requires Enabled(s, Open(caller, true)) && OneReader(s) && !s.connected
    ensures LedgerOf(Next(s, Open(caller, true))) == LedgerOf(s).(streams := s.streams + [""], live := true)
  {
    assert s.liveReader !in s.readers;
    assert s.appended + [] == s.appended;
  }

  lemma {:induction false} LedgerSame(s: State, l: Label)
    requires !l.ReaderData? && !l.ReaderLine? && !l.ReaderAppend? && !l.ReaderDisconnect? && l != CloseLocked
    requires Enabled(s, l) && Served(s) && Settled(s) && OneReader(s) && !Connects(s, l)
    ensures LedgerOf(Next(s, l)) == LedgerOf(s)
  {
  }

  lemma {:induction false} LedgerNoLine(s: State, id: Id)
    requires id in s.readers && s.readers[id].pc == Splitting && IndexByte(s.readers[id].lineBuf, LF) < 0
    requires id == s.liveReader
    ensures LedgerOf(LineCut(s, id)) == LedgerOf(s)
  {
  }

  /** `h` is `g` with the first line of the buffer cut off and numbered. */
  ghost predicate CutOff(g: Ledger, h: Ledger)
    requires IndexByte(g.lineBuf, LF) >= 0
  {
    && h.entries == g.entries + [CutEntry(g.lineBuf, g.counter)] && h.counter == g.counter + 1
    && h.lineBuf == g.lineBuf[IndexByte(g.lineBuf, LF) + 1..]
    && h.streams == g.streams && h.recorded == g.recorded && h.live == g.live
  }

  lemma {:induction false} CutReader(s: State, id: Id, e: Entry)
    requires id in s.readers && IndexByte(s.readers[id].lineBuf, LF) >= 0
    requires e == CutEntry(s.readers[id].lineBuf, s.seqCounter)
    ensures var r, t := s.readers[id], LineCut(s, id);
            && id in t.readers && t.readers[id].pc == Appending(e)
            && t.readers[id].lineBuf == r.lineBuf[IndexByte(r.lineBuf, LF) + 1..]
            && t.seqCounter == s.seqCounter + 1 && t.liveReader == s.liveReader
            && t.appended == s.appended && t.streams == s.streams && t.recorded == s.recorded
  {
  }

  lemma {:induction false} LedgerEntries(s: State, t: State, id: Id, e: Entry)
    requires id in s.readers && !s.readers[id].pc.Appending? && id == s.liveReader
    requires id in t.readers && t.readers[id].pc == Appending(e) && id == t.liveReader && t.appended == s.appended
    ensures LedgerOf(t).entries == LedgerOf(s).entries + [e]
  {
    assert s.appended + [] == s.appended;
  }

  lemma {:induction false} LedgerCut(s: State, id: Id)
    requires id in s.readers && s.readers[id].pc == Splitting && IndexByte(s.readers[id].lineBuf, LF) >= 0
    requires id == s.liveReader
    ensures LedgerOf(s).lineBuf == s.readers[id].lineBuf
    ensures CutOff(LedgerOf(s), LedgerOf(LineCut(s, id)))
  {
    var e := CutEntry(s.readers[id].lineBuf, s.seqCounter);
    CutReader(s, id, e);
    LedgerEntries(s, LineCut(s, id), id, e);
  }

  lemma {:induction false} CaughtUpCut(es: seq<Entry>, lineBuf: string, lines: seq<string>,
                                       longer: seq<Entry>, rest: string)
    requires CaughtUp(es, lineBuf, lines) && IndexByte(lineBuf, LF) >= 0
    requires longer == es + [CutEntry(lineBuf, |es|)] && rest == lineBuf[IndexByte(lineBuf, LF) + 1..]
    ensures CaughtUp(longer, rest, lines) && Leftover(rest) == Leftover(lineBuf)
  {
    CaughtUpLine(es, lineBuf, lines);
  }

  lemma {:induction false} BalancedLine(g: Ledger, h: Ledger)
    requires Balanced(g) && IndexByte(g.lineBuf, LF) >= 0 && CutOff(g, h)
    ensures Balanced(h)
  {
    CaughtUpCut(g.entries, g.lineBuf, SessionLines(g.streams), h.entries, h.lineBuf);
  }

  lemma {:induction false} BalancedReadLine(s: State, id: Id)
    requires id in s.readers && s.readers[id].pc == Splitting && id == s.liveReader && Balanced(LedgerOf(s))
    ensures Balanced(LedgerOf(LineCut(s, id)))
  {
    if IndexByte(s.readers[id].lineBuf, LF) < 0 {
      LedgerNoLine(s, id);
    } else {
      LedgerCut(s, id);
      BalancedLine(LedgerOf(s), LedgerOf(LineCut(s, id)));
    }
  }

  lemma {:induction false} LedgerAppend(s: State, id: Id)
    requires Enabled(s, ReaderAppend(id)) && OneReader(s)
    ensures LedgerOf(Next(s, ReaderAppend(id))) == LedgerOf(s)
  {
    var e := s.readers[id].pc.entry;
    assert s.appended + [e] + [] == s.appended + [e];
  }

  lemma {:induction false} LedgerDisconnect(s: State, id: Id)
    requires Enabled(s, ReaderDisconnect(id)) && Sound(s) && OneReader(s)
    ensures LF !in LedgerOf(s).lineBuf
    ensures LedgerOf(Next(s, ReaderDisconnect(id))) == LedgerOf(s).(lineBuf := "", live := false)
  {
    assert s.appended + [] == s.appended;
  }

  lemma {:induction false} BalancedStep(s: State, l: Label)
    requires Enabled(s, l) && l != CloseLocked
    requires Sound(s) && Served(s) && Settled(s) && OneReader(s) && Balanced(LedgerOf(s))
    ensures Balanced(LedgerOf(Next(s, l)))
  {
    var g := LedgerOf(s);
    if Connects(s, l) {
      LedgerOpen(s, l.caller);
      BalancedOpen(g);
    } else if l.ReaderData? {
      if l.chunk != "" { BalancedData(g, LedgerOf(Next(s, l)), l.chunk); }
    } else if l.ReaderLine? {
      BalancedReadLine(s, l.id);
    } else if l.ReaderAppend? {
      LedgerAppend(s, l.id);
    } else if l.ReaderDisconnect? {
      LedgerDisconnect(s, l.id);
      BalancedEnd(g);
    } else {
      LedgerSame(s, l);
    }
  }

  lemma {:induction false} RunTidy(ss: seq<State>, ls: seq<Label>, i: nat)
    requires Run(ss, ls) && i < |ss|
    ensures Tidy(ss[i])
  {
    if i > 0 {
      RunTidy(ss, ls, i - 1);
      TidyStep(ss[i - 1], ls[i - 1]);
    }
  }

  lemma {:induction false} CloseFreeOneReader(ss: seq<State>, ls: seq<Label>, i: nat)
    requires Run(ss, ls) && CloseFree(ls) && i < |ss|
    ensures OneReader(ss[i])
  {
    CloseFreeSoleReader(ss, ls, i);
    RunTidy(ss, ls, i);
  }

  lemma {:induction false} StartBalanced(maxLines: nat, maxBytes: nat)
    ensures Balanced(LedgerOf(Start(maxLines, maxBytes)))
  {
  }

  lemma {:induction false} BalancedNext(ss: seq<State>, ls: seq<Label>, i: nat)
    requires Run(ss, ls) && CloseFree(ls) && i < |ls| && Balanced(LedgerOf(ss[i]))
    ensures Balanced(LedgerOf(Next(ss[i], ls[i])))
  {
    var s, l := ss[i], ls[i];
    assert Enabled(s, l) && l != CloseLocked;
    CloseFreeLifecycle(ss, ls, i);
    CloseFreeOneReader(ss, ls, i);
    BalancedStep(s, l);
  }

  /** In every state of a Close-free run the books balance. */
  lemma {:induction false} CloseFreeBalanced(ss: seq<State>, ls: seq<Label>, i: nat)
    requires Run(ss, ls) && CloseFree(ls) && i < |ss|
    ensures Balanced(LedgerOf(ss[i]))
  {
    if i == 0 {
      StartBalanced(ss[0].maxLines, ss[0].maxBytes);
    } else {
      var s, l := ss[i - 1], ls[i - 1];
      assert Enabled(s, l) && ss[i] == Next(s, l);
      CloseFreeBalanced(ss, ls, i - 1);
      BalancedNext(ss, ls, i - 1);
    }
  }

  /** No reader is between a read and the append of the last line it completed. */
  ghost predicate AllStored(s: State) {
    forall id :: id in s.readers ==> s.readers[id].pc != Splitting && !s.readers[id].pc.Appending?
  }

  lemma {:induction false} BooksShow(g: Ledger)
    requires Balanced(g)
    ensures g.entries <= Numbered(SessionLines(g.streams))
    ensures LF !in g.lineBuf ==> g.entries == Numbered(SessionLines(g.streams))
  {
    NumberedPrefix(Texts(g.entries), CleanAll(Complete(g.lineBuf)));
    IndexByteFinds(g.lineBuf, LF);
    if LF !in g.lineBuf { assert Texts(g.entries) + [] == Texts(g.entries); }
  }

  /** The entries of the ledger are those appended, and one more while a line is between its two steps. */
  lemma {:induction false} LedgerShows(s: State)
    requires OneReader(s) && s.seqCounter == |LedgerOf(s).entries|
    ensures LedgerOf(s).streams == s.streams && LedgerOf(s).recorded == s.recorded
    ensures s.appended <= LedgerOf(s).entries && |s.appended| <= s.seqCounter <= |s.appended| + 1
    ensures AllStored(s) ==>
              s.appended == LedgerOf(s).entries && s.seqCounter == |s.appended| && LF !in LedgerOf(s).lineBuf
  {
    assert s.appended + [] == s.appended;
  }

  /** Across any number of disconnects and reconnects of a Close-free run, what was appended are the first of the complete
      cleaned lines of the connections, in order, the i-th with number i; all of them once the reader is through with its
      last read, and then the counter is their number. The recorder was handed exactly the bytes of the connections. */
  lemma {:induction false} CloseFreeHistory(ss: seq<State>, ls: seq<Label>, i: nat)
    requires Run(ss, ls) && CloseFree(ls) && i < |ss|
    ensures var s := ss[i];
            && s.appended <= Numbered(SessionLines(s.streams))
            && |s.appended| <= s.seqCounter <= |s.appended| + 1
            && (AllStored(s) ==> s.appended == Numbered(SessionLines(s.streams)) && s.seqCounter == |s.appended|)
            && Flatten(s.broadcasts) == Flatten(s.recorded) == Flatten(s.streams)
  {
    RunInv(ss, ls, i);
    CloseFreeOneReader(ss, ls, i);
    CloseFreeBalanced(ss, ls, i);
    LedgerShows(ss[i]);
    BooksShow(LedgerOf(ss[i]));
  }

  lemma {:induction false} FirstNumbered(es: seq<Entry>, lines: seq<string>)
    requires es <= Numbered(lines)
    ensures es == Numbered(lines[..|es|])
  {
    var n := |es|;
    assert lines == lines[..n] + lines[n..];
    NumberedPrefix(lines[..n], lines[n..]);
  }

  /** `ring` is the longest stretch of the newest lines within both limits, with consecutive numbers that end at the
      number of lines. */
  ghost predicate HoldsNewest(ring: seq<Entry>, lines: seq<string>, maxLines: nat, maxBytes: nat) {
    && |ring| <= |lines|
    && LongestFit(ring, Numbered(lines), maxLines, maxBytes)
    && forall k :: 0 <= k < |ring| ==>
         ring[k].seq_ == |lines| - |ring| + 1 + k && ring[k].line == lines[|lines| - |ring| + k]
  }

  lemma {:induction false} RetainedHoldsNewest(lines: seq<string>, maxLines: nat, maxBytes: nat)
    ensures HoldsNewest(Retained(Numbered(lines), maxLines, maxBytes), lines, maxLines, maxBytes)
  {
    var ring := Retained(Numbered(lines), maxLines, maxBytes);
    RetainedIsLongestFit(Numbered(lines), maxLines, maxBytes);
    RingNumbers(ring, lines, maxLines, maxBytes);
  }

  /** The ring buffer in every state of a Close-free run: the newest of the lines appended, numbered without a gap up to
      their number. */
  lemma {:induction false} CloseFreeRing(ss: seq<State>, ls: seq<Label>, i: nat)
    requires Run(ss, ls) && CloseFree(ls) && i < |ss|
    ensures |ss[i].appended| <= |SessionLines(ss[i].streams)|
    ensures HoldsNewest(ss[i].ring, SessionLines(ss[i].streams)[..|ss[i].appended|], ss[i].maxLines, ss[i].maxBytes)
  {
    RunKept(ss, ls, i);
    CloseFreeOneReader(ss, ls, i);
    CloseFreeBalanced(ss, ls, i);
    LedgerShows(ss[i]);
    BooksShow(LedgerOf(ss[i]));
    FirstNumbered(ss[i].appended, SessionLines(ss[i].streams));
    RetainedHoldsNewest(SessionLines(ss[i].streams)[..|ss[i].appended|], ss[i].maxLines, ss[i].maxBytes);
  }

  /** The numbers of the entries appended, counting from 0. */
  function Numbers(es: seq<Entry>): (ns: seq<int>)
    ensures |ns| == |es|
  {
    if es == [] then [] else Numbers(es[..|es| - 1]) + [es[|es| - 1].seq_ - 1]
  }

  lemma {:induction false} NumberAt(es: seq<Entry>, k: nat)
    requires k < |es|
    ensures Numbers(es)[k] == es[k].seq_ - 1
  {
    if k < |es| - 1 { NumberAt(es[..|es| - 1], k); }
  }

  /** The numbers of lines that are cut off and not appended yet, by reader. */
  function Cut(s: State): map<Id, int> {
    map id | id in s.readers && s.readers[id].pc.Appending? :: s.readers[id].pc.entry.seq_ - 1
  }

  function TallyOf(s: State): T.Tally { T.Tally(s.seqCounter, Cut(s), Numbers(s.appended)) }

  lemma {:induction false} TallyCut(s: State, id: Id)
    requires id in s.readers && s.readers[id].pc == Splitting && IndexByte(s.readers[id].lineBuf, LF) >= 0
    ensures TallyOf(LineCut(s, id)) == T.Take(TallyOf(s), id)
  {
    assert Cut(LineCut(s, id)) == Cut(s)[id := s.seqCounter];
  }

  lemma {:induction false} TallyAppended(s: State, id: Id)
    requires id in s.readers && s.readers[id].pc.Appending?
    ensures id in Cut(s) && TallyOf(LineAppended(s, id)) == T.Put(TallyOf(s), id)
  {
    assert Cut(LineAppended(s, id)) == Cut(s) - {id};
  }

  /** Only cutting a line off and appending one touch the numbers. */
  predicate Cuts(s: State, l: Label)
    requires Enabled(s, l)
  {
    l.ReaderLine? && IndexByte(s.readers[l.id].lineBuf, LF) >= 0
  }

  /** The same lines are between their two steps. */
  ghost predicate SameCut(s: State, t: State) {
    && (forall id :: id in t.readers && t.readers[id].pc.Appending? ==>
          id in s.readers && s.readers[id].pc == t.readers[id].pc)
    && (forall id :: id in s.readers && s.readers[id].pc.Appending? ==>
          id in t.readers && s.readers[id].pc == t.readers[id].pc)
  }

  lemma {:induction false} CutSame(s: State, t: State)
    requires SameCut(s, t)
    ensures Cut(t) == Cut(s)
  {
  }

  lemma {:induction false} MoveSame(s: State, l: Label)
    requires Enabled(s, l) && IsMove(l) && !Cuts(s, l) && !l.ReaderAppend?
    ensures SameCut(s, Next(s, l))
  {
    MoveMoves(s, l);
  }

  lemma {:induction false} OpenSame(s: State, l: Label)
    requires Enabled(s, l) && l.Open? && s.nextId !in s.readers
    ensures SameCut(s, Next(s, l))
  {
  }

  lemma {:induction false} OtherSame(s: State, l: Label)
    requires Enabled(s, l) && !IsMove(l) && !l.Open?
    ensures SameCut(s, Next(s, l))
  {
  }

  lemma {:induction false} CountMove(s: State, l: Label)
    requires Enabled(s, l) && IsMove(l) && !Cuts(s, l) && !l.ReaderAppend?
    ensures Next(s, l).seqCounter == s.seqCounter && Next(s, l).appended == s.appended
  {
  }

  lemma {:induction false} CountSame(s: State, l: Label)
    requires Enabled(s, l) && !Cuts(s, l) && !l.ReaderAppend?
    ensures Next(s, l).seqCounter == s.seqCounter && Next(s, l).appended == s.appended
  {
    if IsMove(l) { CountMove(s, l); }
  }

  lemma {:induction false} TallySame(s: State, l: Label)
    requires Enabled(s, l) && !Cuts(s, l) && !l.ReaderAppend? && ReadersCaptured(s)
    ensures TallyOf(Next(s, l)) == TallyOf(s)
  {
    CountSame(s, l);
    if l.Open? {
      OpenSame(s, l);
    } else if IsMove(l) {
      MoveSame(s, l);
    } else {
      OtherSame(s, l);
    }
    CutSame(s, Next(s, l));
  }

  /** A reader appends its line while another still holds a smaller number. */
  ghost predicate OvertakesLine(s: State, l: Label)
    requires Enabled(s, l)
  {
    l.ReaderAppend? && exists other ::
      other in s.readers && s.readers[other].pc.Appending? &&
      s.readers[other].pc.entry.seq_ < s.readers[l.id].pc.entry.seq_
  }

  /** The i-th line appended carries number i. */
  ghost predicate InNumberOrder(s: State) {
    forall k :: 0 <= k < |s.appended| ==> s.appended[k].seq_ == k + 1
  }

  lemma {:induction false} OrderIs(s: State)
    ensures InNumberOrder(s) <==> T.InOrder(TallyOf(s))
  {
    forall k | 0 <= k < |s.appended| ensures Numbers(s.appended)[k] == s.appended[k].seq_ - 1 {
      NumberAt(s.appended, k);
    }
  }

  lemma {:induction false} OvertakingIs(s: State, id: Id)
    requires Enabled(s, ReaderAppend(id))
    ensures id in Cut(s) && (OvertakesLine(s, ReaderAppend(id)) <==> T.Overtakes(TallyOf(s), id))
  {
    if other :| other in s.readers && s.readers[other].pc.Appending?
                && s.readers[other].pc.entry.seq_ < s.readers[id].pc.entry.seq_ {
      assert other in Cut(s);
    }
  }

  lemma {:induction false} AccountedStep(s: State, l: Label)
    requires Enabled(s, l) && ReadersCaptured(s) && T.Accounted(TallyOf(s))
    ensures T.Accounted(TallyOf(Next(s, l)))
  {
    if Cuts(s, l) {
      TallyCut(s, l.id);
      T.AccountedTake(TallyOf(s), l.id);
    } else if l.ReaderAppend? {
      TallyAppended(s, l.id);
      T.AccountedPut(TallyOf(s), l.id);
    } else {
      TallySame(s, l);
    }
  }

  lemma {:induction false} OrderStep(s: State, l: Label)
    requires Enabled(s, l) && ReadersCaptured(s) && T.Accounted(TallyOf(s))
    ensures T.InOrder(TallyOf(Next(s, l))) <==> T.InOrder(TallyOf(s)) && !OvertakesLine(s, l)
  {
    if Cuts(s, l) {
      TallyCut(s, l.id);
    } else if l.ReaderAppend? {
      TallyAppended(s, l.id);
      OvertakingIs(s, l.id);
      T.InOrderPut(TallyOf(s), l.id);
    } else {
      TallySame(s, l);
    }
  }

  /** In every run, Close and any number of readers included: each number up to the counter belongs to exactly one appended
      line or to exactly one reader about to append it. */
  lemma {:induction false} NumbersAccounted(ss: seq<State>, ls: seq<Label>, i: nat)
    requires Run(ss, ls) && i < |ss|
    ensures T.Accounted(TallyOf(ss[i]))
  {
    if i > 0 {
      assert Enabled(ss[i - 1], ls[i - 1]) && ss[i] == Next(ss[i - 1], ls[i - 1]);
      NumbersAccounted(ss, ls, i - 1);
      RunInv(ss, ls, i - 1);
      AccountedStep(ss[i - 1], ls[i - 1]);
    }
  }

  lemma {:induction false} NumberOrderNext(ss: seq<State>, ls: seq<Label>, k: nat)
    requires Run(ss, ls) && k < |ls|
    ensures Enabled(ss[k], ls[k])
    ensures InNumberOrder(ss[k + 1]) <==> InNumberOrder(ss[k]) && !OvertakesLine(ss[k], ls[k])
  {
    NumbersAccounted(ss, ls, k);
    RunInv(ss, ls, k);
    OrderIs(ss[k]);
    OrderIs(ss[k + 1]);
    OrderStep(ss[k], ls[k]);
  }

  /** No reader overtook another before `j`. */
  ghost predicate NoOvertaking(ss: seq<State>, ls: seq<Label>, j: nat)
    requires Run(ss, ls) && j < |ss|
  {
    forall k :: 0 <= k < j ==> Enabled(ss[k], ls[k]) && !OvertakesLine(ss[k], ls[k])
  }

  lemma {:induction false} NoOvertakingNext(ss: seq<State>, ls: seq<Label>, k: nat)
    requires Run(ss, ls) && k < |ls| && Enabled(ss[k], ls[k])
    ensures NoOvertaking(ss, ls, k + 1) <==> NoOvertaking(ss, ls, k) && !OvertakesLine(ss[k], ls[k])
  {
  }

  /** In every run the lines stand in the order of their numbers, the i-th with number i, exactly when no reader appended
      one while another still held a smaller number. */
  lemma {:induction false} NumberOrderIff(ss: seq<State>, ls: seq<Label>, j: nat)
    requires Run(ss, ls) && j < |ss|
    ensures InNumberOrder(ss[j]) <==> NoOvertaking(ss, ls, j)
  {
    if j > 0 {
      NumberOrderIff(ss, ls, j - 1);
      NumberOrderNext(ss, ls, j - 1);
      NoOvertakingNext(ss, ls, j - 1);
    }
  }

  /** No two lines ever share a number, whatever the run. */
  lemma {:induction false} NumbersDiffer(ss: seq<State>, ls: seq<Label>, i: nat, j: nat, k: nat)
    requires Run(ss, ls) && i < |ss| && j < k < |ss[i].appended|
    ensures ss[i].appended[j].seq_ != ss[i].appended[k].seq_
    ensures 1 <= ss[i].appended[k].seq_ <= ss[i].seqCounter
  {
    NumbersAccounted(ss, ls, i);
    NumberAt(ss[i].appended, j);
    NumberAt(ss[i].appended, k);
    assert Numbers(ss[i].appended)[k] == TallyOf(ss[i]).done[k] && Numbers(ss[i].appended)[j] == TallyOf(ss[i]).done[j];
  }
}

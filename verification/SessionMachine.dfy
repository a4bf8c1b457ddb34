/** The serial session as a labelled step system: internal/serial/session.go:75-280.

    One step is one critical section, one channel operation or one port read of one goroutine. Spawning a loop and that
    loop capturing `s.stopCh`, when it first runs, are two steps. A read is broadcast and recorded in its own step;
    numbering a line and appending it are two steps. Close is two (the locked section, then the stop-channel section);
    handleDisconnect with its reconnect spawn and the reader's return is one. Channels, handles and goroutines are
    numbered in creation order. */
module SessionMachine {
  import opened Options
  import opened Bytes
  import opened Lines
  import opened CleanLine
  import opened RingBuffer
  import opened History

  type Chan = nat
  type Handle = nat
  type Id = nat

  datatype ReadPc = Check | Grab | Reading(handle: Handle) | Splitting | Appending(entry: Entry) | Failed

  /** A readLoop: the channel it captured, if it has run yet, the connection it serves, its line buffer. */
  datatype ReadLoop = ReadLoop(stop: Option<Chan>, conn: nat, lineBuf: string, pc: ReadPc)

  /** A reconnectLoop, before its stop check or about to call Open. */
  datatype RetryLoop = RetryLoop(stop: Option<Chan>, trying: bool)

  datatype State = State(
    port: Option<Handle>,
    connected: bool,
    stopCh: Chan,
    closedChs: set<Chan>,
    nextCh: Chan,
    openHandles: set<Handle>,
    nextHandle: Handle,
    closing: nat,                    // Close calls between their two sections
    readers: map<Id, ReadLoop>,
    writers: map<Id, Option<Chan>>,  // each writeLoop and the channel it captured, if it has run yet
    retries: map<Id, RetryLoop>,
    nextId: Id,
    liveReader: Id,                  // spawned by the latest successful Open
    liveWriter: Id,
    lastRetry: Option<Id>,           // spawned by the latest disconnect
    streams: seq<string>,            // bytes read, one entry per successful Open
    maxLines: nat,
    maxBytes: nat,
    seqCounter: nat,
    ring: seq<Entry>,
    appended: seq<Entry>,            // everything ever appended to the ring buffer
    broadcasts: seq<string>,         // data messages handed to broadcast
    recorded: seq<string>            // chunks handed to the recorder
  )

  datatype Caller = External | Retry(id: Id)

  datatype Label =
    | Open(caller: Caller, succeeds: bool)
    | CloseLocked
    | CloseStop
    | ReaderStarts(id: Id)
    | ReaderCheck(id: Id)
    | ReaderGrab(id: Id)
    | ReaderData(id: Id, chunk: string)
    | ReaderLine(id: Id)
    | ReaderAppend(id: Id)
    | ReaderError(id: Id)
    | ReaderDisconnect(id: Id)
    | WriterStarts(id: Id)
    | WriterStops(id: Id)
    | RetryStarts(id: Id)
    | RetryCheck(id: Id)

  /** NewSerialSession. */
  function Start(maxLines: nat, maxBytes: nat): State {
    State(None, false, 0, {}, 1, {}, 0, 0, map[], map[], map[], 0, 0, 0, None, [], maxLines, maxBytes, 0, [], [], [], [])
  }

  /** Open opens the port: a new handle, and a reader and a writer that have yet to run. */
  function Opened(s: State): State {
    s.(port := Some(s.nextHandle), connected := true,
       openHandles := s.openHandles + {s.nextHandle}, nextHandle := s.nextHandle + 1,
       readers := s.readers[s.nextId := ReadLoop(None, |s.streams|, "", Check)],
       writers := s.writers[s.nextId + 1 := None],
       nextId := s.nextId + 2, liveReader := s.nextId, liveWriter := s.nextId + 1,
       streams := s.streams + [""])
  }

  function Without(port: Option<Handle>, handles: set<Handle>): set<Handle> {
    if port.Some? then handles - {port.value} else handles
  }

  /** The locked section of Close. */
  function ClosedPort(s: State): State {
    s.(openHandles := Without(s.port, s.openHandles), port := None, connected := false, closing := s.closing + 1)
  }

  /** The stop-channel section of Close: closing an already closed channel is skipped. */
  function ClosedStop(s: State): State
    requires s.closing > 0
  {
    s.(closedChs := s.closedChs + {s.stopCh}, closing := s.closing - 1)
  }

  /** handleDisconnect: nothing without a port; otherwise a fresh stop channel and a reconnect loop that has yet to
      run. */
  function Disconnected(s: State): State {
    if s.port.None? then s
    else
      s.(openHandles := Without(s.port, s.openHandles), port := None, connected := false,
         closedChs := s.closedChs + {s.stopCh}, stopCh := s.nextCh, nextCh := s.nextCh + 1,
         retries := s.retries[s.nextId := RetryLoop(None, false)],
         lastRetry := Some(s.nextId), nextId := s.nextId + 1)
  }

  /** One non-empty read: broadcast, record, and add to the line buffer. */
  function Fed(s: State, id: Id, chunk: string): State
    requires id in s.readers && s.readers[id].conn < |s.streams|
  {
    var r := s.readers[id];
    s.(readers := s.readers[id := r.(lineBuf := r.lineBuf + chunk, pc := Splitting)],
       streams := s.streams[r.conn := s.streams[r.conn] + chunk],
       broadcasts := s.broadcasts + [chunk],
       recorded := s.recorded + [chunk])
  }

  /** The entry for the first complete line of a buffer, cleaned and numbered. */
  function CutEntry(lineBuf: string, counter: nat): Entry
    requires IndexByte(lineBuf, LF) >= 0
  {
    var line := Clean(lineBuf[..IndexByte(lineBuf, LF)]);
    Entry(counter + 1, line, |line|)
  }

  /** The first complete line, if any, is cut off the buffer and numbered. */
  function LineCut(s: State, id: Id): State
    requires id in s.readers
  {
    var r := s.readers[id];
    var idx := IndexByte(r.lineBuf, LF);
    if idx < 0 then s.(readers := s.readers[id := r.(pc := Check)])
    else
      var e := CutEntry(r.lineBuf, s.seqCounter);
      s.(readers := s.readers[id := r.(lineBuf := r.lineBuf[idx + 1..], pc := Appending(e))],
         seqCounter := s.seqCounter + 1)
  }

  /** The numbered line goes into the ring buffer. */
  function LineAppended(s: State, id: Id): State
    requires id in s.readers && s.readers[id].pc.Appending?
  {
    var e := s.readers[id].pc.entry;
    s.(readers := s.readers[id := s.readers[id].(pc := Splitting)],
       ring := Retained(s.ring + [e], s.maxLines, s.maxBytes), appended := s.appended + [e])
  }

  predicate Enabled(s: State, l: Label) {
    match l
    case Open(External, _) => true
    case Open(Retry(id), _) => id in s.retries && s.retries[id].trying
    case CloseLocked => true
    case CloseStop => s.closing > 0
    case ReaderStarts(id) => id in s.readers && s.readers[id].stop.None?
    case ReaderCheck(id) => id in s.readers && s.readers[id].pc == Check && s.readers[id].stop.Some?
    case ReaderGrab(id) => id in s.readers && s.readers[id].pc == Grab
    case ReaderData(id, _) => id in s.readers && s.readers[id].pc.Reading? && s.readers[id].conn < |s.streams|
    case ReaderLine(id) => id in s.readers && s.readers[id].pc == Splitting
    case ReaderAppend(id) => id in s.readers && s.readers[id].pc.Appending?
    case ReaderError(id) => id in s.readers && s.readers[id].pc.Reading?
    case ReaderDisconnect(id) => id in s.readers && s.readers[id].pc == Failed
    case WriterStarts(id) => id in s.writers && s.writers[id].None?
    case WriterStops(id) => id in s.writers && s.writers[id].Some? && s.writers[id].value in s.closedChs
    case RetryStarts(id) => id in s.retries && s.retries[id].stop.None?
    case RetryCheck(id) => id in s.retries && !s.retries[id].trying && s.retries[id].stop.Some?
  }

  /** What the caller of Open does with its result: a reconnect loop ends on success and goes round on failure. */
  function Returned(s: State, caller: Caller, ok: bool): State {
    match caller
    case External => s
    case Retry(id) =>
      if ok then s.(retries := s.retries - {id})
      else if id in s.retries then s.(retries := s.retries[id := s.retries[id].(trying := false)])
      else s
  }

  function AtPc(s: State, id: Id, pc: ReadPc): State
    requires id in s.readers
  {
    s.(readers := s.readers[id := s.readers[id].(pc := pc)])
  }

  function Next(s: State, l: Label): State
    requires Enabled(s, l)
  {
    match l
    case Open(caller, succeeds) =>
      if s.connected then Returned(s, caller, true)
      else if succeeds then Returned(Opened(s), caller, true)
      else Returned(s, caller, false)
    case CloseLocked => ClosedPort(s)
    case CloseStop => ClosedStop(s)
    case ReaderStarts(id) => s.(readers := s.readers[id := s.readers[id].(stop := Some(s.stopCh))])
    case ReaderCheck(id) =>
      if s.readers[id].stop.value in s.closedChs then s.(readers := s.readers - {id}) else AtPc(s, id, Grab)
    case ReaderGrab(id) =>
      if s.port.None? then AtPc(s, id, Check) else AtPc(s, id, Reading(s.port.value))
    case ReaderData(id, chunk) => if chunk == "" then AtPc(s, id, Check) else Fed(s, id, chunk)
    case ReaderLine(id) => LineCut(s, id)
    case ReaderAppend(id) => LineAppended(s, id)
    case ReaderError(id) => AtPc(s, id, Failed)
    case ReaderDisconnect(id) => Disconnected(s).(readers := s.readers - {id})
    case WriterStarts(id) => s.(writers := s.writers[id := Some(s.stopCh)])
    case WriterStops(id) => s.(writers := s.writers - {id})
    case RetryStarts(id) => s.(retries := s.retries[id := s.retries[id].(stop := Some(s.stopCh))])
    case RetryCheck(id) =>
      if s.retries[id].stop.value in s.closedChs then s.(retries := s.retries - {id})
      else s.(retries := s.retries[id := s.retries[id].(trying := true)])
  }

  /** What every reachable state satisfies, whatever the interleaving. */
  ghost predicate Sound(s: State) {
    && (s.connected <==> s.port.Some?)
    && s.openHandles == (if s.port.Some? then {s.port.value} else {})
    && (s.port.Some? ==> s.port.value < s.nextHandle)
    && s.stopCh < s.nextCh
    && (forall c :: 0 <= c < s.nextCh && c != s.stopCh ==> c in s.closedChs)
    && (forall c :: c in s.closedChs ==> c < s.nextCh)
    && s.broadcasts == s.recorded
  }

  ghost predicate Exists(s: State, stop: Option<Chan>) { stop.Some? ==> stop.value < s.nextCh }

  /** Every loop was spawned earlier and holds a channel that exists; a reader serves a connection that exists. */
  ghost predicate ReadersCaptured(s: State) {
    forall id :: id in s.readers ==>
      id < s.nextId && Exists(s, s.readers[id].stop) && s.readers[id].conn < |s.streams|
  }

  ghost predicate OthersCaptured(s: State) {
    && (forall id :: id in s.writers ==> id < s.nextId && Exists(s, s.writers[id]))
    && (forall id :: id in s.retries ==> id < s.nextId && Exists(s, s.retries[id].stop))
  }

  /** Nobody is half-way through Close and the current stop channel is open. */
  ghost predicate Settled(s: State) {
    s.closing == 0 && s.stopCh !in s.closedChs
  }

  /** The channel a loop captured, or would capture if it ran now. */
  function Holds(s: State, stop: Option<Chan>): Chan { if stop.Some? then stop.value else s.stopCh }

  ghost predicate ReaderOn(s: State, id: Id) { id in s.readers && Holds(s, s.readers[id].stop) == s.stopCh }

  ghost predicate WriterOn(s: State, id: Id) { id in s.writers && Holds(s, s.writers[id]) == s.stopCh }

  ghost predicate RetryOn(s: State, id: Id) { id in s.retries && Holds(s, s.retries[id].stop) == s.stopCh }

  /** While the current channel is open and the port connected, the latest reader and writer hold it; in a settled state
      a lost port has its reconnect loop. */
  ghost predicate Served(s: State) {
    && (s.connected && s.stopCh !in s.closedChs ==> ReaderOn(s, s.liveReader) && WriterOn(s, s.liveWriter))
    && (Settled(s) && !s.connected && s.lastRetry.Some? ==> RetryOn(s, s.lastRetry.value))
  }

  ghost predicate Inv(s: State) {
    Sound(s) && ReadersCaptured(s) && OthersCaptured(s) && Served(s)
  }

  lemma {:induction false} StartInv(maxLines: nat, maxBytes: nat)
    ensures Inv(Start(maxLines, maxBytes))
  {
  }

  /** The steps with which a reader goes on from read to read. */
  predicate IsMove(l: Label) {
    l.ReaderGrab? || l.ReaderData? || l.ReaderLine? || l.ReaderAppend? || l.ReaderError?
  }

  /** Only the reader's own line buffer and position and the bytes change. */
  ghost predicate ReaderMoves(s: State, t: State, id: Id) {
    && id in s.readers && id in t.readers && t.readers == s.readers[id := t.readers[id]]
    && t.readers[id].stop == s.readers[id].stop && t.readers[id].conn == s.readers[id].conn
    && t.port == s.port && t.connected == s.connected && t.stopCh == s.stopCh && t.closedChs == s.closedChs
    && t.nextCh == s.nextCh && t.openHandles == s.openHandles && t.nextHandle == s.nextHandle
    && t.closing == s.closing && t.writers == s.writers && t.retries == s.retries && t.nextId == s.nextId
    && t.liveReader == s.liveReader && t.liveWriter == s.liveWriter && t.lastRetry == s.lastRetry
    && |t.streams| == |s.streams| && (s.broadcasts == s.recorded ==> t.broadcasts == t.recorded)
    && (t.readers[id].pc.Reading? ==> t.port == Some(t.readers[id].pc.handle))
  }

  lemma {:induction false} MoveMoves(s: State, l: Label)
    requires Enabled(s, l) && IsMove(l)
    ensures ReaderMoves(s, Next(s, l), l.id)
  {
    match l
    case ReaderGrab(id) =>
      assert Next(s, l) == if s.port.None? then AtPc(s, id, Check) else AtPc(s, id, Reading(s.port.value));
    case ReaderData(id, chunk) => assert Next(s, l) == if chunk == "" then AtPc(s, id, Check) else Fed(s, id, chunk);
    case ReaderLine(id) => assert Next(s, l) == LineCut(s, id);
    case ReaderAppend(id) => assert Next(s, l) == LineAppended(s, id);
    case ReaderError(id) => assert Next(s, l) == AtPc(s, id, Failed);
  }

  lemma {:induction false} MoveKeeps(s: State, t: State, id: Id)
    requires Inv(s) && ReaderMoves(s, t, id)
    ensures Inv(t)
  {
  }

  lemma {:induction false} SoundStep(s: State, l: Label)
    requires Enabled(s, l) && !IsMove(l) && Sound(s)
    ensures Sound(Next(s, l))
  {
  }

  lemma {:induction false} ServedStep(s: State, l: Label)
    requires Enabled(s, l) && !IsMove(l) && Sound(s) && ReadersCaptured(s) && Served(s)
    ensures Served(Next(s, l))
  {
  }

  lemma {:induction false} ReadersCapturedStep(s: State, l: Label)
    requires Enabled(s, l) && !IsMove(l) && Sound(s) && ReadersCaptured(s)
    ensures ReadersCaptured(Next(s, l))
  {
  }

  lemma {:induction false} OthersCapturedStep(s: State, l: Label)
    requires Enabled(s, l) && !IsMove(l) && Sound(s) && OthersCaptured(s)
    ensures OthersCaptured(Next(s, l))
  {
  }

  lemma {:induction false} InvStep(s: State, l: Label)
    requires Enabled(s, l) && Inv(s)
    ensures Inv(Next(s, l))
  {
    if IsMove(l) {
      MoveMoves(s, l);
      MoveKeeps(s, Next(s, l), l.id);
    } else {
      SoundStep(s, l);
      ReadersCapturedStep(s, l);
      OthersCapturedStep(s, l);
      ServedStep(s, l);
    }
  }

  /** A run: each state follows from the one before by an enabled step. */
  ghost predicate Run(ss: seq<State>, ls: seq<Label>) {
    && |ss| == |ls| + 1
    && ss[0] == Start(ss[0].maxLines, ss[0].maxBytes)
    && forall i :: 0 <= i < |ls| ==> Enabled(ss[i], ls[i]) && ss[i + 1] == Next(ss[i], ls[i])
  }

  lemma {:induction false} RunInv(ss: seq<State>, ls: seq<Label>, i: nat)
    requires Run(ss, ls) && i < |ss|
    ensures Inv(ss[i])
  {
    if i == 0 {
      StartInv(ss[0].maxLines, ss[0].maxBytes);
    } else {
      RunInv(ss, ls, i - 1);
      InvStep(ss[i - 1], ls[i - 1]);
    }
  }

  /** A loop that has run holds a closed channel or the current one. */
  predicate Captured(s: State, stop: Option<Chan>) {
    stop.Some? ==> stop.value in s.closedChs || stop.value == s.stopCh
  }

  /** Safety in every reachable state, any interleaving of Open, Close, read errors and reconnects: connected means a
      port; the open hardware handles are exactly the port; every superseded stop channel is closed, so each loop
      holds a closed channel or the current one; broadcast and recorder got the same chunks. */
  lemma {:induction false} AlwaysSound(ss: seq<State>, ls: seq<Label>, i: nat)
    requires Run(ss, ls) && i < |ss|
    ensures var s := ss[i];
            && (s.connected <==> s.port.Some?)
            && s.openHandles == (if s.port.Some? then {s.port.value} else {})
            && (forall c :: 0 <= c < s.nextCh && c != s.stopCh ==> c in s.closedChs)
            && (forall id :: id in s.readers ==> Captured(s, s.readers[id].stop))
            && (forall id :: id in s.writers ==> Captured(s, s.writers[id]))
            && (forall id :: id in s.retries ==> Captured(s, s.retries[id].stop))
            && s.broadcasts == s.recorded
  {
    RunInv(ss, ls, i);
  }

  /** A successful Open that finds no connection, as opposed to one that fails or finds the port already open. */
  predicate Connects(s: State, l: Label) {
    l.Open? && l.succeeds && !s.connected
  }

  lemma {:induction false} NoRetryStep(s: State, l: Label)
    requires Enabled(s, l) && s.port.None? && !Connects(s, l)
    ensures var t := Next(s, l);
            && t.port.None? && t.lastRetry == s.lastRetry
            && t.retries.Keys <= s.retries.Keys && t.readers.Keys <= s.readers.Keys
  {
    if IsMove(l) { MoveMoves(s, l); }
  }

  /** While the port is gone and no Open succeeds, no reconnect loop is spawned. */
  lemma {:induction false} NoRetryWhileGone(ss: seq<State>, ls: seq<Label>, i: nat, j: nat)
    requires Run(ss, ls) && i <= j < |ss|
    requires ss[i].port.None?
    requires forall k :: i <= k < j ==> !Connects(ss[k], ls[k])
    ensures ss[j].port.None? && ss[j].lastRetry == ss[i].lastRetry
    ensures ss[j].retries.Keys <= ss[i].retries.Keys && ss[j].readers.Keys <= ss[i].readers.Keys
    decreases j
  {
    if i < j {
      NoRetryWhileGone(ss, ls, i, j - 1);
      NoRetryStep(ss[j - 1], ls[j - 1]);
    }
  }

  /** After a Close and until an Open succeeds again, there is no port and no new reconnect loop or reader: those alive
      were alive at the Close. */
  lemma {:induction false} NoRetryAfterClose(ss: seq<State>, ls: seq<Label>, i: nat, j: nat)
    requires Run(ss, ls) && i < j < |ss| && ls[i] == CloseLocked
    requires forall k :: i < k < j ==> !Connects(ss[k], ls[k])
    ensures ss[j].port.None? && ss[j].lastRetry == ss[i].lastRetry
    ensures ss[j].retries.Keys <= ss[i].retries.Keys && ss[j].readers.Keys <= ss[i].readers.Keys
  {
    assert ss[i + 1] == Next(ss[i], ls[i]);
    NoRetryWhileGone(ss, ls, i + 1, j);
  }

  /** A loop is active while its channel is open; one that has yet to run is, if the current channel is. */
  ghost predicate ActiveReader(s: State, id: Id) {
    id in s.readers && Holds(s, s.readers[id].stop) !in s.closedChs
  }

  ghost predicate ActiveWriter(s: State, id: Id) { id in s.writers && Holds(s, s.writers[id]) !in s.closedChs }

  ghost predicate ActiveRetry(s: State, id: Id) {
    id in s.retries && Holds(s, s.retries[id].stop) !in s.closedChs
  }

  /** A connection is served by an active reader, and by an active writer, exactly when the current stop channel is
      open. */
  lemma {:induction false} ServedIff(ss: seq<State>, ls: seq<Label>, i: nat)
    requires Run(ss, ls) && i < |ss| && ss[i].connected
    ensures (exists id :: ActiveReader(ss[i], id)) <==> ss[i].stopCh !in ss[i].closedChs
    ensures (exists id :: ActiveWriter(ss[i], id)) <==> ss[i].stopCh !in ss[i].closedChs
  {
    RunInv(ss, ls, i);
    var s := ss[i];
    if s.stopCh !in s.closedChs {
      assert ActiveReader(s, s.liveReader) && ActiveWriter(s, s.liveWriter);
    }
  }

  ghost predicate OneActiveReader(s: State) {
    forall a, b :: ActiveReader(s, a) && ActiveReader(s, b) ==> a == b
  }

  ghost predicate OneActiveWriter(s: State) {
    forall a, b :: ActiveWriter(s, a) && ActiveWriter(s, b) ==> a == b
  }

  predicate Unstarted(s: State, id: Id) { id in s.readers && s.readers[id].stop.None? }

  predicate UnstartedWriter(s: State, id: Id) { id in s.writers && s.writers[id].None? }

  /** A reader too many: an Open connects while one is active, or a disconnect makes a fresh channel while two have yet
      to run. */
  ghost predicate CrowdsReaders(s: State, l: Label) {
    || (Connects(s, l) && exists a :: ActiveReader(s, a))
    || (l.ReaderDisconnect? && s.port.Some? &&
        exists a, b :: Unstarted(s, a) && Unstarted(s, b) && a != b && a != l.id && b != l.id)
  }

  ghost predicate CrowdsWriters(s: State, l: Label) {
    || (Connects(s, l) && exists a :: ActiveWriter(s, a))
    || (l.ReaderDisconnect? && s.port.Some? &&
        exists a, b :: UnstartedWriter(s, a) && UnstartedWriter(s, b) && a != b)
  }

}

/** How many loops of a session are active at once: internal/serial/session.go:75-129, 211-216, 244-280. */
module SessionLoops {
  import opened Options
  import opened SessionMachine

  lemma {:induction false} OpenActive(s: State, l: Label, id: Id)
    requires Enabled(s, l) && Inv(s) && Connects(s, l)
    ensures ActiveReader(Next(s, l), id) <==> ActiveReader(s, id) || (id == s.nextId && s.stopCh !in s.closedChs)
    ensures ActiveWriter(Next(s, l), id) <==> ActiveWriter(s, id) || (id == s.nextId + 1 && s.stopCh !in s.closedChs)
  {
  }

  lemma {:induction false} MoveActive(s: State, t: State, moved: Id, id: Id)
    requires ReaderMoves(s, t, moved)
    ensures ActiveReader(t, id) <==> ActiveReader(s, id)
    ensures ActiveWriter(t, id) <==> ActiveWriter(s, id)
  {
  }

  /** No other step makes a loop active. */
  lemma {:induction false} NoneActivated(s: State, l: Label, id: Id)
    requires Enabled(s, l) && Inv(s) && !Connects(s, l) && !(l.ReaderDisconnect? && s.port.Some?)
    ensures ActiveReader(Next(s, l), id) ==> ActiveReader(s, id)
    ensures ActiveWriter(Next(s, l), id) ==> ActiveWriter(s, id)
  {
    if IsMove(l) {
      MoveMoves(s, l);
      MoveActive(s, Next(s, l), l.id, id);
    }
  }

  lemma {:induction false} ReadersConnect(s: State, l: Label)
    requires Enabled(s, l) && Inv(s) && OneActiveReader(s) && Connects(s, l)
    ensures OneActiveReader(Next(s, l)) <==> !exists a :: ActiveReader(s, a)
  {
    var t := Next(s, l);
    OpenActive(s, l, s.nextId);
    if a :| ActiveReader(s, a) {
      OpenActive(s, l, a);
      assert ActiveReader(t, a) && ActiveReader(t, s.nextId);
    } else {
      forall b | ActiveReader(t, b) ensures b == s.nextId { OpenActive(s, l, b); }
    }
  }

  lemma {:induction false} WritersConnect(s: State, l: Label)
    requires Enabled(s, l) && Inv(s) && OneActiveWriter(s) && Connects(s, l)
    ensures OneActiveWriter(Next(s, l)) <==> !exists a :: ActiveWriter(s, a)
  {
    var t := Next(s, l);
    OpenActive(s, l, s.nextId + 1);
    if a :| ActiveWriter(s, a) {
      OpenActive(s, l, a);
      assert ActiveWriter(t, a) && ActiveWriter(t, s.nextId + 1);
    } else {
      forall b | ActiveWriter(t, b) ensures b == s.nextId + 1 { OpenActive(s, l, b); }
    }
  }

  lemma {:induction false} LoopsDisconnect(s: State, l: Label)
    requires Enabled(s, l) && Inv(s) && l.ReaderDisconnect? && s.port.Some?
    ensures OneActiveReader(Next(s, l)) <==> !CrowdsReaders(s, l)
    ensures OneActiveWriter(Next(s, l)) <==> !CrowdsWriters(s, l)
  {
    forall id
      ensures ActiveReader(Next(s, l), id) <==> Unstarted(s, id) && id != l.id
      ensures ActiveWriter(Next(s, l), id) <==> UnstartedWriter(s, id)
    {
    }
  }

  lemma {:induction false} OthersQuiet(s: State, l: Label)
    requires Enabled(s, l) && Inv(s) && !Connects(s, l) && !(l.ReaderDisconnect? && s.port.Some?)
    ensures OneActiveReader(s) ==> OneActiveReader(Next(s, l))
    ensures OneActiveWriter(s) ==> OneActiveWriter(Next(s, l))
  {
    forall id
      ensures ActiveReader(Next(s, l), id) ==> ActiveReader(s, id)
      ensures ActiveWriter(Next(s, l), id) ==> ActiveWriter(s, id)
    {
      NoneActivated(s, l, id);
    }
  }

  /** From a state with at most one active reader, the next one has two exactly when the step crowds. */
  lemma {:induction false} OneReaderStep(s: State, l: Label)
    requires Enabled(s, l) && Inv(s) && OneActiveReader(s)
    ensures OneActiveReader(Next(s, l)) <==> !CrowdsReaders(s, l)
  {
    if Connects(s, l) {
      ReadersConnect(s, l);
    } else if l.ReaderDisconnect? && s.port.Some? {
      LoopsDisconnect(s, l);
    } else {
      OthersQuiet(s, l);
    }
  }

  lemma {:induction false} OneWriterStep(s: State, l: Label)
    requires Enabled(s, l) && Inv(s) && OneActiveWriter(s)
    ensures OneActiveWriter(Next(s, l)) <==> !CrowdsWriters(s, l)
  {
    if Connects(s, l) {
      WritersConnect(s, l);
    } else if l.ReaderDisconnect? && s.port.Some? {
      LoopsDisconnect(s, l);
    } else {
      OthersQuiet(s, l);
    }
  }

  lemma {:induction false} StartAlone(ss: seq<State>, ls: seq<Label>)
    requires Run(ss, ls)
    ensures OneActiveReader(ss[0]) && OneActiveWriter(ss[0])
  {
  }

  /** Up to any point of a run, Close included, two readers have never been active at once exactly when no step crowded
      them. */
  lemma {:induction false} OneReaderIff(ss: seq<State>, ls: seq<Label>, j: nat)
    requires Run(ss, ls) && j < |ss|
    ensures (forall i :: 0 <= i <= j ==> OneActiveReader(ss[i]))
            <==> (forall k :: 0 <= k < j ==> !CrowdsReaders(ss[k], ls[k]))
  {
    if j == 0 {
      StartAlone(ss, ls);
    } else {
      var s, l := ss[j - 1], ls[j - 1];
      assert Enabled(s, l) && ss[j] == Next(s, l);
      OneReaderIff(ss, ls, j - 1);
      RunInv(ss, ls, j - 1);
      if OneActiveReader(s) { OneReaderStep(s, l); }
    }
  }

  lemma {:induction false} OneWriterIff(ss: seq<State>, ls: seq<Label>, j: nat)
    requires Run(ss, ls) && j < |ss|
    ensures (forall i :: 0 <= i <= j ==> OneActiveWriter(ss[i]))
            <==> (forall k :: 0 <= k < j ==> !CrowdsWriters(ss[k], ls[k]))
  {
    if j == 0 {
      StartAlone(ss, ls);
    } else {
      var s, l := ss[j - 1], ls[j - 1];
      assert Enabled(s, l) && ss[j] == Next(s, l);
      OneWriterIff(ss, ls, j - 1);
      RunInv(ss, ls, j - 1);
      if OneActiveWriter(s) { OneWriterStep(s, l); }
    }
  }

  predicate CloseFree(ls: seq<Label>) {
    forall i :: 0 <= i < |ls| ==> ls[i] != CloseLocked
  }

  lemma {:induction false} SettledStep(s: State, l: Label)
    requires Enabled(s, l) && Sound(s) && Settled(s) && l != CloseLocked
    ensures Settled(Next(s, l))
  {
    if IsMove(l) { MoveMoves(s, l); }
  }

  /** Without Close, the current stop channel is never a closed one. */
  lemma {:induction false} CloseFreeSettled(ss: seq<State>, ls: seq<Label>, i: nat)
    requires Run(ss, ls) && CloseFree(ls) && i < |ss|
    ensures Settled(ss[i])
  {
    if i > 0 {
      CloseFreeSettled(ss, ls, i - 1);
      RunInv(ss, ls, i - 1);
      assert ls[i - 1] != CloseLocked;
      SettledStep(ss[i - 1], ls[i - 1]);
    }
  }

  /** The only reader is the live one; it serves the last connection and reads the current port. */
  ghost predicate SoleReader(s: State) {
    && (forall id :: id in s.readers ==>
          s.connected && id == s.liveReader
          && (s.readers[id].pc.Reading? ==> s.port == Some(s.readers[id].pc.handle)))
    && (s.connected ==> s.liveReader in s.readers && s.readers[s.liveReader].conn == |s.streams| - 1)
  }

  lemma {:induction false} SoleReaderStep(s: State, l: Label)
    requires Enabled(s, l) && l != CloseLocked
    requires Sound(s) && Served(s) && Settled(s) && SoleReader(s)
    ensures SoleReader(Next(s, l))
  {
    if IsMove(l) {
      MoveMoves(s, l);
    }
  }

  lemma {:induction false} CloseFreeLifecycle(ss: seq<State>, ls: seq<Label>, i: nat)
    requires Run(ss, ls) && CloseFree(ls) && i < |ss|
    ensures Sound(ss[i]) && Served(ss[i]) && Settled(ss[i])
  {
    RunInv(ss, ls, i);
    CloseFreeSettled(ss, ls, i);
  }

  lemma {:induction false} CloseFreeSoleReader(ss: seq<State>, ls: seq<Label>, i: nat)
    requires Run(ss, ls) && CloseFree(ls) && i < |ss|
    ensures SoleReader(ss[i])
  {
    if i > 0 {
      var s, l := ss[i - 1], ls[i - 1];
      assert Enabled(s, l) && ss[i] == Next(s, l) && l != CloseLocked;
      CloseFreeSoleReader(ss, ls, i - 1);
      CloseFreeLifecycle(ss, ls, i - 1);
      SoleReaderStep(s, l);
    }
  }

  /** Every Close-free run, callers racing the reconnect loop with their own Open included: while connected exactly one
      reader is active and it reads the current port, and the latest writer is active; while not connected no reader is
      active, and the reconnect loop of the latest disconnect still is. */
  lemma {:induction false} CloseFreeServed(ss: seq<State>, ls: seq<Label>, i: nat)
    requires Run(ss, ls) && CloseFree(ls) && i < |ss|
    ensures var s := ss[i];
            && (s.connected ==> ActiveReader(s, s.liveReader) && ActiveWriter(s, s.liveWriter))
            && (forall id :: ActiveReader(s, id) ==>
                  (s.connected && id == s.liveReader &&
                   (s.readers[id].pc.Reading? ==> s.port == Some(s.readers[id].pc.handle))))
            && (!s.connected && s.lastRetry.Some? ==> ActiveRetry(s, s.lastRetry.value))
  {
    CloseFreeLifecycle(ss, ls, i);
    CloseFreeSoleReader(ss, ls, i);
  }

  /** In a Close-free run two writers have never been active at once exactly when no Open connected while one was still
      active: one that had not run before the port of its own Open was lost. */
  lemma {:induction false} CloseFreeWriterIff(ss: seq<State>, ls: seq<Label>, j: nat)
    requires Run(ss, ls) && CloseFree(ls) && j < |ss|
    ensures (forall i :: 0 <= i <= j ==> OneActiveWriter(ss[i]))
            <==> (forall k :: 0 <= k < j ==> !(Connects(ss[k], ls[k]) && exists w :: ActiveWriter(ss[k], w)))
  {
    OneWriterIff(ss, ls, j);
    if forall k :: 0 <= k < j ==> !(Connects(ss[k], ls[k]) && exists w :: ActiveWriter(ss[k], w)) {
      forall i | 0 <= i <= j ensures OneActiveWriter(ss[i]) { NoCrowdWithoutOpen(ss, ls, i); }
    }
  }

  lemma {:induction false} NoCrowdWithoutOpen(ss: seq<State>, ls: seq<Label>, i: nat)
    requires Run(ss, ls) && CloseFree(ls) && i < |ss|
    requires forall k :: 0 <= k < i ==> !(Connects(ss[k], ls[k]) && exists w :: ActiveWriter(ss[k], w))
    ensures OneActiveWriter(ss[i])
  {
    if i == 0 {
      StartAlone(ss, ls);
    } else {
      var s, l := ss[i - 1], ls[i - 1];
      assert Enabled(s, l) && ss[i] == Next(s, l);
      NoCrowdWithoutOpen(ss, ls, i - 1);
      RunInv(ss, ls, i - 1);
      CloseFreeSettled(ss, ls, i - 1);
      forall w | UnstartedWriter(s, w) ensures ActiveWriter(s, w) {}
      OneWriterStep(s, l);
    }
  }

  /** A writer that is active right after a lost connection had not run while it lasted. */
  lemma {:induction false} StaleWriterStep(s: State, l: Label, w: Id)
    requires Enabled(s, l) && Inv(s) && l.ReaderDisconnect? && s.port.Some?
    requires ActiveWriter(Next(s, l), w)
    ensures UnstartedWriter(s, w)
  {
  }

  /** A loop that exists in both states; one that had captured a channel still holds that one. */
  ghost predicate Keeps(before: Option<Chan>, after: Option<Chan>) { before.Some? ==> after == before }

  /** No loop of an earlier state comes back, and none changes its channel. */
  ghost predicate KeepsAll(s: State, t: State, id: Id) {
    && (id in t.readers ==> id in s.readers && Keeps(s.readers[id].stop, t.readers[id].stop))
    && (id in t.writers ==> id in s.writers && Keeps(s.writers[id], t.writers[id]))
    && (id in t.retries ==> id in s.retries && Keeps(s.retries[id].stop, t.retries[id].stop))
  }

  lemma {:induction false} KeepsStep(s: State, l: Label, id: Id)
    requires Enabled(s, l) && id < s.nextId
    ensures KeepsAll(s, Next(s, l), id) && id < Next(s, l).nextId
  {
    if IsMove(l) { MoveMoves(s, l); }
  }

  lemma {:induction false} KeepsNext(ss: seq<State>, ls: seq<Label>, k: nat, id: Id)
    requires Run(ss, ls) && k < |ls| && id < ss[k].nextId
    ensures KeepsAll(ss[k], ss[k + 1], id) && id < ss[k + 1].nextId
  {
    KeepsStep(ss[k], ls[k], id);
  }

  lemma {:induction false} KeepsRefl(s: State, id: Id)
    ensures KeepsAll(s, s, id)
  {
  }

  lemma {:induction false} KeepsTrans(s: State, t: State, u: State, id: Id)
    requires KeepsAll(s, t, id) && KeepsAll(t, u, id)
    ensures KeepsAll(s, u, id)
  {
  }

  /** In every run a loop that has captured a stop channel holds that channel until it ends, and one that has ended never
      runs again. */
  lemma {:induction false} LoopsKeepChannels(ss: seq<State>, ls: seq<Label>, i: nat, j: nat, id: Id)
    requires Run(ss, ls) && i <= j < |ss| && id < ss[i].nextId
    ensures KeepsAll(ss[i], ss[j], id) && id < ss[j].nextId
    decreases j
  {
    if i == j {
      KeepsRefl(ss[i], id);
    } else {
      LoopsKeepChannels(ss, ls, i, j - 1, id);
      KeepsNext(ss, ls, j - 1, id);
      KeepsTrans(ss[i], ss[j - 1], ss[j], id);
    }
  }

  /** A reconnect loop that is past its stop check calls Open next, and goes on after that exactly when the session is
      still not connected. */
  lemma {:induction false} RetryGoesOnIff(ss: seq<State>, ls: seq<Label>, i: nat, id: Id)
    requires Run(ss, ls) && i < |ls| && id in ss[i].retries && ss[i].retries[id].trying
    ensures var opens := ls[i].Open? && ls[i].caller == Retry(id);
            && (!opens ==> id in ss[i + 1].retries && ss[i + 1].retries[id].trying)
            && (opens ==> (id in ss[i + 1].retries <==> !ss[i + 1].connected))
            && (opens && id in ss[i + 1].retries ==> !ss[i + 1].retries[id].trying)
  {
    assert Enabled(ss[i], ls[i]) && ss[i + 1] == Next(ss[i], ls[i]);
    RunInv(ss, ls, i);
    RetryStep(ss[i], ls[i], id);
  }

  lemma {:induction false} RetryStep(s: State, l: Label, id: Id)
    requires Enabled(s, l) && Inv(s) && id in s.retries && s.retries[id].trying
    ensures var t, opens := Next(s, l), l.Open? && l.caller == Retry(id);
            && (!opens ==> id in t.retries && t.retries[id].trying)
            && (opens ==> (id in t.retries <==> !t.connected))
            && (opens && id in t.retries ==> !t.retries[id].trying)
  {
    if IsMove(l) { MoveMoves(s, l); }
  }
}

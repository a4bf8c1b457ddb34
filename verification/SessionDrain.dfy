/** After Close every loop can end: internal/serial/session.go:152-231, 263-280. */
module SessionDrain {
  import opened Options
  import opened Bytes
  import opened SessionMachine
  import opened SessionClose

  /** No port, and whatever any loop captured or will capture is closed. */
  ghost predicate Draining(s: State) {
    && s.port.None? && s.stopCh in s.closedChs
    && (forall id :: id in s.readers ==> Holds(s, s.readers[id].stop) in s.closedChs)
    && (forall id :: id in s.writers ==> Holds(s, s.writers[id]) in s.closedChs)
    && (forall id :: id in s.retries ==> !s.retries[id].trying && Holds(s, s.retries[id].stop) in s.closedChs)
  }

  lemma {:induction false} DownDrains(s: State)
    requires Inv(s) && Down(s)
    ensures Draining(s)
  {
  }

  /** The loops' own steps: nobody calls Open or Close. */
  predicate OfLoops(ls: seq<Label>) {
    forall k :: 0 <= k < |ls| ==> !ls[k].Open? && !ls[k].CloseLocked? && !ls[k].CloseStop?
  }

  /** Taking the steps `ls` one after the other leads from `s` to `t`. */
  ghost predicate Leads(s: State, ls: seq<Label>, t: State)
    decreases |ls|
  {
    if ls == [] then t == s else Enabled(s, ls[0]) && Leads(Next(s, ls[0]), ls[1..], t)
  }

  lemma {:induction false} LeadsOne(s: State, l: Label)
    requires Enabled(s, l)
    ensures Leads(s, [l], Next(s, l))
  {
    assert [l][1..] == [];
  }

  lemma {:induction false} LeadsOn(s: State, a: seq<Label>, t: State, b: seq<Label>, u: State)
    requires Leads(s, a, t) && Leads(t, b, u)
    ensures Leads(s, a + b, u)
    decreases |a|
  {
    if a == [] {
      assert a + b == b;
    } else {
      assert (a + b)[0] == a[0] && (a + b)[1..] == a[1..] + b;
      LeadsOn(Next(s, a[0]), a[1..], t, b, u);
    }
  }

  lemma {:induction false} RetryEnds(s: State, id: Id) returns (ls: seq<Label>, t: State)
    requires Draining(s) && id in s.retries
    ensures Leads(s, ls, t) && OfLoops(ls) && Draining(t)
    ensures t == s.(retries := s.retries - {id})
  {
    ls, t := [], s;
    if s.retries[id].stop.None? {
      LeadsOne(s, RetryStarts(id));
      ls, t := [RetryStarts(id)], Next(s, RetryStarts(id));
    }
    LeadsOne(t, RetryCheck(id));
    LeadsOn(s, ls, t, [RetryCheck(id)], Next(t, RetryCheck(id)));
    ls, t := ls + [RetryCheck(id)], Next(t, RetryCheck(id));
    assert t.retries == s.retries - {id};
  }

  lemma {:induction false} WriterEnds(s: State, id: Id) returns (ls: seq<Label>, t: State)
    requires Draining(s) && id in s.writers
    ensures Leads(s, ls, t) && OfLoops(ls) && Draining(t)
    ensures t == s.(writers := s.writers - {id})
  {
    ls, t := [], s;
    if s.writers[id].None? {
      LeadsOne(s, WriterStarts(id));
      ls, t := [WriterStarts(id)], Next(s, WriterStarts(id));
    }
    LeadsOne(t, WriterStops(id));
    LeadsOn(s, ls, t, [WriterStops(id)], Next(t, WriterStops(id)));
    ls, t := ls + [WriterStops(id)], Next(t, WriterStops(id));
    assert t.writers == s.writers - {id};
  }

  /** How far a reader is from its next stop check. */
  function Distance(pc: ReadPc): nat {
    match pc
    case Check => 0
    case Grab => 1
    case Failed => 1
    case Splitting => 2
    case Reading(_) => 2
    case Appending(_) => 3
  }

  /** The step that takes a reader on without reading anything. */
  function OnLabel(r: ReadLoop, id: Id): Label {
    match r.pc
    case Check => if r.stop.None? then ReaderStarts(id) else ReaderCheck(id)
    case Grab => ReaderGrab(id)
    case Failed => ReaderDisconnect(id)
    case Splitting => ReaderLine(id)
    case Reading(_) => ReaderError(id)
    case Appending(_) => ReaderAppend(id)
  }

  /** Nothing but this reader and what it stores has changed. */
  ghost predicate ReaderOnly(s: State, t: State, id: Id) {
    && t.port == s.port && t.stopCh == s.stopCh && t.closedChs == s.closedChs
    && t.writers == s.writers && t.retries == s.retries
    && (forall k :: k in s.readers && k != id ==> k in t.readers && t.readers[k] == s.readers[k])
    && (forall k :: k in t.readers && k != id ==> k in s.readers)
    && (id in t.readers ==> id in s.readers && Holds(t, t.readers[id].stop) == Holds(s, s.readers[id].stop))
  }

  /** The reader goes on: it starts, or has less in its buffer, or is nearer to its check. */
  ghost predicate Nearer(r: ReadLoop, u: ReadLoop) {
    || (r.stop.None? && u.stop.Some? && u.lineBuf == r.lineBuf && u.pc == r.pc)
    || (u.stop == r.stop && |u.lineBuf| < |r.lineBuf|)
    || (u.stop == r.stop && u.lineBuf == r.lineBuf && Distance(u.pc) < Distance(r.pc))
  }

  /** The state in which the reader has taken one step on, or has ended. */
  function WentOn(s: State, id: Id): State
    requires id in s.readers
  {
    var r := s.readers[id];
    match r.pc
    case Check =>
      if r.stop.None? then s.(readers := s.readers[id := r.(stop := Some(s.stopCh))])
      else s.(readers := s.readers - {id})
    case Grab => AtPc(s, id, Check)
    case Failed => s.(readers := s.readers - {id})
    case Splitting => LineCut(s, id)
    case Reading(_) => AtPc(s, id, Failed)
    case Appending(_) => LineAppended(s, id)
  }

  lemma {:induction false} IsWentOn(s: State, id: Id)
    requires Draining(s) && id in s.readers
    ensures Enabled(s, OnLabel(s.readers[id], id)) && Next(s, OnLabel(s.readers[id], id)) == WentOn(s, id)
  {
  }

  lemma {:induction false} LineCutNearer(s: State, id: Id)
    requires id in s.readers && s.readers[id].pc == Splitting
    ensures ReaderOnly(s, LineCut(s, id), id) && Nearer(s.readers[id], LineCut(s, id).readers[id])
  {
    var r, t := s.readers[id], LineCut(s, id);
    assert t.readers == s.readers[id := t.readers[id]];
    if IndexByte(r.lineBuf, LF) >= 0 { assert |t.readers[id].lineBuf| < |r.lineBuf|; }
  }

  lemma {:induction false} AppendedNearer(s: State, id: Id)
    requires id in s.readers && s.readers[id].pc.Appending?
    ensures ReaderOnly(s, LineAppended(s, id), id) && Nearer(s.readers[id], LineAppended(s, id).readers[id])
  {
  }

  lemma {:induction false} WentOnNearer(s: State, id: Id)
    requires id in s.readers
    ensures var t := WentOn(s, id);
            ReaderOnly(s, t, id) && (id in t.readers ==> Nearer(s.readers[id], t.readers[id]))
  {
    match s.readers[id].pc
    case Splitting => LineCutNearer(s, id);
    case Appending(_) => AppendedNearer(s, id);
    case _ =>
  }

  lemma {:induction false} StillDraining(s: State, t: State, id: Id)
    requires Draining(s) && ReaderOnly(s, t, id)
    ensures Draining(t)
  {
  }

  lemma {:induction false} OneStepOn(s: State, id: Id) returns (l: Label, t: State)
    requires Draining(s) && id in s.readers
    ensures Leads(s, [l], t) && OfLoops([l]) && Draining(t) && ReaderOnly(s, t, id)
    ensures id in t.readers ==> Nearer(s.readers[id], t.readers[id])
  {
    l, t := OnLabel(s.readers[id], id), WentOn(s, id);
    IsWentOn(s, id);
    WentOnNearer(s, id);
    LeadsOne(s, l);
    StillDraining(s, t, id);
  }

  lemma {:induction false} OthersStay(s: State, t: State, id: Id)
    requires ReaderOnly(s, t, id)
    ensures t.readers - {id} == s.readers - {id}
    ensures id !in t.readers ==> t.readers == s.readers - {id}
  {
  }

  lemma {:induction false} ReaderEnds(s: State, id: Id) returns (ls: seq<Label>, t: State)
    requires Draining(s) && id in s.readers
    ensures Leads(s, ls, t) && OfLoops(ls) && Draining(t)
    ensures t.readers == s.readers - {id} && t.writers == s.writers && t.retries == s.retries
    decreases s.readers[id].stop.None?, |s.readers[id].lineBuf|, Distance(s.readers[id].pc)
  {
    var l, u := OneStepOn(s, id);
    OthersStay(s, u, id);
    if id in u.readers {
      var more;
      more, t := ReaderEnds(u, id);
      LeadsOn(s, [l], u, more, t);
      ls := [l] + more;
    } else {
      ls, t := [l], u;
    }
  }

  function Loops(s: State): nat { |s.readers.Keys| + |s.writers.Keys| + |s.retries.Keys| }

  lemma {:induction false} Fewer<K, V>(m: map<K, V>, k: K)
    requires k in m
    ensures |(m - {k}).Keys| == |m.Keys| - 1
  {
    assert (m - {k}).Keys == m.Keys - {k};
  }

  lemma {:induction false} OneEnds(s: State) returns (ls: seq<Label>, t: State)
    requires Draining(s) && Loops(s) > 0
    ensures Leads(s, ls, t) && OfLoops(ls) && Draining(t) && Loops(t) == Loops(s) - 1
  {
    if s.readers.Keys != {} {
      var id :| id in s.readers;
      ls, t := ReaderEnds(s, id);
      Fewer(s.readers, id);
    } else if s.writers.Keys != {} {
      var id :| id in s.writers;
      ls, t := WriterEnds(s, id);
      Fewer(s.writers, id);
    } else {
      assert s.retries.Keys != {};
      var id :| id in s.retries;
      ls, t := RetryEnds(s, id);
      Fewer(s.retries, id);
    }
  }

  lemma {:induction false} AllEnd(s: State) returns (ls: seq<Label>, t: State)
    requires Draining(s)
    ensures Leads(s, ls, t) && OfLoops(ls)
    ensures t.readers == map[] && t.writers == map[] && t.retries == map[]
    decreases Loops(s)
  {
    if Loops(s) == 0 {
      ls, t := [], s;
      assert s.readers.Keys == {} && s.writers.Keys == {} && s.retries.Keys == {};
    } else {
      var a, u := OneEnds(s);
      var b;
      b, t := AllEnd(u);
      LeadsOn(s, a, u, b, t);
      ls := a + b;
    }
  }

  /** Once the session is shut down every loop can end by steps of the loops alone, whatever each was doing: no reader,
      writer or reconnect loop is stuck, and none needs another Close. */
  lemma {:induction false} LoopsCanEnd(ss: seq<State>, ls: seq<Label>, i: nat) returns (more: seq<Label>, t: State)
    requires Run(ss, ls) && i < |ss| && Down(ss[i])
    ensures Leads(ss[i], more, t) && OfLoops(more)
    ensures t.readers == map[] && t.writers == map[] && t.retries == map[]
  {
    RunInv(ss, ls, i);
    DownDrains(ss[i]);
    more, t := AllEnd(ss[i]);
  }
}

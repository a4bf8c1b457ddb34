/** Every writer can finish: internal/serial/session.go:211-231. */
module WriteDrain {
  import opened WriteQueue

  /** The steps with which a writer finishes what it has and ends. */
  predicate OfWriters(ls: seq<Label>) {
    forall k :: 0 <= k < |ls| ==> ls[k].Look? || ls[k].Write? || ls[k].Skip? || ls[k].Answer? || ls[k].Exit?
  }

  ghost predicate Leads(s: State, ls: seq<Label>, t: State)
    decreases |ls|
  {
    if ls == [] then t == s else Enabled(s, ls[0]) && Leads(Next(s, ls[0]), ls[1..], t)
  }

  lemma {:induction false} LeadsOn(s: State, a: seq<Label>, t: State, b: seq<Label>, u: State)
    requires Leads(s, a, t) && Leads(t, b, u)
    ensures Leads(s, a + b, u)
    decreases |a|
  {
    if a == [] {
      assert a + b == b;
    } else {
      assert (a + b)[0] == a[0] && (a + b)[1..] == a[1..] + b;
      LeadsOn(Next(s, a[0]), a[1..], t, b, u);
    }
  }

  function Remaining(pc: Pc): nat {
    match pc
    case Idle => 0
    case Wrote(_) => 1
    case Saw(_, _) => 2
    case Took(_) => 3
  }

  function OwnLabel(pc: Pc, w: Id): Label {
    match pc
    case Idle => Exit(w)
    case Wrote(_) => Answer(w)
    case Saw(_, present) => if present then Write(w) else Skip(w)
    case Took(_) => Look(w)
  }

  /** Only this writer moves, and it takes nothing new. */
  ghost predicate OnlyWriter(s: State, t: State, w: Id) {
    && t.discard == s.discard && t.taken == s.taken
    && t.writers.Keys == (if w in t.writers then s.writers.Keys else s.writers.Keys - {w})
    && (w in t.writers ==> Remaining(t.writers[w]) < Remaining(s.writers[w]))
  }

  lemma {:induction false} OwnStep(s: State, w: Id)
    requires Custody(s) && w in s.writers
    ensures Enabled(s, OwnLabel(s.writers[w], w)) && OnlyWriter(s, Next(s, OwnLabel(s.writers[w], w)), w)
  {
  }

  lemma {:induction false} OneOwnStep(s: State, w: Id) returns (l: Label, t: State)
    requires Accounted(s) && w in s.writers
    ensures Leads(s, [l], t) && OfWriters([l]) && Accounted(t) && OnlyWriter(s, t, w)
  {
    l := OwnLabel(s.writers[w], w);
    t := Next(s, l);
    OwnStep(s, w);
    AccountedStep(s, l);
    assert [l][1..] == [];
  }

  lemma {:induction false} WriterEnds(s: State, w: Id) returns (ls: seq<Label>, t: State)
    requires Accounted(s) && w in s.writers
    ensures Leads(s, ls, t) && OfWriters(ls) && Accounted(t)
    ensures t.writers.Keys == s.writers.Keys - {w} && t.discard == s.discard && t.taken == s.taken
    decreases Remaining(s.writers[w])
  {
    var l, u := OneOwnStep(s, w);
    if w in u.writers {
      var more;
      more, t := WriterEnds(u, w);
      LeadsOn(s, [l], u, more, t);
      ls := [l] + more;
    } else {
      ls, t := [l], u;
    }
  }

  lemma {:induction false} WritersEnd(s: State) returns (ls: seq<Label>, t: State)
    requires Accounted(s)
    ensures Leads(s, ls, t) && OfWriters(ls) && Accounted(t)
    ensures t.writers.Keys == {} && t.discard == s.discard && t.taken == s.taken
    decreases |s.writers.Keys|
  {
    if s.writers.Keys == {} {
      ls, t := [], s;
    } else {
      var w :| w in s.writers.Keys;
      var a, u := WriterEnds(s, w);
      var b;
      b, t := WritersEnd(u);
      LeadsOn(s, a, u, b, t);
      ls := a + b;
    }
  }

  lemma {:induction false} AllFinished(s: State)
    requires Accounted(s) && s.writers.Keys == {}
    ensures forall req: Req :: req < s.taken ==>
              req in s.fates && (s.sends[req] == 1 || (s.sends[req] == 0 && s.fates[req] == Silent && !s.discard))
  {
    forall req | req in s.fates ensures !s.fates[req].Held? {
      if s.fates[req].Held? { assert false; }
    }
  }

  /** No writer is ever stuck: from every reachable state each can finish what it has and end, and then every request
      taken so far was answered once, unless it was skipped with discarding off. */
  lemma {:induction false} WritersCanFinish(ss: seq<State>, ls: seq<Label>, i: nat) returns (more: seq<Label>, t: State)
    requires Run(ss, ls) && i < |ss|
    ensures Leads(ss[i], more, t) && OfWriters(more)
    ensures t.writers.Keys == {} && t.taken == ss[i].taken && t.discard == ss[i].discard
    ensures forall req: Req :: req < t.taken ==>
              req in t.fates && (t.sends[req] == 1 || (t.sends[req] == 0 && t.fates[req] == Silent && !t.discard))
  {
    RunInv(ss, ls, i);
    more, t := WritersEnd(ss[i]);
    AllFinished(t);
  }
}

/** What Stop and the drain achieve: internal/recorder/recorder.go:64-116. */
module RecorderStop {
  import opened Options
  import opened Bytes
  import opened RecorderProtocol

  /** The non-empty writes among some steps, in call order. */
  function WritesIn(ls: seq<Label>): seq<string> {
    if ls == [] then []
    else
      var l := ls[|ls| - 1];
      WritesIn(ls[..|ls| - 1]) + if l.Write? && l.data != "" then [l.data] else []
  }

  /** The chunks offered to the recorder are the non-empty writes, and it is stopped exactly after a Stop. */
  lemma {:induction false} OffersAreWrites(ss: seq<State>, ls: seq<Label>, i: nat)
    requires Run(ss, ls) && i < |ss|
    ensures ss[i].offers == WritesIn(ls[..i])
    ensures ss[i].stopped <==> Stop in ls[..i]
  {
    if i > 0 {
      assert Enabled(ss[i - 1], ls[i - 1]) && ss[i] == Next(ss[i - 1], ls[i - 1]);
      OffersAreWrites(ss, ls, i - 1);
      assert ls[..i] == ls[..i - 1] + [ls[i - 1]] && ls[..i][..i - 1] == ls[..i - 1];
    }
  }

  /** The mark that the first Stop sets stays: what had been accepted by then. */
  lemma {:induction false} MarkedAtStop(ss: seq<State>, ls: seq<Label>, i: nat, j: nat)
    requires Run(ss, ls) && i < j < |ss| && ls[i] == Stop && Stop !in ls[..i]
    ensures ss[j].stopped && ss[j].acceptedAtStop == |ss[i].accepted|
    decreases j
  {
    assert Enabled(ss[j - 1], ls[j - 1]) && ss[j] == Next(ss[j - 1], ls[j - 1]);
    if i < j - 1 {
      MarkedAtStop(ss, ls, i, j - 1);
    } else {
      OffersAreWrites(ss, ls, i);
    }
  }

  /** Everything accepted before the first Stop is in the file's history once the drain has closed the file. */
  lemma {:induction false} WrittenBeforeClosed(ss: seq<State>, ls: seq<Label>, i: nat, j: nat)
    requires Run(ss, ls) && i < j < |ss| && ls[i] == Stop && Stop !in ls[..i] && ss[j].phase == Closed
    ensures ss[i].accepted <= ss[j].processed
  {
    Protocol(ss, ls, j);
    MarkedAtStop(ss, ls, i, j);
    AcceptedGrows(ss, ls, i, j);
  }

  lemma {:induction false} AcceptedGrows(ss: seq<State>, ls: seq<Label>, i: nat, j: nat)
    requires Run(ss, ls) && i <= j < |ss|
    ensures ss[i].accepted <= ss[j].accepted
    decreases j
  {
    if i < j {
      assert Enabled(ss[j - 1], ls[j - 1]) && ss[j] == Next(ss[j - 1], ls[j - 1]);
      AcceptedGrows(ss, ls, i, j - 1);
    }
  }

  /** The loop's own steps. */
  predicate OfLoop(ls: seq<Label>) {
    forall k :: 0 <= k < |ls| ==> !ls[k].Write? && !ls[k].Stop?
  }

  ghost predicate Leads(s: State, ls: seq<Label>, t: State)
    decreases |ls|
  {
    if ls == [] then t == s else Enabled(s, ls[0]) && Leads(Next(s, ls[0]), ls[1..], t)
  }

  lemma {:induction false} LeadsFirst(s: State, l: Label, ls: seq<Label>, t: State)
    requires Enabled(s, l) && Leads(Next(s, l), ls, t)
    ensures Leads(s, [l] + ls, t)
  {
    assert ([l] + ls)[1..] == ls;
  }

  /** Steps left until the file is closed: two per chunk waiting, one for the chunk in hand, one per phase. */
  function StepsLeft(s: State): nat {
    2 * |s.queue| + (if s.inHand.Some? then 1 else 0) + (match s.phase case Looping => 2 case Draining => 1 case Closed => 0)
  }

  function LoopLabel(s: State): Label {
    if s.inHand.Some? then Process
    else if s.queue != [] then Take
    else if s.phase == Looping then SeeStop
    else CloseFile
  }

  lemma {:induction false} LoopStep(s: State)
    requires Inv(s) && s.stopped && s.phase != Closed
    ensures Enabled(s, LoopLabel(s))
    ensures var t := Next(s, LoopLabel(s));
            && Inv(t) && t.stopped && t.accepted == s.accepted && StepsLeft(t) < StepsLeft(s)
            && (t.phase == Closed ==> t.queue == [] && t.inHand.None?)
  {
    InvStep(s, LoopLabel(s));
  }

  lemma {:induction false} Drains(s: State) returns (ls: seq<Label>, t: State)
    requires Inv(s) && s.stopped && s.phase != Closed
    ensures Leads(s, ls, t) && OfLoop(ls)
    ensures t.phase == Closed && t.accepted == s.accepted && t.processed == s.accepted
    decreases StepsLeft(s)
  {
    var l, u := LoopLabel(s), Next(s, LoopLabel(s));
    LoopStep(s);
    if u.phase == Closed {
      ls, t := [], u;
      assert u.processed + [] + [] == u.processed;
    } else {
      ls, t := Drains(u);
    }
    LeadsFirst(s, l, ls, t);
    ls := [l] + ls;
  }

  /** Once it is stopped, and until the file is closed, the loop can always go on to close it, and if nothing more is
      written meanwhile then with every accepted chunk in it. */
  lemma {:induction false} DrainCanFinish(ss: seq<State>, ls: seq<Label>, i: nat) returns (more: seq<Label>, t: State)
    requires Run(ss, ls) && i < |ss| && Stop in ls[..i] && ss[i].phase != Closed
    ensures Leads(ss[i], more, t) && OfLoop(more)
    ensures t.phase == Closed && t.processed == t.accepted == ss[i].accepted
  {
    RunInv(ss, ls, i);
    OffersAreWrites(ss, ls, i);
    more, t := Drains(ss[i]);
  }
}

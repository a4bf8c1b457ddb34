/** A dead listener is noticed, and the tunnel connects anew: internal/tunnel/reverse.go:82-103, 191-234. */
module TunnelErrors {
  import opened TunnelFanIn
  import opened TunnelStop

  /** Every session listens for the tunnel's own forwards, and its error channel holds all that was reported until the
      run goroutine takes one. */
  ghost predicate Watching(s: State) {
    && (forall g :: 0 <= g < |s.sessions| ==> s.sessions[g].listeners == s.forwards)
    && (s.run == Spawning || s.run == Serving ==> s.sessions != [] && Current(s).errs == Current(s).sent)
    && (s.run == Serving ==> Current(s).spawned == |Current(s).listeners|)
    && (s.run == Returned ==> s.stopped)
  }

  /** Before Stop, an acceptor that was spawned is alive or has reported. */
  ghost predicate AliveOrReported(s: State) {
    forall key: Key :: !s.stopped && key.session < |s.sessions| && key.listener < s.sessions[key.session].spawned ==>
      key in s.acceptors || key.listener in s.sessions[key.session].reported
  }

  lemma {:induction false} WatchingStep(s: State, l: Label)
    requires Enabled(s, l) && Watching(s)
    ensures Watching(Next(s, l)) && Next(s, l).forwards == s.forwards
  {
  }

  lemma {:induction false} AliveOrReportedStep(s: State, l: Label)
    requires Enabled(s, l) && AliveOrReported(s)
    ensures AliveOrReported(Next(s, l))
  {
  }

  lemma {:induction false} RunWatches(ss: seq<State>, ls: seq<Label>, i: nat)
    requires Run(ss, ls) && i < |ss|
    ensures Watching(ss[i]) && AliveOrReported(ss[i]) && ss[i].forwards == ss[0].forwards
  {
    if i > 0 {
      assert Enabled(ss[i - 1], ls[i - 1]) && ss[i] == Next(ss[i - 1], ls[i - 1]);
      RunWatches(ss, ls, i - 1);
      WatchingStep(ss[i - 1], ls[i - 1]);
      AliveOrReportedStep(ss[i - 1], ls[i - 1]);
    }
  }

  /** The acceptor of the `k`-th listener of the current session. */
  function CurrentKey(s: State, k: nat): Key
    requires s.sessions != []
  {
    Key(|s.sessions| - 1, k)
  }

  lemma {:induction false} SomeReported(e: Session)
    requires SessionOk(e)
    ensures e.sent > 0 <==> exists k :: k in e.reported
  {
    if e.sent > 0 {
      var k :| k in e.reported;
    } else {
      assert e.reported == {};
    }
  }

  lemma {:induction false} SeenIff(s: State)
    requires SessionsOk(s) && AcceptorsOk(s) && Watching(s) && AliveOrReported(s)
    requires s.run == Serving && !s.stopped
    ensures Enabled(s, SeeError) <==> exists k: nat :: k < |s.forwards| && CurrentKey(s, k) !in s.acceptors
  {
    var e := Current(s);
    assert SessionOk(e);
    SomeReported(e);
    if k: nat :| k < |s.forwards| && CurrentKey(s, k) !in s.acceptors { assert k in e.reported; }
    if k :| k in e.reported { assert CurrentKey(s, k) !in s.acceptors; }
  }

  /** A tunnel that serves listens for all its forwards. Unless it is being stopped, it has an error to see exactly when
      some listener has no acceptor left; an acceptor whose Accept failed can report. */
  lemma {:induction false} DeadListenerIsSeenIff(ss: seq<State>, ls: seq<Label>, i: nat)
    requires Run(ss, ls) && i < |ss| && ss[i].run == Serving
    ensures ss[i].sessions != [] && Current(ss[i]).listeners == ss[0].forwards
    ensures !ss[i].stopped ==>
              (Enabled(ss[i], SeeError) <==>
               exists k: nat :: k < |ss[0].forwards| && CurrentKey(ss[i], k) !in ss[i].acceptors)
  {
    RunSessionsOk(ss, ls, i);
    RunWatches(ss, ls, i);
    if !ss[i].stopped { SeenIff(ss[i]); }
  }

  /** The run goroutine takes one error from a session and then leaves it; it returns only after Stop. */
  lemma {:induction false} OneErrorIsTaken(ss: seq<State>, ls: seq<Label>, i: nat)
    requires Run(ss, ls) && i < |ss|
    ensures i < |ls| && ls[i] == SeeError ==>
              ss[i + 1].run == Failed && ss[i + 1].sessions != []
              && Current(ss[i + 1]).errs + 1 == Current(ss[i + 1]).sent
    ensures ss[i].run == Returned ==> ss[i].stopped
  {
    RunWatches(ss, ls, i);
    if i < |ls| { assert Enabled(ss[i], ls[i]) && ss[i + 1] == Next(ss[i], ls[i]); }
  }

  /** An acceptor that will not accept again: it was spawned, and if it is still there it has an error to report. */
  ghost predicate Spent(s: State, key: Key) {
    && key.session < |s.sessions| && key.listener < s.sessions[key.session].spawned
    && (key in s.acceptors ==> s.acceptors[key] == Reporting)
  }

  lemma {:induction false} SpentStep(s: State, l: Label, key: Key)
    requires Enabled(s, l) && Spent(s, key)
    ensures Spent(Next(s, l), key)
  {
  }

  lemma {:induction false} FailureSpends(s: State, key: Key)
    requires Enabled(s, AcceptFails(key)) && AcceptorsOk(s)
    ensures Spent(Next(s, AcceptFails(key)), key)
  {
  }

  lemma {:induction false} StaysSpent(ss: seq<State>, ls: seq<Label>, i: nat, j: nat, key: Key)
    requires Run(ss, ls) && i < j < |ss| && ls[i] == AcceptFails(key)
    ensures Spent(ss[j], key)
    decreases j
  {
    var s, l := ss[j - 1], ls[j - 1];
    assert Enabled(s, l) && ss[j] == Next(s, l);
    if i < j - 1 {
      StaysSpent(ss, ls, i, j - 1, key);
      SpentStep(s, l, key);
    } else {
      RunSessionsOk(ss, ls, i);
      FailureSpends(s, key);
    }
  }

  /** An acceptor whose Accept failed never accepts again. It can report without blocking, and before Stop it is gone only
      if it has. */
  lemma {:induction false} FailedAcceptReports(ss: seq<State>, ls: seq<Label>, i: nat, j: nat, key: Key)
    requires Run(ss, ls) && i < j < |ss| && ls[i] == AcceptFails(key)
    ensures Spent(ss[j], key)
    ensures key in ss[j].acceptors ==> Enabled(ss[j], Report(key))
    ensures key !in ss[j].acceptors && !ss[j].stopped ==> key.listener in ss[j].sessions[key.session].reported
  {
    StaysSpent(ss, ls, i, j, key);
    RunWatches(ss, ls, j);
    ErrorsFit(ss, ls, j, key);
    RunSessionsOk(ss, ls, j);
    assert key.session < |ss[j].sessions| && SessionOk(ss[j].sessions[key.session]);
  }

  /** At most 8 accepted connections wait in a session, and one more is let in exactly when fewer do. */
  lemma {:induction false} QueueBound(ss: seq<State>, ls: seq<Label>, i: nat, key: Key)
    requires Run(ss, ls) && i < |ss| && HoldsConn(ss[i], key)
    ensures |ss[i].sessions[key.session].queue| <= 8
    ensures Enabled(ss[i], Enqueue(key)) <==> |ss[i].sessions[key.session].queue| < 8
  {
    RunInv(ss, ls, i);
  }

  /** A session that has just begun, its first `n` acceptors spawned. */
  ghost predicate SpawnedFresh(s: State, n: nat) {
    && s.run == Spawning && s.sessions != [] && Current(s) == Session(s.forwards, n, [], 0, 0, {})
    && n <= |s.forwards|
    && forall k: nat :: k < n ==> Alive(s, CurrentKey(s, k), Accepting)
  }

  lemma {:induction false} SpawnsOne(s: State, n: nat)
    requires SpawnedFresh(s, n) && n < |s.forwards|
    ensures Enabled(s, SpawnAcceptor) && SpawnedFresh(Next(s, SpawnAcceptor), n + 1)
  {
    var t := Next(s, SpawnAcceptor);
    forall k: nat | k < n + 1 ensures Alive(t, CurrentKey(t, k), Accepting) {
      if k < n { assert Alive(s, CurrentKey(s, k), Accepting); }
    }
  }

  /** `b` goes on from `a`. */
  ghost predicate Continues(a: seq<State>, k: seq<Label>, b: seq<State>, l: seq<Label>) {
    && Run(b, l) && |k| <= |l| && l[..|k|] == k && |a| <= |b| && b[..|a|] == a
  }

  lemma {:induction false} ContinuesOn(a: seq<State>, k: seq<Label>, b: seq<State>, l: seq<Label>,
                                       c: seq<State>, m: seq<Label>)
    requires Continues(a, k, b, l) && Continues(b, l, c, m)
    ensures Continues(a, k, c, m)
  {
    assert m[..|k|] == m[..|l|][..|k|] && c[..|a|] == c[..|b|][..|a|];
  }

  lemma {:induction false} TakesOne(ss: seq<State>, ls: seq<Label>, l: Label)
    returns (ss': seq<State>, ls': seq<Label>)
    requires Run(ss, ls) && Enabled(Last(ss), l)
    ensures Continues(ss, ls, ss', ls') && Last(ss') == Next(Last(ss), l)
  {
    var t;
    t, ss', ls' := Extended(ss, ls, l);
  }

  lemma {:induction false} SpawnsRest(ss: seq<State>, ls: seq<Label>, n: nat)
    returns (ss': seq<State>, ls': seq<Label>)
    requires Run(ss, ls) && SpawnedFresh(Last(ss), n)
    ensures Continues(ss, ls, ss', ls') && SpawnedFresh(Last(ss'), |Last(ss).forwards|)
    ensures Last(ss').forwards == Last(ss).forwards && |Last(ss').sessions| == |Last(ss).sessions|
    decreases |Last(ss).forwards| - n
  {
    if n == |Last(ss).forwards| {
      ss', ls' := ss, ls;
    } else {
      SpawnsOne(Last(ss), n);
      var a, k := TakesOne(ss, ls, SpawnAcceptor);
      ss', ls' := SpawnsRest(a, k, n + 1);
      ContinuesOn(ss, ls, a, k, ss', ls');
    }
  }

  /** The error is seen, the tunnel does not stop, and the next connect works. */
  lemma {:induction false} ConnectsAgain(ss: seq<State>, ls: seq<Label>) returns (ss': seq<State>, ls': seq<Label>)
    requires Run(ss, ls) && Enabled(Last(ss), SeeError) && !Last(ss).stopped
    ensures Continues(ss, ls, ss', ls') && SpawnedFresh(Last(ss'), 0)
    ensures Last(ss').forwards == Last(ss).forwards && |Last(ss').sessions| == |Last(ss).sessions| + 1
  {
    var a, k := TakesOne(ss, ls, SeeError);
    var b, l := TakesOne(a, k, TunnelFanIn.Retry);
    ss', ls' := TakesOne(b, l, ConnectOk);
    ContinuesOn(ss, ls, a, k, b, l);
    ContinuesOn(ss, ls, b, l, ss', ls');
  }

  /** All acceptors of a fresh session are alive. */
  ghost predicate ServesAll(s: State) {
    && s.run == Serving && s.sessions != [] && Current(s).listeners == s.forwards && Current(s).queue == []
    && forall k: nat :: k < |s.forwards| ==> Alive(s, CurrentKey(s, k), Accepting)
  }

  lemma {:induction false} ThenServes(s: State)
    requires SpawnedFresh(s, |s.forwards|)
    ensures Enabled(s, StartServing) && ServesAll(Next(s, StartServing))
  {
    var t := Next(s, StartServing);
    forall k: nat | k < |t.forwards| ensures Alive(t, CurrentKey(t, k), Accepting) {
      assert Alive(s, CurrentKey(s, k), Accepting);
    }
  }

  /** From there the tunnel can serve again: a continuation takes the error, connects, and has a fresh session with one
      live acceptor for every forward. */
  lemma {:induction false} Reconnects(ss: seq<State>, ls: seq<Label>) returns (ss': seq<State>, ls': seq<Label>)
    requires Run(ss, ls) && Enabled(Last(ss), SeeError) && !Last(ss).stopped
    ensures Continues(ss, ls, ss', ls') && ServesAll(Last(ss')) && Last(ss').forwards == ss[0].forwards
    ensures |Last(ss').sessions| == |Last(ss).sessions| + 1
  {
    RunWatches(ss, ls, |ss| - 1);
    var a, k := ConnectsAgain(ss, ls);
    var b, l := SpawnsRest(a, k, 0);
    ThenServes(Last(b));
    ss', ls' := TakesOne(b, l, StartServing);
    ContinuesOn(ss, ls, a, k, b, l);
    ContinuesOn(ss, ls, b, l, ss', ls');
  }
}

/** Stop can always finish: internal/tunnel/reverse.go:72-103, 199-244. */
module TunnelStop {
  import opened TunnelFanIn

  /** The steps that wind a tunnel down: nothing is connected, accepted, queued or served any more. */
  predicate WindsDown(l: Label) {
    !l.Stop? && !l.ConnectOk? && !l.Accept? && !l.Enqueue? && !l.ServeConn?
  }

  function Last(ss: seq<State>): State
    requires ss != []
  {
    ss[|ss| - 1]
  }

  /** A run goes on with such steps only. */
  ghost predicate GoesOn(ss: seq<State>, ls: seq<Label>, ss': seq<State>, ls': seq<Label>) {
    && Run(ss, ls) && Run(ss', ls') && |ls| <= |ls'|
    && ls'[..|ls|] == ls && ss'[..|ss|] == ss
    && forall k :: |ls| <= k < |ls'| ==> WindsDown(ls'[k])
  }

  lemma {:induction false} GoesOnOne(ss: seq<State>, ls: seq<Label>, l: Label)
    returns (ss': seq<State>, ls': seq<Label>)
    requires Run(ss, ls) && Enabled(Last(ss), l) && WindsDown(l)
    ensures GoesOn(ss, ls, ss', ls') && Last(ss') == Next(Last(ss), l)
  {
    var t;
    t, ss', ls' := Extended(ss, ls, l);
  }

  lemma {:induction false} GoesOnFurther(a: seq<State>, k: seq<Label>, b: seq<State>, l: seq<Label>,
                                         c: seq<State>, m: seq<Label>)
    requires GoesOn(a, k, b, l) && GoesOn(b, l, c, m)
    ensures GoesOn(a, k, c, m)
  {
    assert m[..|k|] == m[..|l|][..|k|] && c[..|a|] == c[..|b|][..|a|];
    forall j | |k| <= j < |m| ensures WindsDown(m[j]) {
      if j < |l| { assert m[j] == m[..|l|][j]; }
    }
  }

  /** A run goroutine that spawns or serves has a session. */
  ghost predicate HasSession(s: State) { s.run == Spawning || s.run == Serving ==> s.sessions != [] }

  lemma {:induction false} RunHasSession(ss: seq<State>, ls: seq<Label>, i: nat)
    requires Run(ss, ls) && i < |ss|
    ensures HasSession(ss[i])
  {
    if i > 0 {
      assert Enabled(ss[i - 1], ls[i - 1]) && ss[i] == Next(ss[i - 1], ls[i - 1]);
      RunHasSession(ss, ls, i - 1);
    }
  }

  lemma {:induction false} RunSessionsOk(ss: seq<State>, ls: seq<Label>, i: nat)
    requires Run(ss, ls) && i < |ss|
    ensures HasSession(ss[i]) && SessionsOk(ss[i]) && AcceptorsOk(ss[i])
  {
    RunInv(ss, ls, i);
    RunHasSession(ss, ls, i);
  }

  /** How far the run goroutine is from returning. */
  function Rank(s: State): int {
    match s.run
    case Returned => 0
    case Failed => 1
    case Serving => 1
    case Connecting => 2
    case Spawning => if s.sessions == [] then 2 else 2 + |Current(s).listeners| - Current(s).spawned
  }

  /** The step with which it comes closer. */
  function Nearer(s: State): Label {
    match s.run
    case Returned => Stop
    case Failed => Retry
    case Serving => SeeStop
    case Connecting => ConnectFails
    case Spawning =>
      if s.sessions != [] && Current(s).spawned < |Current(s).listeners| then SpawnAcceptor else StartServing
  }

  lemma {:induction false} NearerWorks(s: State)
    requires s.stopped && s.run != Returned && HasSession(s) && SessionsOk(s)
    ensures Enabled(s, Nearer(s)) && WindsDown(Nearer(s))
    ensures Next(s, Nearer(s)).stopped && 0 <= Rank(Next(s, Nearer(s))) < Rank(s)
  {
    if s.run == Spawning { assert SessionOk(Current(s)); }
  }

  lemma {:induction false} RunReturns(ss: seq<State>, ls: seq<Label>) returns (ss': seq<State>, ls': seq<Label>)
    requires Run(ss, ls) && Last(ss).stopped && 0 <= Rank(Last(ss))
    ensures GoesOn(ss, ls, ss', ls') && Last(ss').stopped && Last(ss').run == Returned
    decreases Rank(Last(ss))
  {
    if Last(ss).run == Returned {
      ss', ls' := ss, ls;
    } else {
      RunSessionsOk(ss, ls, |ss| - 1);
      NearerWorks(Last(ss));
      var s1, l1 := GoesOnOne(ss, ls, Nearer(Last(ss)));
      ss', ls' := RunReturns(s1, l1);
      GoesOnFurther(ss, ls, s1, l1, ss', ls');
    }
  }

  /** The step with which an acceptor ends once the tunnel is stopped. */
  function Leaves(s: State, key: Key): Label
    requires key in s.acceptors
  {
    match s.acceptors[key]
    case Accepting => AcceptFails(key)
    case Holding(_) => DropOnStop(key)
    case Reporting => Report(key)
  }

  lemma {:induction false} LeavesWorks(s: State, key: Key)
    requires s.stopped && s.run == Returned && SessionsOk(s) && AcceptorsOk(s) && key in s.acceptors
    ensures Enabled(s, Leaves(s, key)) && WindsDown(Leaves(s, key))
    ensures var t := Next(s, Leaves(s, key));
            t.stopped && t.run == Returned && t.acceptors == s.acceptors - {key}
  {
    assert SessionOk(s.sessions[key.session]);
    ReportedMore(s.sessions[key.session], key.listener);
  }

  lemma {:induction false} AcceptorsEnd(ss: seq<State>, ls: seq<Label>) returns (ss': seq<State>, ls': seq<Label>)
    requires Run(ss, ls) && Last(ss).stopped && Last(ss).run == Returned
    ensures GoesOn(ss, ls, ss', ls') && Last(ss').run == Returned && Last(ss').acceptors == map[]
    decreases |Last(ss).acceptors.Keys|
  {
    if Last(ss).acceptors == map[] {
      ss', ls' := ss, ls;
    } else {
      var key :| key in Last(ss).acceptors;
      RunSessionsOk(ss, ls, |ss| - 1);
      LeavesWorks(Last(ss), key);
      DropKey(Last(ss).acceptors, key);
      var s1, l1 := GoesOnOne(ss, ls, Leaves(Last(ss), key));
      ss', ls' := AcceptorsEnd(s1, l1);
      GoesOnFurther(ss, ls, s1, l1, ss', ls');
    }
  }

  lemma {:induction false} ForwardersEnd(ss: seq<State>, ls: seq<Label>) returns (ss': seq<State>, ls': seq<Label>)
    requires Run(ss, ls) && Last(ss).run == Returned && Last(ss).acceptors == map[]
    ensures GoesOn(ss, ls, ss', ls') && Quiet(Last(ss'))
    decreases |Last(ss).forwarders.Keys|
  {
    if Last(ss).forwarders == map[] {
      ss', ls' := ss, ls;
      RunInv(ss, ls, |ss| - 1);
    } else {
      var conn :| conn in Last(ss).forwarders;
      DropKey(Last(ss).forwarders, conn);
      var s1, l1 := GoesOnOne(ss, ls, ForwardEnds(conn));
      ss', ls' := ForwardersEnd(s1, l1);
      GoesOnFurther(ss, ls, s1, l1, ss', ls');
    }
  }

  /** From every reachable state in which Stop was called, the tunnel can wind down to a wait group of zero without
      anything new being connected, accepted or served: no acceptor, forwarder or run goroutine is ever stuck. */
  lemma {:induction false} StopCanFinish(ss: seq<State>, ls: seq<Label>) returns (ss': seq<State>, ls': seq<Label>)
    requires Run(ss, ls) && Last(ss).stopped
    ensures GoesOn(ss, ls, ss', ls') && Last(ss').wg == 0
  {
    RunSessionsOk(ss, ls, |ss| - 1);
    var s1, l1 := RunReturns(ss, ls);
    var s2, l2 := AcceptorsEnd(s1, l1);
    ss', ls' := ForwardersEnd(s2, l2);
    GoesOnFurther(s1, l1, s2, l2, ss', ls');
    GoesOnFurther(ss, ls, s1, l1, ss', ls');
  }

  /** So as long as a goroutine is left, some winding-down step is enabled. */
  lemma {:induction false} NeverStuck(ss: seq<State>, ls: seq<Label>) returns (l: Label)
    requires Run(ss, ls) && Last(ss).stopped && Last(ss).wg > 0
    ensures WindsDown(l) && Enabled(Last(ss), l)
  {
    var ss', ls' := StopCanFinish(ss, ls);
    assert Last(ss) == ss'[|ss| - 1];
    l := ls'[|ls|];
    assert Enabled(ss'[|ls|], l);
  }
}

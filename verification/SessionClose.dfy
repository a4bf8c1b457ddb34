/** What Close achieves: internal/serial/session.go:116-129, 260-280. */
module SessionClose {
  import opened Options
  import opened SessionMachine

  /** A reconnect loop that is past its stop check. */
  predicate Tries(s: State, id: Id) { id in s.retries && s.retries[id].trying }

  /** Shut down: no port, a closed stop channel, and no reconnect loop that is past its stop check. */
  ghost predicate Down(s: State) {
    s.port.None? && s.stopCh in s.closedChs && forall id :: id in s.retries ==> !s.retries[id].trying
  }

  /** An Open that connects and is not a reconnect loop's. */
  predicate ConnectsOutside(s: State, l: Label) { Connects(s, l) && l.caller == External }

  lemma {:induction false} DownStep(s: State, l: Label)
    requires Enabled(s, l) && Inv(s) && Down(s) && !ConnectsOutside(s, l)
    ensures Down(Next(s, l))
  {
    if IsMove(l) { MoveMoves(s, l); }
  }

  /** Every channel is closed, so whatever a loop captured or will capture is. */
  lemma {:induction false} NoneActive(s: State, id: Id)
    requires Inv(s) && Down(s)
    ensures !ActiveReader(s, id) && !ActiveWriter(s, id) && !ActiveRetry(s, id)
  {
  }

  lemma {:induction false} DownLater(ss: seq<State>, ls: seq<Label>, i: nat, j: nat)
    requires Run(ss, ls) && i <= j < |ss| && Down(ss[i])
    requires forall k :: i <= k < j ==> !ConnectsOutside(ss[k], ls[k])
    ensures Down(ss[j])
    decreases j
  {
    if i < j {
      DownLater(ss, ls, i, j - 1);
      RunInv(ss, ls, j - 1);
      DownStep(ss[j - 1], ls[j - 1]);
    }
  }

  /** From a state that is shut down the session stays shut down until somebody calls Open: every reconnect loop ends at
      its stop check, whenever it first ran. All that while no loop of any kind is active. */
  lemma {:induction false} StaysDown(ss: seq<State>, ls: seq<Label>, i: nat, j: nat)
    requires Run(ss, ls) && i <= j < |ss| && Down(ss[i])
    requires forall k :: i <= k < j ==> !ConnectsOutside(ss[k], ls[k])
    ensures Down(ss[j]) && !ss[j].connected && ss[j].openHandles == {}
    ensures forall id :: !ActiveReader(ss[j], id) && !ActiveWriter(ss[j], id) && !ActiveRetry(ss[j], id)
  {
    DownLater(ss, ls, i, j);
    RunInv(ss, ls, j);
    forall id ensures !ActiveReader(ss[j], id) && !ActiveWriter(ss[j], id) && !ActiveRetry(ss[j], id) {
      NoneActive(ss[j], id);
    }
  }

  /** A Close with no connection in between shuts the session down exactly when no reconnect loop is about to call
      Open. */
  lemma {:induction false} CloseShutsDownIff(ss: seq<State>, ls: seq<Label>, i: nat, j: nat)
    requires Run(ss, ls) && i < j < |ls| && ls[i] == CloseLocked && ls[j] == CloseStop
    requires forall k :: i < k < j ==> !Connects(ss[k], ls[k])
    ensures Down(ss[j + 1]) <==> forall id :: id in ss[j].retries ==> !ss[j].retries[id].trying
  {
    NoRetryAfterClose(ss, ls, i, j);
    assert ss[j + 1] == Next(ss[j], ls[j]);
  }

  /** The condition is exact: a reconnect loop that is about to call Open can connect, closed stop channel or not. */
  lemma {:induction false} LateRetryConnects(ss: seq<State>, ls: seq<Label>, id: Id)
    returns (t: State, ss': seq<State>, ls': seq<Label>)
    requires Run(ss, ls) && ss[|ss| - 1].port.None? && Tries(ss[|ss| - 1], id)
    ensures ls' == ls + [Open(Retry(id), true)] && Run(ss', ls') && ss' == ss + [t] && t.connected
  {
    RunInv(ss, ls, |ss| - 1);
    t := Next(ss[|ss| - 1], Open(Retry(id), true));
    ss', ls' := ss + [t], ls + [Open(Retry(id), true)];
  }

  /** Closed, and nobody has connected since. */
  ghost predicate Gone(s: State) { s.port.None? && s.stopCh in s.closedChs }

  predicate OpensFor(l: Label, id: Id) { l.Open? && l.caller == Retry(id) }

  lemma {:induction false} GoneStep(s: State, l: Label, id: Id)
    requires Enabled(s, l) && Inv(s) && Gone(s) && !Connects(s, l)
    ensures Gone(Next(s, l)) && (Tries(Next(s, l), id) ==> Tries(s, id) && !OpensFor(l, id))
  {
    if IsMove(l) { MoveMoves(s, l); }
  }

  /** Nobody starts trying any more, and who has called Open is through. */
  lemma {:induction false} GoneNext(ss: seq<State>, ls: seq<Label>, n: nat, id: Id)
    requires Run(ss, ls) && n < |ls| && Gone(ss[n]) && !Connects(ss[n], ls[n])
    ensures Gone(ss[n + 1]) && (Tries(ss[n + 1], id) ==> Tries(ss[n], id) && !OpensFor(ls[n], id))
  {
    RunInv(ss, ls, n);
    GoneStep(ss[n], ls[n], id);
  }

  lemma {:induction false} TryingSince(ss: seq<State>, ls: seq<Label>, i: nat, k: nat, id: Id)
    requires Run(ss, ls) && i <= k < |ss| && Gone(ss[i])
    requires forall n :: i <= n < k ==> !Connects(ss[n], ls[n])
    ensures Gone(ss[k])
    ensures Tries(ss[k], id) ==> Tries(ss[i], id) && forall n :: i <= n < k ==> !OpensFor(ls[n], id)
    decreases k
  {
    if i < k {
      TryingSince(ss, ls, i, k - 1, id);
      GoneNext(ss, ls, k - 1, id);
    }
  }

  /** Once the stop channel is closed and until somebody connects, a reconnect loop calls Open at most once, and only if
      it was past its stop check by then. */
  lemma {:induction false} OneLastOpen(ss: seq<State>, ls: seq<Label>, i: nat, k: nat, id: Id)
    requires Run(ss, ls) && i <= k < |ls| && Gone(ss[i]) && OpensFor(ls[k], id)
    requires forall n :: i <= n < k ==> !Connects(ss[n], ls[n])
    ensures Tries(ss[i], id) && forall n :: i <= n < k ==> !OpensFor(ls[n], id)
  {
    assert Enabled(ss[k], ls[k]);
    TryingSince(ss, ls, i, k, id);
  }
}

/** The write queue and its writeLoops: internal/serial/session.go:211-231.

    Requests are numbered in enqueue order. Any number of writers may be alive: a writer whose stop channel is closed
    can still win the select against it. Taking a request, looking at the port, writing, and answering are separate
    steps; the port comes and goes between them. */
module WriteQueue {
  import T = Tickets
  type Id = nat
  type Req = nat

  datatype Pc = Idle | Took(req: Req) | Saw(req: Req, present: bool) | Wrote(req: Req)

  /** Where a dequeued request ended up. */
  datatype Fate = Held(writer: Id) | Answered | Silent

  datatype Resolution = Resolution(req: Req, present: bool)

  datatype State = State(
    discard: bool,                  // Reconnect.DiscardInputOnDisconnect
    enqueued: seq<string>,          // the data of every request ever queued
    taken: nat,                     // how many were dequeued; the queue holds the rest
    portPresent: bool,
    writers: map<Id, Pc>,
    fates: map<Req, Fate>,
    sends: multiset<Req>,           // the requests whose Done channel was sent on
    resolved: seq<Resolution>,      // requests written or skipped, in that order
    written: seq<string>            // data of each p.Write call
  )

  const CAPACITY: nat := 64

  datatype Label =
    | Enqueue(data: string)
    | PortChanges(present: bool)
    | Spawn(w: Id)
    | Exit(w: Id)
    | Take(w: Id)
    | Look(w: Id)
    | Write(w: Id)
    | Skip(w: Id)
    | Answer(w: Id)

  function Start(discard: bool): State { State(discard, [], 0, false, map[], map[], multiset{}, [], []) }

  predicate Enabled(s: State, l: Label) {
    match l
    case Enqueue(_) => s.taken <= |s.enqueued| && |s.enqueued| - s.taken < CAPACITY
    case PortChanges(_) => true
    case Spawn(w) => w !in s.writers
    case Exit(w) => w in s.writers && s.writers[w] == Idle
    case Take(w) => w in s.writers && s.writers[w] == Idle && s.taken < |s.enqueued|
    case Look(w) => w in s.writers && s.writers[w].Took?
    case Write(w) => w in s.writers && s.writers[w].Saw? && s.writers[w].present && s.writers[w].req < |s.enqueued|
    case Skip(w) => w in s.writers && s.writers[w].Saw? && !s.writers[w].present
    case Answer(w) => w in s.writers && s.writers[w].Wrote?
  }

  function Next(s: State, l: Label): State
    requires Enabled(s, l)
  {
    match l
    case Enqueue(data) => s.(enqueued := s.enqueued + [data])
    case PortChanges(present) => s.(portPresent := present)
    case Spawn(w) => s.(writers := s.writers[w := Idle])
    case Exit(w) => s.(writers := s.writers - {w})
    case Take(w) =>
      s.(taken := s.taken + 1, writers := s.writers[w := Took(s.taken)], fates := s.fates[s.taken := Held(w)])
    case Look(w) => s.(writers := s.writers[w := Saw(s.writers[w].req, s.portPresent)])
    case Write(w) =>
      var req := s.writers[w].req;
      s.(writers := s.writers[w := Wrote(req)], written := s.written + [s.enqueued[req]],
         resolved := s.resolved + [Resolution(req, true)])
    case Skip(w) =>
      var req := s.writers[w].req;
      s.(writers := s.writers[w := Idle], resolved := s.resolved + [Resolution(req, false)],
         sends := if s.discard then s.sends + multiset{req} else s.sends,
         fates := s.fates[req := if s.discard then Answered else Silent])
    case Answer(w) =>
      var req := s.writers[w].req;
      s.(writers := s.writers[w := Idle], sends := s.sends + multiset{req}, fates := s.fates[req := Answered])
  }

  ghost predicate Holds(s: State, w: Id, req: Req) {
    w in s.writers && !s.writers[w].Idle? && s.writers[w].req == req
  }

  /** Every dequeued request is held by exactly one writer or finished. */
  ghost predicate Custody(s: State) {
    && s.taken <= |s.enqueued|
    && (forall req: Req :: req in s.fates <==> req < s.taken)
    && (forall w :: w in s.writers && !s.writers[w].Idle? ==>
          s.writers[w].req in s.fates && s.fates[s.writers[w].req] == Held(w))
    && (forall req :: req in s.fates && s.fates[req].Held? ==> Holds(s, s.fates[req].writer, req))
  }

  /** A request was sent one answer if its fate says so, and none otherwise. */
  ghost predicate Replies(s: State) {
    && (forall req: Req :: s.sends[req] == if req in s.fates && s.fates[req].Answered? then 1 else 0)
    && (s.discard ==> forall req :: req in s.fates ==> !s.fates[req].Silent?)
  }

  ghost predicate Accounted(s: State) {
    Custody(s) && Replies(s)
  }

  lemma {:induction false} CustodyStep(s: State, l: Label)
    requires Enabled(s, l) && Custody(s)
    ensures Custody(Next(s, l))
  {
    var t := Next(s, l);
    forall req | req in t.fates && t.fates[req].Held? ensures Holds(t, t.fates[req].writer, req) {
      assert req in s.fates && s.fates[req].Held? ==> Holds(s, s.fates[req].writer, req);
    }
  }

  lemma {:induction false} AccountedStep(s: State, l: Label)
    requires Enabled(s, l) && Accounted(s)
    ensures Accounted(Next(s, l))
  {
    CustodyStep(s, l);
  }

  /** The data of the requests that met a port, in the order they were resolved. */
  function WrittenBy(resolved: seq<Resolution>, enqueued: seq<string>): seq<string> {
    if resolved == [] then []
    else
      var n := |resolved| - 1;
      var r := resolved[n];
      var before := WrittenBy(resolved[..n], enqueued);
      if r.present && r.req < |enqueued| then before + [enqueued[r.req]] else before
  }

  ghost predicate ResolvedExist(s: State) {
    forall k :: 0 <= k < |s.resolved| ==> s.resolved[k].req < |s.enqueued|
  }

  ghost predicate Logged(s: State) { s.written == WrittenBy(s.resolved, s.enqueued) }

  lemma {:induction false} WrittenByMore(resolved: seq<Resolution>, enqueued: seq<string>, data: string)
    requires forall k :: 0 <= k < |resolved| ==> resolved[k].req < |enqueued|
    ensures WrittenBy(resolved, enqueued + [data]) == WrittenBy(resolved, enqueued)
  {
    if resolved != [] { WrittenByMore(resolved[..|resolved| - 1], enqueued, data); }
  }

  lemma {:induction false} WrittenByOne(resolved: seq<Resolution>, enqueued: seq<string>, r: Resolution)
    requires r.req < |enqueued|
    ensures WrittenBy(resolved + [r], enqueued)
            == var before := WrittenBy(resolved, enqueued);
               if r.present then before + [enqueued[r.req]] else before
  {
    assert (resolved + [r])[..|resolved|] == resolved;
  }

  lemma {:induction false} ResolvedExistStep(s: State, l: Label)
    requires Enabled(s, l) && Accounted(s) && ResolvedExist(s)
    ensures ResolvedExist(Next(s, l))
  {
  }

  lemma {:induction false} LoggedStep(s: State, l: Label)
    requires Enabled(s, l) && Accounted(s) && ResolvedExist(s) && Logged(s)
    ensures Logged(Next(s, l))
  {
    match l
    case Enqueue(data) => WrittenByMore(s.resolved, s.enqueued, data);
    case Write(w) => WrittenByOne(s.resolved, s.enqueued, Resolution(s.writers[w].req, true));
    case Skip(w) => WrittenByOne(s.resolved, s.enqueued, Resolution(s.writers[w].req, false));
    case _ =>
      var t := Next(s, l);
      assert t.resolved == s.resolved && t.enqueued == s.enqueued && t.written == s.written;
  }

  ghost predicate Run(ss: seq<State>, ls: seq<Label>) {
    && |ss| == |ls| + 1
    && ss[0] == Start(ss[0].discard)
    && forall i :: 0 <= i < |ls| ==> Enabled(ss[i], ls[i]) && ss[i + 1] == Next(ss[i], ls[i])
  }

  lemma {:induction false} RunInv(ss: seq<State>, ls: seq<Label>, i: nat)
    requires Run(ss, ls) && i < |ss|
    ensures Accounted(ss[i]) && ResolvedExist(ss[i]) && Logged(ss[i])
  {
    if i > 0 {
      RunInv(ss, ls, i - 1);
      AccountedStep(ss[i - 1], ls[i - 1]);
      ResolvedExistStep(ss[i - 1], ls[i - 1]);
      LoggedStep(ss[i - 1], ls[i - 1]);
    }
  }

  /** At most 64 requests wait, and one more is taken in exactly when fewer do. */
  lemma {:induction false} QueueBound(ss: seq<State>, ls: seq<Label>, i: nat, data: string)
    requires Run(ss, ls) && i < |ss|
    ensures ss[i].taken <= |ss[i].enqueued| <= ss[i].taken + 64
    ensures Enabled(ss[i], Enqueue(data)) <==> |ss[i].enqueued| - ss[i].taken < 64
  {
    RunInv(ss, ls, i);
    if i > 0 {
      assert Enabled(ss[i - 1], ls[i - 1]) && ss[i] == Next(ss[i - 1], ls[i - 1]);
      QueueBound(ss, ls, i - 1, data);
    }
  }

  /** However many writers race: a Done channel never gets a second send, so with capacity 1 no send blocks; a request
      that no writer holds was answered exactly once, unless the port was gone and input is not discarded. */
  lemma {:induction false} AnsweredOnce(ss: seq<State>, ls: seq<Label>, i: nat, req: Req)
    requires Run(ss, ls) && i < |ss|
    ensures var s := ss[i];
            && s.sends[req] <= 1
            && (i < |ls| && (ls[i].Answer? || ls[i].Skip?) ==> s.writers[ls[i].w].req !in s.sends)
            && (req < s.taken && (forall w :: !Holds(s, w, req)) ==>
                  req in s.fates && (s.discard ==> req in s.sends) && (req !in s.sends <==> s.fates[req] == Silent))
  {
    RunInv(ss, ls, i);
    var s := ss[i];
    if req < s.taken && s.fates[req].Held? { assert Holds(s, s.fates[req].writer, req); }
  }

  /** Only a request that met no port under the keep-input setting stays unanswered. */
  ghost predicate SilentSkips(s: State) {
    forall req :: req in s.fates && s.fates[req] == Silent ==> !s.discard && Resolution(req, false) in s.resolved
  }

  lemma {:induction false} SilentIsSkipped(ss: seq<State>, ls: seq<Label>, i: nat)
    requires Run(ss, ls) && i < |ss|
    ensures SilentSkips(ss[i])
  {
    if i > 0 {
      SilentIsSkipped(ss, ls, i - 1);
      var s, l := ss[i - 1], ls[i - 1];
      if l.Skip? {
        var r := Resolution(s.writers[l.w].req, false);
        assert ss[i].resolved[|s.resolved|] == r;
      }
    }
  }

  /** Step `j` is the look at the port for a request, by the writer that took it, and `present` is what it found. */
  ghost predicate LooksAt(ss: seq<State>, ls: seq<Label>, j: nat, req: Req, present: bool) {
    && j < |ls| && j < |ss| && ls[j].Look?
    && ls[j].w in ss[j].writers && ss[j].writers[ls[j].w] == Took(req)
    && ss[j].portPresent == present
  }

  ghost predicate LookedBefore(ss: seq<State>, ls: seq<Label>, i: nat, req: Req, present: bool) {
    exists j: nat :: j < i && LooksAt(ss, ls, j, req, present)
  }

  /** What writers saw and what requests were resolved by is what some look at the port found. */
  ghost predicate SeenByLooks(ss: seq<State>, ls: seq<Label>, i: nat)
    requires i < |ss|
  {
    && (forall w :: w in ss[i].writers && ss[i].writers[w].Saw? ==>
          LookedBefore(ss, ls, i, ss[i].writers[w].req, ss[i].writers[w].present))
    && (forall k :: 0 <= k < |ss[i].resolved| ==>
          LookedBefore(ss, ls, i, ss[i].resolved[k].req, ss[i].resolved[k].present))
  }

  lemma {:induction false} SeenStep(ss: seq<State>, ls: seq<Label>, i: nat)
    requires Run(ss, ls) && i < |ls| && SeenByLooks(ss, ls, i)
    ensures SeenByLooks(ss, ls, i + 1)
  {
    var s, l, t := ss[i], ls[i], ss[i + 1];
    assert Enabled(s, l) && t == Next(s, l);
    forall w | w in t.writers && t.writers[w].Saw?
      ensures LookedBefore(ss, ls, i + 1, t.writers[w].req, t.writers[w].present)
    {
      if l == Look(w) {
        assert LooksAt(ss, ls, i, t.writers[w].req, t.writers[w].present);
      } else {
        assert LookedBefore(ss, ls, i, s.writers[w].req, s.writers[w].present);
      }
    }
    forall k | 0 <= k < |t.resolved| ensures LookedBefore(ss, ls, i + 1, t.resolved[k].req, t.resolved[k].present) {
      if k < |s.resolved| {
        assert LookedBefore(ss, ls, i, s.resolved[k].req, s.resolved[k].present);
      } else {
        assert LookedBefore(ss, ls, i, s.writers[l.w].req, s.writers[l.w].present);
      }
    }
  }

  lemma {:induction false} AllSeen(ss: seq<State>, ls: seq<Label>, i: nat)
    requires Run(ss, ls) && i < |ss|
    ensures SeenByLooks(ss, ls, i)
  {
    if i > 0 {
      AllSeen(ss, ls, i - 1);
      SeenStep(ss, ls, i - 1);
    }
  }

  /** The look at the port for a request is over. */
  ghost predicate PastLook(s: State, req: Req) {
    req < s.taken && forall w :: w in s.writers ==> s.writers[w] != Took(req)
  }

  lemma {:induction false} LookPasses(s: State, w: Id)
    requires Enabled(s, Look(w)) && Custody(s)
    ensures PastLook(Next(s, Look(w)), s.writers[w].req)
  {
  }

  lemma {:induction false} PastLookStep(s: State, l: Label, req: Req)
    requires Enabled(s, l) && PastLook(s, req)
    ensures PastLook(Next(s, l), req)
  {
  }

  lemma {:induction false} StaysPastLook(ss: seq<State>, ls: seq<Label>, j: nat, i: nat, req: Req, present: bool)
    requires Run(ss, ls) && j < i < |ss| && LooksAt(ss, ls, j, req, present)
    ensures PastLook(ss[i], req)
    decreases i
  {
    var s, l := ss[i - 1], ls[i - 1];
    assert Enabled(s, l) && ss[i] == Next(s, l);
    if j < i - 1 {
      StaysPastLook(ss, ls, j, i - 1, req, present);
      PastLookStep(s, l, req);
    } else {
      RunInv(ss, ls, j);
      LookPasses(s, l.w);
    }
  }

  lemma {:induction false} OneLook(ss: seq<State>, ls: seq<Label>, j: nat, k: nat, req: Req, a: bool, b: bool)
    requires Run(ss, ls) && LooksAt(ss, ls, j, req, a) && LooksAt(ss, ls, k, req, b)
    ensures j == k && a == b
  {
    if j < k { StaysPastLook(ss, ls, j, k, req, a); }
    if k < j { StaysPastLook(ss, ls, k, j, req, b); }
  }

  /** In every run each resolved request was looked up once, by the writer that took it, and it was written if that look
      found a port and skipped if it found none. */
  lemma {:induction false} ResolvedAsSeen(ss: seq<State>, ls: seq<Label>, i: nat, k: nat)
    requires Run(ss, ls) && i < |ss| && k < |ss[i].resolved|
    ensures exists j: nat :: j < i && LooksAt(ss, ls, j, ss[i].resolved[k].req, ss[i].resolved[k].present)
    ensures forall j: nat, present: bool ::
              LooksAt(ss, ls, j, ss[i].resolved[k].req, present) ==> ss[i].resolved[k].present == present
  {
    AllSeen(ss, ls, i);
    var r := ss[i].resolved[k];
    assert LookedBefore(ss, ls, i, r.req, r.present);
    var j: nat :| j < i && LooksAt(ss, ls, j, r.req, r.present);
    forall n: nat, present: bool | LooksAt(ss, ls, n, r.req, present) ensures r.present == present {
      OneLook(ss, ls, j, n, r.req, r.present, present);
    }
  }

  lemma {:induction false} WrittenByNone(resolved: seq<Resolution>, enqueued: seq<string>)
    requires forall k :: 0 <= k < |resolved| ==> !resolved[k].present
    ensures WrittenBy(resolved, enqueued) == []
  {
    if resolved != [] { WrittenByNone(resolved[..|resolved| - 1], enqueued); }
  }

  /** In particular nothing is written while there has been no port. */
  lemma {:induction false} NothingWithoutPort(ss: seq<State>, ls: seq<Label>, i: nat)
    requires Run(ss, ls) && i < |ss| && forall j :: 0 <= j < i ==> !ss[j].portPresent
    ensures ss[i].written == []
  {
    RunInv(ss, ls, i);
    forall k | 0 <= k < |ss[i].resolved| ensures !ss[i].resolved[k].present { ResolvedAsSeen(ss, ls, i, k); }
    WrittenByNone(ss[i].resolved, ss[i].enqueued);
  }

  ghost predicate Busy(s: State, w: Id) { w in s.writers && !s.writers[w].Idle? }

  /** At most one writer has a request in hand: a writer that lingers idle, or one spawned after another has ended, is
      allowed. */
  ghost predicate OneBusy(s: State) {
    forall a, b :: Busy(s, a) && Busy(s, b) ==> a == b
  }

  predicate Unresolved(pc: Pc) { pc.Took? || pc.Saw? }

  /** Requests taken and neither written nor skipped yet, by writer; and the others in the order they were. */
  function Hand(s: State): map<Id, int> {
    map w | w in s.writers && Unresolved(s.writers[w]) :: s.writers[w].req as int
  }

  function Reqs(resolved: seq<Resolution>): (rs: seq<int>)
    ensures |rs| == |resolved|
  {
    if resolved == [] then [] else Reqs(resolved[..|resolved| - 1]) + [resolved[|resolved| - 1].req as int]
  }

  lemma {:induction false} ReqAt(resolved: seq<Resolution>, k: nat)
    requires k < |resolved|
    ensures Reqs(resolved)[k] == resolved[k].req
  {
    if k < |resolved| - 1 { ReqAt(resolved[..|resolved| - 1], k); }
  }

  function TallyOf(s: State): T.Tally { T.Tally(s.taken, Hand(s), Reqs(s.resolved)) }

  lemma {:induction false} TallyTake(s: State, w: Id)
    requires Enabled(s, Take(w))
    ensures w !in Hand(s) && TallyOf(Next(s, Take(w))) == T.Take(TallyOf(s), w)
  {
    assert Hand(Next(s, Take(w))) == Hand(s)[w := s.taken];
  }

  lemma {:induction false} TallyResolve(s: State, l: Label)
    requires Enabled(s, l) && (l.Write? || l.Skip?)
    ensures l.w in Hand(s) && TallyOf(Next(s, l)) == T.Put(TallyOf(s), l.w)
  {
    assert Hand(Next(s, l)) == Hand(s) - {l.w};
  }

  lemma {:induction false} TallySame(s: State, l: Label)
    requires Enabled(s, l) && !l.Take? && !l.Write? && !l.Skip?
    ensures TallyOf(Next(s, l)) == TallyOf(s)
  {
    assert Hand(Next(s, l)) == Hand(s);
  }

  /** A request is written or skipped while another writer still holds an earlier one. */
  ghost predicate OvertakesRequest(s: State, l: Label)
    requires Enabled(s, l)
  {
    (l.Write? || l.Skip?) && exists other ::
      other in s.writers && Unresolved(s.writers[other]) && s.writers[other].req < s.writers[l.w].req
  }

  /** The k-th request resolved is the k-th one queued. */
  ghost predicate InQueueOrder(s: State) {
    forall k :: 0 <= k < |s.resolved| ==> s.resolved[k].req == k
  }

  lemma {:induction false} OrderIs(s: State)
    ensures InQueueOrder(s) <==> T.InOrder(TallyOf(s))
  {
    forall k | 0 <= k < |s.resolved| ensures Reqs(s.resolved)[k] == s.resolved[k].req { ReqAt(s.resolved, k); }
  }

  lemma {:induction false} OvertakingIs(s: State, l: Label)
    requires Enabled(s, l) && (l.Write? || l.Skip?)
    ensures l.w in Hand(s) && (OvertakesRequest(s, l) <==> T.Overtakes(TallyOf(s), l.w))
  {
    if other :| other in s.writers && Unresolved(s.writers[other]) && s.writers[other].req < s.writers[l.w].req {
      assert other in Hand(s);
    }
  }

  lemma {:induction false} TicketsStep(s: State, l: Label)
    requires Enabled(s, l) && T.Accounted(TallyOf(s))
    ensures T.Accounted(TallyOf(Next(s, l)))
  {
    if l.Take? {
      TallyTake(s, l.w);
      T.AccountedTake(TallyOf(s), l.w);
    } else if l.Write? || l.Skip? {
      TallyResolve(s, l);
      T.AccountedPut(TallyOf(s), l.w);
    } else {
      TallySame(s, l);
    }
  }

  /** In every run each request taken is resolved once, or held unresolved by exactly one writer. */
  lemma {:induction false} RequestsAccounted(ss: seq<State>, ls: seq<Label>, i: nat)
    requires Run(ss, ls) && i < |ss|
    ensures T.Accounted(TallyOf(ss[i]))
  {
    if i > 0 {
      assert Enabled(ss[i - 1], ls[i - 1]) && ss[i] == Next(ss[i - 1], ls[i - 1]);
      RequestsAccounted(ss, ls, i - 1);
      TicketsStep(ss[i - 1], ls[i - 1]);
    }
  }

  lemma {:induction false} OrderNext(ss: seq<State>, ls: seq<Label>, k: nat)
    requires Run(ss, ls) && k < |ls|
    ensures Enabled(ss[k], ls[k])
    ensures InQueueOrder(ss[k + 1]) <==> InQueueOrder(ss[k]) && !OvertakesRequest(ss[k], ls[k])
  {
    var s, l := ss[k], ls[k];
    RequestsAccounted(ss, ls, k);
    OrderIs(s);
    OrderIs(ss[k + 1]);
    if l.Take? {
      TallyTake(s, l.w);
    } else if l.Write? || l.Skip? {
      TallyResolve(s, l);
      OvertakingIs(s, l);
      T.InOrderPut(TallyOf(s), l.w);
    } else {
      TallySame(s, l);
    }
  }

  /** No writer overtook another before `j`. */
  ghost predicate NoOvertaking(ss: seq<State>, ls: seq<Label>, j: nat)
    requires Run(ss, ls) && j < |ss|
  {
    forall k :: 0 <= k < j ==> Enabled(ss[k], ls[k]) && !OvertakesRequest(ss[k], ls[k])
  }

  lemma {:induction false} QueueOrderIff(ss: seq<State>, ls: seq<Label>, j: nat)
    requires Run(ss, ls) && j < |ss|
    ensures InQueueOrder(ss[j]) <==> NoOvertaking(ss, ls, j)
  {
    if j > 0 {
      QueueOrderIff(ss, ls, j - 1);
      OrderNext(ss, ls, j - 1);
      assert NoOvertaking(ss, ls, j) <==> NoOvertaking(ss, ls, j - 1) && !OvertakesRequest(ss[j - 1], ls[j - 1]);
    }
  }

  /** In every run, any number of writers included, the port is sent the requests that met a port in the order in which
      they were resolved, and that is queue order exactly when no writer overtook another. */
  lemma {:induction false} SentInOrderIff(ss: seq<State>, ls: seq<Label>, j: nat)
    requires Run(ss, ls) && j < |ss|
    ensures ss[j].written == WrittenBy(ss[j].resolved, ss[j].enqueued)
    ensures InQueueOrder(ss[j]) <==> NoOvertaking(ss, ls, j)
  {
    RunInv(ss, ls, j);
    QueueOrderIff(ss, ls, j);
  }

  lemma {:induction false} OneBusyNoOvertaking(s: State, l: Label)
    requires Enabled(s, l) && OneBusy(s)
    ensures !OvertakesRequest(s, l)
  {
    if l.Write? || l.Skip? {
      forall other | other in s.writers && Unresolved(s.writers[other]) ensures other == l.w {
        assert Busy(s, other) && Busy(s, l.w);
      }
    }
  }

  /** In particular as long as no two writers have a request in hand at once; then all but the last request taken are
      resolved. */
  lemma {:induction false} SentInOrder(ss: seq<State>, ls: seq<Label>, i: nat)
    requires Run(ss, ls) && i < |ss|
    requires forall k :: 0 <= k <= i ==> OneBusy(ss[k])
    ensures var s := ss[i];
            && s.written == WrittenBy(s.resolved, s.enqueued)
            && InQueueOrder(s)
            && s.taken - 1 <= |s.resolved| <= s.taken <= |s.enqueued|
  {
    RunInv(ss, ls, i);
    forall k | 0 <= k < i ensures Enabled(ss[k], ls[k]) && !OvertakesRequest(ss[k], ls[k]) {
      assert OneBusy(ss[k]);
      OneBusyNoOvertaking(ss[k], ls[k]);
    }
    SentInOrderIff(ss, ls, i);
    RequestsAccounted(ss, ls, i);
    OrderIs(ss[i]);
    forall a, b | a in Hand(ss[i]) && b in Hand(ss[i]) ensures a == b {
      assert OneBusy(ss[i]) && Busy(ss[i], a) && Busy(ss[i], b);
    }
    T.AllButOne(TallyOf(ss[i]));
  }

  lemma {:induction false} Extended(ss: seq<State>, ls: seq<Label>, l: Label)
    returns (t: State, ss': seq<State>, ls': seq<Label>)
    requires Run(ss, ls) && Enabled(ss[|ss| - 1], l)
    ensures Run(ss', ls') && t == ss'[|ss'| - 1] == Next(ss[|ss| - 1], l)
  {
    t := Next(ss[|ss| - 1], l);
    ss', ls' := ss + [t], ls + [l];
  }

  lemma {:induction false} BothTook(first: string, second: string) returns (ss: seq<State>, ls: seq<Label>)
    ensures Run(ss, ls)
    ensures var s := ss[|ss| - 1];
            && s.portPresent && s.enqueued == [first, second] && s.written == []
            && s.writers == map[0 := Took(0), 1 := Took(1)]
  {
    var s := Start(false);
    ss, ls := [s], [];
    s, ss, ls := Extended(ss, ls, Spawn(0));
    s, ss, ls := Extended(ss, ls, Spawn(1));
    s, ss, ls := Extended(ss, ls, PortChanges(true));
    s, ss, ls := Extended(ss, ls, Enqueue(first));
    s, ss, ls := Extended(ss, ls, Enqueue(second));
    assert s.writers == map[0 := Idle, 1 := Idle] && s.enqueued == [first, second] && s.taken == 0;
    s, ss, ls := Extended(ss, ls, Take(0));
    s, ss, ls := Extended(ss, ls, Take(1));
  }

  /** Two writers, as after a reconnect whose predecessor has not noticed its closed channel, can swap two requests. */
  lemma {:induction false} TwoWritersReorder(first: string, second: string) returns (ss: seq<State>, ls: seq<Label>)
    ensures Run(ss, ls)
    ensures var s := ss[|ss| - 1]; s.enqueued == [first, second] && s.written == [second, first]
  {
    ss, ls := BothTook(first, second);
    var s;
    s, ss, ls := Extended(ss, ls, Look(0));
    s, ss, ls := Extended(ss, ls, Look(1));
    assert s.writers[0] == Saw(0, true) && s.writers[1] == Saw(1, true);
    s, ss, ls := Extended(ss, ls, Write(1));
    s, ss, ls := Extended(ss, ls, Write(0));
  }
}

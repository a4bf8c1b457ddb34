/** The accept fan-in of a reverse tunnel and its wait group: internal/tunnel/reverse.go:67-103, 191-244.

    The run goroutine connects, opens one listener per forward, spawns one acceptor per listener and then serves the
    accepted connections; every reconnect starts a new session with channels of its own, while acceptors of earlier
    sessions may still be alive. Dialling, listening and accepting succeed or fail at any time. */
module TunnelFanIn {

  datatype ForwardSpec = ForwardSpec(deviceLabel: string, remotePort: int, targetHost: string, targetPort: int)

  type Conn = nat

  /** An acceptor is known by its session and the listener it serves there. */
  datatype Key = Key(session: nat, listener: nat)

  datatype Pc = Accepting | Holding(conn: Conn) | Reporting

  datatype Accepted = Accepted(conn: Conn, spec: ForwardSpec)

  /** One connect call: its listeners, its acceptCh, the messages in its errCh and how many were ever sent on it, and the
      listeners whose acceptor reported. */
  datatype Session = Session(
    listeners: seq<ForwardSpec>, spawned: nat, queue: seq<Accepted>, errs: nat, sent: nat,
    reported: set<nat>)

  datatype RunPc = Connecting | Spawning | Serving | Failed | Returned

  datatype Place = Held(key: Key) | Queued(session: nat) | Forwarding | Closed

  datatype State = State(
    forwards: seq<ForwardSpec>,   // what the tunnel was built with
    run: RunPc,
    sessions: seq<Session>,
    acceptors: map<Key, Pc>,
    forwarders: map<Conn, ForwardSpec>,
    accepted: nat,                // connections are numbered as they are accepted
    origin: map<Conn, ForwardSpec>, // the spec of the listener that accepted each one
    place: map<Conn, Place>,
    stopped: bool,
    wg: int
  )

  const ACCEPT_CAPACITY: nat := 8

  datatype Label =
    | Stop
    | ConnectFails
    | ConnectOk
    | SpawnAcceptor
    | StartServing
    | SeeStop
    | SeeError
    | Retry
    | ServeConn
    | Accept(key: Key)
    | AcceptFails(key: Key)
    | Report(key: Key)
    | Enqueue(key: Key)
    | DropOnStop(key: Key)
    | ForwardEnds(conn: Conn)

  /** After Start: the run goroutine holds the first count. */
  function Begin(forwards: seq<ForwardSpec>): State {
    State(forwards, Connecting, [], map[], map[], 0, map[], map[], false, 1)
  }

  function Current(s: State): Session
    requires s.sessions != []
  {
    s.sessions[|s.sessions| - 1]
  }

  function WithCurrent(s: State, c: Session): seq<Session>
    requires s.sessions != []
  {
    s.sessions[|s.sessions| - 1 := c]
  }

  predicate Alive(s: State, key: Key, pc: Pc) {
    key in s.acceptors && s.acceptors[key] == pc
    && key.session < |s.sessions| && key.listener < |s.sessions[key.session].listeners|
  }

  predicate HoldsConn(s: State, key: Key) {
    key in s.acceptors && s.acceptors[key].Holding? && Alive(s, key, s.acceptors[key])
  }

  predicate Enabled(s: State, l: Label) {
    match l
    case Stop => true
    case ConnectFails => s.run == Connecting
    case ConnectOk => s.run == Connecting
    case SpawnAcceptor => s.run == Spawning && s.sessions != [] && Current(s).spawned < |Current(s).listeners|
    case StartServing => s.run == Spawning && s.sessions != [] && Current(s).spawned == |Current(s).listeners|
    case SeeStop => s.run == Serving && s.stopped
    case SeeError => s.run == Serving && s.sessions != [] && Current(s).errs > 0
    case Retry => s.run == Failed
    case ServeConn => s.run == Serving && s.sessions != [] && Current(s).queue != []
    case Accept(key) => Alive(s, key, Accepting)
    case AcceptFails(key) => Alive(s, key, Accepting)
    case Report(key) =>
      Alive(s, key, Reporting) && s.sessions[key.session].errs < |s.sessions[key.session].listeners|
    case Enqueue(key) => HoldsConn(s, key) && |s.sessions[key.session].queue| < ACCEPT_CAPACITY
    case DropOnStop(key) => HoldsConn(s, key) && s.stopped
    case ForwardEnds(conn) => conn in s.forwarders
  }

  function SpecOf(s: State, key: Key): ForwardSpec
    requires key.session < |s.sessions| && key.listener < |s.sessions[key.session].listeners|
  {
    s.sessions[key.session].listeners[key.listener]
  }

  function Next(s: State, l: Label): State
    requires Enabled(s, l)
  {
    match l
    case Stop => s.(stopped := true)
    case ConnectFails => s.(run := Failed)
    case ConnectOk => s.(run := Spawning, sessions := s.sessions + [Session(s.forwards, 0, [], 0, 0, {})])
    case SpawnAcceptor =>
      var c := Current(s);
      s.(sessions := WithCurrent(s, c.(spawned := c.spawned + 1)), wg := s.wg + 1,
         acceptors := s.acceptors[Key(|s.sessions| - 1, c.spawned) := Accepting])
    case StartServing => s.(run := Serving)
    case SeeStop => s.(run := Returned, wg := s.wg - 1)
    case SeeError => s.(run := Failed, sessions := WithCurrent(s, Current(s).(errs := Current(s).errs - 1)))
    case Retry => if s.stopped then s.(run := Returned, wg := s.wg - 1) else s.(run := Connecting)
    case ServeConn =>
      var ac := Current(s).queue[0];
      s.(sessions := WithCurrent(s, Current(s).(queue := Current(s).queue[1..])), wg := s.wg + 1,
         forwarders := s.forwarders[ac.conn := ac.spec], place := s.place[ac.conn := Forwarding])
    case Accept(key) =>
      var conn := s.accepted;
      s.(acceptors := s.acceptors[key := Holding(conn)], origin := s.origin[conn := SpecOf(s, key)],
         place := s.place[conn := Held(key)], accepted := conn + 1)
    case AcceptFails(key) =>
      if s.stopped then s.(acceptors := s.acceptors - {key}, wg := s.wg - 1)
      else s.(acceptors := s.acceptors[key := Reporting])
    case Report(key) =>
      var e := s.sessions[key.session];
      s.(acceptors := s.acceptors - {key}, wg := s.wg - 1,
         sessions := s.sessions[key.session :=
           e.(errs := e.errs + 1, sent := e.sent + 1, reported := e.reported + {key.listener})])
    case Enqueue(key) =>
      var e, conn := s.sessions[key.session], s.acceptors[key].conn;
      s.(acceptors := s.acceptors[key := Accepting], place := s.place[conn := Queued(key.session)],
         sessions := s.sessions[key.session := e.(queue := e.queue + [Accepted(conn, SpecOf(s, key))])])
    case DropOnStop(key) =>
      s.(acceptors := s.acceptors - {key}, wg := s.wg - 1, place := s.place[s.acceptors[key].conn := Closed])
    case ForwardEnds(conn) =>
      s.(forwarders := s.forwarders - {conn}, wg := s.wg - 1, place := s.place[conn := Closed])
  }

  /** The wait group counts exactly the live run, acceptor and forwarder goroutines. */
  ghost predicate Counted(s: State) {
    s.wg == (if s.run == Returned then 0 else 1) + |s.acceptors.Keys| + |s.forwarders.Keys|
  }

  lemma {:induction false} AddKey<K, V>(m: map<K, V>, k: K, v: V)
    ensures |m[k := v].Keys| == |m.Keys| + (if k in m then 0 else 1)
  {
    assert m[k := v].Keys == m.Keys + {k};
  }

  lemma {:induction false} DropKey<K, V>(m: map<K, V>, k: K)
    requires k in m
    ensures |(m - {k}).Keys| == |m.Keys| - 1
  {
    assert (m - {k}).Keys == m.Keys - {k};
  }

  ghost predicate QueuedAt(s: State, g: nat, j: nat)
    requires g < |s.sessions| && j < |s.sessions[g].queue|
  {
    var ac := s.sessions[g].queue[j];
    && ac.conn in s.place && s.place[ac.conn] == Queued(g)
    && ac.conn in s.origin && s.origin[ac.conn] == ac.spec
  }

  /** What the invariants of different kinds need of each other. */
  ghost predicate Premises(s: State, l: Label)
    requires Enabled(s, l)
  {
    && (l.ServeConn? ==> QueuedAt(s, |s.sessions| - 1, 0) && Current(s).queue[0].conn !in s.forwarders)
    && (l.SpawnAcceptor? ==> Key(|s.sessions| - 1, Current(s).spawned) !in s.acceptors)
  }

  lemma {:induction false} CountedStep(s: State, l: Label)
    requires Enabled(s, l) && Counted(s) && Premises(s, l)
    ensures Counted(Next(s, l))
  {
    match l
    case SpawnAcceptor => AddKey(s.acceptors, Key(|s.sessions| - 1, Current(s).spawned), Accepting);
    case ServeConn => AddKey(s.forwarders, Current(s).queue[0].conn, Current(s).queue[0].spec);
    case Accept(key) => AddKey(s.acceptors, key, Holding(s.accepted));
    case AcceptFails(key) =>
      AddKey(s.acceptors, key, Reporting);
      DropKey(s.acceptors, key);
    case Report(key) => DropKey(s.acceptors, key);
    case Enqueue(key) => AddKey(s.acceptors, key, Accepting);
    case DropOnStop(key) => DropKey(s.acceptors, key);
    case ForwardEnds(conn) => DropKey(s.forwarders, conn);
    case _ =>
  }

  lemma {:induction false} SmallSet(a: set<nat>, n: nat)
    requires forall i :: i in a ==> i < n
    ensures |a| <= n
  {
    if n > 0 {
      SmallSet(a - {n - 1}, n - 1);
    } else {
      assert a == {};
    }
  }

  /** Each session's error channel holds at most one message per listener that reported, and reporters are spent. */
  ghost predicate SessionOk(e: Session) {
    && e.spawned <= |e.listeners|
    && e.errs <= e.sent == |e.reported|
    && (forall i :: i in e.reported ==> i < e.spawned)
  }

  ghost predicate SessionsOk(s: State) {
    forall g :: 0 <= g < |s.sessions| ==> SessionOk(s.sessions[g])
  }

  ghost predicate AcceptorsOk(s: State) {
    forall key :: key in s.acceptors ==>
      && key.session < |s.sessions|
      && key.listener < s.sessions[key.session].spawned
      && key.listener !in s.sessions[key.session].reported
  }

  lemma {:induction false} ReportedMore(e: Session, i: nat)
    requires SessionOk(e) && i < e.spawned && i !in e.reported
    ensures SessionOk(e.(errs := e.errs + 1, sent := e.sent + 1, reported := e.reported + {i}))
    ensures e.errs < |e.listeners|
  {
    SmallSet(e.reported + {i}, e.spawned);
  }

  lemma {:induction false} SessionsOkStep(s: State, l: Label)
    requires Enabled(s, l) && SessionsOk(s) && AcceptorsOk(s)
    ensures SessionsOk(Next(s, l))
  {
    if l.Report? { ReportedMore(s.sessions[l.key.session], l.key.listener); }
  }

  lemma {:induction false} AcceptorsOkFewer(s: State, t: State)
    requires AcceptorsOk(s)
    requires t.acceptors.Keys <= s.acceptors.Keys && |s.sessions| <= |t.sessions|
    requires forall key :: key in t.acceptors ==>
               t.sessions[key.session].spawned >= s.sessions[key.session].spawned
               && key.listener !in t.sessions[key.session].reported - s.sessions[key.session].reported
    ensures AcceptorsOk(t)
  {
  }

  lemma {:induction false} AcceptorsOkSpawn(s: State)
    requires Enabled(s, SpawnAcceptor) && SessionsOk(s) && AcceptorsOk(s)
    ensures AcceptorsOk(Next(s, SpawnAcceptor))
  {
    assert SessionOk(Current(s));
  }

  lemma {:induction false} AcceptorsOkStep(s: State, l: Label)
    requires Enabled(s, l) && SessionsOk(s) && AcceptorsOk(s)
    ensures AcceptorsOk(Next(s, l))
  {
    if l.SpawnAcceptor? {
      AcceptorsOkSpawn(s);
    } else {
      AcceptorsOkFewer(s, Next(s, l));
    }
  }

  /** Where each connection is, told from the places themselves. */
  ghost predicate HeldAt(s: State, key: Key) {
    key in s.acceptors && s.acceptors[key].Holding? ==>
      && s.acceptors[key].conn in s.place && s.place[s.acceptors[key].conn] == Held(key)
      && s.acceptors[key].conn in s.origin
      && key.session < |s.sessions| && key.listener < |s.sessions[key.session].listeners|
      && s.origin[s.acceptors[key].conn] == SpecOf(s, key)
  }

  /** Every accepted connection is in exactly one place, and an acceptor or forwarder that has it knows its listener. */
  ghost predicate Placed(s: State) {
    && (forall c: Conn :: c in s.origin <==> c < s.accepted)
    && (forall c: Conn :: c in s.place <==> c < s.accepted)
    && (forall key :: key in s.acceptors ==> HeldAt(s, key))
    && (forall c :: c in s.place && s.place[c].Held? ==>
          s.place[c].key in s.acceptors && s.acceptors[s.place[c].key] == Holding(c))
    && (forall c :: c in s.forwarders <==> c in s.place && s.place[c] == Forwarding)
    && (forall c :: c in s.forwarders ==> c in s.origin && s.forwarders[c] == s.origin[c])
  }

  ghost predicate InQueue(s: State, g: nat, c: Conn) {
    g < |s.sessions| && exists j :: 0 <= j < |s.sessions[g].queue| && s.sessions[g].queue[j].conn == c
  }

  ghost predicate NoRepeats(q: seq<Accepted>) {
    forall j, k :: 0 <= j < k < |q| ==> q[j].conn != q[k].conn
  }

  /** A queued connection is in the one queue its place names, once, with the spec of its listener. */
  ghost predicate QueuesPlaced(s: State) {
    && (forall g: nat, j: nat :: g < |s.sessions| && j < |s.sessions[g].queue| ==> QueuedAt(s, g, j))
    && (forall g :: 0 <= g < |s.sessions| ==> NoRepeats(s.sessions[g].queue) && |s.sessions[g].queue| <= ACCEPT_CAPACITY)
    && (forall c :: c in s.place && s.place[c].Queued? ==> InQueue(s, s.place[c].session, c))
  }

  lemma {:induction false} PlacedAccept(s: State, key: Key)
    requires Enabled(s, Accept(key)) && Placed(s)
    ensures Placed(Next(s, Accept(key)))
  {
    var t := Next(s, Accept(key));
    forall k | k in t.acceptors ensures HeldAt(t, k) {
      assert HeldAt(s, k);
    }
  }

  /** An acceptor with no connection in hand comes, reports or goes. */
  lemma {:induction false} PlacedEmptyHanded(s: State, t: State)
    requires Placed(s)
    requires t.place == s.place && t.origin == s.origin && t.accepted == s.accepted && t.forwarders == s.forwarders
    requires |s.sessions| <= |t.sessions|
    requires forall g :: 0 <= g < |s.sessions| ==> t.sessions[g].listeners == s.sessions[g].listeners
    requires forall k :: k in t.acceptors && t.acceptors[k].Holding? ==>
               k in s.acceptors && t.acceptors[k] == s.acceptors[k]
    requires forall k :: k in s.acceptors && s.acceptors[k].Holding? ==>
               k in t.acceptors && t.acceptors[k] == s.acceptors[k]
    ensures Placed(t)
  {
    forall k | k in t.acceptors ensures HeldAt(t, k) {
      if k in s.acceptors { assert HeldAt(s, k); }
    }
  }

  lemma {:induction false} PlacedEnqueue(s: State, key: Key)
    requires Enabled(s, Enqueue(key)) && Placed(s)
    ensures Placed(Next(s, Enqueue(key)))
  {
    var t := Next(s, Enqueue(key));
    assert HeldAt(s, key);
    forall k | k in t.acceptors ensures HeldAt(t, k) {
      assert HeldAt(s, k);
    }
  }

  lemma {:induction false} PlacedDrop(s: State, key: Key)
    requires Enabled(s, DropOnStop(key)) && Placed(s)
    ensures Placed(Next(s, DropOnStop(key)))
  {
    var t := Next(s, DropOnStop(key));
    assert HeldAt(s, key);
    forall k | k in t.acceptors ensures HeldAt(t, k) {
      assert HeldAt(s, k);
    }
  }

  lemma {:induction false} PlacedServe(s: State)
    requires Enabled(s, ServeConn) && Placed(s) && QueuedAt(s, |s.sessions| - 1, 0)
    ensures Placed(Next(s, ServeConn))
  {
    var t := Next(s, ServeConn);
    forall k | k in t.acceptors ensures HeldAt(t, k) {
      assert HeldAt(s, k);
    }
  }

  lemma {:induction false} PlacedForwardEnds(s: State, conn: Conn)
    requires Enabled(s, ForwardEnds(conn)) && Placed(s)
    ensures Placed(Next(s, ForwardEnds(conn)))
  {
    var t := Next(s, ForwardEnds(conn));
    forall k | k in t.acceptors ensures HeldAt(t, k) {
      assert HeldAt(s, k);
    }
  }

  lemma {:induction false} PlacedRun(s: State, l: Label)
    requires l.Stop? || l.ConnectFails? || l.ConnectOk? || l.StartServing? || l.SeeStop? || l.SeeError? || l.Retry?
    requires Enabled(s, l) && Placed(s)
    ensures Placed(Next(s, l))
  {
    PlacedEmptyHanded(s, Next(s, l));
  }

  lemma {:induction false} PlacedAcceptor(s: State, l: Label)
    requires l.SpawnAcceptor? || l.AcceptFails? || l.Report?
    requires Enabled(s, l) && Placed(s) && Premises(s, l)
    ensures Placed(Next(s, l))
  {
    PlacedEmptyHanded(s, Next(s, l));
  }

  lemma {:induction false} PlacedStep(s: State, l: Label)
    requires Enabled(s, l) && Placed(s) && Premises(s, l)
    ensures Placed(Next(s, l))
  {
    match l
    case Accept(key) => PlacedAccept(s, key);
    case Enqueue(key) => PlacedEnqueue(s, key);
    case DropOnStop(key) => PlacedDrop(s, key);
    case ServeConn => PlacedServe(s);
    case ForwardEnds(conn) => PlacedForwardEnds(s, conn);
    case SpawnAcceptor => PlacedAcceptor(s, l);
    case AcceptFails(_) => PlacedAcceptor(s, l);
    case Report(_) => PlacedAcceptor(s, l);
    case _ => PlacedRun(s, l);
  }

  lemma {:induction false} QueuesEnqueue(s: State, key: Key)
    requires Enabled(s, Enqueue(key)) && Placed(s) && QueuesPlaced(s)
    ensures QueuesPlaced(Next(s, Enqueue(key)))
  {
    var t := Next(s, Enqueue(key));
    var conn, q := s.acceptors[key].conn, s.sessions[key.session].queue;
    assert HeldAt(s, key);
    forall g: nat, j: nat | g < |t.sessions| && j < |t.sessions[g].queue| ensures QueuedAt(t, g, j) {
      if !(g == key.session && j == |q|) { assert QueuedAt(s, g, j); }
    }
    forall j | 0 <= j < |q| ensures q[j].conn != conn { assert QueuedAt(s, key.session, j); }
    forall c | c in t.place && t.place[c].Queued? ensures InQueue(t, t.place[c].session, c) {
      if c == conn {
        assert t.sessions[key.session].queue[|q|].conn == c;
      } else {
        assert InQueue(s, s.place[c].session, c);
        var j :| 0 <= j < |s.sessions[s.place[c].session].queue| && s.sessions[s.place[c].session].queue[j].conn == c;
        assert t.sessions[s.place[c].session].queue[j].conn == c;
      }
    }
  }

  lemma {:induction false} QueuesServe(s: State)
    requires Enabled(s, ServeConn) && QueuesPlaced(s)
    ensures QueuesPlaced(Next(s, ServeConn))
  {
    var t := Next(s, ServeConn);
    var cur, q := |s.sessions| - 1, Current(s).queue;
    assert QueuedAt(s, cur, 0) && NoRepeats(q);
    forall g: nat, j: nat | g < |t.sessions| && j < |t.sessions[g].queue| ensures QueuedAt(t, g, j) {
      assert QueuedAt(s, g, if g == cur then j + 1 else j);
    }
    forall c | c in t.place && t.place[c].Queued? ensures InQueue(t, t.place[c].session, c) {
      var g := s.place[c].session;
      assert InQueue(s, g, c);
      var j :| 0 <= j < |s.sessions[g].queue| && s.sessions[g].queue[j].conn == c;
      assert t.sessions[g].queue[if g == cur then j - 1 else j].conn == c;
    }
  }

  lemma {:induction false} QueuesSame(s: State, t: State)
    requires QueuesPlaced(s) && |s.sessions| <= |t.sessions|
    requires forall g :: 0 <= g < |t.sessions| ==>
               t.sessions[g].queue == if g < |s.sessions| then s.sessions[g].queue else []
    requires forall c :: c in s.place && s.place[c].Queued? ==> c in t.place && t.place[c] == s.place[c]
    requires forall c :: c in t.place && t.place[c].Queued? ==> c in s.place && t.place[c] == s.place[c]
    requires forall c :: c in s.origin ==> c in t.origin && t.origin[c] == s.origin[c]
    ensures QueuesPlaced(t)
  {
    forall g: nat, j: nat | g < |t.sessions| && j < |t.sessions[g].queue| ensures QueuedAt(t, g, j) {
      assert QueuedAt(s, g, j);
    }
    forall c | c in t.place && t.place[c].Queued? ensures InQueue(t, t.place[c].session, c) {
      var g := s.place[c].session;
      assert InQueue(s, g, c);
      var j :| 0 <= j < |s.sessions[g].queue| && s.sessions[g].queue[j].conn == c;
      assert t.sessions[g].queue[j].conn == c;
    }
  }

  lemma {:induction false} QueuesStep(s: State, l: Label)
    requires Enabled(s, l) && Placed(s) && QueuesPlaced(s)
    ensures QueuesPlaced(Next(s, l))
  {
    if l.Enqueue? {
      QueuesEnqueue(s, l.key);
    } else if l.ServeConn? {
      QueuesServe(s);
    } else {
      if l.DropOnStop? { assert HeldAt(s, l.key); }
      QueuesSame(s, Next(s, l));
    }
  }

  ghost predicate Inv(s: State) {
    SessionsOk(s) && AcceptorsOk(s) && Counted(s) && Placed(s) && QueuesPlaced(s)
  }

  lemma {:induction false} StepPremises(s: State, l: Label)
    requires Enabled(s, l) && Inv(s)
    ensures Premises(s, l)
  {
    if l.ServeConn? { assert QueuedAt(s, |s.sessions| - 1, 0); }
  }

  lemma {:induction false} InvStep(s: State, l: Label)
    requires Enabled(s, l) && Inv(s)
    ensures Inv(Next(s, l))
  {
    StepPremises(s, l);
    SessionsOkStep(s, l);
    AcceptorsOkStep(s, l);
    CountedStep(s, l);
    QueuesStep(s, l);
    PlacedStep(s, l);
  }

  lemma {:induction false} BeginInv(forwards: seq<ForwardSpec>)
    ensures Inv(Begin(forwards))
  {
  }

  ghost predicate Run(ss: seq<State>, ls: seq<Label>) {
    && |ss| == |ls| + 1
    && ss[0] == Begin(ss[0].forwards)
    && forall i {:trigger ls[i]} :: 0 <= i < |ls| ==> Enabled(ss[i], ls[i]) && ss[i + 1] == Next(ss[i], ls[i])
  }

  lemma {:induction false} RunInvStep(ss: seq<State>, ls: seq<Label>, i: nat)
    requires Run(ss, ls) && i < |ls| && Inv(ss[i])
    ensures Inv(Next(ss[i], ls[i]))
  {
    InvStep(ss[i], ls[i]);
  }

  lemma {:induction false} RunInv(ss: seq<State>, ls: seq<Label>, i: nat)
    requires Run(ss, ls) && i < |ss|
    ensures Inv(ss[i])
  {
    if i == 0 {
      BeginInv(ss[0].forwards);
    } else {
      RunInv(ss, ls, i - 1);
      RunInvStep(ss, ls, i - 1);
      assert ss[i] == Next(ss[i - 1], ls[i - 1]);
    }
  }

  /** In every schedule, across reconnects: no more messages are ever sent on a session's error channel than it has
      listeners, so no acceptor blocks on it. */
  lemma {:induction false} ErrorsFit(ss: seq<State>, ls: seq<Label>, i: nat, key: Key)
    requires Run(ss, ls) && i < |ss| && key.session < |ss[i].sessions|
    ensures var e := ss[i].sessions[key.session];
            && e.errs <= e.sent <= |e.listeners|
            && (Alive(ss[i], key, Reporting) ==> Enabled(ss[i], Report(key)))
  {
    RunInv(ss, ls, i);
    var e := ss[i].sessions[key.session];
    SmallSet(e.reported, e.spawned);
    if key in ss[i].acceptors { ReportedMore(e, key.listener); }
  }

  /** Each accepted connection is in exactly one place, the place is what the acceptors, queues and forwarders say, and
      whoever has it knows the listener that accepted it. */
  lemma {:induction false} OnePlace(ss: seq<State>, ls: seq<Label>, i: nat, c: Conn)
    requires Run(ss, ls) && i < |ss| && c in ss[i].origin
    ensures var s := ss[i];
            && c in s.place
            && ((exists key :: key in s.acceptors && s.acceptors[key] == Holding(c)) <==> s.place[c].Held?)
            && ((exists g: nat :: InQueue(s, g, c)) <==> s.place[c].Queued?)
            && (c in s.forwarders <==> s.place[c] == Forwarding)
            && (c in s.forwarders ==> s.forwarders[c] == s.origin[c])
            && (forall key :: key in s.acceptors && s.acceptors[key] == Holding(c) ==>
                  s.place[c] == Held(key) && key.session < |s.sessions|
                  && key.listener < |s.sessions[key.session].listeners| && SpecOf(s, key) == s.origin[c])
            && (forall g: nat, j: nat ::
                  g < |s.sessions| && j < |s.sessions[g].queue| && s.sessions[g].queue[j].conn == c ==>
                  s.place[c] == Queued(g) && s.sessions[g].queue[j].spec == s.origin[c])
  {
    RunInv(ss, ls, i);
    var s := ss[i];
    forall key | key in s.acceptors && s.acceptors[key] == Holding(c)
      ensures s.place[c] == Held(key) && key.session < |s.sessions|
              && key.listener < |s.sessions[key.session].listeners| && SpecOf(s, key) == s.origin[c]
    {
      assert HeldAt(s, key);
    }
    forall g: nat, j: nat | g < |s.sessions| && j < |s.sessions[g].queue| && s.sessions[g].queue[j].conn == c
      ensures s.place[c] == Queued(g) && s.sessions[g].queue[j].spec == s.origin[c]
    {
      assert QueuedAt(s, g, j);
    }
  }

  lemma {:induction false} OnlyRunAdds(s: State, l: Label)
    requires Enabled(s, l) && Next(s, l).wg > s.wg
    ensures s.run != Returned
  {
    assert l == SpawnAcceptor || l == ServeConn;
  }

  /** The wait group counts the live goroutines, and an Add from zero never happens: every Add is made by the run
      goroutine while it still holds its own count. */
  lemma {:induction false} WaitGroup(ss: seq<State>, ls: seq<Label>, i: nat)
    requires Run(ss, ls) && i < |ss|
    ensures Counted(ss[i])
    ensures i < |ls| && ss[i + 1].wg > ss[i].wg ==> ss[i].run != Returned && ss[i].wg >= 1
  {
    RunInv(ss, ls, i);
    if i < |ls| && ss[i + 1].wg > ss[i].wg { OnlyRunAdds(ss[i], ls[i]); }
  }

  ghost predicate Quiet(s: State) {
    s.wg == 0 && s.run == Returned && s.acceptors == map[] && s.forwarders == map[]
  }

  lemma {:induction false} QuietStep(s: State, l: Label)
    requires Enabled(s, l) && Quiet(s)
    ensures Quiet(Next(s, l))
  {
    assert l == Stop;
  }

  lemma {:induction false} NoneCounted(s: State)
    requires Counted(s) && s.wg == 0
    ensures Quiet(s)
  {
    assert s.acceptors.Keys == {} && s.forwarders.Keys == {};
  }

  /** Once Stop's Wait has seen zero it stays zero: no goroutine is left and none is started. */
  lemma {:induction false} AfterWait(ss: seq<State>, ls: seq<Label>, i: nat, j: nat)
    requires Run(ss, ls) && i <= j < |ss| && ss[i].wg == 0
    ensures Quiet(ss[j])
    decreases j
  {
    if i < j {
      AfterWait(ss, ls, i, j - 1);
      QuietStep(ss[j - 1], ls[j - 1]);
    } else {
      RunInv(ss, ls, i);
      NoneCounted(ss[i]);
    }
  }

  /** The run goroutine has left a session: it returned, failed, or connected anew. */
  predicate Left(s: State, g: nat) {
    g < |s.sessions| && (g < |s.sessions| - 1 || s.run == Connecting || s.run == Failed || s.run == Returned)
  }

  ghost predicate QueuedIn(s: State, c: Conn, g: nat) { c in s.place && s.place[c] == Queued(g) }

  lemma {:induction false} LeftStep(s: State, l: Label, g: nat)
    requires Enabled(s, l) && Left(s, g)
    ensures Left(Next(s, l), g)
  {
  }

  /** The connection a step moves, if any, is not one that waits in a queue behind others. */
  ghost predicate MovesOther(s: State, l: Label)
    requires Enabled(s, l)
  {
    match l
    case Accept(_) => s.accepted !in s.place
    case Enqueue(key) => HeldAt(s, key)
    case DropOnStop(key) => HeldAt(s, key)
    case ServeConn => QueuedAt(s, |s.sessions| - 1, 0)
    case ForwardEnds(conn) => conn in s.place && s.place[conn] == Forwarding
    case _ => true
  }

  lemma {:induction false} RunMovesOther(ss: seq<State>, ls: seq<Label>, i: nat)
    requires Run(ss, ls) && i < |ls|
    ensures Enabled(ss[i], ls[i]) && MovesOther(ss[i], ls[i])
  {
    RunInv(ss, ls, i);
    StepPremises(ss[i], ls[i]);
  }

  lemma {:induction false} QueuedStep(s: State, l: Label, g: nat, c: Conn)
    requires Enabled(s, l) && MovesOther(s, l) && Left(s, g) && QueuedIn(s, c, g)
    ensures QueuedIn(Next(s, l), c, g)
  {
  }

  /** A connection queued in a session that the run goroutine has left is never taken out again. */
  lemma {:induction false} StaysQueued(ss: seq<State>, ls: seq<Label>, i: nat, j: nat, g: nat, c: Conn)
    requires Run(ss, ls) && i <= j < |ss| && Left(ss[i], g) && QueuedIn(ss[i], c, g)
    ensures Left(ss[j], g) && QueuedIn(ss[j], c, g)
    decreases j
  {
    if i < j {
      StaysQueued(ss, ls, i, j - 1, g, c);
      RunMovesOther(ss, ls, j - 1);
      LeftStep(ss[j - 1], ls[j - 1], g);
      QueuedStep(ss[j - 1], ls[j - 1], g, c);
    }
  }

  /** Some earlier state had the connection in the queue of a session that the run goroutine had already left. */
  ghost predicate QueuedAfterLeaving(ss: seq<State>, j: nat, g: nat, c: Conn)
    requires j < |ss|
  {
    exists i :: 0 <= i <= j && Left(ss[i], g) && QueuedIn(ss[i], c, g)
  }

  /** With every goroutine gone, each connection ever accepted was closed, or it is stranded in the accept channel of a
      session; and it is stranded there exactly when it was in that queue once the run goroutine had left the session. */
  lemma {:induction false} ClosedOrStranded(ss: seq<State>, ls: seq<Label>, j: nat, c: Conn)
    requires Run(ss, ls) && j < |ss| && ss[j].wg == 0 && c in ss[j].origin
    ensures c in ss[j].place && (ss[j].place[c] == Closed || ss[j].place[c].Queued?)
    ensures forall g: nat :: QueuedIn(ss[j], c, g) <==> QueuedAfterLeaving(ss, j, g, c)
  {
    RunInv(ss, ls, j);
    NoneCounted(ss[j]);
    forall g: nat ensures QueuedIn(ss[j], c, g) <==> QueuedAfterLeaving(ss, j, g, c) {
      if QueuedIn(ss[j], c, g) {
        assert InQueue(ss[j], g, c) && Left(ss[j], g);
      }
      if i :| 0 <= i <= j && Left(ss[i], g) && QueuedIn(ss[i], c, g) { StaysQueued(ss, ls, i, j, g, c); }
    }
  }

  lemma {:induction false} Extended(ss: seq<State>, ls: seq<Label>, l: Label)
    returns (t: State, rs: seq<State>, ks: seq<Label>)
    requires Run(ss, ls) && Enabled(ss[|ss| - 1], l)
    ensures Run(rs, ks) && t == rs[|rs| - 1] == Next(ss[|ss| - 1], l)
    ensures rs == ss + [t] && ks == ls + [l]
  {
    t := Next(ss[|ss| - 1], l);
    rs, ks := ss + [t], ls + [l];
  }

  lemma {:induction false} ServingOne(f: ForwardSpec) returns (ss: seq<State>, ls: seq<Label>)
    ensures Run(ss, ls)
    ensures ss[|ss| - 1] == State([f], Serving, [Session([f], 1, [], 0, 0, {})], map[Key(0, 0) := Accepting], map[],
                                  0, map[], map[], false, 2)
  {
    var s := Begin([f]);
    ss, ls := [s], [];
    s, ss, ls := Extended(ss, ls, ConnectOk);
    s, ss, ls := Extended(ss, ls, SpawnAcceptor);
    s, ss, ls := Extended(ss, ls, StartServing);
  }

  /** Stranding does happen: a connection is queued, Stop is seen first, and the tunnel ends with it in the channel. */
  lemma {:induction false} StrandedRun(f: ForwardSpec) returns (ss: seq<State>, ls: seq<Label>)
    ensures Run(ss, ls)
    ensures var s := ss[|ss| - 1]; s.wg == 0 && s.run == Returned && s.place == map[0 := Queued(0)]
  {
    ss, ls := ServingOne(f);
    var s;
    s, ss, ls := Extended(ss, ls, Accept(Key(0, 0)));
    s, ss, ls := Extended(ss, ls, Enqueue(Key(0, 0)));
    s, ss, ls := Extended(ss, ls, Stop);
    s, ss, ls := Extended(ss, ls, SeeStop);
    s, ss, ls := Extended(ss, ls, AcceptFails(Key(0, 0)));
  }
}

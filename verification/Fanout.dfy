/** Subscribe, Unsubscribe and broadcast: internal/serial/session.go:137-150, 233-242.

    A broadcast holds the read lock from its first delivery to its last, so several broadcasts may interleave their
    deliveries with each other and with receivers, but never with Subscribe or the locked half of Unsubscribe.
    Unsubscribe closes the channel in a second step, after the lock. */
module Fanout {
  import opened Bytes

  type Chan = nat
  type Msg = string
  type Bid = nat

  const CAPACITY: nat := 64

  /** One delivery attempt: which broadcast, its message, and whether the queue had room. */
  datatype Offer = Offer(bid: Bid, msg: Msg, taken: bool)

  /** A subscriber channel with what its receiver already took, what is still queued, and every attempt so far. */
  datatype Sub = Sub(received: seq<Msg>, queue: seq<Msg>, offers: seq<Offer>, since: Bid)

  /** A broadcast under way: the subscribers it has not offered its message to yet. */
  datatype Cast = Cast(msg: Msg, remaining: set<Chan>)

  datatype State = State(
    channels: map<Chan, Sub>,     // every channel ever made
    registered: set<Chan>,
    leaving: set<Chan>,           // removed under the lock, not closed yet
    closed: set<Chan>,
    casts: map<Bid, Cast>,
    started: seq<Msg>,            // the message of each broadcast, in start order
    nextCh: Chan
  )

  datatype Label =
    | Subscribe
    | Remove(ch: Chan)
    | Close(ch: Chan)
    | Begin(msg: Msg)
    | Deliver(bid: Bid, ch: Chan)
    | End(bid: Bid)
    | Receive(ch: Chan)

  function Start(): State { State(map[], {}, {}, {}, map[], [], 0) }

  predicate Enabled(s: State, l: Label) {
    match l
    case Subscribe => s.casts == map[]
    case Remove(ch) => s.casts == map[] && ch in s.registered
    case Close(ch) => ch in s.leaving
    case Begin(_) => true
    case Deliver(bid, ch) => bid in s.casts && ch in s.casts[bid].remaining && ch in s.channels
    case End(bid) => bid in s.casts && s.casts[bid].remaining == {}
    case Receive(ch) => ch in s.channels && s.channels[ch].queue != []
  }

  /** select { case ch <- msg: default: } */
  function Offered(sub: Sub, bid: Bid, msg: Msg): Sub {
    var room := |sub.queue| < CAPACITY;
    sub.(queue := if room then sub.queue + [msg] else sub.queue, offers := sub.offers + [Offer(bid, msg, room)])
  }

  function Next(s: State, l: Label): State
    requires Enabled(s, l)
  {
    match l
    case Subscribe =>
      s.(channels := s.channels[s.nextCh := Sub([], [], [], |s.started|)],
         registered := s.registered + {s.nextCh}, nextCh := s.nextCh + 1)
    case Remove(ch) => s.(registered := s.registered - {ch}, leaving := s.leaving + {ch})
    case Close(ch) => s.(leaving := s.leaving - {ch}, closed := s.closed + {ch})
    case Begin(msg) => s.(casts := s.casts[|s.started| := Cast(msg, s.registered)], started := s.started + [msg])
    case Deliver(bid, ch) =>
      s.(channels := s.channels[ch := Offered(s.channels[ch], bid, s.casts[bid].msg)],
         casts := s.casts[bid := s.casts[bid].(remaining := s.casts[bid].remaining - {ch})])
    case End(bid) => s.(casts := s.casts - {bid})
    case Receive(ch) =>
      var sub := s.channels[ch];
      s.(channels := s.channels[ch := sub.(received := sub.received + [sub.queue[0]], queue := sub.queue[1..])])
  }

  /** The messages whose delivery found room, in order. */
  function Taken(offers: seq<Offer>): seq<Msg> {
    if offers == [] then []
    else
      var n := |offers| - 1;
      if offers[n].taken then Taken(offers[..n]) + [offers[n].msg] else Taken(offers[..n])
  }

  function Messages(offers: seq<Offer>): seq<Msg> {
    if offers == [] then [] else Messages(offers[..|offers| - 1]) + [offers[|offers| - 1].msg]
  }

  function Bids(offers: seq<Offer>): set<Bid> {
    if offers == [] then {} else Bids(offers[..|offers| - 1]) + {offers[|offers| - 1].bid}
  }

  /** Each offer carries the message of its own broadcast, and no broadcast is offered twice. */
  ghost predicate OfferedOnce(offers: seq<Offer>, started: seq<Msg>) {
    offers == [] ||
    (var n := |offers| - 1;
     && OfferedOnce(offers[..n], started)
     && offers[n].bid < |started| && offers[n].msg == started[offers[n].bid]
     && offers[n].bid !in Bids(offers[..n]))
  }

  ghost predicate AllTaken(offers: seq<Offer>) {
    forall k :: 0 <= k < |offers| ==> offers[k].taken
  }

  /** A registered channel is neither leaving nor closed, and a broadcast only targets registered channels. */
  ghost predicate Safe(s: State) {
    && s.registered <= s.channels.Keys
    && s.registered !! s.leaving !! s.closed
    && (forall ch :: ch in s.channels || ch in s.leaving || ch in s.closed ==> ch < s.nextCh)
    && (forall bid :: bid in s.casts ==>
          bid < |s.started| && s.casts[bid].msg == s.started[bid] && s.casts[bid].remaining <= s.registered)
  }

  ghost predicate SubOrdered(sub: Sub, started: seq<Msg>) {
    && |sub.queue| <= CAPACITY
    && sub.received + sub.queue == Taken(sub.offers)
    && sub.since <= |started|
    && OfferedOnce(sub.offers, started)
  }

  /** A queue never overflows, and what was received plus what is queued are the taken offers in order. */
  ghost predicate Ordered(s: State) {
    forall ch :: ch in s.channels ==> SubOrdered(s.channels[ch], s.started)
  }

  ghost predicate Pending(s: State, bid: Bid, ch: Chan) {
    bid in s.casts && ch in s.casts[bid].remaining
  }

  /** Offers to a registered channel are exactly the broadcasts begun since it subscribed, less those still to come. */
  ghost predicate Covered(s: State) {
    forall ch: Chan, bid: Bid :: ch in s.registered && ch in s.channels ==> CoveredAt(s, ch, bid)
  }

  ghost predicate PendingSince(s: State) {
    forall ch: Chan, bid: Bid :: Pending(s, bid, ch) && ch in s.channels ==> s.channels[ch].since <= bid
  }

  ghost predicate Inv(s: State) {
    Safe(s) && Ordered(s) && Covered(s) && PendingSince(s)
  }

  lemma {:induction false} OfferedOnceMore(offers: seq<Offer>, started: seq<Msg>, msg: Msg)
    requires OfferedOnce(offers, started)
    ensures OfferedOnce(offers, started + [msg])
  {
    if offers != [] { OfferedOnceMore(offers[..|offers| - 1], started, msg); }
  }

  lemma {:induction false} SafeStep(s: State, l: Label)
    requires Enabled(s, l) && Safe(s)
    ensures Safe(Next(s, l))
  {
  }

  lemma {:induction false} OrderedOffer(sub: Sub, bid: Bid, started: seq<Msg>)
    requires SubOrdered(sub, started) && bid < |started| && bid !in Bids(sub.offers)
    ensures SubOrdered(Offered(sub, bid, started[bid]), started)
    ensures Bids(Offered(sub, bid, started[bid]).offers) == Bids(sub.offers) + {bid}
  {
    var t := Offered(sub, bid, started[bid]);
    assert t.offers[..|sub.offers|] == sub.offers;
    Assoc(sub.received, sub.queue, [started[bid]]);
  }

  lemma {:induction false} OrderedReceive(sub: Sub, started: seq<Msg>)
    requires SubOrdered(sub, started) && sub.queue != []
    ensures SubOrdered(sub.(received := sub.received + [sub.queue[0]], queue := sub.queue[1..]), started)
  {
    assert sub.queue == [sub.queue[0]] + sub.queue[1..];
    Assoc(sub.received, [sub.queue[0]], sub.queue[1..]);
  }

  lemma {:induction false} OrderedStep(s: State, l: Label)
    requires Enabled(s, l) && Inv(s)
    ensures Ordered(Next(s, l))
  {
    match l
    case Subscribe => assert [] + [] == Taken([]);
    case Begin(msg) =>
      forall ch | ch in s.channels ensures SubOrdered(s.channels[ch], s.started + [msg]) {
        OfferedOnceMore(s.channels[ch].offers, s.started, msg);
      }
    case Deliver(bid, ch) =>
      assert Pending(s, bid, ch) && CoveredAt(s, ch, bid);
      OrderedOffer(s.channels[ch], bid, s.started);
    case Receive(ch) => OrderedReceive(s.channels[ch], s.started);
    case _ =>
  }

  lemma {:induction false} PendingSinceStep(s: State, l: Label)
    requires Enabled(s, l) && Inv(s)
    ensures PendingSince(Next(s, l))
  {
    var t := Next(s, l);
    forall ch: Chan, bid: Bid | Pending(t, bid, ch) && ch in t.channels ensures t.channels[ch].since <= bid {
      assert Pending(s, bid, ch) || l.Begin? || l.Subscribe?;
      if l.Begin? && ch in s.channels { assert SubOrdered(s.channels[ch], s.started); }
    }
  }

  ghost predicate CoveredAt(s: State, ch: Chan, bid: Bid)
    requires ch in s.channels
  {
    bid in Bids(s.channels[ch].offers) <==> s.channels[ch].since <= bid < |s.started| && !Pending(s, bid, ch)
  }

  lemma {:induction false} CoveredBegin(s: State, msg: Msg, ch: Chan, bid: Bid)
    requires Safe(s) && ch in s.registered && ch in s.channels && CoveredAt(s, ch, bid)
    requires SubOrdered(s.channels[ch], s.started)
    ensures CoveredAt(Next(s, Begin(msg)), ch, bid)
  {
    var t := Next(s, Begin(msg));
    if bid == |s.started| {
      assert Pending(t, bid, ch);
    } else {
      assert Pending(t, bid, ch) <==> Pending(s, bid, ch);
    }
  }

  lemma {:induction false} CoveredDeliver(s: State, b: Bid, c: Chan, ch: Chan, bid: Bid)
    requires Enabled(s, Deliver(b, c)) && Safe(s) && ch in s.registered && ch in s.channels
    requires CoveredAt(s, ch, bid) && CoveredAt(s, c, b)
    requires SubOrdered(s.channels[c], s.started) && s.channels[c].since <= b
    ensures CoveredAt(Next(s, Deliver(b, c)), ch, bid)
  {
    var t := Next(s, Deliver(b, c));
    assert Pending(s, b, c);
    OrderedOffer(s.channels[c], b, s.started);
    assert Pending(t, bid, ch) <==> Pending(s, bid, ch) && !(b == bid && c == ch);
  }

  lemma {:induction false} CoveredOther(s: State, l: Label, ch: Chan, bid: Bid)
    requires Enabled(s, l) && !l.Begin? && !l.Deliver? && !l.Subscribe?
    requires ch in s.registered && ch in s.channels && CoveredAt(s, ch, bid)
    ensures CoveredAt(Next(s, l), ch, bid)
  {
    assert Pending(Next(s, l), bid, ch) <==> Pending(s, bid, ch);
  }

  lemma {:induction false} CoveredStep(s: State, l: Label)
    requires Enabled(s, l) && Inv(s)
    ensures Covered(Next(s, l))
  {
    var t := Next(s, l);
    forall ch: Chan, bid: Bid | ch in t.registered && ch in t.channels ensures CoveredAt(t, ch, bid) {
      if l.Subscribe? {
        assert ch == s.nextCh || CoveredAt(s, ch, bid);
      } else {
        assert CoveredAt(s, ch, bid);
        if l.Begin? {
          CoveredBegin(s, l.msg, ch, bid);
        } else if l.Deliver? {
          assert Pending(s, l.bid, l.ch) && CoveredAt(s, l.ch, l.bid);
          CoveredDeliver(s, l.bid, l.ch, ch, bid);
        } else {
          CoveredOther(s, l, ch, bid);
        }
      }
    }
  }

  ghost predicate Run(ss: seq<State>, ls: seq<Label>) {
    && |ss| == |ls| + 1
    && ss[0] == Start()
    && forall i :: 0 <= i < |ls| ==> Enabled(ss[i], ls[i]) && ss[i + 1] == Next(ss[i], ls[i])
  }

  lemma {:induction false} RunInv(ss: seq<State>, ls: seq<Label>, i: nat)
    requires Run(ss, ls) && i < |ss|
    ensures Inv(ss[i])
  {
    if i > 0 {
      RunInv(ss, ls, i - 1);
      var s, l := ss[i - 1], ls[i - 1];
      SafeStep(s, l);
      OrderedStep(s, l);
      PendingSinceStep(s, l);
      CoveredStep(s, l);
    }
  }

  /** In every run a delivery never targets a closed channel. */
  lemma {:induction false} NeverSendsOnClosed(ss: seq<State>, ls: seq<Label>, i: nat)
    requires Run(ss, ls) && i < |ls| && ls[i].Deliver?
    ensures ls[i].ch in ss[i].registered && ls[i].ch !in ss[i].closed
  {
    RunInv(ss, ls, i);
  }

  /** An offer is refused exactly when 64 messages wait; otherwise the broadcast's message joins the queue. */
  lemma {:induction false} RefusedIffFull(ss: seq<State>, ls: seq<Label>, i: nat)
    requires Run(ss, ls) && i < |ls| && ls[i].Deliver?
    ensures ls[i].ch in ss[i].channels && ls[i].ch in ss[i + 1].channels && ls[i].bid < |ss[i].started|
    ensures var sub, after := ss[i].channels[ls[i].ch], ss[i + 1].channels[ls[i].ch];
            && after.offers != [] && (!after.offers[|after.offers| - 1].taken <==> |sub.queue| == 64)
            && after.queue == (if |sub.queue| == 64 then sub.queue else sub.queue + [ss[i].started[ls[i].bid]])
  {
    RunInv(ss, ls, i);
    assert SubOrdered(ss[i].channels[ls[i].ch], ss[i].started);
  }

  lemma {:induction false} TakenIsSubsequence(offers: seq<Offer>)
    ensures Subsequence(Taken(offers), Messages(offers))
    ensures AllTaken(offers) ==> Taken(offers) == Messages(offers)
  {
    if offers != [] {
      var n := |offers| - 1;
      TakenIsSubsequence(offers[..n]);
      SubsequenceRefl([offers[n].msg]);
      assert Subsequence<Msg>([], [offers[n].msg]);
      SubsequenceConcat(Taken(offers[..n]), Messages(offers[..n]), [offers[n].msg], [offers[n].msg]);
      SubsequenceConcat(Taken(offers[..n]), Messages(offers[..n]), [], [offers[n].msg]);
      assert Taken(offers[..n]) + [] == Taken(offers[..n]);
    }
  }

  /** What any subscriber received or has queued is an in-order subsequence of what it was offered, and all of it if its
      queue was never full; its queue stays within 64; and once no broadcast is under way, a registered subscriber was
      offered every broadcast begun since it subscribed, each exactly once. */
  lemma {:induction false} FanoutGuarantee(ss: seq<State>, ls: seq<Label>, i: nat, ch: Chan)
    requires Run(ss, ls) && i < |ss| && ch in ss[i].channels
    ensures var sub := ss[i].channels[ch];
            && |sub.queue| <= 64
            && Subsequence(sub.received + sub.queue, Messages(sub.offers))
            && (AllTaken(sub.offers) ==> sub.received + sub.queue == Messages(sub.offers))
            && OfferedOnce(sub.offers, ss[i].started)
            && (ch in ss[i].registered && ss[i].casts == map[] ==>
                  forall bid: Bid :: bid in Bids(sub.offers) <==> sub.since <= bid < |ss[i].started|)
  {
    RunInv(ss, ls, i);
    assert SubOrdered(ss[i].channels[ch], ss[i].started);
    TakenIsSubsequence(ss[i].channels[ch].offers);
    if ch in ss[i].registered && ss[i].casts == map[] {
      forall bid: Bid
        ensures bid in Bids(ss[i].channels[ch].offers) <==> ss[i].channels[ch].since <= bid < |ss[i].started|
      {
        assert CoveredAt(ss[i], ch, bid);
      }
    }
  }

  lemma {:induction false} Extended(ss: seq<State>, ls: seq<Label>, l: Label)
    returns (t: State, ss': seq<State>, ls': seq<Label>)
    requires Run(ss, ls) && Enabled(ss[|ss| - 1], l)
    ensures Run(ss', ls') && t == ss'[|ss'| - 1] == Next(ss[|ss| - 1], l)
  {
    t := Next(ss[|ss| - 1], l);
    ss', ls' := ss + [t], ls + [l];
    forall i | 0 <= i < |ls'| ensures Enabled(ss'[i], ls'[i]) && ss'[i + 1] == Next(ss'[i], ls'[i]) {
      if i < |ls| { assert ss'[i] == ss[i] && ss'[i + 1] == ss[i + 1] && ls'[i] == ls[i]; }
    }
  }

  /** Broadcasts that overlap may reach a subscriber in either order. */
  lemma {:induction false} OverlapReorders(first: Msg, second: Msg) returns (ss: seq<State>, ls: seq<Label>)
    ensures Run(ss, ls)
    ensures var s := ss[|ss| - 1];
            s.started == [first, second] && 0 in s.channels && s.channels[0].queue == [second, first]
  {
    var s := Start();
    ss, ls := [s], [];
    s, ss, ls := Extended(ss, ls, Subscribe);
    s, ss, ls := Extended(ss, ls, Begin(first));
    s, ss, ls := Extended(ss, ls, Begin(second));
    assert s.casts[0] == Cast(first, {0}) && s.casts[1] == Cast(second, {0});
    s, ss, ls := Extended(ss, ls, Deliver(1, 0));
    assert s.channels[0].queue == [second];
    s, ss, ls := Extended(ss, ls, Deliver(0, 0));
  }

  /** No offer of broadcast `a` comes after one of broadcast `b`. */
  ghost predicate Before(offers: seq<Offer>, a: Bid, b: Bid) {
    offers == [] ||
    (var n := |offers| - 1;
     Before(offers[..n], a, b) && (offers[n].bid == a ==> b !in Bids(offers[..n])))
  }

  /** The offers that found room, in order: their messages are what was received and what is queued. */
  function Accepted(offers: seq<Offer>): seq<Offer> {
    if offers == [] then []
    else
      var n := |offers| - 1;
      if offers[n].taken then Accepted(offers[..n]) + [offers[n]] else Accepted(offers[..n])
  }

  lemma {:induction false} AcceptedAre(offers: seq<Offer>, a: Bid, b: Bid)
    ensures Messages(Accepted(offers)) == Taken(offers)
    ensures Bids(Accepted(offers)) <= Bids(offers)
    ensures Before(offers, a, b) ==> Before(Accepted(offers), a, b)
  {
    if offers != [] {
      var n := |offers| - 1;
      AcceptedAre(offers[..n], a, b);
      var kept := Accepted(offers[..n]);
      assert (kept + [offers[n]])[..|kept|] == kept;
    }
  }

  ghost predicate Ended(s: State, a: Bid) { a < |s.started| && a !in s.casts }

  lemma {:induction false} EndedStays(ss: seq<State>, ls: seq<Label>, i: nat, j: nat, a: Bid)
    requires Run(ss, ls) && i <= j < |ss| && Ended(ss[i], a)
    ensures Ended(ss[j], a)
    decreases j
  {
    if i < j { EndedStays(ss, ls, i, j - 1, a); }
  }

  ghost predicate BeforeIn(s: State, ch: Chan, a: Bid, b: Bid) {
    ch in s.channels ==> Before(s.channels[ch].offers, a, b)
  }

  lemma {:induction false} NeverOffered(offers: seq<Offer>, a: Bid, b: Bid)
    requires b !in Bids(offers)
    ensures Before(offers, a, b)
  {
    if offers != [] { NeverOffered(offers[..|offers| - 1], a, b); }
  }

  lemma {:induction false} OnlyStarted(offers: seq<Offer>, started: seq<Msg>, b: Bid)
    requires OfferedOnce(offers, started) && b in Bids(offers)
    ensures b < |started|
  {
    if offers != [] && b != offers[|offers| - 1].bid { OnlyStarted(offers[..|offers| - 1], started, b); }
  }

  lemma {:induction false} BeforeStep(s: State, l: Label, ch: Chan, a: Bid, b: Bid)
    requires Enabled(s, l) && Ended(s, a) && BeforeIn(s, ch, a, b)
    ensures BeforeIn(Next(s, l), ch, a, b)
  {
    if l.Deliver? && l.ch == ch {
      var sub := s.channels[ch];
      assert Offered(sub, l.bid, s.casts[l.bid].msg).offers[..|sub.offers|] == sub.offers;
    }
  }

  lemma {:induction false} EndedFirst(ss: seq<State>, ls: seq<Label>, i: nat, j: nat, ch: Chan, a: Bid)
    requires Run(ss, ls) && i <= j < |ss| && Ended(ss[i], a)
    ensures BeforeIn(ss[j], ch, a, |ss[i].started|)
    decreases j
  {
    var b := |ss[i].started|;
    if i == j {
      RunInv(ss, ls, i);
      if ch in ss[i].channels {
        assert SubOrdered(ss[i].channels[ch], ss[i].started);
        if b in Bids(ss[i].channels[ch].offers) { OnlyStarted(ss[i].channels[ch].offers, ss[i].started, b); }
        NeverOffered(ss[i].channels[ch].offers, a, b);
      }
    } else {
      EndedFirst(ss, ls, i, j - 1, ch, a);
      EndedStays(ss, ls, i, j - 1, a);
      BeforeStep(ss[j - 1], ls[j - 1], ch, a, b);
    }
  }

  lemma {:induction false} InBids(offers: seq<Offer>, k: nat)
    requires k < |offers|
    ensures offers[k].bid in Bids(offers)
  {
    if k < |offers| - 1 { InBids(offers[..|offers| - 1], k); }
  }

  /** What that order means position by position. */
  lemma {:induction false} BeforeAt(offers: seq<Offer>, a: Bid, b: Bid, j: nat, k: nat)
    requires Before(offers, a, b) && a != b && j < |offers| && k < |offers|
    requires offers[j].bid == a && offers[k].bid == b
    ensures j < k
  {
    var n := |offers| - 1;
    if j < n && k < n {
      BeforeAt(offers[..n], a, b, j, k);
    } else if j == n {
      InBids(offers[..n], k);
    }
  }

  /** In every run, overlapping broadcasts included: if one broadcast ended before another began, every subscriber that
      holds both holds them in that order. */
  lemma {:induction false} EndedBeforeBegun(ss: seq<State>, ls: seq<Label>, p: nat, q: nat, i: nat, ch: Chan)
    requires Run(ss, ls) && p < q < i < |ss| && ls[p].End? && ls[q].Begin? && ch in ss[i].channels
    ensures var sub := ss[i].channels[ch]; var kept := Accepted(sub.offers);
            && sub.received + sub.queue == Messages(kept)
            && forall j, k :: 0 <= j < |kept| && 0 <= k < |kept| ==>
                 kept[j].bid == ls[p].bid && kept[k].bid == |ss[q].started| ==> j < k
  {
    var a, b := ls[p].bid, |ss[q].started|;
    RunInv(ss, ls, p);
    assert Enabled(ss[p], ls[p]) && ss[p + 1] == Next(ss[p], ls[p]);
    EndedStays(ss, ls, p + 1, q, a);
    EndedFirst(ss, ls, q, i, ch, a);
    RunInv(ss, ls, i);
    assert SubOrdered(ss[i].channels[ch], ss[i].started);
    AcceptedAre(ss[i].channels[ch].offers, a, b);
    var kept := Accepted(ss[i].channels[ch].offers);
    forall j, k | 0 <= j < |kept| && 0 <= k < |kept| && kept[j].bid == a && kept[k].bid == b ensures j < k {
      BeforeAt(kept, a, b, j, k);
    }
  }

  /** The broadcasts offered, each begun after the one before. */
  ghost predicate Increasing(offers: seq<Offer>) {
    offers == [] ||
    (var n := |offers| - 1;
     Increasing(offers[..n]) && forall b: Bid :: b in Bids(offers[..n]) ==> b < offers[n].bid)
  }

  /** And none still to come is older than one already offered. */
  ghost predicate Straight(s: State, ch: Chan) {
    ch in s.channels ==>
      && Increasing(s.channels[ch].offers)
      && forall a: Bid, b: Bid :: Pending(s, a, ch) && b in Bids(s.channels[ch].offers) ==> b < a
  }

  /** A broadcast is delivered to the channel while an older one has yet to be. */
  ghost predicate OvertakesAt(s: State, l: Label, ch: Chan) {
    l.Deliver? && l.ch == ch && exists a: Bid :: Pending(s, a, ch) && a < l.bid
  }

  lemma {:induction false} StraightDeliver(s: State, bid: Bid, ch: Chan)
    requires Enabled(s, Deliver(bid, ch)) && Inv(s)
    ensures Straight(Next(s, Deliver(bid, ch)), ch) <==> Straight(s, ch) && !OvertakesAt(s, Deliver(bid, ch), ch)
  {
    var t := Next(s, Deliver(bid, ch));
    var sub, longer := s.channels[ch], t.channels[ch].offers;
    assert Pending(s, bid, ch) && CoveredAt(s, ch, bid);
    assert longer[..|sub.offers|] == sub.offers && longer[|sub.offers|].bid == bid;
    forall a: Bid ensures Pending(t, a, ch) <==> Pending(s, a, ch) && a != bid {}
    assert Bids(longer) == Bids(sub.offers) + {bid};
    if Straight(t, ch) {
      assert forall a: Bid, b: Bid :: Pending(s, a, ch) && b in Bids(sub.offers) ==> a == bid || Pending(t, a, ch);
    }
  }

  lemma {:induction false} StraightOther(s: State, l: Label, ch: Chan)
    requires Enabled(s, l) && Inv(s) && !(l.Deliver? && l.ch == ch)
    ensures Straight(Next(s, l), ch) <==> Straight(s, ch)
  {
    var t := Next(s, l);
    if ch in s.channels {
      assert t.channels[ch].offers == s.channels[ch].offers && SubOrdered(s.channels[ch], s.started);
      forall a: Bid
        ensures Pending(t, a, ch) <==> Pending(s, a, ch) || (l.Begin? && a == |s.started| && ch in s.registered)
      {}
      forall b: Bid | b in Bids(s.channels[ch].offers) ensures b < |s.started| {
        OnlyStarted(s.channels[ch].offers, s.started, b);
      }
    } else {
      forall a: Bid ensures ch in t.channels ==> !Pending(t, a, ch) {}
    }
  }

  /** No delivery to the channel overtook an older broadcast before `j`. */
  ghost predicate NoOvertaking(ss: seq<State>, ls: seq<Label>, j: nat, ch: Chan)
    requires Run(ss, ls) && j < |ss|
  {
    forall k :: 0 <= k < j ==> !OvertakesAt(ss[k], ls[k], ch)
  }

  /** In every run, overlapping broadcasts included: a channel's offers stand in broadcast order, with none older to come,
      exactly when no delivery overtook an older broadcast. */
  lemma {:induction false} StraightIff(ss: seq<State>, ls: seq<Label>, j: nat, ch: Chan)
    requires Run(ss, ls) && j < |ss|
    ensures Straight(ss[j], ch) <==> NoOvertaking(ss, ls, j, ch)
  {
    if j > 0 {
      var s, l := ss[j - 1], ls[j - 1];
      assert Enabled(s, l) && ss[j] == Next(s, l);
      StraightIff(ss, ls, j - 1, ch);
      RunInv(ss, ls, j - 1);
      if l.Deliver? && l.ch == ch { StraightDeliver(s, l.bid, ch); } else { StraightOther(s, l, ch); }
      assert NoOvertaking(ss, ls, j, ch) <==> NoOvertaking(ss, ls, j - 1, ch) && !OvertakesAt(s, l, ch);
    }
  }

  /** Offers in increasing order that cover a stretch of broadcasts carry its messages. */
  lemma {:induction false} StretchMessages(offers: seq<Offer>, started: seq<Msg>, lo: nat, hi: nat)
    requires lo <= hi <= |started| && Increasing(offers) && OfferedOnce(offers, started)
    requires forall b: Bid :: b in Bids(offers) <==> lo <= b < hi
    ensures Messages(offers) == started[lo..hi]
  {
    if offers == [] {
      assert lo < hi ==> lo in Bids(offers);
    } else {
      var n := |offers| - 1;
      var last := offers[n].bid;
      assert last in Bids(offers);
      assert hi - 1 in Bids(offers);
      assert last == hi - 1;
      StretchMessages(offers[..n], started, lo, hi - 1);
      assert started[lo..hi] == started[lo..hi - 1] + [started[hi - 1]];
    }
  }

  /** A channel was offered exactly the broadcasts from its subscription up to `hi`. */
  ghost predicate Reached(s: State, ch: Chan, hi: nat)
    requires ch in s.channels
  {
    s.channels[ch].since <= hi <= |s.started| && Messages(s.channels[ch].offers) == s.started[s.channels[ch].since..hi]
  }

  lemma {:induction false} ReachedStep(s: State, l: Label, ch: Chan, hi: nat)
    requires Enabled(s, l) && Safe(s) && ch in s.channels && ch !in s.registered && Reached(s, ch, hi)
    ensures Reached(Next(s, l), ch, hi)
  {
    if l.Begin? { assert (s.started + [l.msg])[s.channels[ch].since..hi] == s.started[s.channels[ch].since..hi]; }
  }

  lemma {:induction false} LastBid(offers: seq<Offer>, b: Bid)
    requires Increasing(offers) && b in Bids(offers)
    ensures offers != [] && b <= offers[|offers| - 1].bid
  {
  }

  /** A registered channel whose offers are straight has been offered a stretch without gaps. */
  lemma {:induction false} StraightReached(s: State, ch: Chan) returns (hi: nat)
    requires Inv(s) && ch in s.registered && ch in s.channels && Straight(s, ch)
    ensures Reached(s, ch, hi)
    ensures s.casts == map[] ==> hi == |s.started|
  {
    var sub := s.channels[ch];
    assert SubOrdered(sub, s.started);
    hi := if s.casts == map[] then |s.started|
          else if sub.offers == [] then sub.since else sub.offers[|sub.offers| - 1].bid + 1;
    if sub.offers != [] {
      var last := sub.offers[|sub.offers| - 1].bid;
      assert last in Bids(sub.offers) && CoveredAt(s, ch, last);
    }
    forall b: Bid ensures b in Bids(sub.offers) <==> sub.since <= b < hi {
      assert CoveredAt(s, ch, b);
      if b in Bids(sub.offers) { LastBid(sub.offers, b); }
    }
    StretchMessages(sub.offers, s.started, sub.since, hi);
  }

  lemma {:induction false} RegisteredReached(ss: seq<State>, ls: seq<Label>, i: nat, ch: Chan) returns (hi: nat)
    requires Run(ss, ls) && i < |ss| && NoOvertaking(ss, ls, i, ch)
    requires ch in ss[i].channels && ch in ss[i].registered
    ensures Reached(ss[i], ch, hi)
    ensures ss[i].casts == map[] ==> hi == |ss[i].started|
  {
    RunInv(ss, ls, i);
    StraightIff(ss, ls, i, ch);
    hi := StraightReached(ss[i], ch);
  }

  lemma {:induction false} LeftReached(s: State, l: Label, ch: Chan, hi: nat)
    requires Enabled(s, l) && Safe(s) && ch in s.channels && ch !in Next(s, l).registered && Reached(s, ch, hi)
    ensures Reached(Next(s, l), ch, hi)
  {
    if ch !in s.registered { ReachedStep(s, l, ch, hi); }
  }

  lemma {:induction false} WasThere(s: State, l: Label, ch: Chan)
    requires Enabled(s, l) && ch in Next(s, l).channels && ch !in Next(s, l).registered
    ensures ch in s.channels
  {
  }

  lemma {:induction false} RunSafe(ss: seq<State>, ls: seq<Label>, i: nat)
    requires Run(ss, ls) && i < |ss|
    ensures Safe(ss[i])
  {
    RunInv(ss, ls, i);
  }

  /** Also for a subscriber that has left and for one in the middle of a broadcast. */
  lemma {:induction false} RunReached(ss: seq<State>, ls: seq<Label>, i: nat, ch: Chan) returns (hi: nat)
    requires Run(ss, ls) && i < |ss| && ch in ss[i].channels && NoOvertaking(ss, ls, i, ch)
    ensures Reached(ss[i], ch, hi)
    ensures ch in ss[i].registered && ss[i].casts == map[] ==> hi == |ss[i].started|
  {
    if ch in ss[i].registered {
      hi := RegisteredReached(ss, ls, i, ch);
    } else {
      var s, l := ss[i - 1], ls[i - 1];
      assert Enabled(s, l) && ss[i] == Next(s, l);
      WasThere(s, l, ch);
      assert NoOvertaking(ss, ls, i - 1, ch);
      hi := RunReached(ss, ls, i - 1, ch);
      RunSafe(ss, ls, i - 1);
      LeftReached(s, l, ch, hi);
    }
  }

  /** If no delivery to it overtook, every subscriber, also one that has left or is in the middle of a broadcast, holds an
      in-order subsequence of the messages broadcast since it subscribed, and a gapless stretch of them if its queue was
      never full: all of them when it is registered and no broadcast is under way. */
  lemma {:induction false} NoOvertakingOrder(ss: seq<State>, ls: seq<Label>, i: nat, ch: Chan)
    requires Run(ss, ls) && i < |ss| && ch in ss[i].channels && NoOvertaking(ss, ls, i, ch)
    ensures var sub := ss[i].channels[ch];
            && sub.since <= |ss[i].started|
            && Subsequence(sub.received + sub.queue, ss[i].started[sub.since..])
            && (AllTaken(sub.offers) ==> sub.received + sub.queue <= ss[i].started[sub.since..])
            && (AllTaken(sub.offers) && ch in ss[i].registered && ss[i].casts == map[] ==>
                  sub.received + sub.queue == ss[i].started[sub.since..])
  {
    FanoutGuarantee(ss, ls, i, ch);
    var hi := RunReached(ss, ls, i, ch);
    var sub, started := ss[i].channels[ch], ss[i].started;
    var later := started[hi..];
    assert started[sub.since..] == started[sub.since..hi] + later;
    assert Subsequence<Msg>([], later);
    SubsequenceConcat(sub.received + sub.queue, Messages(sub.offers), [], later);
    assert sub.received + sub.queue + [] == sub.received + sub.queue;
  }

  /** With no broadcast under way, a registered subscriber was offered its broadcasts in the order in which they began
      exactly when no delivery to it overtook, and then they are all the messages since it subscribed. */
  lemma {:induction false} InOrderIff(ss: seq<State>, ls: seq<Label>, j: nat, ch: Chan)
    requires Run(ss, ls) && j < |ss| && ch in ss[j].registered && ss[j].casts == map[]
    ensures ch in ss[j].channels
    ensures var sub := ss[j].channels[ch];
            && (Increasing(sub.offers) <==> NoOvertaking(ss, ls, j, ch))
            && (NoOvertaking(ss, ls, j, ch) ==>
                  sub.since <= |ss[j].started| && Messages(sub.offers) == ss[j].started[sub.since..])
  {
    RunInv(ss, ls, j);
    StraightIff(ss, ls, j, ch);
    if NoOvertaking(ss, ls, j, ch) {
      var hi := RunReached(ss, ls, j, ch);
      assert ss[j].started[ss[j].channels[ch].since..hi] == ss[j].started[ss[j].channels[ch].since..];
    }
  }

  /** Broadcasts that do not overlap: each begins after the last one ended. */
  ghost predicate OneAtATime(ss: seq<State>, ls: seq<Label>) {
    Run(ss, ls) && forall i :: 0 <= i < |ls| && ls[i].Begin? ==> ss[i].casts == map[]
  }

  lemma {:induction false} OnlyNewest(ss: seq<State>, ls: seq<Label>, i: nat)
    requires OneAtATime(ss, ls) && i < |ss|
    ensures forall bid :: bid in ss[i].casts ==> bid == |ss[i].started| - 1
  {
    if i > 0 {
      assert Enabled(ss[i - 1], ls[i - 1]) && ss[i] == Next(ss[i - 1], ls[i - 1]);
      OnlyNewest(ss, ls, i - 1);
    }
  }

  /** In particular with broadcasts that do not overlap nothing is ever overtaken. */
  lemma {:induction false} OneAtATimeInOrder(ss: seq<State>, ls: seq<Label>, j: nat, ch: Chan)
    requires OneAtATime(ss, ls) && j < |ss|
    ensures NoOvertaking(ss, ls, j, ch)
  {
    forall k | 0 <= k < j ensures !OvertakesAt(ss[k], ls[k], ch) {
      OnlyNewest(ss, ls, k);
    }
  }
}

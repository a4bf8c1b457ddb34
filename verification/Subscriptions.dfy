/** How long a subscriber is one, and what it is given and takes: internal/serial/session.go:137-150, 233-242. */
module Subscriptions {
  import opened Fanout

  /** Where a channel stands: its Unsubscribe has not begun, has removed it, or has closed it. */
  ghost predicate Standing(s: State, done: seq<Label>, ch: Chan) {
    && (ch in s.channels <==> ch < s.nextCh)
    && (ch in s.registered <==> ch < s.nextCh && Remove(ch) !in done)
    && (ch in s.leaving <==> Remove(ch) in done && Close(ch) !in done)
    && (ch in s.closed <==> Close(ch) in done)
    && (Close(ch) in done ==> Remove(ch) in done)
    && (Remove(ch) in done ==> ch < s.nextCh)
  }

  lemma {:induction false} StandingStep(s: State, done: seq<Label>, l: Label, ch: Chan)
    requires Enabled(s, l) && Standing(s, done, ch)
    ensures Standing(Next(s, l), done + [l], ch)
  {
    assert forall m :: m in done + [l] <==> m in done || m == l;
  }

  lemma {:induction false} RunStanding(ss: seq<State>, ls: seq<Label>, i: nat, ch: Chan)
    requires Run(ss, ls) && i < |ss|
    ensures Standing(ss[i], ls[..i], ch)
  {
    if i > 0 {
      assert Enabled(ss[i - 1], ls[i - 1]) && ss[i] == Next(ss[i - 1], ls[i - 1]);
      RunStanding(ss, ls, i - 1, ch);
      StandingStep(ss[i - 1], ls[..i - 1], ls[i - 1], ch);
      assert ls[..i] == ls[..i - 1] + [ls[i - 1]];
    }
  }

  /** In every run each Subscribe makes one more channel; a channel is subscribed until its own Unsubscribe removes it,
      whatever the others do, and closed once its own Unsubscribe has closed it. */
  lemma {:induction false} SubscribedUntilRemoved(ss: seq<State>, ls: seq<Label>, i: nat, ch: Chan)
    requires Run(ss, ls) && i < |ss|
    ensures ss[i].nextCh == multiset(ls[..i])[Subscribe]
    ensures ch in ss[i].registered <==> ch < ss[i].nextCh && Remove(ch) !in ls[..i]
    ensures ch in ss[i].closed <==> Close(ch) in ls[..i]
  {
    RunStanding(ss, ls, i, ch);
    SubscribesCounted(ss, ls, i);
  }

  lemma {:induction false} SubscribesCounted(ss: seq<State>, ls: seq<Label>, i: nat)
    requires Run(ss, ls) && i < |ss|
    ensures ss[i].nextCh == multiset(ls[..i])[Subscribe]
  {
    if i == 0 {
      assert ls[..0] == [];
    } else {
      assert Enabled(ss[i - 1], ls[i - 1]) && ss[i] == Next(ss[i - 1], ls[i - 1]);
      SubscribesCounted(ss, ls, i - 1);
      assert ls[..i] == ls[..i - 1] + [ls[i - 1]];
    }
  }

  /** No channel is removed or closed twice, so no close panics. */
  lemma {:induction false} ClosedOnce(ss: seq<State>, ls: seq<Label>, i: nat, j: nat, ch: Chan)
    requires Run(ss, ls) && i < j < |ls|
    ensures !(ls[i] == Close(ch) && ls[j] == Close(ch)) && !(ls[i] == Remove(ch) && ls[j] == Remove(ch))
  {
    assert Enabled(ss[j], ls[j]) && ls[..j][i] == ls[i];
    RunStanding(ss, ls, j, ch);
  }

  /** What a channel has been offered and what was taken from it, told by the steps. */
  ghost predicate Served(sub: Sub, done: seq<Label>, ch: Chan) {
    && |sub.received| == multiset(done)[Receive(ch)]
    && (forall bid: Bid :: bid in Bids(sub.offers) <==> Deliver(bid, ch) in done)
  }

  ghost predicate ChannelServed(s: State, done: seq<Label>, ch: Chan) {
    && (ch in s.channels ==> Served(s.channels[ch], done, ch))
    && (ch !in s.channels ==> Receive(ch) !in done && forall bid: Bid :: Deliver(bid, ch) !in done)
    && (ch in s.channels <==> ch < s.nextCh)
  }

  lemma {:induction false} BidsMore(offers: seq<Offer>, o: Offer)
    ensures Bids(offers + [o]) == Bids(offers) + {o.bid}
  {
    assert (offers + [o])[..|offers|] == offers;
  }

  lemma {:induction false} ChannelServedStep(s: State, done: seq<Label>, l: Label, ch: Chan)
    requires Enabled(s, l) && ChannelServed(s, done, ch)
    ensures ChannelServed(Next(s, l), done + [l], ch)
  {
    assert forall m :: m in done + [l] <==> m in done || m == l;
    assert multiset(done + [l])[Receive(ch)] == multiset(done)[Receive(ch)] + if l == Receive(ch) then 1 else 0;
    if l.Deliver? && l.ch == ch {
      var sub := s.channels[ch];
      BidsMore(sub.offers, Offer(l.bid, s.casts[l.bid].msg, |sub.queue| < CAPACITY));
    }
  }

  /** In every run a subscriber has taken one message per receive, and was offered exactly the broadcasts that reached
      it. */
  lemma {:induction false} OneMessagePerReceive(ss: seq<State>, ls: seq<Label>, i: nat, ch: Chan)
    requires Run(ss, ls) && i < |ss|
    ensures ChannelServed(ss[i], ls[..i], ch)
  {
    if i == 0 {
      assert ls[..0] == [];
    } else {
      assert Enabled(ss[i - 1], ls[i - 1]) && ss[i] == Next(ss[i - 1], ls[i - 1]);
      OneMessagePerReceive(ss, ls, i - 1, ch);
      ChannelServedStep(ss[i - 1], ls[..i - 1], ls[i - 1], ch);
      assert ls[..i] == ls[..i - 1] + [ls[i - 1]];
    }
  }
}

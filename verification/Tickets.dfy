/** Numbers handed out in order, each held by one goroutine until it is put on a list: the sequence numbers of stored lines
    (internal/serial/session.go:196-206) and the requests of the write queue (internal/serial/session.go:217-228). */
module Tickets {

  type Id = nat

  /** The next number, who holds which, and the list. */
  datatype Tally = Tally(next: nat, hand: map<Id, int>, done: seq<int>)

  ghost predicate Held(t: Tally, n: int) { exists id :: id in t.hand && t.hand[id] == n }

  /** Every number handed out is on the list once, or held by exactly one. */
  ghost predicate Accounted(t: Tally) {
    && (forall k :: 0 <= k < |t.done| ==> 0 <= t.done[k] < t.next && !Held(t, t.done[k]))
    && (forall j, k :: 0 <= j < k < |t.done| ==> t.done[j] != t.done[k])
    && (forall id :: id in t.hand ==> 0 <= t.hand[id] < t.next)
    && (forall a, b :: a in t.hand && b in t.hand && t.hand[a] == t.hand[b] ==> a == b)
    && (forall n :: 0 <= n < t.next ==> n in t.done || Held(t, n))
  }

  predicate InOrder(t: Tally) {
    forall k :: 0 <= k < |t.done| ==> t.done[k] == k
  }

  function Take(t: Tally, id: Id): Tally
    requires id !in t.hand
  {
    Tally(t.next + 1, t.hand[id := t.next], t.done)
  }

  function Put(t: Tally, id: Id): Tally
    requires id in t.hand
  {
    Tally(t.next, t.hand - {id}, t.done + [t.hand[id]])
  }

  /** Somebody else holds a smaller number. */
  ghost predicate Overtakes(t: Tally, id: Id)
    requires id in t.hand
  {
    exists other :: other in t.hand && t.hand[other] < t.hand[id]
  }

  lemma {:induction false} AccountedTake(t: Tally, id: Id)
    requires Accounted(t) && id !in t.hand
    ensures Accounted(Take(t, id))
  {
    var u := Take(t, id);
    forall n | Held(u, n) ensures n == t.next || Held(t, n) {
      var a :| a in u.hand && u.hand[a] == n;
      assert a == id || a in t.hand;
    }
    forall n | 0 <= n < u.next ensures n in u.done || Held(u, n) {
      if n == t.next {
        assert u.hand[id] == n;
      } else if Held(t, n) {
        var a :| a in t.hand && t.hand[a] == n;
        assert a in u.hand && u.hand[a] == n;
      }
    }
  }

  lemma {:induction false} AccountedPut(t: Tally, id: Id)
    requires Accounted(t) && id in t.hand
    ensures Accounted(Put(t, id))
  {
    var u, m := Put(t, id), t.hand[id];
    assert Held(t, m);
    forall n | Held(u, n) ensures n != m && Held(t, n) {
      var a :| a in u.hand && u.hand[a] == n;
      assert a in t.hand && t.hand[a] == n;
    }
    forall n | 0 <= n < u.next ensures n in u.done || Held(u, n) {
      if n == m {
        assert u.done[|t.done|] == m;
      } else if n in t.done {
        var k :| 0 <= k < |t.done| && t.done[k] == n;
        assert u.done[k] == n;
      } else {
        var a :| a in t.hand && t.hand[a] == n;
        assert a in u.hand && u.hand[a] == n;
      }
    }
  }

  lemma {:induction false} ListedNotHeld(t: Tally, n: int)
    requires Accounted(t) && InOrder(t) && 0 <= n < |t.done|
    ensures !Held(t, n)
  {
    assert t.done[n] == n;
  }

  /** An ordered list is a full prefix; whatever is missing is still held, and nothing else is. */
  lemma {:induction false} HeldIsMissing(t: Tally)
    requires Accounted(t) && InOrder(t)
    ensures |t.done| <= t.next
    ensures forall n :: 0 <= n < t.next ==> (Held(t, n) <==> |t.done| <= n)
  {
    if t.done != [] { assert t.done[|t.done| - 1] == |t.done| - 1; }
    forall n | 0 <= n < |t.done| ensures !Held(t, n) { ListedNotHeld(t, n); }
  }

  /** A number extends an ordered list exactly when nobody holds a smaller one. */
  lemma {:induction false} InOrderPut(t: Tally, id: Id)
    requires Accounted(t) && id in t.hand
    ensures InOrder(Put(t, id)) <==> InOrder(t) && !Overtakes(t, id)
  {
    var u, m, n := Put(t, id), t.hand[id], |t.done|;
    assert u.done[n] == m;
    if InOrder(u) {
      forall k | 0 <= k < n ensures t.done[k] == k { assert u.done[k] == k; }
    }
    if InOrder(t) {
      HeldIsMissing(t);
      assert Held(t, m);
      forall other | other in t.hand ensures n <= t.hand[other] { assert Held(t, t.hand[other]); }
      if m > n {
        assert Held(t, n);
        var other :| other in t.hand && t.hand[other] == n;
        assert Overtakes(t, id);
      }
    }
  }

  lemma {:induction false} TwoMissing(t: Tally)
    requires Accounted(t) && InOrder(t) && |t.done| < t.next - 1
    ensures exists a, b :: a in t.hand && b in t.hand && a != b
  {
    HeldIsMissing(t);
    var n: int := |t.done|;
    assert Held(t, n) && Held(t, n + 1);
    var a :| a in t.hand && t.hand[a] == n;
    var b :| b in t.hand && t.hand[b] == n + 1;
  }

  /** With at most one number held, all but the last are on an ordered list. */
  lemma {:induction false} AllButOne(t: Tally)
    requires Accounted(t) && InOrder(t) && forall a, b :: a in t.hand && b in t.hand ==> a == b
    ensures t.next - 1 <= |t.done| <= t.next
  {
    HeldIsMissing(t);
    if |t.done| < t.next - 1 { TwoMissing(t); }
  }
}

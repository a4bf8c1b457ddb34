/** The keepalive probe of a tunnel's SSH connection: internal/tunnel/keepalive.go:24-52. */
module KeepAlive {

  /** What one pass of the select finds: the stop channel closed, or a tick whose probe was answered or failed. */
  datatype Event = Stopped | Answered | Failed

  const MAX_FAILS: nat := 3

  /** The probe at `i` ends three failures in a row. */
  ghost predicate EndsRun(events: seq<Event>, i: nat) {
    2 <= i < |events| && events[i - 2] == Failed && events[i - 1] == Failed && events[i] == Failed
  }

  /** The connection is declared dead at `i`: the first such probe, if the stop channel was not seen before it. */
  ghost predicate DeadAt(events: seq<Event>, i: nat) {
    && EndsRun(events, i)
    && (forall j: nat :: j < i ==> !EndsRun(events, j))
    && Stopped !in events[..i]
  }

  lemma {:induction false} NotDeadAfterStop(events: seq<Event>, at: nat)
    requires at < |events| && events[at] == Stopped
    requires forall j: nat :: j < at ==> !EndsRun(events, j)
    ensures forall i: nat :: !DeadAt(events, i)
  {
    forall i: nat ensures !DeadAt(events, i) {
      if i > at && i <= |events| { assert events[..i][at] == Stopped; }
    }
  }

  /** Returns the positions at which onDead is called and how many events were consumed. */
  method Monitor(events: seq<Event>) returns (calls: seq<nat>, consumed: nat)
    ensures forall i: nat :: calls == [i] <==> DeadAt(events, i)
    ensures consumed <= |events| && (consumed > 0 ==> Stopped !in events[..consumed - 1])
    ensures |calls| <= 1
    ensures calls != [] ==> consumed == calls[0] + 1
    ensures calls == [] ==> consumed == |events| || (0 < consumed && events[consumed - 1] == Stopped)
  {
    calls, consumed := [], 0;
    var fails: nat := 0;
    while consumed < |events|
      invariant consumed <= |events| && calls == []
      invariant fails < MAX_FAILS && fails <= consumed
      invariant forall j :: consumed - fails <= j < consumed ==> events[j] == Failed
      invariant fails < consumed ==> events[consumed - fails - 1] != Failed
      invariant forall j: nat :: j < consumed ==> !EndsRun(events, j)
      invariant Stopped !in events[..consumed]
    {
      var event := events[consumed];
      consumed := consumed + 1;
      assert events[..consumed] == events[..consumed - 1] + [event];
      match event
      case Stopped =>
        NotDeadAfterStop(events, consumed - 1);
        return;
      case Failed =>
        fails := fails + 1;
        if fails >= MAX_FAILS {
          assert EndsRun(events, consumed - 1);
          calls := [consumed - 1];
          return;
        }
        assert !EndsRun(events, consumed - 1);
      case Answered =>
        fails := 0;
        assert !EndsRun(events, consumed - 1);
    }
  }

  lemma {:induction false} SameRun(events: seq<Event>, more: seq<Event>, i: nat)
    requires i < |events|
    ensures EndsRun(events, i) <==> EndsRun(events + more, i)
  {
  }

  /** The verdict is never withdrawn and does not depend on what comes after it. */
  lemma {:induction false} VerdictStands(events: seq<Event>, more: seq<Event>, i: nat)
    requires i < |events|
    ensures DeadAt(events, i) <==> DeadAt(events + more, i)
  {
    assert (events + more)[..i] == events[..i];
    SameRun(events, more, i);
    forall j: nat | j < i ensures EndsRun(events, j) <==> EndsRun(events + more, j) { SameRun(events, more, j); }
  }
}

/** The recorder's queue and its stop-and-drain protocol: internal/recorder/recorder.go:64-116.

    Writers, the caller of Stop and the write loop interleave freely. Taking a chunk off the channel and writing it to
    the file are two steps. */
module RecorderProtocol {
  import opened Options
  import opened Bytes
  import opened Recorder

  const CAPACITY: nat := 256

  datatype Phase = Looping | Draining | Closed

  datatype State = State(
    maxSize: int,
    trimSize: nat,
    initial: string,
    offers: seq<string>,        // non-empty writes, in call order
    dropped: nat,
    accepted: seq<string>,
    queue: seq<string>,
    inHand: Option<string>,     // taken by the loop, not written yet
    processed: seq<string>,
    file: string,
    stopped: bool,
    acceptedAtStop: nat,
    phase: Phase
  )

  datatype Label = Write(data: string) | Stop | SeeStop | Take | Process | CloseFile

  function Start(initial: string, maxSize: int, trimSize: nat): State {
    State(maxSize, trimSize, initial, [], 0, [], [], None, [], initial, false, 0, Looping)
  }

  /** The loop's select may pick the stop signal or a chunk when both are ready; the drain takes its default branch only
      on an empty queue. */
  predicate Enabled(s: State, l: Label) {
    match l
    case Write(_) => true
    case Stop => true
    case SeeStop => s.phase == Looping && s.stopped && s.inHand.None?
    case Take => s.phase != Closed && s.queue != [] && s.inHand.None?
    case Process => s.inHand.Some?
    case CloseFile => s.phase == Draining && s.queue == [] && s.inHand.None?
  }

  function Next(s: State, l: Label): State
    requires Enabled(s, l)
  {
    match l
    case Write(data) =>
      if data == "" then s
      else if |s.queue| < CAPACITY then
        s.(offers := s.offers + [data], accepted := s.accepted + [data], queue := s.queue + [data])
      else s.(offers := s.offers + [data], dropped := s.dropped + 1)
    case Stop => if s.stopped then s else s.(stopped := true, acceptedAtStop := |s.accepted|)
    case SeeStop => s.(phase := Draining)
    case Take => s.(queue := s.queue[1..], inHand := Some(s.queue[0]))
    case Process =>
      s.(inHand := None, processed := s.processed + [s.inHand.value],
         file := Written(s.file, s.inHand.value, s.maxSize, s.trimSize))
    case CloseFile => s.(phase := Closed)
  }

  function InHand(s: State): seq<string> {
    if s.inHand.Some? then [s.inHand.value] else []
  }

  ghost predicate Inv(s: State) {
    && s.accepted == s.processed + InHand(s) + s.queue
    && |s.queue| <= CAPACITY
    && |s.accepted| + s.dropped == |s.offers| && Subsequence(s.accepted, s.offers)
    && (s.dropped == 0 ==> s.accepted == s.offers)
    && (s.phase != Looping ==> s.stopped)
    && (s.stopped ==> s.acceptedAtStop <= |s.accepted|)
    && (s.phase == Closed ==> s.acceptedAtStop <= |s.processed| && s.inHand.None?)
    && s.file == WrittenAll(s.initial, s.processed, s.maxSize, s.trimSize)
  }

  lemma {:induction false} OfferedMore(accepted: seq<string>, offers: seq<string>, data: string)
    requires Subsequence(accepted, offers)
    ensures Subsequence(accepted, offers + [data]) && Subsequence(accepted + [data], offers + [data])
  {
    SubsequenceRefl([data]);
    assert Subsequence<string>([], [data]);
    SubsequenceConcat(accepted, offers, [data], [data]);
    SubsequenceConcat(accepted, offers, [], [data]);
    assert accepted + [] == accepted;
  }

  lemma {:induction false} WriteStep(s: State, data: string)
    requires Inv(s)
    ensures Inv(Next(s, Write(data)))
  {
    Assoc(s.processed + InHand(s), s.queue, [data]);
    OfferedMore(s.accepted, s.offers, data);
  }

  lemma {:induction false} InvStep(s: State, l: Label)
    requires Enabled(s, l) && Inv(s)
    ensures Inv(Next(s, l))
  {
    match l
    case Write(data) => WriteStep(s, data);
    case Take =>
      assert s.queue == [s.queue[0]] + s.queue[1..];
      Assoc(s.processed, [s.queue[0]], s.queue[1..]);
      assert s.processed + [] == s.processed;
    case Process =>
      var data := s.inHand.value;
      assert (s.processed + [data])[..|s.processed|] == s.processed;
      assert (s.processed + [data]) + [] == s.processed + [data];
    case _ =>
  }

  ghost predicate Run(ss: seq<State>, ls: seq<Label>) {
    && |ss| == |ls| + 1
    && ss[0] == Start(ss[0].initial, ss[0].maxSize, ss[0].trimSize)
    && forall i :: 0 <= i < |ls| ==> Enabled(ss[i], ls[i]) && ss[i + 1] == Next(ss[i], ls[i])
  }

  lemma {:induction false} RunInv(ss: seq<State>, ls: seq<Label>, i: nat)
    requires Run(ss, ls) && i < |ss|
    ensures Inv(ss[i])
    ensures ss[i].initial == ss[0].initial && ss[i].maxSize == ss[0].maxSize && ss[i].trimSize == ss[0].trimSize
  {
    if i == 0 {
      assert [] + [] + [] == ss[0].accepted;
    } else {
      RunInv(ss, ls, i - 1);
      InvStep(ss[i - 1], ls[i - 1]);
    }
  }

  /** In every schedule: chunks are processed in the order they were accepted, the queue never exceeds 256, nothing is
      lost but what was dropped on a full queue, and when the file is closed everything accepted before Stop has been
      written. */
  lemma {:induction false} Protocol(ss: seq<State>, ls: seq<Label>, i: nat)
    requires Run(ss, ls) && i < |ss|
    ensures var s := ss[i];
            && s.processed <= s.accepted && s.accepted == s.processed + InHand(s) + s.queue
            && |s.queue| <= 256
            && |s.accepted| + s.dropped == |s.offers| && Subsequence(s.accepted, s.offers)
            && (s.phase == Closed ==> s.stopped && s.acceptedAtStop <= |s.accepted|
                                      && s.accepted[..s.acceptedAtStop] <= s.processed)
  {
    RunInv(ss, ls, i);
    var s := ss[i];
    Assoc(s.processed, InHand(s), s.queue);
    assert s.processed <= s.accepted;
    if s.phase == Closed {
      assert s.accepted[..s.acceptedAtStop] == s.processed[..s.acceptedAtStop];
    }
  }

  /** A write is lost to a full queue exactly when 256 chunks wait; an empty one leaves no trace. */
  lemma {:induction false} DroppedIffFull(ss: seq<State>, ls: seq<Label>, i: nat)
    requires Run(ss, ls) && i < |ls| && ls[i].Write?
    ensures ss[i + 1].dropped == ss[i].dropped + 1 <==> ls[i].data != "" && |ss[i].queue| == 256
    ensures ss[i + 1].dropped == ss[i].dropped ==>
              ss[i + 1].accepted == ss[i].accepted + if ls[i].data == "" then [] else [ls[i].data]
    ensures ss[i + 1].dropped > ss[i].dropped ==> ss[i + 1].accepted == ss[i].accepted
  {
    RunInv(ss, ls, i);
    assert Enabled(ss[i], ls[i]) && ss[i + 1] == Next(ss[i], ls[i]);
  }

  /** The file in every reachable state: a suffix of what it held at start and all chunks processed, holding at least
      the last maxSize - trimSize bytes of it or all of it. */
  lemma {:induction false} FileContents(ss: seq<State>, ls: seq<Label>, i: nat)
    requires Run(ss, ls) && i < |ss|
    ensures var s := ss[i]; var h := s.initial + Flatten(s.processed);
            IsSuffix(s.file, h) && (|s.file| == |h| || |s.file| >= s.maxSize - s.trimSize)
  {
    RunInv(ss, ls, i);
    FileIsRecentSuffix(ss[i].initial, ss[i].processed, ss[i].maxSize, ss[i].trimSize);
  }

  /** After the drain has closed the file nothing is written any more. */
  lemma {:induction false} ClosedForGood(ss: seq<State>, ls: seq<Label>, i: nat, j: nat)
    requires Run(ss, ls) && i <= j < |ss| && ss[i].phase == Closed
    ensures ss[j].phase == Closed && ss[j].processed == ss[i].processed && ss[j].file == ss[i].file
    ensures ss[i].accepted <= ss[j].accepted
    decreases j
  {
    if i < j {
      ClosedForGood(ss, ls, i, j - 1);
      RunInv(ss, ls, j - 1);
    }
  }

  /** Exactly which accepted chunks are lost, in every run: those accepted after the drain found the queue empty. The
      others were all written by then, and the file never changes again. */
  lemma {:induction false} WrittenIffBeforeClose(ss: seq<State>, ls: seq<Label>, i: nat, j: nat, k: nat)
    requires Run(ss, ls) && i < j < |ss| && ls[i] == CloseFile && k < |ss[j].accepted|
    ensures k < |ss[j].processed| <==> k < |ss[i].accepted|
    ensures ss[j].processed == ss[i].accepted && ss[j].file == ss[i].file
  {
    RunInv(ss, ls, i);
    assert ss[i + 1] == Next(ss[i], ls[i]);
    assert ss[i].processed + [] + [] == ss[i].processed;
    ClosedForGood(ss, ls, i + 1, j);
  }

  function LateSteps(data: string): seq<Label> { [Stop, SeeStop, CloseFile, Write(data)] }

  function Late(data: string): seq<State> {
    var s0 := Start("", 1, 1);
    var s1 := Next(s0, Stop);
    var s2 := Next(s1, SeeStop);
    var s3 := Next(s2, CloseFile);
    [s0, s1, s2, s3, Next(s3, Write(data))]
  }

  /** Such a run: a chunk that slips in after the drain found the queue empty is accepted, and no continuation of the
      run ever writes it. */
  lemma {:induction false} LateWriteIsLost(data: string, more: seq<Label>, ts: seq<State>)
    requires data != ""
    requires |ts| == |more| + 1 && ts[0] == Late(data)[4]
    requires forall i :: 0 <= i < |more| ==> Enabled(ts[i], more[i]) && ts[i + 1] == Next(ts[i], more[i])
    ensures Run(Late(data), LateSteps(data))
    ensures Late(data)[4].accepted == [data] && Late(data)[4].dropped == 0
    ensures ts[|more|].processed == [] && [data] <= ts[|more|].accepted
  {
    var ss, ls := Late(data) + ts[1..], LateSteps(data) + more;
    forall i | 0 <= i < |ls| ensures Enabled(ss[i], ls[i]) && ss[i + 1] == Next(ss[i], ls[i]) {
      if i >= 4 { assert ss[i] == ts[i - 4] && ss[i + 1] == ts[i - 3] && ls[i] == more[i - 4]; }
    }
    ClosedForGood(ss, ls, 4, |ls|);
  }
}

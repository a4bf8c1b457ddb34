/** The three sinks of a session together: ring buffer, subscribers and recorder. */
module Sinks {
  import opened Bytes
  import opened History
  import S = SessionMachine
  import L = SessionLoops
  import H = SessionHistory
  import R = RecorderProtocol
  import opened Recorder

  /** A Close-free session run and a recorder run fed with its chunks. When the recorder has dropped nothing, has caught
      up, and has had no reason to trim, its file is its initial content followed by the bytes of every connection in
      order. Splitting and cleaning those bytes connection by connection and numbering the lines gives the ring's whole
      append history, as soon as the reader is through with its last read; and the subscribers were sent the same
      bytes. */
  lemma {:induction false} SinksAgree(ss: seq<S.State>, ls: seq<S.Label>, i: nat,
                                      rs: seq<R.State>, ks: seq<R.Label>, j: nat)
    requires S.Run(ss, ls) && L.CloseFree(ls) && i < |ss|
    requires R.Run(rs, ks) && j < |rs|
    requires rs[j].offers == ss[i].recorded && rs[j].dropped == 0
    requires rs[j].queue == [] && rs[j].inHand.None?
    requires |rs[j].initial| + |Flatten(ss[i].recorded)| < rs[j].maxSize
    ensures rs[j].file == rs[j].initial + Flatten(ss[i].streams)
    ensures H.AllStored(ss[i]) ==> ss[i].appended == Numbered(SessionLines(ss[i].streams))
    ensures Flatten(ss[i].broadcasts) == Flatten(ss[i].streams)
  {
    H.CloseFreeHistory(ss, ls, i);
    R.RunInv(rs, ks, j);
    assert rs[j].processed + [] + [] == rs[j].processed;
    NothingTrimmed(rs[j].initial, rs[j].processed, rs[j].maxSize, rs[j].trimSize);
  }
}

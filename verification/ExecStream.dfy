/** The server-sent event stream of GET /exec: internal/http/exec.go:87-154. */
module ExecStream {
  import opened Bytes
  import opened Lines
  import opened CleanLine

  /** Which timer ended the stream. */
  datatype Reason = Timeout | Silence

  function Payload(reason: Reason): string {
    match reason
    case Timeout => "{\"reason\":\"timeout\"}"
    case Silence => "{\"reason\":\"silence\"}"
  }

  const DATA: string := "data: "

  function TrimAll(raws: seq<string>): (lines: seq<string>)
    ensures |lines| == |raws|
  {
    if raws == [] then [] else [TrimRightCR(raws[0])] + TrimAll(raws[1..])
  }

  function DataLines(values: seq<string>): seq<string> {
    if values == [] then [] else [DATA + values[0]] + DataLines(values[1..])
  }

  /** The complete lines the last message brought, CR-trimmed. */
  function Fresh(msgs: seq<string>): seq<string>
    requires msgs != []
  {
    var n := |msgs| - 1;
    TrimAll(Complete(Leftover(Flatten(msgs[..n])) + msgs[n]))
  }

  /** The lines of the body after some messages: per message one data line each and a blank line. */
  function BodyLines(msgs: seq<string>): seq<string> {
    if msgs == [] then []
    else BodyLines(msgs[..|msgs| - 1]) + (DataLines(Fresh(msgs)) + [""])
  }

  function Rest(msgs: seq<string>): seq<string> {
    var rest := Leftover(Flatten(msgs));
    if rest == "" then [] else [rest]
  }

  /** The lines a timer adds: the unfinished line if any, then the done event. */
  function FinalLines(msgs: seq<string>, reason: Reason): seq<string> {
    DataLines(Rest(msgs)) + ["event: done", DATA + Payload(reason), ""]
  }

  class Stream {
    var lineBuf: string
    var body: string
    ghost var msgs: seq<string>

    ghost predicate Valid()
      reads this
    {
      body == Unlines(BodyLines(msgs)) && lineBuf == Leftover(Flatten(msgs))
    }

    constructor ()
      ensures Valid() && msgs == []
    {
      lineBuf, body, msgs := "", "", [];
    }

    /** One message from the subscription. */
    method OnMessage(msg: string)
      requires Valid()
      modifies this
      ensures Valid() && msgs == old(msgs) + [msg]
    {
      ghost var before, whole, sent := body, lineBuf + msg, [];
      lineBuf := lineBuf + msg;
      assert before + "" == before && [] + TrimAll(Complete(whole)) == TrimAll(Complete(whole));
      while true
        invariant SameFrames(sent, lineBuf, whole) && msgs == old(msgs)
        invariant body == before + Unlines(DataLines(sent))
        decreases |lineBuf|
      {
        var idx := IndexByte(lineBuf, LF);
        if idx < 0 {
          break;
        }
        var line := lineBuf[..idx];
        NextFrame(sent, lineBuf, idx, whole);
        lineBuf := lineBuf[idx + 1..];
        line := TrimRightCR(line);
        DataLinesSnoc(sent, line);
        Assoc(before, Unlines(DataLines(sent)), DATA + line + [LF]);
        body := body + (DATA + line + [LF]);
        sent := sent + [line];
      }
      body := body + [LF];
      msgs := msgs + [msg];
      FrameAdded(old(msgs), msg, before, sent);
    }

    /** Either timer: the partial line is flushed and the stream ends with the done event. */
    method OnTimer(reason: Reason)
      requires Valid()
      modifies this
      ensures body == Unlines(BodyLines(msgs) + FinalLines(msgs, reason)) && msgs == old(msgs)
    {
      ghost var before, rest := body, lineBuf;
      if |lineBuf| > 0 {
        body := body + (DATA + lineBuf + [LF]);
        lineBuf := "";
      }
      body := body + ("event: done" + [LF] + (DATA + Payload(reason) + [LF]) + [LF]);
      FinalAdded(msgs, reason, before, rest);
    }
  }

  /** With `sent` already written and `buf` still to split, the message's frames are those of `whole`. */
  ghost predicate SameFrames(sent: seq<string>, buf: string, whole: string) {
    sent + TrimAll(Complete(buf)) == TrimAll(Complete(whole)) && Leftover(buf) == Leftover(whole)
  }

  lemma {:induction false} NextFrame(sent: seq<string>, buf: string, idx: nat, whole: string)
    requires SameFrames(sent, buf, whole) && idx == IndexByte(buf, LF)
    ensures SameFrames(sent + [TrimRightCR(buf[..idx])], buf[idx + 1..], whole)
  {
    Assoc(sent, [TrimRightCR(buf[..idx])], TrimAll(Complete(buf[idx + 1..])));
  }

  lemma {:induction false} DataLinesConcat(a: seq<string>, b: seq<string>)
    ensures DataLines(a + b) == DataLines(a) + DataLines(b)
  {
    if a == [] {
      assert a + b == b;
    } else {
      assert (a + b)[1..] == a[1..] + b;
      DataLinesConcat(a[1..], b);
    }
  }

  lemma {:induction false} UnlinesOne(line: string)
    ensures Unlines([line]) == line + [LF]
  {
    assert Unlines([line]) == line + [LF] + Unlines([]);
  }

  lemma {:induction false} DataLinesSnoc(values: seq<string>, value: string)
    ensures Unlines(DataLines(values + [value])) == Unlines(DataLines(values)) + (DATA + value + [LF])
  {
    DataLinesConcat(values, [value]);
    assert DataLines([value]) == [DATA + value];
    UnlinesConcat(DataLines(values), [DATA + value]);
    UnlinesOne(DATA + value);
  }

  lemma {:induction false} FrameAdded(msgs: seq<string>, msg: string, before: string, sent: seq<string>)
    requires before == Unlines(BodyLines(msgs))
    requires sent == TrimAll(Complete(Leftover(Flatten(msgs)) + msg))
    ensures before + Unlines(DataLines(sent)) + [LF] == Unlines(BodyLines(msgs + [msg]))
    ensures Leftover(Leftover(Flatten(msgs)) + msg) == Leftover(Flatten(msgs + [msg]))
  {
    assert (msgs + [msg])[..|msgs|] == msgs;
    UnlinesConcat(DataLines(sent), [""]);
    UnlinesOne("");
    UnlinesConcat(BodyLines(msgs), DataLines(sent) + [""]);
    assert "" + [LF] == [LF];
    Assoc(before, Unlines(DataLines(sent)), [LF]);
    FlattenSnoc(msgs, msg);
    Resume(Flatten(msgs), msg);
  }

  lemma {:induction false} FinalAdded(msgs: seq<string>, reason: Reason, before: string, rest: string)
    requires before == Unlines(BodyLines(msgs)) && rest == Leftover(Flatten(msgs))
    ensures (if |rest| > 0 then before + (DATA + rest + [LF]) else before)
            + ("event: done" + [LF] + (DATA + Payload(reason) + [LF]) + [LF])
            == Unlines(BodyLines(msgs) + FinalLines(msgs, reason))
  {
    var tail := ["event: done", DATA + Payload(reason), ""];
    var text := "event: done" + [LF] + (DATA + Payload(reason) + [LF]) + [LF];
    assert Unlines(tail) == text by {
      assert tail == ["event: done"] + ([DATA + Payload(reason)] + [""]);
      UnlinesOne("");
      UnlinesCons(DATA + Payload(reason), [""]);
      UnlinesCons("event: done", [DATA + Payload(reason)] + [""]);
      assert "" + [LF] == [LF];
      Assoc("event: done" + [LF], DATA + Payload(reason) + [LF], [LF]);
    }
    UnlinesConcat(DataLines(Rest(msgs)), tail);
    UnlinesConcat(BodyLines(msgs), FinalLines(msgs, reason));
    if rest == "" {
      assert "" + text == text;
    } else {
      assert DataLines(Rest(msgs)) == [DATA + rest];
      UnlinesOne(DATA + rest);
      Assoc(before, DATA + rest + [LF], text);
    }
  }

  function DataIn(line: string): seq<string> { if DATA <= line then [line[|DATA|..]] else [] }

  function EventIn(line: string): seq<string> { if "event: " <= line then [line] else [] }

  /** The client: split at LF and keep what follows "data: ". */
  function DataOf(lines: seq<string>): seq<string> {
    if lines == [] then [] else DataIn(lines[0]) + DataOf(lines[1..])
  }

  /** The lines naming an event. */
  function EventsOf(lines: seq<string>): seq<string> {
    if lines == [] then [] else EventIn(lines[0]) + EventsOf(lines[1..])
  }

  lemma {:induction false} DataOfConcat(a: seq<string>, b: seq<string>)
    ensures DataOf(a + b) == DataOf(a) + DataOf(b)
    ensures EventsOf(a + b) == EventsOf(a) + EventsOf(b)
  {
    if a == [] {
      assert a + b == b;
    } else {
      assert (a + b)[1..] == a[1..] + b;
      DataOfConcat(a[1..], b);
      Assoc(DataIn(a[0]), DataOf(a[1..]), DataOf(b));
      Assoc(EventIn(a[0]), EventsOf(a[1..]), EventsOf(b));
    }
  }

  lemma {:induction false} DataOfDataLines(values: seq<string>)
    ensures DataOf(DataLines(values)) == values
    ensures EventsOf(DataLines(values)) == []
  {
    if values != [] {
      var line := DATA + values[0];
      assert DATA <= line && line[|DATA|..] == values[0];
      assert line[0] == 'd' && !("event: " <= line);
      assert DataLines(values)[1..] == DataLines(values[1..]);
      DataOfDataLines(values[1..]);
      assert values == [values[0]] + values[1..];
    }
  }

  lemma {:induction false} TrimAllConcat(a: seq<string>, b: seq<string>)
    ensures TrimAll(a + b) == TrimAll(a) + TrimAll(b)
  {
    if a == [] {
      assert a + b == b;
    } else {
      assert (a + b)[1..] == a[1..] + b;
      TrimAllConcat(a[1..], b);
    }
  }

  lemma {:induction false} FrameData(values: seq<string>)
    ensures DataOf(DataLines(values) + [""]) == values && EventsOf(DataLines(values) + [""]) == []
  {
    DataOfDataLines(values);
    DataOfConcat(DataLines(values), [""]);
    assert values + [] == values;
  }

  lemma {:induction false} LinesSoFar(msgs: seq<string>)
    requires msgs != []
    ensures TrimAll(Complete(Flatten(msgs))) == TrimAll(Complete(Flatten(msgs[..|msgs| - 1]))) + Fresh(msgs)
  {
    var init, msg := msgs[..|msgs| - 1], msgs[|msgs| - 1];
    assert msgs == init + [msg];
    FlattenSnoc(init, msg);
    Resume(Flatten(init), msg);
    TrimAllConcat(Complete(Flatten(init)), Complete(Leftover(Flatten(init)) + msg));
  }

  lemma {:induction false} BodyData(msgs: seq<string>)
    ensures DataOf(BodyLines(msgs)) == TrimAll(Complete(Flatten(msgs)))
    ensures EventsOf(BodyLines(msgs)) == []
  {
    if msgs != [] {
      var init := msgs[..|msgs| - 1];
      BodyData(init);
      FrameData(Fresh(msgs));
      DataOfConcat(BodyLines(init), DataLines(Fresh(msgs)) + [""]);
      LinesSoFar(msgs);
    }
  }

  ghost predicate NoLF(lines: seq<string>) {
    forall k :: 0 <= k < |lines| ==> LF !in lines[k]
  }

  lemma {:induction false} TrimmedNoLF(raws: seq<string>)
    requires NoLF(raws)
    ensures NoLF(DataLines(TrimAll(raws)))
  {
    if raws != [] {
      assert NoLF(raws[1..]);
      TrimmedNoLF(raws[1..]);
      assert TrimAll(raws)[1..] == TrimAll(raws[1..]);
      var t := TrimRightCR(raws[0]);
      assert forall k :: 0 <= k < |t| ==> t[k] == raws[0][k];
    }
  }

  lemma {:induction false} BodyNoLF(msgs: seq<string>)
    ensures NoLF(BodyLines(msgs))
  {
    if msgs != [] {
      var n := |msgs| - 1;
      BodyNoLF(msgs[..n]);
      CompleteHasNoLF(Leftover(Flatten(msgs[..n])) + msgs[n]);
      TrimmedNoLF(Complete(Leftover(Flatten(msgs[..n])) + msgs[n]));
    }
  }

  lemma {:induction false} FinalNoLF(msgs: seq<string>, reason: Reason)
    ensures NoLF(FinalLines(msgs, reason))
  {
    CompleteHasNoLF(Flatten(msgs));
    var rest := Leftover(Flatten(msgs));
    assert LF !in DATA + rest;
    assert DataLines([rest]) == [DATA + rest];
    assert NoLF(DataLines(Rest(msgs)));
    assert LF !in "event: done";
    assert LF !in DATA + Payload(reason);
    assert NoLF(["event: done", DATA + Payload(reason), ""]);
  }

  /** The finished body, as OnTimer leaves it. */
  function Finished(msgs: seq<string>, reason: Reason): string {
    Unlines(BodyLines(msgs) + FinalLines(msgs, reason))
  }

  lemma {:induction false} BodyReadsBack(msgs: seq<string>, reason: Reason)
    ensures Complete(Finished(msgs, reason)) == BodyLines(msgs) + FinalLines(msgs, reason)
  {
    BodyNoLF(msgs);
    FinalNoLF(msgs, reason);
    var lines := BodyLines(msgs) + FinalLines(msgs, reason);
    ReadBack(lines, "");
    assert Unlines(lines) + "" == Unlines(lines);
  }

  lemma {:induction false} FinalData(msgs: seq<string>, reason: Reason)
    ensures DataOf(FinalLines(msgs, reason)) == Rest(msgs) + [Payload(reason)]
    ensures EventsOf(FinalLines(msgs, reason)) == ["event: done"]
  {
    DataOfDataLines(Rest(msgs));
    TailData(reason);
    DataOfConcat(DataLines(Rest(msgs)), ["event: done", DATA + Payload(reason), ""]);
  }

  /** The body decodes, for any messages and either timer: the data lines are the CR-trimmed complete lines of the
      concatenated input, then the leftover if there is one, then the done payload; there is exactly one event line. */
  lemma {:induction false} Decodes(msgs: seq<string>, reason: Reason)
    ensures var lines := Complete(Finished(msgs, reason));
            && DataOf(lines) == TrimAll(Complete(Flatten(msgs))) + Rest(msgs) + [Payload(reason)]
            && EventsOf(lines) == ["event: done"]
  {
    BodyReadsBack(msgs, reason);
    BodyData(msgs);
    FinalData(msgs, reason);
    DataOfConcat(BodyLines(msgs), FinalLines(msgs, reason));
    Assoc(TrimAll(Complete(Flatten(msgs))), Rest(msgs), [Payload(reason)]);
  }

  /** The done event as it is sent. */
  function DoneEvent(reason: Reason): seq<string> {
    var why := if reason.Timeout? then "{\"reason\":\"timeout\"}" else "{\"reason\":\"silence\"}";
    ["event: done", "data: " + why, ""]
  }

  /** That event line opens the last event of the stream. */
  lemma {:induction false} EndsDone(msgs: seq<string>, reason: Reason)
    ensures var lines := Complete(Finished(msgs, reason));
            |lines| >= 3 && lines[|lines| - 3..] == DoneEvent(reason)
  {
    BodyReadsBack(msgs, reason);
  }

  lemma {:induction false} DoneLine()
    ensures DataOf(["event: done"]) == [] && EventsOf(["event: done"]) == ["event: done"]
  {
    var line := "event: done";
    assert line[0] != DATA[0] && !(DATA <= line);
  }

  lemma {:induction false} TailData(reason: Reason)
    ensures DataOf(["event: done", DATA + Payload(reason), ""]) == [Payload(reason)]
    ensures EventsOf(["event: done", DATA + Payload(reason), ""]) == ["event: done"]
  {
    var line := DATA + Payload(reason);
    assert ["event: done", line, ""] == ["event: done"] + ([line] + [""]);
    DataOfConcat([line], [""]);
    DataOfConcat(["event: done"], [line] + [""]);
    DataOfDataLines([Payload(reason)]);
    assert DataLines([Payload(reason)]) == [line];
    DoneLine();
  }

  /** What the client reads does not depend on how the bytes were cut into messages. */
  lemma {:induction false} ChunkingInvisible(a: seq<string>, b: seq<string>, reason: Reason)
    requires Flatten(a) == Flatten(b)
    ensures DataOf(Complete(Finished(a, reason))) == DataOf(Complete(Finished(b, reason)))
  {
    Decodes(a, reason);
    Decodes(b, reason);
  }
}

/** The exec stream as an EventSource client dispatches it: section 9.2.6 of the WHATWG HTML standard. Such a client ends
    a line at LF, at CR and at CR LF, while the gateway only ever splits at LF. */
module EventSource {
  import opened Bytes
  import opened Lines
  import opened CleanLine
  import opened ExecStream

  datatype Event = Event(kind: string, data: string)

  /** The first position of CR or LF, or -1. */
  function EndAt(s: string): (i: int)
    ensures -1 <= i < |s|
    ensures i >= 0 ==> s[i] == CR || s[i] == LF
  {
    if s == "" then -1
    else if s[0] == CR || s[0] == LF then 0
    else
      var j := EndAt(s[1..]);
      if j < 0 then -1 else j + 1
  }

  /** What follows the line end at `i`. */
  function After(s: string, i: nat): string
    requires i < |s|
  {
    if s[i] == CR && i + 1 < |s| && s[i + 1] == LF then s[i + 2..] else s[i + 1..]
  }

  /** The ended lines of a stream, without their line ends. */
  function EolLines(s: string): seq<string>
    decreases |s|
  {
    var i := EndAt(s);
    if i < 0 then [] else [s[..i]] + EolLines(After(s, i))
  }

  lemma {:induction false} FirstEnd(line: string, c: char, rest: string)
    requires CR !in line && LF !in line && (c == CR || c == LF)
    ensures EndAt(line + [c] + rest) == |line| && EndAt(line) == -1
  {
    if line != "" {
      assert (line + [c] + rest)[1..] == line[1..] + [c] + rest;
      FirstEnd(line[1..], c, rest);
    }
  }

  /** The three line ends of the standard; text without one is no line yet. */
  lemma {:induction false} LineEnds(line: string, rest: string)
    requires CR !in line && LF !in line
    ensures EolLines(line) == []
    ensures EolLines(line + [LF] + rest) == [line] + EolLines(rest)
    ensures EolLines(line + [CR] + ([LF] + rest)) == [line] + EolLines(rest)
    ensures rest == "" || rest[0] != LF ==> EolLines(line + [CR] + rest) == [line] + EolLines(rest)
  {
    FirstEnd(line, LF, rest);
    FirstEnd(line, CR, rest);
    FirstEnd(line, CR, [LF] + rest);
    var n := |line|;
    var lf, cr, crlf := line + [LF] + rest, line + [CR] + rest, line + [CR] + ([LF] + rest);
    assert lf[..n] == line && lf[n + 1..] == rest;
    assert cr[..n] == line && cr[n + 1..] == rest;
    assert crlf[..n] == line && crlf[n + 2..] == rest;
  }

  function FieldName(line: string): string {
    var i := IndexByte(line, ':');
    if i < 0 then line else line[..i]
  }

  /** The value after the colon, less one leading space. */
  function FieldValue(line: string): string {
    var i := IndexByte(line, ':');
    if i < 0 then ""
    else if i + 1 < |line| && line[i + 1] == ' ' then line[i + 2..]
    else line[i + 1..]
  }

  /** A field is named up to its first colon, and one space after the colon is no part of the value. */
  lemma {:induction false} FieldsAre(name: string, value: string)
    requires ':' !in name
    ensures FieldName(name) == name && FieldValue(name) == ""
    ensures FieldName(name + [':'] + (" " + value)) == name && FieldValue(name + [':'] + (" " + value)) == value
    ensures value == "" || value[0] != ' ' ==>
              FieldName(name + [':'] + value) == name && FieldValue(name + [':'] + value) == value
  {
    IndexByteFinds(name, ':');
    IndexByteOf(name, ':', " " + value);
    IndexByteOf(name, ':', value);
    var n := |name|;
    var spaced, plain := name + [':'] + (" " + value), name + [':'] + value;
    assert spaced[..n] == name && spaced[n + 2..] == value;
    assert plain[..n] == name && plain[n + 1..] == value;
    if value != "" { assert plain[n + 1] == value[0]; }
  }

  /** A blank line dispatches the buffered data, unless there is none; an unfinished event is discarded. */
  function Dispatch(lines: seq<string>, data: seq<string>, kind: string): seq<Event> {
    if lines == [] then []
    else if lines[0] == "" then
      (if data == [] then [] else [Event(if kind == "" then "message" else kind, JoinLF(data))])
      + Dispatch(lines[1..], [], "")
    else if FieldName(lines[0]) == "data" then Dispatch(lines[1..], data + [FieldValue(lines[0])], kind)
    else if FieldName(lines[0]) == "event" then Dispatch(lines[1..], data, FieldValue(lines[0]))
    else Dispatch(lines[1..], data, kind)
  }

  lemma {:induction false} DataField(value: string)
    ensures DATA + value != "" && FieldName(DATA + value) == "data" && FieldValue(DATA + value) == value
  {
    var line := DATA + value;
    assert ':' !in "data";
    assert line == "data" + [':'] + (" " + value);
    IndexByteOf("data", ':', " " + value);
    assert line[..4] == "data" && line[6..] == value;
  }

  lemma {:induction false} DoneField()
    ensures FieldName("event: done") == "event" && FieldValue("event: done") == "done"
  {
    assert ':' !in "event";
    assert "event: done" == "event" + [':'] + " done";
    IndexByteOf("event", ':', " done");
    assert "event: done"[..5] == "event" && "event: done"[7..] == "done";
  }

  lemma {:induction false} DispatchOne(value: string, rest: seq<string>, data: seq<string>, kind: string)
    ensures Dispatch([DATA + value] + rest, data, kind) == Dispatch(rest, data + [value], kind)
  {
    DataField(value);
    assert ([DATA + value] + rest)[1..] == rest;
  }

  /** Data lines only fill the buffer. */
  lemma {:induction false} DispatchData(values: seq<string>, rest: seq<string>, data: seq<string>, kind: string)
    ensures Dispatch(DataLines(values) + rest, data, kind) == Dispatch(rest, data + values, kind)
  {
    if values == [] {
      assert DataLines(values) + rest == rest && data + values == data;
    } else {
      assert DataLines(values) + rest == [DATA + values[0]] + (DataLines(values[1..]) + rest);
      DispatchOne(values[0], DataLines(values[1..]) + rest, data, kind);
      DispatchData(values[1..], rest, data + [values[0]], kind);
      assert (data + [values[0]]) + values[1..] == data + values;
    }
  }

  /** One event for each message that completed a line. */
  function MessageEvents(msgs: seq<string>): seq<Event> {
    if msgs == [] then []
    else
      MessageEvents(msgs[..|msgs| - 1])
      + (if Fresh(msgs) == [] then [] else [Event("message", JoinLF(Fresh(msgs)))])
  }

  lemma {:induction false} DispatchBody(msgs: seq<string>, rest: seq<string>)
    ensures Dispatch(BodyLines(msgs) + rest, [], "") == MessageEvents(msgs) + Dispatch(rest, [], "")
    decreases |msgs|
  {
    if msgs == [] {
      assert BodyLines(msgs) + rest == rest;
      assert [] + Dispatch(rest, [], "") == Dispatch(rest, [], "");
    } else {
      var init, own := msgs[..|msgs| - 1], Fresh(msgs);
      Assoc(BodyLines(init), DataLines(own) + [""], rest);
      Assoc(DataLines(own), [""], rest);
      DispatchBody(init, DataLines(own) + [""] + rest);
      DispatchData(own, [""] + rest, [], "");
      assert [] + own == own;
      Assoc(MessageEvents(init), if own == [] then [] else [Event("message", JoinLF(own))],
            Dispatch(rest, [], ""));
    }
  }

  lemma {:induction false} DispatchDone(data: seq<string>, kind: string, reason: Reason)
    ensures Dispatch(["event: done", DATA + Payload(reason), ""], data, kind)
            == [Event("done", JoinLF(data + [Payload(reason)]))]
  {
    var payload := DATA + Payload(reason);
    DoneField();
    assert ["event: done", payload, ""][1..] == [payload] + ([""] + []);
    DispatchOne(Payload(reason), [""] + [], data, "done");
  }

  lemma {:induction false} DispatchFinal(msgs: seq<string>, reason: Reason)
    ensures Dispatch(FinalLines(msgs, reason), [], "") == [Event("done", JoinLF(Rest(msgs) + [Payload(reason)]))]
  {
    DispatchData(Rest(msgs), ["event: done", DATA + Payload(reason), ""], [], "");
    assert [] + Rest(msgs) == Rest(msgs);
    DispatchDone(Rest(msgs), "", reason);
  }

  ghost predicate CrFree(lines: seq<string>) {
    forall k :: 0 <= k < |lines| ==> CR !in lines[k]
  }

  lemma {:induction false} EndAtIsFirst(s: string)
    ensures var i := EndAt(s); i >= 0 ==> CR !in s[..i]
    ensures CR !in s ==> EndAt(s) == IndexByte(s, LF)
  {
    if s != "" {
      EndAtIsFirst(s[1..]);
      assert s == [s[0]] + s[1..];
      var j := EndAt(s[1..]);
      if j >= 0 { assert s[..j + 1] == [s[0]] + s[1..][..j]; }
    }
  }

  lemma {:induction false} EolLinesCrFree(s: string)
    ensures CrFree(EolLines(s))
    decreases |s|
  {
    EndAtIsFirst(s);
    var i := EndAt(s);
    if i >= 0 { EolLinesCrFree(After(s, i)); }
  }

  /** Without CR both kinds of splitting agree. */
  lemma {:induction false} EolLinesAreComplete(s: string)
    requires CR !in s
    ensures EolLines(s) == Complete(s)
    decreases |s|
  {
    EndAtIsFirst(s);
    var i := EndAt(s);
    if i >= 0 {
      assert s[i] in s && After(s, i) == s[i + 1..];
      assert s == s[..i + 1] + s[i + 1..];
      EolLinesAreComplete(s[i + 1..]);
    }
  }

  ghost predicate EndsLine(s: string) { s == "" || s[|s| - 1] == LF }

  lemma {:induction false} EndAtConcat(a: string, b: string)
    requires a != "" && EndsLine(a)
    ensures 0 <= EndAt(a) && EndAt(a + b) == EndAt(a)
  {
    assert (a + b)[0] == a[0];
    if a[0] != CR && a[0] != LF {
      assert (a + b)[1..] == a[1..] + b;
      EndAtConcat(a[1..], b);
    }
  }

  lemma {:induction false} EolLinesConcat(a: string, b: string)
    requires EndsLine(a)
    ensures EolLines(a + b) == EolLines(a) + EolLines(b)
    decreases |a|
  {
    if a == "" {
      assert a + b == b && [] + EolLines(b) == EolLines(b);
    } else {
      EndAtConcat(a, b);
      var i := EndAt(a);
      assert (a + b)[..i] == a[..i] && After(a + b, i) == After(a, i) + b;
      EolLinesConcat(After(a, i), b);
      Assoc([a[..i]], EolLines(After(a, i)), EolLines(b));
    }
  }

  /** The data buffered when the lines have been read. */
  function Pending(lines: seq<string>, data: seq<string>): seq<string> {
    if lines == [] then data
    else if lines[0] == "" then Pending(lines[1..], [])
    else if FieldName(lines[0]) == "data" then Pending(lines[1..], data + [FieldValue(lines[0])])
    else Pending(lines[1..], data)
  }

  lemma {:induction false} DispatchSplit(a: seq<string>, b: seq<string>, data: seq<string>, kind: string)
    returns (before: seq<Event>, last: string)
    ensures Dispatch(a + b, data, kind) == before + Dispatch(b, Pending(a, data), last)
  {
    if a == [] {
      assert a + b == b;
      before, last := [], kind;
    } else {
      assert (a + b)[1..] == a[1..] + b;
      if a[0] == "" {
        var more, k := DispatchSplit(a[1..], b, [], "");
        var own := if data == [] then [] else [Event(if kind == "" then "message" else kind, JoinLF(data))];
        before, last := own + more, k;
        Assoc(own, more, Dispatch(b, Pending(a, data), last));
      } else if FieldName(a[0]) == "data" {
        before, last := DispatchSplit(a[1..], b, data + [FieldValue(a[0])], kind);
      } else if FieldName(a[0]) == "event" {
        before, last := DispatchSplit(a[1..], b, data, FieldValue(a[0]));
      } else {
        before, last := DispatchSplit(a[1..], b, data, kind);
      }
    }
  }

  lemma {:induction false} PendingConcat(a: seq<string>, b: seq<string>, data: seq<string>)
    ensures Pending(a + b, data) == Pending(b, Pending(a, data))
  {
    if a == [] {
      assert a + b == b;
    } else {
      assert (a + b)[1..] == a[1..] + b;
      PendingConcat(a[1..], b, []);
      PendingConcat(a[1..], b, data + [FieldValue(a[0])]);
      PendingConcat(a[1..], b, data);
    }
  }

  lemma {:induction false} UnlinesEnds(lines: seq<string>)
    ensures EndsLine(Unlines(lines))
  {
    if lines != [] { UnlinesEnds(lines[1..]); }
  }

  /** Each message leaves the client with an empty buffer, because it ends with a blank line. */
  lemma {:induction false} BodyLeavesNothing(msgs: seq<string>)
    ensures Pending(EolLines(Unlines(BodyLines(msgs))), []) == []
  {
    if msgs != [] {
      var lines := BodyLines(msgs[..|msgs| - 1]) + DataLines(Fresh(msgs));
      assert BodyLines(msgs) == lines + [""];
      UnlinesConcat(lines, [""]);
      UnlinesEnds(lines);
      EolLinesConcat(Unlines(lines), Unlines([""]));
      UnlinesOne("");
      assert EolLines([LF]) == [""];
      assert Unlines([""]) == [LF];
      PendingConcat(EolLines(Unlines(lines)), [""], []);
    }
  }

  /** The flushed partial line as it is written, and the data a client takes from it. */
  function RestText(msgs: seq<string>): string { Unlines(DataLines(Rest(msgs))) }

  function RestData(msgs: seq<string>): seq<string> { Pending(EolLines(RestText(msgs)), []) }

  lemma {:induction false} FinalText(reason: Reason)
    ensures var tail := ["event: done", DATA + Payload(reason), ""];
            EolLines(Unlines(tail)) == tail
  {
    var tail := ["event: done", DATA + Payload(reason), ""];
    assert CR !in "event: done" && CR !in DATA + Payload(reason);
    assert LF !in "event: done" && LF !in DATA + Payload(reason);
    UnlinesNoCr(tail);
    EolLinesAreComplete(Unlines(tail));
    ReadBack(tail, "");
    assert Unlines(tail) + "" == Unlines(tail);
  }

  lemma {:induction false} UnlinesNoCr(lines: seq<string>)
    requires CrFree(lines)
    ensures CR !in Unlines(lines)
  {
    if lines != [] { UnlinesNoCr(lines[1..]); }
  }

  lemma {:induction false} FinishedLines(msgs: seq<string>, reason: Reason)
    ensures EolLines(Finished(msgs, reason))
            == EolLines(Unlines(BodyLines(msgs))) + EolLines(RestText(msgs)) + ["event: done", DATA + Payload(reason), ""]
  {
    var tail := ["event: done", DATA + Payload(reason), ""];
    UnlinesConcat(DataLines(Rest(msgs)), tail);
    UnlinesConcat(BodyLines(msgs), FinalLines(msgs, reason));
    UnlinesEnds(BodyLines(msgs));
    UnlinesEnds(DataLines(Rest(msgs)));
    EolLinesConcat(RestText(msgs), Unlines(tail));
    EolLinesConcat(Unlines(BodyLines(msgs)), RestText(msgs) + Unlines(tail));
    FinalText(reason);
    Assoc(EolLines(Unlines(BodyLines(msgs))), EolLines(RestText(msgs)), tail);
  }

  /** For every input, whatever it holds, the last event a client gets is the done event: the payload after the data of
      the flushed partial line. */
  lemma {:induction false} LastEventIsDone(msgs: seq<string>, reason: Reason) returns (before: seq<Event>)
    ensures Dispatch(EolLines(Finished(msgs, reason)), [], "")
            == before + [Event("done", JoinLF(RestData(msgs) + [Payload(reason)]))]
  {
    var first := EolLines(Unlines(BodyLines(msgs))) + EolLines(RestText(msgs));
    FinishedLines(msgs, reason);
    BodyLeavesNothing(msgs);
    PendingConcat(EolLines(Unlines(BodyLines(msgs))), EolLines(RestText(msgs)), []);
    var kind;
    before, kind := DispatchSplit(first, ["event: done", DATA + Payload(reason), ""], [], "");
    DispatchDone(RestData(msgs), kind, reason);
  }

  lemma {:induction false} JoinLonger(data: seq<string>, last: string)
    ensures |JoinLF(data + [last])| >= |last| + (if data == [] then 0 else 1)
  {
    if data != [] {
      assert (data + [last])[1..] == data[1..] + [last];
      JoinLonger(data[1..], last);
    }
  }

  lemma {:induction false} EolLinesOne(line: string)
    requires CR !in line && LF !in line
    ensures EolLines(Unlines([line])) == [line]
  {
    UnlinesNoCr([line]);
    EolLinesAreComplete(Unlines([line]));
    ReadBack([line], "");
    assert Unlines([line]) + "" == Unlines([line]);
  }

  lemma {:induction false} PendingOne(value: string)
    ensures Pending([DATA + value], []) == [value]
  {
    DataField(value);
    assert [DATA + value][1..] == [] && [] + [value] == [value];
  }

  lemma {:induction false} RestDataIs(msgs: seq<string>)
    requires CR !in Leftover(Flatten(msgs))
    ensures RestData(msgs) == Rest(msgs)
  {
    var rest := Leftover(Flatten(msgs));
    if rest != "" {
      CompleteHasNoLF(Flatten(msgs));
      assert CR !in DATA && LF !in DATA;
      EolLinesOne(DATA + rest);
      PendingOne(rest);
      assert DataLines(Rest(msgs)) == [DATA + rest];
    }
  }

  /** The done event carries the bare payload exactly when nothing of the flushed line is left in the client's buffer; for
      a partial line without CR, exactly when the input ended with a complete line. */
  lemma {:induction false} DonePayloadIff(msgs: seq<string>, reason: Reason)
    ensures JoinLF(RestData(msgs) + [Payload(reason)]) == Payload(reason) <==> RestData(msgs) == []
    ensures CR !in Leftover(Flatten(msgs)) ==> (RestData(msgs) == [] <==> Leftover(Flatten(msgs)) == "")
  {
    JoinLonger(RestData(msgs), Payload(reason));
    if RestData(msgs) == [] { assert RestData(msgs) + [Payload(reason)] == [Payload(reason)]; }
    if CR !in Leftover(Flatten(msgs)) { RestDataIs(msgs); }
  }

  ghost predicate EventsCrFree(es: seq<Event>) {
    forall k :: 0 <= k < |es| ==> CR !in es[k].data
  }

  lemma {:induction false} JoinCr(lines: seq<string>)
    ensures CR !in JoinLF(lines) <==> CrFree(lines)
  {
    if |lines| > 1 {
      JoinCr(lines[1..]);
      if CrFree(lines[1..]) && CR !in lines[0] {
        assert forall k :: 0 < k < |lines| ==> lines[k] == lines[1..][k - 1];
      }
      if !CrFree(lines[1..]) {
        var k :| 0 <= k < |lines[1..]| && CR in lines[1..][k];
        assert CR in lines[k + 1];
      }
    }
  }

  /** A client never hands out a CR. */
  lemma {:induction false} DispatchCrFree(lines: seq<string>, data: seq<string>, kind: string)
    requires CrFree(lines) && CrFree(data)
    ensures EventsCrFree(Dispatch(lines, data, kind))
  {
    if lines != [] {
      var rest := lines[1..];
      assert CrFree(rest) && CR !in lines[0];
      JoinCr(data);
      DispatchCrFree(rest, [], "");
      DispatchCrFree(rest, data + [FieldValue(lines[0])], kind);
      DispatchCrFree(rest, data, FieldValue(lines[0]));
      DispatchCrFree(rest, data, kind);
    }
  }

  /** What the gateway means to send: no CR-trimmed line and no partial line holds a CR. */
  ghost predicate PlainInput(msgs: seq<string>) {
    CrFree(TrimAll(Complete(Flatten(msgs)))) && CR !in Leftover(Flatten(msgs))
  }

  lemma {:induction false} CrFreeConcat(a: seq<string>, b: seq<string>)
    ensures CrFree(a + b) <==> CrFree(a) && CrFree(b)
  {
    if CrFree(a + b) {
      assert forall k :: 0 <= k < |a| ==> a[k] == (a + b)[k];
      assert forall k :: 0 <= k < |b| ==> b[k] == (a + b)[|a| + k];
    }
  }

  lemma {:induction false} DataLinesCrFree(values: seq<string>)
    requires CrFree(values)
    ensures CrFree(DataLines(values))
  {
    if values != [] {
      assert CrFree(values[1..]);
      DataLinesCrFree(values[1..]);
      assert CR !in DATA;
    }
  }

  lemma {:induction false} BodyCrFree(msgs: seq<string>)
    requires CrFree(TrimAll(Complete(Flatten(msgs))))
    ensures CrFree(BodyLines(msgs))
  {
    if msgs != [] {
      var init := msgs[..|msgs| - 1];
      LinesSoFar(msgs);
      CrFreeConcat(TrimAll(Complete(Flatten(init))), Fresh(msgs));
      BodyCrFree(init);
      DataLinesCrFree(Fresh(msgs));
      CrFreeConcat(DataLines(Fresh(msgs)), [""]);
      CrFreeConcat(BodyLines(init), DataLines(Fresh(msgs)) + [""]);
    }
  }

  lemma {:induction false} FinalCrFree(msgs: seq<string>, reason: Reason)
    requires CR !in Leftover(Flatten(msgs))
    ensures CrFree(FinalLines(msgs, reason))
  {
    DataLinesCrFree(Rest(msgs));
    var tail := ["event: done", DATA + Payload(reason), ""];
    assert CR !in "event: done" && CR !in DATA + Payload(reason);
    CrFreeConcat(DataLines(Rest(msgs)), tail);
  }

  lemma {:induction false} FinishedNoCr(msgs: seq<string>, reason: Reason)
    requires PlainInput(msgs)
    ensures CR !in Finished(msgs, reason)
  {
    BodyCrFree(msgs);
    FinalCrFree(msgs, reason);
    CrFreeConcat(BodyLines(msgs), FinalLines(msgs, reason));
    UnlinesNoCr(BodyLines(msgs) + FinalLines(msgs, reason));
  }

  lemma {:induction false} EventsConcat(a: seq<Event>, b: seq<Event>)
    ensures EventsCrFree(a + b) <==> EventsCrFree(a) && EventsCrFree(b)
  {
    if EventsCrFree(a + b) {
      assert forall k :: 0 <= k < |a| ==> a[k] == (a + b)[k];
      assert forall k :: 0 <= k < |b| ==> b[k] == (a + b)[|a| + k];
    }
  }

  lemma {:induction false} MessageEventsCr(msgs: seq<string>)
    requires EventsCrFree(MessageEvents(msgs))
    ensures CrFree(TrimAll(Complete(Flatten(msgs))))
  {
    if msgs != [] {
      var init, own := msgs[..|msgs| - 1], Fresh(msgs);
      var last := if own == [] then [] else [Event("message", JoinLF(own))];
      EventsConcat(MessageEvents(init), last);
      MessageEventsCr(init);
      LinesSoFar(msgs);
      JoinCr(own);
      if own != [] { assert CR !in last[0].data; }
      CrFreeConcat(TrimAll(Complete(Flatten(init))), own);
    }
  }

  lemma {:induction false} MeantIsPlain(msgs: seq<string>, reason: Reason)
    requires EventsCrFree(MessageEvents(msgs) + [Event("done", JoinLF(Rest(msgs) + [Payload(reason)]))])
    ensures PlainInput(msgs)
  {
    var done := Event("done", JoinLF(Rest(msgs) + [Payload(reason)]));
    EventsConcat(MessageEvents(msgs), [done]);
    MessageEventsCr(msgs);
    assert CR !in [done][0].data;
    JoinCr(Rest(msgs) + [Payload(reason)]);
    CrFreeConcat(Rest(msgs), [Payload(reason)]);
    var rest := Leftover(Flatten(msgs));
    if rest != "" { assert CR !in Rest(msgs)[0]; }
  }

  /** An EventSource client gets one message event per message that completed a line, then one done event with the partial
      line before the payload, exactly when no CR-trimmed line and no partial line holds a CR. */
  lemma {:induction false} EventsOfStreamIff(msgs: seq<string>, reason: Reason)
    ensures Dispatch(EolLines(Finished(msgs, reason)), [], "")
            == MessageEvents(msgs) + [Event("done", JoinLF(Rest(msgs) + [Payload(reason)]))]
            <==> PlainInput(msgs)
  {
    var meant := MessageEvents(msgs) + [Event("done", JoinLF(Rest(msgs) + [Payload(reason)]))];
    if PlainInput(msgs) {
      FinishedNoCr(msgs, reason);
      EolLinesAreComplete(Finished(msgs, reason));
      BodyReadsBack(msgs, reason);
      DispatchBody(msgs, FinalLines(msgs, reason));
      DispatchFinal(msgs, reason);
    } else if Dispatch(EolLines(Finished(msgs, reason)), [], "") == meant {
      EolLinesCrFree(Finished(msgs, reason));
      DispatchCrFree(EolLines(Finished(msgs, reason)), [], "");
      MeantIsPlain(msgs, reason);
      assert false;
    }
  }

  lemma {:induction false} OneLine(line: string)
    requires LF !in line && TrimRightCR(line) == line
    ensures var msgs := [line + [LF]];
            Fresh(msgs) == [line] && Rest(msgs) == []
  {
    var msgs := [line + [LF]];
    CompleteCons(line, "");
    assert line + [LF] + "" == line + [LF] && "" + (line + [LF]) == line + [LF];
    assert msgs[..0] == [] && Flatten<char>([]) == "" && msgs[1..] == [];
    assert Flatten(msgs) == line + [LF];
    assert Complete("") == [] && Leftover("") == "";
  }

  lemma {:induction false} OneMessage(msgs: seq<string>, line: string)
    requires |msgs| == 1 && Fresh(msgs) == [line]
    ensures BodyLines(msgs) == [DATA + line, ""]
    ensures MessageEvents(msgs) == [Event("message", line)]
  {
    assert msgs[..0] == [];
    assert DataLines([line]) == [DATA + line];
  }

  lemma {:induction false} EolLinesStep(line: string, rest: string)
    requires CR !in line && LF !in line && (rest == "" || rest[0] != LF)
    ensures EolLines(line + ([CR] + rest)) == [line] + EolLines(rest)
  {
    Assoc(line, [CR], rest);
    LineEnds(line, rest);
  }

  lemma {:induction false} LastStretch()
    ensures Unlines(["y", ""]) == "y" + [LF] + [LF]
    ensures EolLines("y" + [LF] + [LF]) == ["y", ""]
  {
    UnlinesCons("y", [""]);
    UnlinesOne("");
    var last := "y" + [LF] + [LF];
    assert CR !in last;
    EolLinesAreComplete(last);
    ReadBack(["y", ""], "");
    assert last + "" == last;
  }

  lemma {:induction false} CutLines(x: string, last: string)
    requires CR !in x && LF !in x && (last == "" || last[0] != LF)
    ensures EolLines(x + ([CR] + ([CR] + last))) == [x] + ([""] + EolLines(last))
  {
    EolLinesStep(x, [CR] + last);
    EolLinesStep("", last);
    assert "" + ([CR] + last) == [CR] + last;
  }

  lemma {:induction false} InnerCrLines()
    ensures EolLines(Unlines([DATA + ("x" + [CR, CR] + "y"), ""])) == [DATA + "x", "", "y", ""]
  {
    var x, last := DATA + "x", "y" + [LF] + [LF];
    assert CR !in x && LF !in x;
    LastStretch();
    UnlinesCons(DATA + ("x" + [CR, CR] + "y"), [""]);
    UnlinesOne("");
    assert Unlines([DATA + ("x" + [CR, CR] + "y"), ""]) == x + ([CR] + ([CR] + last));
    CutLines(x, last);
  }

  lemma {:induction false} SkipField(line: string, rest: seq<string>, data: seq<string>, kind: string)
    requires line != "" && FieldName(line) != "data" && FieldName(line) != "event"
    ensures Dispatch([line] + rest, data, kind) == Dispatch(rest, data, kind)
  {
    assert ([line] + rest)[1..] == rest;
  }

  lemma {:induction false} CutEvents(x: string, y: string, tail: seq<string>)
    requires y != "" && FieldName(y) != "data" && FieldName(y) != "event"
    ensures Dispatch([DATA + x] + ([""] + ([y] + ([""] + tail))), [], "")
            == [Event("message", x)] + Dispatch(tail, [], "")
  {
    DispatchOne(x, [""] + ([y] + ([""] + tail)), [], "");
    assert [] + [x] == [x];
    SkipField(y, [""] + tail, [], "");
    assert [] + Dispatch(tail, [], "") == Dispatch(tail, [], "");
  }

  lemma {:induction false} CutRead(x: string, y: string, reason: Reason)
    requires y != "" && FieldName(y) != "data" && FieldName(y) != "event"
    ensures var tail := ["event: done", DATA + Payload(reason), ""];
            Dispatch([DATA + x] + ([""] + ([y] + ([""] + tail))), [], "")
            == [Event("message", x), Event("done", Payload(reason))]
  {
    CutEvents(x, y, ["event: done", DATA + Payload(reason), ""]);
    DispatchDone([], "", reason);
    assert [] + [Payload(reason)] == [Payload(reason)];
  }

  lemma {:induction false} OneByOne(a: seq<string>, x: string, y: string, tail: seq<string>)
    requires a == [x, "", y, ""]
    ensures a + [] + tail == [x] + ([""] + ([y] + ([""] + tail)))
  {
  }

  lemma {:induction false} ReadsOn(msgs: seq<string>, x: string, y: string, reason: Reason)
    requires Rest(msgs) == [] && EolLines(Unlines(BodyLines(msgs))) == [x, "", y, ""]
    ensures EolLines(Finished(msgs, reason))
            == [x] + ([""] + ([y] + ([""] + ["event: done", DATA + Payload(reason), ""])))
  {
    FinishedLines(msgs, reason);
    OneByOne(EolLines(Unlines(BodyLines(msgs))), x, y, ["event: done", DATA + Payload(reason), ""]);
    assert RestText(msgs) == "";
  }

  /** The input that shows it: a line drawn over by carriage returns. The gateway means one event with all of it; a client
      is given its first stretch only. */
  lemma {:induction false} InnerCrIsCut(reason: Reason)
    ensures var line := "x" + [CR, CR] + "y"; var msgs := [line + [LF]];
            && MessageEvents(msgs) == [Event("message", line)]
            && Dispatch(EolLines(Finished(msgs, reason)), [], "")
               == [Event("message", "x"), Event("done", Payload(reason))]
  {
    var line := "x" + [CR, CR] + "y";
    OneLine(line);
    OneMessage([line + [LF]], line);
    InnerCrLines();
    ReadsOn([line + [LF]], DATA + "x", "y", reason);
    CutRead("x", "y", reason);
  }
}

# SerialGateway in Dafny

SerialGateway shares serial ports over HTTP and SSH. Its logic sits in small pieces that run concurrently: a serial
session whose goroutines come and go with the port, a bounded line history, a file recorder, an exec stream, reverse
tunnels. This project models those pieces and proves what they keep on every input, in every run and under every
interleaving. `dafny verify dfyconfig.toml` checks all of it.

## How it is laid out

A Go string or byte slice is a Dafny `string` with one character per byte, except in the toast files, where a string is
a sequence of Unicode scalar values as Go's `range` yields them. A Go `int` is 64 bits wide; where arithmetic on it can
wrap, `Strconv.Wrap64` is written out. Code that updates fields is a class with a `Valid()` predicate, code that loops
is a method with a loop, and each of those is proved equal to a specification function; the lemmas are then about that
function. Concurrent protocols are labelled step systems: a state, `Enabled`, `Next`, and `Run`, which accepts every
sequence of enabled steps. One step is one critical section, one channel operation or one read.

| files | part of the gateway |
|---|---|
| Bytes, Lines, Options, Strconv | sequence vocabulary, splitting at LF, decimal numbers |
| AnsiEscape, AnsiPattern, Utf8, CleanLine | what a raw line becomes before it is stored; the pattern as a regular expression; runes |
| RingBuffer, History, LineReader, Tail | line history, line assembly, GET /tail |
| SessionMachine, SerialSession | session lifecycle: Open, Close, disconnect, reconnect, read loops |
| SessionLoops, SessionHistory, SessionRuns | how many loops are active and what they hold; what a run stores and in which order; runs that show what fails |
| SessionClose, SessionDrain | what Close achieves; that every loop can end after it |
| Tickets | numbers handed out in order and put on a list, for stored lines and for write requests |
| Fanout, Subscriptions | subscribers and broadcast; how long a subscriber is one |
| WriteQueue, WriteDrain | write requests and their answers; that every writer can finish |
| Recorder, RecorderProtocol, RecorderStop, Sinks | head-trimmed file; queue, stop and drain; that the drain can finish; the three sinks together |
| ExecStream, EventSource | the event stream of GET /exec and what a client makes of it |
| Crlf | line endings on the way to an SSH client |
| XmlText, Utf16, Base64, Toast, ToastText | from a notification's text to the encoded command and back; the templates word for word |
| TunnelFanIn, TunnelStop, TunnelErrors, KeepAlive | accept fan-in and wait group of a reverse tunnel; that Stop can finish; that a dead listener is seen; keepalive probe |
| TunnelPorts, TunnelTargets | the two derivations of the tunnel port set |

A goroutine that was spawned captures `s.stopCh` in a step of its own, whenever it first runs. One step is coarser than
the code: handleDisconnect, the spawn of its reconnect loop and the return of the reader that called it. A call of Stop
or of the second half of Close is one step, because its select and its close are not atomic and two callers at once could
both reach the close.

## What does not hold

Where a property one would expect is false of the code, the model keeps the code, gives a run or an input that shows it,
and states when the property does hold.

- Close leaves a closed stop channel behind. A later Open reports the port as connected while its loops hold that closed
  channel and leave at once (`ReopenedButUnread`). A connected session has an active reader exactly when the current
  stop channel is open (`ServedIff`).
- A reconnect loop that had passed its stop check when Close ran opens the port again (`ReopenedAfterClose`). A Close
  shuts the session down exactly when no reconnect loop is about to call Open (`CloseShutsDownIff`, `LateRetryConnects`);
  it then stays down until somebody else calls Open (`StaysDown`), and no reconnect loop calls Open more than once after
  a Close (`OneLastOpen`).
- An Open between the two sections of Close puts two active readers on one port (`TwoReaders`). In any run two readers are
  never active at once exactly when no Open connected beside an active one and no disconnect made a fresh channel for two
  that had yet to run (`OneReaderIff`); without Close that never happens (`CloseFreeServed`).
- Even without Close a connection can have two active writers: one that first runs after its own connection was lost
  captures the channel of the next (`TwoWriters`). It has at most one exactly when no Open connected while such a writer
  was left (`CloseFreeWriterIff`; `OneWriterIff` for runs with Close).
- Two readers can append their lines in the opposite order of their numbers (`NumbersOutOfOrder`). In any run the lines
  stand in number order exactly when no reader appended one while another held a smaller number (`NumberOrderIff`), and
  no two lines ever share a number (`NumbersDiffer`).
- A chunk that the recorder accepts after the drain found the queue empty is never written (`LateWriteIsLost`); every
  chunk accepted before that is (`WrittenIffBeforeClose`).
- Overlapping broadcasts may reach a subscriber in either order (`OverlapReorders`). In any run the order is that in which
  they began exactly when no delivery to the subscriber overtook an older broadcast (`StraightIff`, `InOrderIff`); a
  broadcast that ended before another began always comes first (`EndedBeforeBegun`).
- Two write loops may send requests in the opposite order (`TwoWritersReorder`). In any run the order is queue order
  exactly when no loop wrote or skipped a request while another held an earlier one (`SentInOrderIff`), as when there is
  at most one loop with a request in hand (`SentInOrder`).
- The recorder's file stays below its limit for every starting size exactly when a chunk is no longer than the trim
  (`StaysBelowIff`).
- A client of the exec stream ends lines at CR too. It gets the events that are meant exactly when no CR-trimmed line and
  no partial line holds a CR (`EventsOfStreamIff`); a line drawn over by carriage returns arrives in pieces
  (`InnerCrIsCut`).
- In the exec stream an unfinished last line is no event of its own: a client gets it inside the done event, before the
  payload (`DonePayloadIff`).
- Normalising line endings message by message is invisible exactly when no message boundary cuts a CR LF pair
  (`ChunkingVisibleIff`), and neighbouring messages do not tell (`CutAcrossEmpty`).
- A string of escape sequences may still hold one after all matches were removed (`StripTwice`), exactly when the removal
  brings a match together across a removed one (`StripIdempotentIff`).
- The UTF-16 encoder loses every rune above U+FFFF (`LosslessIff`); the escaper's ASCII output is what protects it
  (`ScriptArrives`). Carriage returns and control characters do not reach the screen as given (`TextsShownIff`).
- tunnel-ports is described as printing the tunnel set the gateway starts. The remote listeners always agree
  (`SameListeners`); the tunnels do exactly when some device has a port or no enabled tunnel is of kind serial_ssh
  (`SameTunnels`, `PortlessIsListed`); the local listeners do exactly when no enabled local_forward has local port 0
  (`SameLocalListeners`, `AnyPortIsUnlisted`). Its sample output shows a `kind` that the code does not print.
- When a tunnel's goroutines are all gone, a connection may be left in an accept channel, not closed by any of them
  (`StrandedRun`): exactly one that was in the queue of a session once the run goroutine had left it
  (`ClosedOrStranded`). The SSH client is closed underneath it.
- A body of one empty line and an empty ring look the same to a reader of /tail (`JoinSplit`).

## Model

| member | source | states |
|---|---|---|
| Bytes.IndexByteFinds | internal/serial/session.go:185 | the position found is the first one, and -1 means there is none |
| Lines.Rejoin | internal/serial/session.go:183-190 | the raw lines rejoined with LF, then the leftover, are the stream: no byte is lost |
| Lines.CompleteHasNoLF | internal/serial/session.go:184-190 | neither a line nor the buffer kept between reads holds an LF |
| Lines.ReadBack | internal/serial/session.go:184-190 | any LF-free lines and leftover are read back exactly from their encoding |
| Lines.FedIsBatch | internal/serial/session.go:152-190 | feeding chunks one at a time equals splitting the whole stream at once |
| Lines.ChunkInvariance | internal/serial/session.go:152-190 | two ways of cutting the same bytes into reads give the same lines and leftover |
| AnsiEscape.Unambiguous | internal/serial/session.go:17 | at each position the pattern has at most one match length, and the scanner finds it |
| AnsiEscape.RunesOrBytes | internal/serial/session.go:195 | stepping over UTF-8 runes and scanning byte by byte remove the same matches |
| AnsiEscape.LeftmostCutExists | internal/serial/session.go:195 | every string has a cut into kept gaps and leftmost non-overlapping matches |
| AnsiEscape.StripIsLeftmostRemoval | internal/serial/session.go:195 | the scanner keeps exactly the gaps and tail of any leftmost cut |
| AnsiEscape.StripIsSubsequence | internal/serial/session.go:195 | stripping only deletes bytes |
| AnsiEscape.StripFixed | internal/serial/session.go:195 | stripping changes nothing if and only if no match starts anywhere |
| AnsiEscape.StripIdempotentIff | internal/serial/session.go:17 | a second removal changes nothing if and only if no match starts in a kept gap and ends across a removed match |
| AnsiEscape.StripTwice | internal/serial/session.go:17 | a string on which stripping is not idempotent |
| AnsiPattern.PatternIs | internal/serial/session.go:17 | what matches at the start of a string is the language of the regular expression, whatever follows the match |
| Utf8.RuneWidthIff | internal/serial/session.go:195 | the scan steps over exactly the encoded rune a string starts with (RFC 3629), and over one byte where there is none |
| CleanLine.VisibleIsUnique | internal/serial/session.go:191-194 | the text left by the two carriage-return rules is the only one its conditions allow |
| CleanLine.CleanCutExists | internal/serial/session.go:189-195 | every raw line is overwritten text, the surviving text cut at its leftmost escape sequences, and trailing CRs |
| CleanLine.CleanIs | internal/serial/session.go:189-195 | the stored line is what such a cut keeps of the surviving text: first the carriage returns, then the escapes |
| CleanLine.CleanProperties | internal/serial/session.go:189-195 | a stored line is a subsequence of the raw line without CR, and without LF if the raw line had none |
| RingBuffer.RingBuffer.constructor | internal/serial/ringbuffer.go:23-29 | a new buffer is empty and carries its two limits |
| RingBuffer.RingBuffer.Append | internal/serial/ringbuffer.go:31-41 | the buffer holds the retained part of the full append history and its exact byte count; it indexes an empty slice exactly for a negative byte limit |
| RingBuffer.RetainedOnline | internal/serial/ringbuffer.go:31-41 | evicting at every append gives what evicting the whole history at once gives |
| RingBuffer.RetainedIsLongestFit | internal/serial/ringbuffer.go:36-40 | what is retained is the longest suffix within both limits, even when one entry alone is too large |
| RingBuffer.LongestFitIsUnique | internal/serial/ringbuffer.go:36-40 | that description has one solution |
| RingBuffer.RingBuffer.Tail | internal/serial/ringbuffer.go:43-52 | the newest n entries in order, or all of them |
| RingBuffer.LastNIs | internal/serial/ringbuffer.go:43-52 | the newest n are min(n, length) entries, each at its place from the end |
| RingBuffer.RingBuffer.All | internal/serial/ringbuffer.go:54-60 | a copy of the longest suffix of everything ever appended that meets both limits |
| History.MoreBytes | internal/serial/session.go:183-207 | bytes on the current connection add exactly the cleaned lines they complete |
| History.RingNumbers | internal/serial/session.go:196-206 | the sequence numbers held are a contiguous interval ending at the number of lines ever stored |
| History.SessionLinesAreClean | internal/serial/session.go:189-195 | no stored line holds CR or LF, for any bytes from any connections |
| LineReader.Reader.constructor | internal/serial/session.go:46-63 | nothing read, nothing stored, counter at zero |
| LineReader.Reader.Start | internal/serial/session.go:152-155 | a new read loop drops the partial line of the last connection and nothing else |
| LineReader.Reader.OnRead | internal/serial/session.go:169-207 | after any reads the history is the numbered cleaned lines of all connections, and broadcast and recorder got the same chunks |
| LineReader.Reader.StoreLines | internal/serial/session.go:184-207 | each complete line is cleaned, numbered on from the counter and appended; the rest stays in the buffer |
| Strconv.DecimalRoundTrip | internal/notify/toast.go:43-44 | a printed number reads back as itself |
| Strconv.AtoiDecimal | internal/ssh/server.go:25 | Atoi of a printed number is the number, up to the 64-bit limit |
| Strconv.AtoiNegative | internal/ssh/server.go:25 | with a minus sign it is the negative number, down to the 64-bit limit |
| Strconv.AtoiPositive | internal/ssh/server.go:25 | a plus sign changes nothing |
| Strconv.AtoiReads | internal/ssh/server.go:25 | nothing but an optional sign and digits is read as a number |
| Strconv.Wrap64Is | internal/recorder/recorder.go:50-51 | wrapping gives the one 64-bit number congruent to the sum or product |
| Tail.HandleTail | internal/http/handlers.go:176-191 | the body joins the newest lines held, the query's count or 200 of them |
| Tail.CountIs | internal/http/handlers.go:177-182 | a positive number within 64 bits asks for that many lines; everything else asks for 200 |
| Tail.JoinSplit | internal/http/handlers.go:184-190 | splitting the body at LF gives the lines back if and only if there was at least one |
| Tail.TailTexts | internal/http/handlers.go:183-187 | the lines behind a body are the newest of everything ever received that the limits still hold |
| Tail.TailRoundTrip | internal/http/handlers.go:176-191 | from the bytes of all connections to the body and back: exactly the last min(n, held) lines, if and only if the ring is not empty |
| SessionMachine.AlwaysSound | internal/serial/session.go:75-129 | in every reachable state: connected means a port, the open handles are exactly the port, every superseded stop channel is closed, so each loop holds a closed channel or the current one |
| SessionMachine.NoRetryAfterClose | internal/serial/session.go:116-129 | after a Close and until an Open succeeds, no reconnect loop or reader is spawned |
| SessionClose.StaysDown | internal/serial/session.go:263-280 | a session without port, with a closed stop channel and no reconnect loop past its check stays unconnected, with no active loop, until somebody else calls Open |
| SessionClose.CloseShutsDownIff | internal/serial/session.go:116-129 | a Close with no connection inside it leads there if and only if no reconnect loop is about to call Open |
| SessionClose.LateRetryConnects | internal/serial/session.go:271-276 | a reconnect loop that is about to call Open can connect although the stop channel is closed |
| SessionClose.OneLastOpen | internal/serial/session.go:266-279 | once the stop channel is closed a reconnect loop calls Open at most once, and only if it was past its check by then |
| SessionDrain.LoopsCanEnd | internal/serial/session.go:152-231 | from every reachable state that is shut down, steps of the loops alone end every reader, writer and reconnect loop |
| SessionMachine.ServedIff | internal/serial/session.go:116-129 | a connected session has an active reader, and an active writer, if and only if the current stop channel is open |
| SessionLoops.OneReaderIff | internal/serial/session.go:75-129 | in every run two readers are never active at once if and only if no Open connects beside an active one and no disconnect makes a fresh channel while two have yet to run |
| SessionLoops.OneWriterIff | internal/serial/session.go:75-129 | the same for writers |
| SessionLoops.CloseFreeSettled | internal/serial/session.go:244-259 | without Close the current stop channel is never a closed one |
| SessionLoops.CloseFreeServed | internal/serial/session.go:244-280 | without Close: while connected one active reader, on the current port, and an active writer; no active reader otherwise, and a lost port has its live reconnect loop, whoever else calls Open |
| SessionLoops.CloseFreeWriterIff | internal/serial/session.go:111-112 | without Close two writers are never active at once if and only if no Open connects while one is still active |
| SessionLoops.StaleWriterStep | internal/serial/session.go:211-216 | a writer that is active right after a lost connection had not run while it lasted |
| SessionLoops.LoopsKeepChannels | internal/serial/session.go:153 | in every run a loop holds the channel it captured until it ends, and no loop that ended comes back |
| SessionLoops.RetryGoesOnIff | internal/serial/session.go:271-279 | a reconnect loop past its check calls Open next, and goes round if and only if the session is still not connected |
| SessionHistory.CloseFreeOneReader | internal/serial/session.go:152-208 | without Close the only reader is the live one, on the last connection, with no complete line left between reads |
| SessionHistory.CloseFreeBalanced | internal/serial/session.go:152-208 | without Close, at every step: entries numbered without a gap plus the lines still buffered are the lines of all connections, and the recorder got exactly their bytes |
| SessionHistory.RunKept | internal/serial/session.go:196-206 | in every run, Close included, the ring is what the limits retain of everything appended |
| SessionHistory.NumbersAccounted | internal/serial/session.go:196-206 | in every run each number up to the counter belongs to exactly one appended line or to exactly one reader about to append it |
| SessionHistory.NumberOrderIff | internal/serial/session.go:196-206 | in every run the i-th line has number i if and only if no reader appended a line while another held a smaller number |
| SessionHistory.NumbersDiffer | internal/serial/session.go:196-206 | in every run no two lines share a number |
| SessionHistory.CloseFreeHistory | internal/serial/session.go:155-207 | across reconnects the i-th line appended is the i-th complete cleaned line with Seq i, all of them once the reader is through, and the counter is their number; broadcast and recorder got exactly the bytes |
| SessionHistory.CloseFreeRing | internal/serial/session.go:196-206 | in every Close-free state the ring is the longest fitting stretch of the newest lines, with consecutive numbers ending at the number appended |
| SessionRuns.ReopenedButUnread | internal/serial/session.go:116-129 | a run with Close and Open after which the port is connected and nobody reads it |
| SessionRuns.TwoReaders | internal/serial/session.go:116-129 | a run in which an Open inside Close leaves two active readers |
| SessionRuns.ReopenedAfterClose | internal/serial/session.go:266-276 | a run that ends with a complete Close and the Open of a reconnect loop, connected |
| SessionRuns.TwoWriters | internal/serial/session.go:211-216 | a run without Close that ends connected with two active writers |
| SessionRuns.NumbersOutOfOrder | internal/serial/session.go:196-206 | a run of two readers whose ring holds number 2 before number 1 |
| SerialSession.SerialSession.constructor | internal/serial/session.go:53-62 | a new session is the start state of the step system |
| SerialSession.SerialSession.Open | internal/serial/session.go:75-114 | the fields after Open are those of the Open step; an error is returned exactly when unconnected and the device fails |
| SerialSession.SerialSession.CloseLocked | internal/serial/session.go:116-123 | the first section of Close is its step |
| SerialSession.SerialSession.CloseStop | internal/serial/session.go:124-128 | the second section of Close is its step |
| SerialSession.SerialSession.HandleDisconnect | internal/serial/session.go:244-261 | the fields after handleDisconnect are those of the disconnect step |
| Fanout.NeverSendsOnClosed | internal/serial/session.go:145-150 | in every run a broadcast never sends on a closed channel |
| Fanout.RefusedIffFull | internal/serial/session.go:236-241 | a delivery is dropped if and only if 64 messages wait, and otherwise its message joins the queue |
| Subscriptions.SubscribedUntilRemoved | internal/serial/session.go:137-150 | in every run a channel is subscribed from its Subscribe until its own Unsubscribe removes it, and closed if and only if that has closed it |
| Subscriptions.ClosedOnce | internal/serial/session.go:145-150 | no channel is removed or closed twice, so no close panics |
| Subscriptions.OneMessagePerReceive | internal/serial/session.go:233-242 | a subscriber has taken one message per receive and was offered exactly the broadcasts delivered to it |
| Fanout.FanoutGuarantee | internal/serial/session.go:137-150 | a queue stays within 64; received plus queued is an in-order subsequence of the offers, all of them if the queue was never full; each broadcast since subscribing is offered exactly once |
| Fanout.StraightIff | internal/serial/session.go:233-242 | in every run a subscriber is offered broadcasts in the order they began, with none older to come, if and only if no delivery to it overtook an older broadcast |
| Fanout.InOrderIff | internal/serial/session.go:233-242 | with no broadcast under way its offers are in that order if and only if nothing overtook, and then they are all the messages since it subscribed |
| Fanout.NoOvertakingOrder | internal/serial/session.go:137-150 | if nothing overtook, every subscriber, also a departed one or one in mid-broadcast, holds an in-order subsequence of the messages since it subscribed, and a gapless stretch of them if its queue was never full |
| Fanout.OneAtATimeInOrder | internal/serial/session.go:233-242 | with broadcasts that do not overlap nothing is overtaken |
| Fanout.EndedBeforeBegun | internal/serial/session.go:233-242 | in every run, a broadcast that ended before another began comes before it for every subscriber |
| Fanout.OverlapReorders | internal/serial/session.go:233-242 | a run in which two overlapping broadcasts arrive in reverse |
| WriteQueue.AnsweredOnce | internal/serial/session.go:217-228 | no request is answered twice by any number of writers, so the send never blocks; a finished one is answered unless it was skipped silently |
| WriteQueue.SilentIsSkipped | internal/serial/session.go:221-225 | only a request that met no port, with discarding off, goes unanswered |
| WriteQueue.QueueBound | internal/serial/session.go:58 | at most 64 requests wait, and one more is let in if and only if fewer do |
| WriteQueue.ResolvedAsSeen | internal/serial/session.go:217-227 | in every run a request is looked up once, by the writer that took it, and written if that found a port, skipped if not |
| WriteQueue.NothingWithoutPort | internal/serial/session.go:218-226 | nothing is written while there has been no port |
| WriteDrain.WritersCanFinish | internal/serial/session.go:211-231 | from every reachable state the writers can finish and end, and then every request taken was answered once or skipped with discarding off |
| WriteQueue.RequestsAccounted | internal/serial/session.go:217-228 | in every run each request taken is resolved once, or held unresolved by exactly one writer |
| WriteQueue.SentInOrderIff | internal/serial/session.go:211-231 | in every run the port is sent the requests that met a port, and they are resolved in queue order if and only if no writer resolved one while another held an earlier one |
| WriteQueue.SentInOrder | internal/serial/session.go:211-231 | so it is as long as at most one writer has a request in hand; all but the last request taken are then resolved |
| WriteQueue.TwoWritersReorder | internal/serial/session.go:211-231 | a run of two writers that sends two requests in reverse |
| Recorder.FileRecorder.constructor | internal/recorder/recorder.go:47-57 | sizes are megabytes times 1048576 in 64 bits, and the size field is the file's length |
| Recorder.FileRecorder.ProcessWrite | internal/recorder/recorder.go:119-136 | the size field stays exact and the file is that of one write with its two trim checks |
| Recorder.FileRecorder.Trim | internal/recorder/recorder.go:140-200 | the head goes, the rest stays, and the size field follows |
| Recorder.FileIsRecentSuffix | internal/recorder/recorder.go:119-200 | after any writes the file is a suffix of all data, at least its last min(total, maxSize - trimSize) bytes, for chunks of any length |
| Recorder.StaysBelowIff | internal/recorder/recorder.go:122-135 | a write keeps every smaller file below the limit if and only if its chunk is no longer than the trim |
| Recorder.StaysBelow | internal/recorder/recorder.go:119-136 | a file that began below the limit is below it after every such write |
| Recorder.ShrinksBy | internal/recorder/recorder.go:119-136 | each write on an oversize file takes a trim's worth off it or brings it below for good |
| Recorder.Recovers | internal/recorder/recorder.go:119-136 | a file reopened at size L is below the limit after ceil((L - maxSize + 1) / trimSize) writes |
| Recorder.NothingTrimmed | internal/recorder/recorder.go:119-136 | below the limit the file is simply everything written |
| Recorder.TrimsAreWhole | internal/recorder/recorder.go:119-166 | after any writes the file is as long as all data less a whole number of trims, at most two per write |
| RecorderProtocol.Protocol | internal/recorder/recorder.go:64-116 | every schedule: FIFO, accepted is processed plus in hand plus queued, at most 256 queued, the accepted chunks are the offered ones less those dropped, in order, and closing the file means all accepted before Stop was written |
| RecorderProtocol.DroppedIffFull | internal/recorder/recorder.go:64-75 | a write is dropped if and only if it is not empty and 256 chunks wait |
| RecorderStop.OffersAreWrites | internal/recorder/recorder.go:64-85 | in every run the chunks offered are the non-empty writes in call order, and the recorder is stopped exactly after a Stop |
| RecorderStop.WrittenBeforeClosed | internal/recorder/recorder.go:78-116 | once the file is closed, everything accepted before the first Stop has been written |
| RecorderStop.DrainCanFinish | internal/recorder/recorder.go:87-116 | a stopped recorder can always go on to close its file with every accepted chunk written |
| RecorderProtocol.FileContents | internal/recorder/recorder.go:87-136 | in every reachable state the file is a long enough suffix of the initial content and all processed chunks |
| RecorderProtocol.WrittenIffBeforeClose | internal/recorder/recorder.go:101-115 | in every run, an accepted chunk is ever written if and only if it was accepted before the drain closed the file, which then never changes |
| RecorderProtocol.LateWriteIsLost | internal/recorder/recorder.go:101-115 | a run in which a chunk is accepted that no continuation ever writes |
| Sinks.SinksAgree | internal/serial/session.go:179-207 | a session run and the recorder run it feeds: the recorded bytes, cleaned per connection, are the ring's append history and what subscribers were sent |
| ExecStream.Stream.OnMessage | internal/http/exec.go:131-152 | the body gains one data line per completed line and a blank line, and the buffer is the leftover of all messages |
| ExecStream.Stream.OnTimer | internal/http/exec.go:94-116 | the body is finished with the leftover, if any, and the done event |
| ExecStream.BodyReadsBack | internal/http/exec.go:89-154 | splitting the finished body at LF gives back exactly the lines written |
| ExecStream.Decodes | internal/http/exec.go:87-154 | its data lines are the CR-trimmed complete lines of the input, the leftover, the payload; there is one event line |
| ExecStream.EndsDone | internal/http/exec.go:94-116 | the last lines are the done event, with the reason of the timer that fired in its JSON |
| ExecStream.ChunkingInvisible | internal/http/exec.go:118-148 | what the client reads does not depend on how the bytes were cut into messages |
| EventSource.EventsOfStreamIff | internal/http/exec.go:94-149 | a client that ends lines at LF, CR and CR LF gets one event per message that completed a line, then one done event with the partial line, if and only if no CR-trimmed line and no partial line holds a CR |
| EventSource.LastEventIsDone | internal/http/exec.go:94-116 | for every input the last event is the done event, the payload after what the client read of the partial line |
| EventSource.InnerCrIsCut | internal/http/exec.go:144-147 | an input with inner carriage returns whose event arrives cut |
| EventSource.DonePayloadIff | internal/http/exec.go:94-116 | the done event carries the bare payload if and only if nothing of the partial line is left in the client's buffer; without CR, if and only if the input ended with a complete line |
| EventSource.LineEnds | internal/http/exec.go:94-149 | the client ends a line at LF, at CR and at CR LF, and text without one is no line yet |
| EventSource.FieldsAre | internal/http/exec.go:94-149 | it names a field up to the first colon and drops one space after it |
| Crlf.CollapseExpand | internal/ssh/handler.go:38-39 | collapsing CR LF undoes expanding LF for every string |
| Crlf.NormaliseIdempotent | internal/ssh/handler.go:37-40 | a normalised message is left alone |
| Crlf.NormalisedLfAfterCr | internal/ssh/handler.go:37-40 | every LF sent stands right after a CR |
| Crlf.Relay | internal/ssh/handler.go:36-43 | the client receives the normalised messages one after the other |
| Crlf.OnlyCrChanges | internal/ssh/handler.go:37-41 | over any chunking, the characters other than CR are those of the input |
| Crlf.CutsLengthen | internal/ssh/handler.go:36-40 | every CR LF pair cut by a message boundary makes the output one character longer |
| Crlf.ChunkingVisibleIff | internal/ssh/handler.go:36-40 | for any number of messages, the output is that of the whole stream if and only if no boundary cuts a CR LF pair |
| Crlf.CutAcrossEmpty | internal/ssh/handler.go:36-40 | a pair cut although no two neighbouring messages cut it |
| XmlText.XmlEscapeText | internal/notify/toast.go:29-50 | the loop writes each rune's escape in order |
| XmlText.EscapedIsSafe | internal/notify/toast.go:29-50 | escaped text is ASCII without angle brackets or quotes |
| XmlText.DecodedEscaped | internal/notify/toast.go:29-50 | decoding entities (XML 1.0, sections 4.1 and 4.6) gives every text back |
| XmlText.EolEscaped | internal/notify/toast.go:29-50 | escaping commutes with a parser's line-end handling (XML 1.0, section 2.11) |
| XmlText.ParsedIff | internal/notify/toast.go:29-50 | a conforming parser reports the text unchanged if and only if it has only XML characters and no CR |
| Base64.DecodeEncode | internal/notify/toast.go:91 | decoding undoes encoding for every byte sequence (RFC 4648, section 4) |
| Base64.EncodeDecode | internal/notify/toast.go:91 | every text that decodes is the encoding of its bytes |
| Utf16.EncodeUtf16LeBase64 | internal/notify/toast.go:86-92 | the loop writes the low 16 bits of each rune, little end first, in base64 |
| Utf16.LosslessIff | internal/notify/toast.go:88-90 | the units decode to the string (RFC 2781) if and only if no rune is above U+FFFF |
| Utf16.ReceivedIff | internal/notify/toast.go:86-92 | the same through base64 and bytes |
| Toast.ScriptAscii | internal/notify/toast.go:67-82 | the script is ASCII whenever the XML is |
| Toast.ToastXmlReads | internal/notify/toast.go:53-63 | the XML holds no apostrophe and parses to the template's elements around the two escaped texts |
| Toast.XmlArrives | internal/notify/toast.go:67-82 | the here-string of the script is the XML, whatever the texts are |
| Toast.ScriptArrives | internal/notify/toast.go:84-97 | the receiver of the argument gets the script exactly |
| Toast.TextsArrive | internal/notify/toast.go:94-97 | every step undone, entities included, both texts come out as they went in, over all Unicode scalar values |
| Toast.TextsShownIff | internal/notify/toast.go:94-97 | a conforming XML parser shows both texts unchanged if and only if they have only XML characters and no CR |
| Toast.DurationArrives | internal/notify/toast.go:53-63 | the toast element received has the duration asked for |
| ToastText.TagsArrive | internal/notify/toast.go:53-63 | the XML received has the tags of the template in order, the duration asked for, and only white space outside the two texts |
| ToastText.ScriptIs | internal/notify/toast.go:67-82 | for every XML the script loads the three types, keeps the XML in a here-string and shows it under the application's name |
| Toast.EncodedCommand | internal/notify/toast.go:94-97 | the argument built for PowerShell carries both texts and the duration, for the two durations the handler admits |
| TunnelFanIn.ErrorsFit | internal/tunnel/reverse.go:197-211 | across reconnects, no more messages are ever sent on a session's error channel than it has listeners, so no acceptor blocks on it |
| TunnelErrors.DeadListenerIsSeenIff | internal/tunnel/reverse.go:191-233 | in every run a serving tunnel listens for all its forwards, and until Stop it has an error to see if and only if a listener has no acceptor left |
| TunnelErrors.FailedAcceptReports | internal/tunnel/reverse.go:203-214 | an acceptor whose Accept failed never accepts again; it can report, and before Stop it is gone only if it has |
| TunnelErrors.OneErrorIsTaken | internal/tunnel/reverse.go:230-232 | the run goroutine takes one error of a session and leaves it; it returns only after Stop |
| TunnelErrors.Reconnects | internal/tunnel/reverse.go:82-103 | a continuation sees the error, connects, and serves a fresh session with a live acceptor for every forward |
| TunnelErrors.QueueBound | internal/tunnel/reverse.go:195 | at most 8 accepted connections wait in a session, and one more is let in if and only if fewer do |
| TunnelFanIn.OnePlace | internal/tunnel/reverse.go:191-244 | an accepted connection is in exactly one of held, queued, forwarded, closed, and whoever has it knows the forward of the listener that accepted it |
| TunnelFanIn.WaitGroup | internal/tunnel/reverse.go:67-80 | the wait group counts exactly the live goroutines and is only added to while the run goroutine holds its own count |
| TunnelFanIn.AfterWait | internal/tunnel/reverse.go:72-77 | once Wait has seen zero, no goroutine is left and none is ever started |
| TunnelFanIn.StaysQueued | internal/tunnel/reverse.go:225-244 | a connection queued in a session that run has left stays queued in every later state |
| TunnelStop.StopCanFinish | internal/tunnel/reverse.go:72-103 | from every reachable state in which Stop was called, a continuation that connects, accepts and serves nothing more brings the wait group to zero |
| TunnelStop.NeverStuck | internal/tunnel/reverse.go:199-244 | so while a goroutine is left after Stop, some such step is enabled |
| TunnelFanIn.ClosedOrStranded | internal/tunnel/reverse.go:215-244 | with no goroutine left, every connection was closed or is stranded, and it is stranded if and only if it was in the queue of a session once run had left it |
| TunnelFanIn.StrandedRun | internal/tunnel/reverse.go:215-229 | a run that strands a connection |
| KeepAlive.Monitor | internal/tunnel/keepalive.go:24-52 | onDead is called at most once, at the first probe ending three failures in a row if no stop was seen before it, and then the loop has ended |
| KeepAlive.VerdictStands | internal/tunnel/keepalive.go:28-50 | that position does not depend on later events |
| TunnelPorts.ComPort | internal/ssh/server.go:20-30 | COMn and n map to base port + n with 64-bit wrap-around, and to 0 beyond the integer range |
| TunnelPorts.DeriveIsFirstOccurrences | cmd/serial-gateway/serial_ssh_tunnel.go:18-37 | the derived ports are exactly the non-zero images, each once, in first-occurrence order |
| TunnelPorts.FirstOccurrencesUnique | cmd/serial-gateway/serial_ssh_tunnel.go:18-37 | no other list meets that requirement |
| TunnelPorts.ForwardsPorts | cmd/serial-gateway/serial_ssh_tunnel.go:31-36 | the forwards ask for the derived ports in order |
| TunnelPorts.SerialForwardLeads | cmd/serial-gateway/serial_ssh_tunnel.go:31-36 | each forward of a serial_ssh tunnel leads to its own port on 127.0.0.1, labelled with the first device served there |
| TunnelPorts.BuildSerialSshForwards | cmd/serial-gateway/serial_ssh_tunnel.go:17-39 | one forward per derived port, same number at both ends, labelled with the first device that maps to it |
| TunnelTargets.StartReverseTunnel | cmd/serial-gateway/main.go:94-134 | the tunnel of each kind, none for serial_ssh without ports |
| TunnelTargets.StartTunnels | cmd/serial-gateway/main.go:43-72 | the tunnels started are those of the enabled entries, named ones first |
| TunnelTargets.ForwardLeads | cmd/serial-gateway/main.go:94-134 | for every configuration remote port p of a started tunnel leads to its targetHost:localPort, of a serial_ssh tunnel to 127.0.0.1:p |
| TunnelTargets.PositionNameReads | cmd/serial-gateway/main.go:67-70 | an unnamed tunnel of the list is named by its position, which reads back, so no two share a name |
| TunnelTargets.BuildTarget | cmd/tunnel-ports/main.go:97-125 | the ports printed for an entry are the derived ones, by a derivation of its own |
| TunnelTargets.ListTargets | cmd/tunnel-ports/main.go:57-89 | the targets printed are those of the same enabled entries in the same order |
| TunnelTargets.SameListeners | cmd/tunnel-ports/main.go:57-89 | for every configuration the remote listeners requested by the gateway are the ones printed: same names, hosts, ports and order |
| TunnelTargets.SameLocalListeners | cmd/tunnel-ports/main.go:105-107 | the local listeners of the gateway are the local ports printed if and only if no enabled local_forward has local port 0 |
| TunnelTargets.AnyPortIsUnlisted | cmd/tunnel-ports/main.go:36-39 | a configuration whose local listener is not printed |
| TunnelTargets.SomePort | cmd/serial-gateway/main.go:108-113 | a serial_ssh tunnel has a forward if and only if some device has a port |
| TunnelTargets.SameTunnels | cmd/tunnel-ports/main.go:1-4 | the tunnels started are the tunnels printed if and only if some device has a port or none enabled is serial_ssh |
| TunnelTargets.PortlessIsListed | cmd/tunnel-ports/main.go:72-77 | a configuration whose one tunnel is printed and never started |

## Left out

- Recorder.FileIsRecentSuffix: holds on the path without I/O errors. A failed or partial write leaves the size field
  stale, and a trim that fails after closing the file leaves the recorder without a file for good; the design's fallback
  to an empty file is not what the code does.
- Recorder.FileRecorder.constructor: a negative trim size, which makes the seek fail, is excluded with the other I/O
  errors.
- WriteQueue.SentInOrder: requests are values, so the SSH reader's reuse of its 1024-byte buffer after a timeout is not
  captured. A port write is one step that takes all data.
- SessionLoops.CloseFreeServed: excludes Close, as ReopenedButUnread and TwoReaders show it must.
- SessionHistory.CloseFreeRing: a negative byte limit, for which the first stored line panics (RingBuffer.Append), is not a
  limit of the step system.
- SerialSession.SerialSession.Open: the loops are the step system's, kept as ghost state; serial mode settings are left
  out. Opening the device is a parameter.
- ExecStream.Stream.OnTimer: which timer fires and when is a parameter; a request cancelled by the client has no ending
  to state. No wall-clock bound is claimed, because Go's select picks among ready cases at random.
- TunnelTargets.StartTunnels: the configuration is a value, so the kind written into the loaded configuration is seen
  only by the tunnel it belongs to; logging and starting goroutines are left out.
- KeepAlive.Monitor: works on the outcomes of the select; the interval between probes is left out. onDead only logs: it
  is the next accept error, not the monitor, that makes the tunnel reconnect.
- Toast.XmlArrives: the reader finds the first verbatim here-string of the script and the tags of an XML document; the
  rest of the PowerShell language and of XML is not part of this model.
- The disconnect and reconnect notices the session broadcasts besides data.
- Entry timestamps, and the JSON and text formats of the log handler.
- Real serial, SSH and TCP I/O, port enumeration, host keys and running PowerShell.
- killRemotePortHolders, remotePorts, ProxyBridge and LocalForward: shell commands and library glue, or the shape of the
  reverse tunnel with fewer interactions.
- Reconnect back-off, configuration defaults, log levels, request dispatch and the port manager's map: easy members.
- Two callers of Stop, or of Close, at the same instant.

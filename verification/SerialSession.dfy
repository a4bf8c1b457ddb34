/** Open, Close and handleDisconnect on the fields they update in place: internal/serial/session.go:75-129, 244-261.
    Each method performs exactly one step of the session machine (Close performs its two). */
module SerialSession {
  import opened Options
  import opened SessionMachine

  class SerialSession {
    var port: Option<Handle>
    var connected: bool
    var stopCh: Chan
    // The runtime's channels and the operating system's handles.
    var closedChs: set<Chan>
    var nextCh: Chan
    var openHandles: set<Handle>
    // The goroutines and everything the loops themselves own.
    ghost var loops: State

    ghost function View(): State
      reads this
    {
      loops.(port := port, connected := connected, stopCh := stopCh,
             closedChs := closedChs, nextCh := nextCh, openHandles := openHandles)
    }

    constructor (maxLines: nat, maxBytes: nat)
      ensures View() == Start(maxLines, maxBytes)
    {
      port, connected, stopCh := None, false, 0;
      closedChs, nextCh, openHandles := {}, 1, {};
      loops := Start(maxLines, maxBytes);
    }

    /** `device` is what opening the hardware returns: a fresh handle or nothing. */
    method Open(device: Option<Handle>) returns (err: bool)
      requires device.Some? ==> device.value == View().nextHandle
      modifies this
      ensures View() == Next(old(View()), Label.Open(External, device.Some?))
      ensures err <==> !old(connected) && device.None?
    {
      if connected {
        return false;
      }
      if device.None? {
        return true;
      }
      port := device;
      connected := true;
      openHandles := openHandles + {device.value};
      loops := loops.(nextHandle := loops.nextHandle + 1);
      SpawnReader();
      SpawnWriter();
      err := false;
    }

    ghost method SpawnReader()
      modifies this`loops
      ensures loops == old(loops).(
                readers := old(loops).readers[old(loops).nextId := ReadLoop(None, |old(loops).streams|, "", Check)],
                liveReader := old(loops).nextId, nextId := old(loops).nextId + 1,
                streams := old(loops).streams + [""])
    {
      loops := loops.(readers := loops.readers[loops.nextId := ReadLoop(None, |loops.streams|, "", Check)],
                      liveReader := loops.nextId, nextId := loops.nextId + 1, streams := loops.streams + [""]);
    }

    ghost method SpawnWriter()
      modifies this`loops
      ensures loops == old(loops).(writers := old(loops).writers[old(loops).nextId := None],
                                   liveWriter := old(loops).nextId, nextId := old(loops).nextId + 1)
    {
      loops := loops.(writers := loops.writers[loops.nextId := None],
                      liveWriter := loops.nextId, nextId := loops.nextId + 1);
    }

    ghost method SpawnRetry()
      modifies this`loops
      ensures loops == old(loops).(retries := old(loops).retries[old(loops).nextId := RetryLoop(None, false)],
                                   lastRetry := Some(old(loops).nextId), nextId := old(loops).nextId + 1)
    {
      loops := loops.(retries := loops.retries[loops.nextId := RetryLoop(None, false)],
                      lastRetry := Some(loops.nextId), nextId := loops.nextId + 1);
    }

    /** Close's first section, under the lock. */
    method CloseLocked()
      modifies this
      ensures View() == Next(old(View()), Label.CloseLocked)
    {
      if port.Some? {
        openHandles := openHandles - {port.value};
        port := None;
      }
      connected := false;
      loops := loops.(closing := loops.closing + 1);
    }

    /** Close's second section, outside the lock: a channel that is already closed is left alone. */
    method CloseStop()
      requires View().closing > 0
      modifies this
      ensures View() == Next(old(View()), Label.CloseStop)
    {
      if stopCh !in closedChs {
        closedChs := closedChs + {stopCh};
      }
      loops := loops.(closing := loops.closing - 1);
    }

    method HandleDisconnect()
      modifies this
      ensures View() == Disconnected(old(View()))
    {
      if port.None? {
        return;
      }
      openHandles := openHandles - {port.value};
      port := None;
      connected := false;
      if stopCh !in closedChs {
        closedChs := closedChs + {stopCh};
      }
      stopCh := nextCh;
      nextCh := nextCh + 1;
      SpawnRetry();
    }
  }
}

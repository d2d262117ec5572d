/**
 The consumer's side of the resident worker as the server runs it: the fields of
 the application updated in place, and the diagnostics a request records.
 */
module WorkerConsumer {
  import opened Wrappers
  import opened Bytes
  import opened WorkerFrames
  import opened WorkerModel
  import opened WorkerLockstep

  /** What the consumer's select picks while it waits for a reply. */
  datatype Choice = CtxDone | Exited | NextEvent

  class Consumer {
    var native: Option<Child>
    var server: Server
    var outgoing: seq<byte>
    var files: map<Path, File>
    var calls: nat
    var last: Outcome

    ghost function Snapshot(): State
      reads this
    {
      State(native, server, outgoing, files, calls, last)
    }

    ghost predicate Valid()
      reads this
    {
      Inv(Snapshot())
    }

    constructor ()
      ensures Valid() && Init(Snapshot())
    {
      native, server, outgoing, files, calls, last := None, Idle, [], map[], 0, Untouched;
    }

    /** Drops the child from the application, kills it, and takes off its events until
        the last of its output has been read and it is reaped. */
    method StopResident() returns (gone: Option<Child>)
      modifies this
      ensures Snapshot() == WorkerModel.StopResident(old(Snapshot()))
      ensures gone.Some? <==> old(native).Some?
      ensures gone.Some? ==> gone.value.reaped
      ensures gone.Some? && !old(native).value.reaped ==> !gone.value.alive && gone.value.stdout == [] && gone.value.events == []
    {
      gone := native;
      native := None;
      outgoing := [];
      if gone.None? || gone.value.reaped {
        return;
      }
      var w := gone.value.(alive := false);
      while w.stdout != [] || w.events != []
        invariant !w.alive
        decreases |w.stdout|, |w.events|
      {
        if w.events != [] {
          w := w.(events := w.events[1..]);
        } else {
          w := w.(stdout := w.stdout[1..], events := [Protocol(w.stdout[0])]);
        }
      }
      gone := Some(w.(reaped := true));
    }

    /** The deferred handler of a failing call. */
    method GiveUp()
      modifies this
      ensures Snapshot() == Fail(old(Snapshot()))
    {
      var gone := StopResident();
      server, last := Idle, Failed;
    }

    method SendRequest(dir: Path)
      requires native.Some?
      modifies this
      ensures Snapshot() == BeginSend(old(Snapshot()), dir)
    {
      hide Frame, ValidPath, ImagePath, ResultPath;
      var frame := WorkerFrame(ImagePath(dir), ResultPath(dir));
      if frame.Failure? {
        GiveUp();
        return;
      }
      server, outgoing := Sending(dir), frame.value;
      native := Some(native.value.(sent := native.value.sent + 1));
    }

    /** A call up to its first wait. */
    method EnterCall(dir: Path, started: bool, logged: bool)
      requires Valid() && server.Idle?
      modifies this
      ensures Valid() && Snapshot() == Step(old(Snapshot()), Enter(dir, started, logged))
    {
      hide Inv, Frame, ValidPath, BeginSend, ImagePath, ResultPath;
      ghost var s := Snapshot();
      StepKeeps(s, Enter(dir, started, logged));
      if native.Some? && native.value.reaped {
        var gone := StopResident();
      }
      calls := calls + 1;
      var starting := native.None?;
      if starting {
        if !started {
          server, last := Idle, Failed;
          return;
        }
        native := Some(NO_CHILD);
      }
      if !logged {
        GiveUp();
        return;
      }
      if starting {
        server := AwaitReady(dir);
      } else {
        SendRequest(dir);
      }
    }

    /** One turn of the wait for READY or DONE; `over` says that the wait ended. */
    method WaitTurn(choice: Choice) returns (over: bool)
      requires Valid() && (server.AwaitReady? || server.AwaitDone?)
      requires choice.Exited? ==> Enabled(Snapshot(), SeeExit)
      requires choice.NextEvent? ==> Enabled(Snapshot(), Take)
      modifies this
      ensures Valid()
      ensures Snapshot() == Step(old(Snapshot()), match choice case CtxDone => Cancel case Exited => SeeExit case NextEvent => Take)
      ensures over <==> server != old(server)
    {
      hide Inv, Frame, ValidPath, ImagePath, ResultPath;
      ghost var s := Snapshot();
      StepKeeps(s, match choice case CtxDone => Cancel case Exited => SeeExit case NextEvent => Take);
      if choice.CtxDone? || choice.Exited? {
        GiveUp();
        return true;
      }
      var event := native.value.events[0];
      native := Some(native.value.(events := native.value.events[1..]));
      if event.Diagnostic? {
        return false;
      }
      var expected := if server.AwaitReady? then Ready else Done;
      if expected == Done && event.line.Timing? {
        if !event.line.good {
          GiveUp();
          return true;
        }
        return false;
      }
      if event.line != expected {
        GiveUp();
        return true;
      }
      if server.AwaitReady? {
        SendRequest(server.dir);
      } else {
        native := Some(native.value.(consumed := native.value.consumed + 1));
        server, last := Idle, Succeeded(server.dir);
      }
      over := true;
    }
  }

  const TAIL: nat := 4096
  const LOG_LIMIT: nat := 0x10_0000
  const NEWLINE: byte := 10

  function LastBytes(all: seq<byte>, n: nat): seq<byte> {
    if |all| <= n then all else all[|all| - n..]
  }

  lemma TailExtends(all: seq<byte>, more: seq<byte>)
    ensures var t := LastBytes(all, TAIL) + more;
            LastBytes(all + more, TAIL) == if |t| > TAIL then t[|t| - TAIL..] else t
  {
  }

  lemma TailMeans(all: seq<byte>)
    ensures var t := LastBytes(all, TAIL);
            |t| == (if |all| < 4096 then |all| else 4096) && all[|all| - |t|..] == t
  {
  }

  lemma Grouped(a: seq<byte>, line: seq<byte>)
    ensures a + line + [NEWLINE] == a + (line + [NEWLINE]) && a <= a + (line + [NEWLINE])
  {
  }

  /** The lines of a request: a bounded log file, and the last bytes for its error. */
  class Recorder {
    var tail: seq<byte>
    var log: seq<byte>
    ghost var all: seq<byte>
    ghost var longest: nat

    ghost predicate Valid()
      reads this
    {
      && tail == LastBytes(all, TAIL)
      && log <= all
      && (|log| < LOG_LIMIT ==> log == all)
      && |log| < LOG_LIMIT + longest + 1
    }

    constructor ()
      ensures Valid() && all == []
    {
      tail, log, all, longest := [], [], [], 0;
    }

    /** Whatever was recorded before, the tail is the last 4096 bytes of everything,
        and the log holds everything until it reaches its limit, and stops there. */
    method Record(line: seq<byte>)
      requires Valid()
      modifies this
      ensures Valid() && all == old(all) + line + [NEWLINE]
      ensures longest == if |line| > old(longest) then |line| else old(longest)
      ensures |tail| == (if |all| < 4096 then |all| else 4096) && all[|all| - |tail|..] == tail
      ensures log <= all && (|log| < 1048576 ==> log == all) && |log| <= 1048576 + longest
    {
      hide LastBytes;
      TailExtends(all, line + [NEWLINE]);
      TailMeans(all + (line + [NEWLINE]));
      Grouped(tail, line);
      Grouped(all, line);
      Grouped(log, line);
      tail := tail + line + [NEWLINE];
      if |tail| > TAIL {
        tail := tail[|tail| - TAIL..];
      }
      all := all + line + [NEWLINE];
      if |line| > longest {
        longest := |line|;
      }
      if |log| < LOG_LIMIT {
        log := log + line + [NEWLINE];
      }
    }
  }
}

/**
 * The test server's process wrapper (struct MTAServer): the console-output ring buffer, the
 * Running flag and the guards of Start, Stop and Restart. The process itself is opaque: what
 * the operating system answers (has the old process ended without a normal exit, did the pipes
 * open, did the signal go out) is passed in.
 */
module MtaServer {
  import opened Wrappers

  /** The number of console lines the ring keeps. */
  const OutputBufferSize: nat := 5000

  datatype ServerError = ProcessAlreadyRunning | ProcessNotStarted | PipeFailed | SignalFailed

  /** The newest `OutputBufferSize` lines of `lines`, oldest first. */
  function Recent(lines: seq<string>): (r: seq<string>)
    ensures |r| == (if |lines| <= OutputBufferSize then |lines| else OutputBufferSize)
    ensures r == lines[|lines| - |r|..]
  {
    if |lines| <= OutputBufferSize then lines else lines[|lines| - OutputBufferSize..]
  }

  /** Each line followed by a newline, as GetLog writes them. */
  function JoinLines(lines: seq<string>): string
  {
    if lines == [] then "" else JoinLines(lines[..|lines| - 1]) + lines[|lines| - 1] + "\n"
  }

  /** The text GetLog makes of the slots it visits: the filled ones, each with a newline. */
  function LogText(slots: seq<Option<string>>): string
  {
    if slots == [] then ""
    else LogText(slots[..|slots| - 1]) + (match slots[|slots| - 1] case None => "" case Some(line) => line + "\n")
  }

  /** The slot `steps` places after `cursor` in a ring of `size` slots. */
  function Advance(cursor: nat, steps: nat, size: nat): (r: nat)
    requires cursor < size && steps <= size
    ensures r < size
    ensures r + size == cursor + steps || r == cursor + steps
  {
    if cursor + steps < size then cursor + steps else cursor + steps - size
  }

  /** The slots in the order the ring visits them, starting at the cursor. */
  function RingOrder(slots: seq<Option<string>>, cursor: nat): (r: seq<Option<string>>)
    requires cursor < |slots|
    ensures |r| == |slots|
    ensures forall i :: 0 <= i < |slots| ==> r[i] == slots[Advance(cursor, i, |slots|)]
  {
    slots[cursor..] + slots[..cursor]
  }

  /** `n` slots nothing has been written to. */
  function Blank(n: nat): (r: seq<Option<string>>)
    ensures |r| == n && forall i :: 0 <= i < n ==> r[i].None?
  {
    seq(n, _ => None)
  }

  /** Each line in a filled slot, in order. */
  function Filled(lines: seq<string>): (r: seq<Option<string>>)
    ensures |r| == |lines| && forall i :: 0 <= i < |lines| ==> r[i] == Some(lines[i])
  {
    seq(|lines|, i requires 0 <= i < |lines| => Some(lines[i]))
  }

  /** The ring as it should look after `written`: empty slots, then the recent lines. */
  function Window(written: seq<string>): (r: seq<Option<string>>)
    ensures |r| == OutputBufferSize
  {
    var recent := Recent(written);
    Blank(OutputBufferSize - |recent|) + Filled(recent)
  }

  lemma {:induction false} LogTextAppend(a: seq<Option<string>>, b: seq<Option<string>>)
    ensures LogText(a + b) == LogText(a) + LogText(b)
    decreases |b|
  {
    if b == [] {
      assert a + b == a;
    } else {
      var last := b[|b| - 1];
      assert (a + b)[..|a + b| - 1] == a + b[..|b| - 1];
      LogTextAppend(a, b[..|b| - 1]);
    }
  }

  lemma {:induction false} LogTextOfBlank(n: nat)
    ensures LogText(Blank(n)) == ""
  {
    if n > 0 {
      assert Blank(n)[..n - 1] == Blank(n - 1);
      LogTextOfBlank(n - 1);
    }
  }

  lemma {:induction false} LogTextOfFilled(lines: seq<string>)
    ensures LogText(Filled(lines)) == JoinLines(lines)
  {
    if lines != [] {
      var n := |lines|;
      assert Filled(lines)[..n - 1] == Filled(lines[..n - 1]);
      LogTextOfFilled(lines[..n - 1]);
    }
  }

  /** The log of a ring laid out as Window(written) is exactly the recent lines, oldest first. */
  lemma LogTextOfWindow(written: seq<string>)
    ensures LogText(Window(written)) == JoinLines(Recent(written))
  {
    var recent := Recent(written);
    LogTextAppend(Blank(OutputBufferSize - |recent|), Filled(recent));
    LogTextOfBlank(OutputBufferSize - |recent|);
    LogTextOfFilled(recent);
  }

  /** One more line joins the recent lines, pushing out the oldest once the ring is full. */
  lemma RecentPush(written: seq<string>, line: string)
    ensures |written| < OutputBufferSize ==> Recent(written + [line]) == Recent(written) + [line]
    ensures |written| >= OutputBufferSize ==> Recent(written + [line]) == Recent(written)[1..] + [line]
  {
    var n := |written|;
    if n >= OutputBufferSize {
      assert (written + [line])[n + 1 - OutputBufferSize..] == written[n - OutputBufferSize..][1..] + [line];
    } else {
      assert written + [line] == Recent(written) + [line];
    }
  }

  lemma BlankCons(k: nat)
    requires k > 0
    ensures Blank(k) == [None] + Blank(k - 1)
  {
  }

  lemma FilledAppend(lines: seq<string>, line: string)
    ensures Filled(lines + [line]) == Filled(lines) + [Some(line)]
  {
  }

  lemma FilledTail(lines: seq<string>)
    requires lines != []
    ensures Filled(lines[1..]) == Filled(lines)[1..]
  {
  }

  /** Before the ring is full, a line takes the place of the first empty slot. */
  lemma WindowPushNotFull(written: seq<string>, line: string)
    requires |written| < OutputBufferSize
    ensures Window(written + [line]) == Window(written)[1..] + [Some(line)]
  {
    RecentPush(written, line);
    var r := Recent(written);
    var k := OutputBufferSize - |r|;
    BlankCons(k);
    FilledAppend(r, line);
    calc {
      Window(written)[1..] + [Some(line)];
      ([None] + (Blank(k - 1) + Filled(r)))[1..] + [Some(line)];
      (Blank(k - 1) + Filled(r)) + [Some(line)];
      Blank(k - 1) + (Filled(r) + [Some(line)]);
      Blank(k - 1) + Filled(r + [line]);
      Window(written + [line]);
    }
  }

  /** Once the ring is full, a line pushes out the oldest one. */
  lemma WindowPushFull(written: seq<string>, line: string)
    requires |written| >= OutputBufferSize
    ensures Window(written + [line]) == Window(written)[1..] + [Some(line)]
  {
    RecentPush(written, line);
    var r := Recent(written);
    assert Blank(0) == [];
    FilledTail(r);
    FilledAppend(r[1..], line);
    calc {
      Window(written)[1..] + [Some(line)];
      Filled(r)[1..] + [Some(line)];
      Filled(r[1..]) + [Some(line)];
      Filled(r[1..] + [line]);
      Window(written + [line]);
    }
  }

  /** One more line shifts the window by one and puts the line last. */
  lemma WindowPush(written: seq<string>, line: string)
    ensures Window(written + [line]) == Window(written)[1..] + [Some(line)]
  {
    if |written| < OutputBufferSize {
      WindowPushNotFull(written, line);
    } else {
      WindowPushFull(written, line);
    }
  }

  /** Writing at the cursor and advancing it shifts the ring order by one, the new value last. */
  lemma RingWrite(slots: seq<Option<string>>, cursor: nat, value: Option<string>)
    requires cursor < |slots|
    ensures RingOrder(slots[cursor := value], Advance(cursor, 1, |slots|)) == RingOrder(slots, cursor)[1..] + [value]
  {
    var n := |slots|;
    var a, b := RingOrder(slots[cursor := value], Advance(cursor, 1, n)), RingOrder(slots, cursor)[1..] + [value];
    forall i | 0 <= i < n
      ensures a[i] == b[i]
    {
      if i < n - 1 {
        assert b[i] == slots[Advance(cursor, i + 1, n)];
      }
    }
  }

  /** A ring of empty slots is what no writes at all leave behind. */
  lemma EmptyRing(slots: seq<Option<string>>)
    requires |slots| == OutputBufferSize
    requires forall i :: 0 <= i < |slots| ==> slots[i].None?
    ensures RingOrder(slots, 0) == Window([])
  {
    assert Recent([]) == [] && Filled([]) == [];
    assert Window([]) == Blank(OutputBufferSize);
    assert slots[0..] + slots[..0] == slots;
  }

  /** The ring walk of GetLog: visit every slot from the cursor on and join the filled ones. */
  method RingLog(slots: array<Option<string>>, cursor: nat) returns (log: string)
    requires cursor < slots.Length
    ensures log == LogText(RingOrder(slots[..], cursor))
  {
    ghost var order := RingOrder(slots[..], cursor);
    log := "";
    var i := 0;
    while i < slots.Length
      invariant 0 <= i <= slots.Length
      invariant log == LogText(order[..i])
    {
      var slot := slots[Advance(cursor, i, slots.Length)];
      assert slot == order[i];
      assert order[..i + 1][..i] == order[..i];
      if slot.Some? {
        log := log + slot.value + "\n";
      }
      i := i + 1;
    }
    assert order[..i] == order;
  }

  class MtaServer {
    const path: string
    /** The ring's slots; None is a slot nothing has been written to. */
    const outputBuffer: array<Option<string>>
    /** The slot the ring currently points at: the next one written and the first one read. */
    var cursor: nat
    var running: bool
    /** Whether a process has been spawned and started. */
    var processStarted: bool
    /** Every console line captured so far, oldest first. */
    ghost var written: seq<string>

    ghost predicate Valid()
      reads this, outputBuffer
    {
      outputBuffer.Length == OutputBufferSize &&
      cursor < OutputBufferSize &&
      RingOrder(outputBuffer[..], cursor) == Window(written)
    }

    /** NewMTAServer: an empty 5000-slot ring and no process. */
    constructor (path: string)
      ensures Valid() && fresh(outputBuffer)
      ensures this.path == path
      ensures forall i :: 0 <= i < outputBuffer.Length ==> outputBuffer[i].None?
      ensures written == [] && !running && !processStarted
    {
      this.path := path;
      outputBuffer := new Option<string>[OutputBufferSize](_ => None);
      cursor := 0;
      running := false;
      processStarted := false;
      written := [];
      new;
      EmptyRing(outputBuffer[..]);
    }

    /** The scanner's step: store one console line at the cursor, then advance it. */
    method WriteOutputLine(text: string)
      requires Valid()
      modifies this`cursor, this`written, outputBuffer
      ensures Valid()
      ensures outputBuffer[..] == old(outputBuffer[..])[old(cursor) := Some(text)]
      ensures cursor == Advance(old(cursor), 1, OutputBufferSize)
      ensures written == old(written) + [text]
    {
      RingWrite(outputBuffer[..], cursor, Some(text));
      WindowPush(written, text);
      outputBuffer[cursor] := Some(text);
      cursor := Advance(cursor, 1, OutputBufferSize);
      written := written + [text];
    }

    /** GetLog: walk the ring from the cursor and join the filled slots, each with a newline. */
    method GetLog() returns (log: string)
      requires Valid()
      ensures log == LogText(RingOrder(outputBuffer[..], cursor))
      ensures log == JoinLines(Recent(written))
    {
      log := RingLog(outputBuffer, cursor);
      LogTextOfWindow(written);
    }

    /**
     * Start: refuse only when the previous process has a recorded process state that is not a
     * normal exit, i.e. it has ended without exiting normally (`previousEndedAbnormally`). A
     * process that is still running has no process state yet, so it does not stop a second
     * spawn, and neither does `running`. Otherwise spawn a new command (which forgets the old
     * process) and, once both pipes are open, mark it running.
     */
    method Start(previousEndedAbnormally: bool, pipesOpen: bool) returns (err: Option<ServerError>)
      modifies this`running, this`processStarted
      ensures old(processStarted) && previousEndedAbnormally ==> err == Some(ProcessAlreadyRunning) && unchanged(this)
      ensures !(old(processStarted) && previousEndedAbnormally) && !pipesOpen ==>
        err == Some(PipeFailed) && !processStarted && running == old(running)
      ensures !(old(processStarted) && previousEndedAbnormally) && pipesOpen ==>
        err == None && processStarted && running
    {
      if processStarted && previousEndedAbnormally {
        return Some(ProcessAlreadyRunning);
      }
      processStarted := false;
      if !pipesOpen {
        return Some(PipeFailed);
      }
      running := true;
      processStarted := true;
      err := None;
    }

    /**
     * Stop: refuse when no process was started or it is not running; otherwise clear Running
     * before signalling the process.
     */
    method Stop(signalSent: bool) returns (err: Option<ServerError>)
      modifies this`running
      ensures !old(processStarted) || !old(running) ==> err == Some(ProcessNotStarted) && unchanged(this)
      ensures old(processStarted) && old(running) ==>
        !running && err == (if signalSent then None else Some(SignalFailed))
    {
      if !processStarted || !running {
        return Some(ProcessNotStarted);
      }
      running := false;
      if !signalSent {
        return Some(SignalFailed);
      }
      err := None;
    }

    /** Restart: Stop, and Start only when Stop succeeded. */
    method Restart(signalSent: bool, previousEndedAbnormally: bool, pipesOpen: bool) returns (err: Option<ServerError>)
      modifies this`running, this`processStarted
      ensures !old(processStarted) || !old(running) ==> err == Some(ProcessNotStarted) && unchanged(this)
      ensures old(processStarted) && old(running) && !signalSent ==>
        err == Some(SignalFailed) && !running && processStarted
      ensures old(processStarted) && old(running) && signalSent && previousEndedAbnormally ==>
        err == Some(ProcessAlreadyRunning) && !running && processStarted
      ensures old(processStarted) && old(running) && signalSent && !previousEndedAbnormally ==>
        (err == None <==> pipesOpen) && (running <==> pipesOpen) && (processStarted <==> pipesOpen)
    {
      err := Stop(signalSent);
      if err.Some? {
        return;
      }
      err := Start(previousEndedAbnormally, pipesOpen);
    }
  }

  /**
   * Nothing keeps a running server from being started again: its process is still alive, so it
   * has no process state, and the second Start spawns another process.
   */
  method StartWhileRunning(server: MtaServer) returns (first: Option<ServerError>, second: Option<ServerError>)
    modifies server
    ensures first == None && second == None
    ensures server.processStarted && server.running
  {
    first := server.Start(false, true);
    second := server.Start(false, true);
  }
}

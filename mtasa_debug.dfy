/**
 * The debug adapter's session state (class MTASADebugSession): the DAP request handlers
 * with their HTTP calls replaced by an outgoing log of backend calls and DAP events, and
 * the backend's replies passed in as arguments of the step methods that handle them.
 */
module MtasaDebug {
  import opened Wrappers
  import opened JsStrings

  /** The one and only thread the adapter reports. */
  const ThreadId: int := 1
  const ThreadName: string := "thread 1"

  /** The first breakpoint id the session hands out. */
  const FirstBreakpointId: int := 1000

  /** The internal marker key the backend adds to variable tables; never shown to the editor. */
  const ObjectMarker: string := "__isObject"
  /**
   * The method the variable loops call on the decoded snapshot table. A table with an own entry
   * of this name shadows the method with a string, and the call throws.
   */
  const OwnPropertyTest: string := "hasOwnProperty"

  /** Where a server keeps its resources, relative to the server path. */
  const ResourcesDir: string := "/mods/deathmatch/resources/"

  /** The HTTP status the adapter treats as success. */
  const StatusOk: int := 200

  /** The debugger resume state and its wire code. */
  datatype ResumeMode = Resume | Paused | LineStep {
    function Code(): int
    {
      match this
      case Resume => 0
      case Paused => 1
      case LineStep => 2
    }
  }

  /** What the session sends: calls to the backend and events to the editor, in order. */
  datatype Outgoing =
    | ClearBreakpoints
    | SetBreakpoint(file: string, line: int)
    | SetResumeMode(resumeMode: int)
    | InitializedEvent
    | StoppedEvent(reason: string, threadId: int)

  /** The outcome of one HTTP request: a transport error or a status with a decoded body. */
  datatype HttpReply<T> = TransportError | Reply(status: int, body: T)

  /** The body of `get_info`; a missing field reads as "". */
  datatype InfoBody = InfoBody(resourceName: string, resourcePath: string)

  /** The body of `get_resume_mode`. */
  datatype ResumeModeBody = ResumeModeBody(
    resumeMode: int,
    currentFile: string,
    currentLine: int,
    localVariables: map<string, string>,
    upvalueVariables: map<string, string>,
    globalVariables: map<string, string>)

  datatype Breakpoint = Breakpoint(verified: bool, line: int, id: int)
  datatype Thread = Thread(id: int, name: string)
  datatype StackFrame = StackFrame(id: int, name: string, sourceName: string, sourcePath: string, line: int, column: int)
  datatype StackTrace = StackTrace(stackFrames: seq<StackFrame>, totalFrames: int)
  datatype Scope = Scope(name: string, variablesReference: int, expensive: bool)
  datatype Variable = Variable(name: string, kind: string, value: string, variablesReference: int)

  /** Which snapshot a variable-handle key selects, by its prefix. */
  datatype ScopeKind = LocalScope | ClosureScope | GlobalScope | NoScope

  function ScopeKindOf(key: string): ScopeKind
  {
    if StartsWith(key, "local") then LocalScope
    else if StartsWith(key, "closure") then ClosureScope
    else if StartsWith(key, "global") then GlobalScope
    else NoScope
  }

  /** The keys scopesRequest makes select, by prefix, the table each scope is named after. */
  lemma ScopeKeyKinds(frame: string)
    ensures ScopeKindOf("local_" + frame) == LocalScope
    ensures ScopeKindOf("closure_" + frame) == ClosureScope
    ensures ScopeKindOf("global_" + frame) == GlobalScope
  {
    assert ("local_" + frame)[..5] == "local";
    assert ("closure_" + frame)[..7] == "closure";
    assert ("closure_" + frame)[..5][0] == 'c';
    assert ("global_" + frame)[..6] == "global";
    assert ("global_" + frame)[..5][0] == 'g' && ("global_" + frame)[..7][0] == 'g';
  }

  /**
   * Line conversion of the adapter library with debugger lines starting at 1: a client that
   * counts from 0 is shifted by one, a client that counts from 1 is passed through.
   */
  function ClientToDebuggerLine(line: int, clientLinesStartAt1: bool): int
  {
    if clientLinesStartAt1 then line else line + 1
  }

  function DebuggerToClientLine(line: int, clientLinesStartAt1: bool): int
  {
    if clientLinesStartAt1 then line else line - 1
  }

  lemma LineConversionRoundTrip(line: int, clientLinesStartAt1: bool)
    ensures DebuggerToClientLine(ClientToDebuggerLine(line, clientLinesStartAt1), clientLinesStartAt1) == line
    ensures ClientToDebuggerLine(DebuggerToClientLine(line, clientLinesStartAt1), clientLinesStartAt1) == line
  {
  }

  /**
   * getRelativeResourcePath: lower-case the absolute path, remove the first occurrence of the
   * lower-cased resource path, and turn every backslash into a slash.
   */
  function RelativeResourcePath(absolutePath: string, resourcePath: string): (r: string)
    ensures '\\' !in r
  {
    ForwardSlashes(RemoveFirst(ToLower(absolutePath), ToLower(resourcePath)))
  }

  /** When the resource path is a case-insensitive prefix, the result is the rest of the path. */
  lemma RelativeResourcePathStripsPrefix(absolutePath: string, resourcePath: string)
    requires StartsWith(ToLower(absolutePath), ToLower(resourcePath))
    ensures RelativeResourcePath(absolutePath, resourcePath) == ForwardSlashes(ToLower(absolutePath)[|resourcePath|..])
  {
    var lower, prefix := ToLower(absolutePath), ToLower(resourcePath);
    assert IndexOf(lower, prefix) == Some(0);
    assert RemoveFirst(lower, prefix) == lower[|prefix|..];
  }

  /** A path built under the resource path comes back as its own lower-cased, slash-separated tail. */
  lemma RelativeResourcePathOfAbsolute(resourcePath: string, relative: string)
    ensures RelativeResourcePath(resourcePath + relative, resourcePath) == ForwardSlashes(ToLower(relative))
  {
    ToLowerAppend(resourcePath, relative);
    assert ToLower(resourcePath + relative)[..|resourcePath|] == ToLower(resourcePath);
    RelativeResourcePathStripsPrefix(resourcePath + relative, resourcePath);
    assert ToLower(resourcePath + relative)[|resourcePath|..] == ToLower(relative);
  }

  /** The `set_breakpoint` calls for the requested client lines, in request order. */
  function BreakpointCalls(file: string, clientLines: seq<int>, clientLinesStartAt1: bool): (r: seq<Outgoing>)
    ensures |r| == |clientLines|
    ensures forall i :: 0 <= i < |r| ==>
      r[i].SetBreakpoint? && r[i].file == file &&
      DebuggerToClientLine(r[i].line, clientLinesStartAt1) == clientLines[i]
  {
    seq(|clientLines|, i requires 0 <= i < |clientLines| =>
      SetBreakpoint(file, ClientToDebuggerLine(clientLines[i], clientLinesStartAt1)))
  }

  /** The variables list for one snapshot: each own entry but the marker, once, not expandable. */
  ghost predicate IsListing(vs: seq<Variable>, m: map<string, string>)
  {
    (forall j :: 0 <= j < |vs| ==>
      vs[j].name in m && vs[j].name != ObjectMarker && vs[j].value == m[vs[j].name] &&
      vs[j].kind == "string" && vs[j].variablesReference == 0) &&
    (forall k :: k in m && k != ObjectMarker ==> k in Names(vs)) &&
    (forall j, j' :: 0 <= j < j' < |vs| ==> vs[j].name != vs[j'].name)
  }

  ghost function Names(vs: seq<Variable>): set<string>
  {
    set j | 0 <= j < |vs| :: vs[j].name
  }

  /**
   * The `for..in` loop of variablesRequest over one snapshot object. When the object has an own
   * `hasOwnProperty` entry, the loop's first call to it throws, and None stands for that.
   */
  method ListVariables(m: map<string, string>) returns (r: Option<seq<Variable>>)
    ensures r.None? <==> OwnPropertyTest in m
    ensures r.Some? ==> IsListing(r.value, m)
  {
    if OwnPropertyTest in m {
      return None;
    }
    var vs: seq<Variable> := [];
    var pending := m.Keys;
    while pending != {}
      invariant pending <= m.Keys
      invariant forall j :: 0 <= j < |vs| ==>
        vs[j].name in m && vs[j].name !in pending && vs[j].name != ObjectMarker &&
        vs[j].value == m[vs[j].name] && vs[j].kind == "string" && vs[j].variablesReference == 0
      invariant forall k :: k in m && k !in pending && k != ObjectMarker ==> k in Names(vs)
      invariant forall j, j' :: 0 <= j < j' < |vs| ==> vs[j].name != vs[j'].name
      decreases pending
    {
      var name :| name in pending;
      if name != ObjectMarker {
        var v := Variable(name, "string", m[name], 0);
        assert Names(vs + [v]) == Names(vs) + {name} by {
          assert forall j :: 0 <= j < |vs| ==> (vs + [v])[j] == vs[j];
          assert (vs + [v])[|vs|] == v;
        }
        vs := vs + [v];
      }
      pending := pending - {name};
    }
    r := Some(vs);
  }

  /** The single thread threadsRequest reports. */
  function ThreadsRequest(): (r: seq<Thread>)
    ensures |r| == 1 && r[0].id == ThreadId
  {
    [Thread(ThreadId, ThreadName)]
  }

  class MtasaDebugSession {
    /** Whether the editor counts lines from 1 (the adapter's own lines always start at 1). */
    const clientLinesStartAt1: bool

    var breakpointId: int
    var currentFile: string
    var currentLine: int
    var currentLocalVariables: map<string, string>
    var currentUpvalueVariables: map<string, string>
    var currentGlobalVariables: map<string, string>
    /** Source path to the breakpoints last set for it. */
    var breakPoints: map<string, seq<Breakpoint>>
    var pollTimerStarted: bool
    /** The variable-handle table and its next free handle. */
    var variableHandles: map<int, string>
    var nextHandle: int
    var resourceName: string
    var resourcesPath: string
    var resourcePath: string
    /** Whether the resource paths have been set from accepted launch info. */
    var infoReceived: bool
    var isRunning: bool
    /** Everything sent so far, oldest first. */
    var log: seq<Outgoing>

    ghost predicate Valid()
      reads this
    {
      FirstBreakpointId <= breakpointId &&
      (forall p, i :: p in breakPoints && 0 <= i < |breakPoints[p]| ==> breakPoints[p][i].id < breakpointId) &&
      (forall h :: h in variableHandles ==> h < nextHandle) &&
      (pollTimerStarted ==> infoReceived) &&
      (forall i :: 0 <= i < |log| && log[i].StoppedEvent? ==> Thread(log[i].threadId, ThreadName) in ThreadsRequest())
    }

    /** A new session; `firstHandle` is wherever the handle table starts counting. */
    constructor (clientLinesStartAt1: bool, firstHandle: int)
      ensures Valid()
      ensures this.clientLinesStartAt1 == clientLinesStartAt1
      ensures breakpointId == FirstBreakpointId && breakPoints == map[]
      ensures variableHandles == map[] && nextHandle == firstHandle
      ensures currentFile == "" && currentLine == 0
      ensures currentLocalVariables == map[] && currentUpvalueVariables == map[] && currentGlobalVariables == map[]
      ensures !pollTimerStarted && !infoReceived && !isRunning
      ensures resourceName == "" && resourcesPath == "" && resourcePath == ""
      ensures log == []
    {
      this.clientLinesStartAt1 := clientLinesStartAt1;
      breakpointId := FirstBreakpointId;
      currentFile, currentLine := "", 0;
      currentLocalVariables, currentUpvalueVariables, currentGlobalVariables := map[], map[], map[];
      breakPoints := map[];
      pollTimerStarted := false;
      variableHandles, nextHandle := map[], firstHandle;
      resourceName, resourcesPath, resourcePath := "", "", "";
      infoReceived := false;
      isRunning := false;
      log := [];
    }

    /** The variable snapshot a scope kind selects. */
    function Snapshot(kind: ScopeKind): map<string, string>
      reads this
    {
      match kind
      case LocalScope => currentLocalVariables
      case ClosureScope => currentUpvalueVariables
      case GlobalScope => currentGlobalVariables
      case NoScope => map[]
    }

    /**
     * setBreakPointsRequest: clear the backend's breakpoints, then give each requested line a
     * verified breakpoint with the next id and send it to the backend. Before launch info has
     * set the resource path, computing the relative path throws after the first id is taken.
     */
    method SetBreakPointsRequest(path: string, clientLines: seq<int>) returns (r: Option<seq<Breakpoint>>)
      requires Valid()
      modifies this`breakpointId, this`breakPoints, this`log
      ensures Valid()
      ensures r.None? <==> !infoReceived && |clientLines| > 0
      ensures r.Some? ==> |r.value| == |clientLines|
      ensures r.Some? ==> forall i :: 0 <= i < |clientLines| ==> r.value[i] == Breakpoint(true, clientLines[i], old(breakpointId) + i)
      ensures breakpointId == old(breakpointId) + (if r.Some? then |clientLines| else 1)
      ensures r.Some? ==> breakPoints == old(breakPoints)[path := r.value]
      ensures r.None? ==> breakPoints == old(breakPoints)
      ensures log == old(log) + [ClearBreakpoints] +
        (if r.Some? then BreakpointCalls(RelativeResourcePath(path, resourcePath), clientLines, clientLinesStartAt1) else [])
    {
      log := log + [ClearBreakpoints];
      if !infoReceived && |clientLines| > 0 {
        // The first line takes an id; computing its relative path then throws.
        breakpointId := breakpointId + 1;
        return None;
      }
      var breakpoints := AddBreakpoints(RelativeResourcePath(path, resourcePath), clientLines);
      breakPoints := breakPoints[path := breakpoints];
      r := Some(breakpoints);
    }

    /** The loop of setBreakPointsRequest: one breakpoint and one backend call per line. */
    method AddBreakpoints(file: string, clientLines: seq<int>) returns (breakpoints: seq<Breakpoint>)
      modifies this`breakpointId, this`log
      ensures breakpointId == old(breakpointId) + |clientLines|
      ensures |breakpoints| == |clientLines|
      ensures forall i :: 0 <= i < |clientLines| ==> breakpoints[i] == Breakpoint(true, clientLines[i], old(breakpointId) + i)
      ensures log == old(log) + BreakpointCalls(file, clientLines, clientLinesStartAt1)
    {
      breakpoints := [];
      var i := 0;
      while i < |clientLines|
        invariant 0 <= i <= |clientLines|
        invariant breakpointId == old(breakpointId) + i
        invariant |breakpoints| == i
        invariant forall j :: 0 <= j < i ==> breakpoints[j] == Breakpoint(true, clientLines[j], old(breakpointId) + j)
        invariant log == old(log) + BreakpointCalls(file, clientLines[..i], clientLinesStartAt1)
      {
        var l := ClientToDebuggerLine(clientLines[i], clientLinesStartAt1);
        LineConversionRoundTrip(clientLines[i], clientLinesStartAt1);
        var bp := Breakpoint(true, DebuggerToClientLine(l, clientLinesStartAt1), breakpointId);
        breakpointId := breakpointId + 1;
        breakpoints := breakpoints + [bp];
        assert BreakpointCalls(file, clientLines[..i + 1], clientLinesStartAt1) ==
          BreakpointCalls(file, clientLines[..i], clientLinesStartAt1) + [SetBreakpoint(file, l)];
        log := log + [SetBreakpoint(file, l)];
        i := i + 1;
      }
      assert clientLines[..i] == clientLines;
    }

    /** Handles.create: store `value` under a handle never handed out before. */
    method CreateHandle(value: string) returns (h: int)
      requires Valid()
      modifies this`variableHandles, this`nextHandle
      ensures Valid()
      ensures h !in old(variableHandles) && old(nextHandle) <= h < nextHandle
      ensures variableHandles == old(variableHandles)[h := value]
    {
      h := nextHandle;
      nextHandle := nextHandle + 1;
      variableHandles := variableHandles[h := value];
    }

    /** scopesRequest: three scopes whose fresh handles name the frame's local, closure and global tables. */
    method ScopesRequest(frameId: int) returns (scopes: seq<Scope>)
      requires Valid()
      modifies this`variableHandles, this`nextHandle
      ensures Valid()
      ensures |scopes| == 3
      ensures scopes[0].name == "Local" && scopes[1].name == "Closure" && scopes[2].name == "Global"
      ensures !scopes[0].expensive && !scopes[1].expensive && !scopes[2].expensive
      ensures scopes[0].variablesReference !in old(variableHandles) &&
              scopes[1].variablesReference !in old(variableHandles) &&
              scopes[2].variablesReference !in old(variableHandles)
      ensures scopes[0].variablesReference < scopes[1].variablesReference < scopes[2].variablesReference
      ensures variableHandles == old(variableHandles)
        [scopes[0].variablesReference := "local_" + IntToString(frameId)]
        [scopes[1].variablesReference := "closure_" + IntToString(frameId)]
        [scopes[2].variablesReference := "global_" + IntToString(frameId)]
      ensures ScopeKindOf(variableHandles[scopes[0].variablesReference]) == LocalScope
      ensures ScopeKindOf(variableHandles[scopes[1].variablesReference]) == ClosureScope
      ensures ScopeKindOf(variableHandles[scopes[2].variablesReference]) == GlobalScope
    {
      var frame := IntToString(frameId);
      ghost var before := variableHandles;
      var local := CreateHandle("local_" + frame);
      assert variableHandles == before[local := "local_" + frame];
      ghost var afterLocal := variableHandles;
      var closure := CreateHandle("closure_" + frame);
      assert variableHandles == afterLocal[closure := "closure_" + frame];
      var global := CreateHandle("global_" + frame);
      assert local < closure < global;
      assert local !in before && closure !in before && global !in before;
      assert variableHandles[local] == "local_" + frame;
      assert variableHandles[closure] == "closure_" + frame;
      scopes := [Scope("Local", local, false), Scope("Closure", closure, false), Scope("Global", global, false)];
      ScopeKeyKinds(frame);
    }

    /**
     * variablesRequest: the entries of the snapshot the handle's key selects. An unknown handle
     * makes the source throw (its key is undefined), which is None here.
     */
    method VariablesRequest(variablesReference: int) returns (r: Option<seq<Variable>>)
      ensures r.None? <==>
        (variablesReference !in variableHandles ||
         OwnPropertyTest in Snapshot(ScopeKindOf(variableHandles[variablesReference])))
      ensures r.Some? ==> IsListing(r.value, Snapshot(ScopeKindOf(variableHandles[variablesReference])))
    {
      if variablesReference !in variableHandles {
        return None;
      }
      var id := variableHandles[variablesReference];
      r := Some([]);
      if StartsWith(id, "local") {
        r := ListVariables(currentLocalVariables);
      } else if StartsWith(id, "closure") {
        r := ListVariables(currentUpvalueVariables);
      } else if StartsWith(id, "global") {
        r := ListVariables(currentGlobalVariables);
      }
    }

    /** stackTraceRequest: one frame at the paused file and line. */
    function StackTraceRequest(): (r: StackTrace)
      reads this
      ensures |r.stackFrames| == 1 && r.totalFrames == 1
      ensures r.stackFrames[0].sourcePath == resourcesPath + currentFile
      ensures ClientToDebuggerLine(r.stackFrames[0].line, clientLinesStartAt1) == currentLine
      ensures r.stackFrames[0].sourceName == Basename(r.stackFrames[0].sourcePath)
    {
      var path := resourcesPath + currentFile;
      StackTrace([StackFrame(0, "Frame 0", Basename(path), path, DebuggerToClientLine(currentLine, clientLinesStartAt1), 0)], 1)
    }

    /** The part of continueRequest that runs at once: ask the backend to resume. */
    method ContinueRequest()
      requires Valid()
      modifies this`log
      ensures Valid()
      ensures log == old(log) + [SetResumeMode(Resume.Code())]
    {
      log := log + [SetResumeMode(Resume.Code())];
    }

    /** The reply callback of continueRequest. */
    method OnContinueReply()
      requires Valid()
      modifies this`isRunning
      ensures Valid() && isRunning
    {
      isRunning := true;
    }

    /** The part of nextRequest that runs at once: ask the backend for a line step. */
    method NextRequest()
      requires Valid()
      modifies this`log
      ensures Valid()
      ensures log == old(log) + [SetResumeMode(LineStep.Code())]
    {
      log := log + [SetResumeMode(LineStep.Code())];
    }

    /** The reply callback of nextRequest. */
    method OnNextReply()
      requires Valid()
      modifies this`isRunning
      ensures Valid() && !isRunning
    {
      isRunning := false;
    }

    /**
     * The `get_info` reply handler of launchRequest. Accepts only a 200 reply naming both the
     * resource and its path; then sets the resource paths, starts the poll timer unless it is
     * already running, announces Initialized and continues execution.
     */
    method LaunchInfo(serverPath: string, reply: HttpReply<InfoBody>) returns (accepted: bool, timerCreated: bool)
      requires Valid()
      modifies this`resourceName, this`resourcesPath, this`resourcePath, this`infoReceived,
               this`pollTimerStarted, this`log
      ensures Valid()
      ensures accepted <==> reply.Reply? && reply.status == StatusOk &&
                            reply.body.resourceName != "" && reply.body.resourcePath != ""
      ensures timerCreated <==> accepted && !old(pollTimerStarted)
      ensures pollTimerStarted == (old(pollTimerStarted) || accepted)
      ensures accepted ==>
        resourceName == reply.body.resourceName &&
        resourcesPath == serverPath + ResourcesDir &&
        resourcePath == serverPath + ResourcesDir + reply.body.resourcePath &&
        infoReceived &&
        log == old(log) + [InitializedEvent, SetResumeMode(Resume.Code())]
      ensures !accepted ==> unchanged(this)
    {
      accepted := reply.Reply? && reply.status == StatusOk &&
                  reply.body.resourceName != "" && reply.body.resourcePath != "";
      timerCreated := false;
      if !accepted {
        return;
      }
      resourceName := reply.body.resourceName;
      resourcesPath := serverPath + ResourcesDir;
      resourcePath := serverPath + ResourcesDir + reply.body.resourcePath;
      infoReceived := true;
      if !pollTimerStarted {
        pollTimerStarted := true;
        timerCreated := true;
      }
      log := log + [InitializedEvent];
      ContinueRequest();
    }

    /**
     * One tick of the paused poller, given the `get_resume_mode` reply. A 200 reply in mode
     * Paused copies the snapshot and stops the editor, on every such tick.
     */
    method CheckForPausedTick(reply: HttpReply<ResumeModeBody>)
      requires Valid()
      modifies this`currentFile, this`currentLine, this`currentLocalVariables,
               this`currentUpvalueVariables, this`currentGlobalVariables, this`isRunning, this`log
      ensures Valid()
      ensures IsPausedReply(reply) ==>
        currentFile == reply.body.currentFile &&
        currentLine == reply.body.currentLine &&
        currentLocalVariables == reply.body.localVariables &&
        currentUpvalueVariables == reply.body.upvalueVariables &&
        currentGlobalVariables == reply.body.globalVariables &&
        !isRunning &&
        log == old(log) + [StoppedEvent("breakpoint", ThreadId)]
      ensures !IsPausedReply(reply) ==> unchanged(this)
    {
      if reply.Reply? && reply.status == StatusOk && reply.body.resumeMode == Paused.Code() {
        currentFile := reply.body.currentFile;
        currentLine := reply.body.currentLine;
        currentLocalVariables := reply.body.localVariables;
        currentUpvalueVariables := reply.body.upvalueVariables;
        currentGlobalVariables := reply.body.globalVariables;
        isRunning := false;
        log := log + [StoppedEvent("breakpoint", ThreadId)];
      }
    }
  }

  predicate IsPausedReply(reply: HttpReply<ResumeModeBody>)
  {
    reply.Reply? && reply.status == StatusOk && reply.body.resumeMode == Paused.Code()
  }

  /** The poller does not consult isRunning: two paused ticks in a row stop the editor twice. */
  method PausedTwice(session: MtasaDebugSession, reply: HttpReply<ResumeModeBody>)
    requires session.Valid() && IsPausedReply(reply)
    modifies session
    ensures session.Valid() && !session.isRunning
    ensures session.log == old(session.log) + [StoppedEvent("breakpoint", ThreadId), StoppedEvent("breakpoint", ThreadId)]
  {
    session.CheckForPausedTick(reply);
    session.CheckForPausedTick(reply);
  }

  /** Every id of a later setBreakpoints reply is above every id of an earlier one. */
  method BreakpointIdsIncrease(session: MtasaDebugSession, pathA: string, linesA: seq<int>, pathB: string, linesB: seq<int>)
    returns (first: Option<seq<Breakpoint>>, second: Option<seq<Breakpoint>>)
    requires session.Valid() && session.infoReceived
    modifies session
    ensures first.Some? && second.Some?
    ensures forall i, j :: 0 <= i < |first.value| && 0 <= j < |second.value| ==> first.value[i].id < second.value[j].id
  {
    first := session.SetBreakPointsRequest(pathA, linesA);
    second := session.SetBreakPointsRequest(pathB, linesB);
  }

  lemma TwoLineCalls(file: string)
    ensures BreakpointCalls(file, [10, 20], true) == [SetBreakpoint(file, 10), SetBreakpoint(file, 20)]
  {
  }

  /** A lower-case name without backslashes is its own relative form. */
  lemma PlainFileName()
    ensures ForwardSlashes(ToLower("server.lua")) == "server.lua"
  {
    assert ToLower("server.lua") == "server.lua";
  }

  /** server.lua under the resource path is sent as "server.lua". */
  lemma ServerLuaRelative(resourcePath: string)
    ensures RelativeResourcePath(resourcePath + "server.lua", resourcePath) == "server.lua"
  {
    RelativeResourcePathOfAbsolute(resourcePath, "server.lua");
    PlainFileName();
  }

  /** A session that counts lines from 1, launched against a backend reporting resource "debug" at "debug/". */
  method LaunchDebugResource(serverPath: string) returns (session: MtasaDebugSession)
    ensures fresh(session) && session.Valid()
    ensures session.clientLinesStartAt1 && session.infoReceived && session.breakpointId == FirstBreakpointId
    ensures session.resourcePath == serverPath + ResourcesDir + "debug/"
    ensures session.log == [InitializedEvent, SetResumeMode(0)]
  {
    session := new MtasaDebugSession(true, 1);
    var accepted, _ := session.LaunchInfo(serverPath, Reply(StatusOk, InfoBody("debug", "debug/")));
    assert accepted;
  }

  /** Lines 10 and 20 of the resource's server.lua, set on a launched session that counts lines from 1. */
  method SetServerLuaBreakpoints(session: MtasaDebugSession) returns (breakpoints: Option<seq<Breakpoint>>)
    requires session.Valid() && session.infoReceived
    requires session.clientLinesStartAt1 && session.breakpointId == FirstBreakpointId
    modifies session
    ensures breakpoints == Some([Breakpoint(true, 10, 1000), Breakpoint(true, 20, 1001)])
    ensures session.log == old(session.log) + [ClearBreakpoints, SetBreakpoint("server.lua", 10), SetBreakpoint("server.lua", 20)]
  {
    // <serverPath>/mods/deathmatch/resources/debug/server.lua
    var file := session.resourcePath + "server.lua";
    ServerLuaRelative(session.resourcePath);
    TwoLineCalls("server.lua");
    breakpoints := session.SetBreakPointsRequest(file, [10, 20]);
    ghost var bps := breakpoints.value;
    assert bps[0] == Breakpoint(true, 10, 1000) && bps[1] == Breakpoint(true, 20, 1001);
    assert bps == [Breakpoint(true, 10, 1000), Breakpoint(true, 20, 1001)];
  }

  /**
   * Launch against a server at any path whose backend reports resource "debug" at "debug/",
   * then set breakpoints on lines 10 and 20 of the resource's server.lua.
   */
  method LaunchThenSetBreakpoints(serverPath: string) returns (breakpoints: Option<seq<Breakpoint>>, sent: seq<Outgoing>)
    ensures breakpoints == Some([Breakpoint(true, 10, 1000), Breakpoint(true, 20, 1001)])
    ensures sent == [InitializedEvent, SetResumeMode(0), ClearBreakpoints,
                     SetBreakpoint("server.lua", 10), SetBreakpoint("server.lua", 20)]
  {
    var session := LaunchDebugResource(serverPath);
    breakpoints := SetServerLuaBreakpoints(session);
    sent := session.log;
  }

}

/**
 * The test server's debug backend (struct MTADebugAPI): one method per HTTP handler, with the
 * JSON request body passed in as a typed argument and the JSON response returned.
 */
module MtaDebugApi {
  import opened Wrappers

  const ResumeModeResume: int := 0
  const ResumeModePaused: int := 1
  const ResumeModeLineStep: int := 2

  datatype DebugBreakpoint = DebugBreakpoint(file: string, line: int)

  /** debugBreakpoint.equals: the same file and the same line. */
  function Equals(bp: DebugBreakpoint, other: DebugBreakpoint): (r: bool)
    ensures r <==> bp == other
  {
    bp.file == other.file && bp.line == other.line
  }

  /** The body of `get_resume_mode` and `set_resume_mode`. */
  datatype ResumeModeMessage = ResumeModeMessage(
    resumeMode: int,
    currentFile: string,
    currentLine: int,
    localVariables: map<string, string>,
    upvalueVariables: map<string, string>,
    globalVariables: map<string, string>)

  /** The entries of `s` that equal `bp`, in order. */
  function Matching(s: seq<DebugBreakpoint>, bp: DebugBreakpoint): seq<DebugBreakpoint>
  {
    if s == [] then [] else Matching(s[..|s| - 1], bp) + (if s[|s| - 1] == bp then [s[|s| - 1]] else [])
  }

  /** The filter keeps only copies of `bp`, and keeps none exactly when `bp` does not occur. */
  lemma {:induction false} MatchingKeepsEqual(s: seq<DebugBreakpoint>, bp: DebugBreakpoint)
    ensures forall x :: x in Matching(s, bp) ==> x == bp
    ensures Matching(s, bp) == [] <==> bp !in s
  {
    if s != [] {
      MatchingKeepsEqual(s[..|s| - 1], bp);
      assert s == s[..|s| - 1] + [s[|s| - 1]];
    }
  }

  /** The filter loop of handlerRemoveBreakpoint: keep the entries of `source` that equal `bp`. */
  method KeepEqual(source: seq<DebugBreakpoint>, bp: DebugBreakpoint) returns (kept: seq<DebugBreakpoint>)
    ensures kept == Matching(source, bp)
  {
    kept := [];
    var i := 0;
    while i < |source|
      invariant 0 <= i <= |source|
      invariant kept == Matching(source[..i], bp)
    {
      if Equals(source[i], bp) {
        kept := kept + [source[i]];
      }
      assert source[..i + 1][..i] == source[..i];
      i := i + 1;
    }
    assert source[..i] == source;
  }

  class MtaDebugApi {
    var breakpoints: seq<DebugBreakpoint>
    var resumeMode: int
    var currentBreakpoint: DebugBreakpoint
    var currentLocalVariables: map<string, string>
    var currentUpvalueVariables: map<string, string>
    var currentGlobalVariables: map<string, string>
    var pendingEval: string
    var evalResult: string
    /** Info.ResourcePath. */
    var infoResourcePath: string

    /** NewMTADebugAPI: no breakpoints, resuming, no evaluation pending or answered. */
    constructor ()
      ensures breakpoints == [] && resumeMode == ResumeModeResume
      ensures pendingEval == "" && evalResult == ""
      ensures currentBreakpoint == DebugBreakpoint("", 0)
      ensures currentLocalVariables == map[] && currentUpvalueVariables == map[] && currentGlobalVariables == map[]
      ensures infoResourcePath == ""
    {
      breakpoints := [];
      resumeMode := ResumeModeResume;
      currentBreakpoint := DebugBreakpoint("", 0);
      currentLocalVariables, currentUpvalueVariables, currentGlobalVariables := map[], map[], map[];
      pendingEval := "";
      evalResult := "";
      infoResourcePath := "";
    }

    /** The resume-mode snapshot as `get_resume_mode` encodes it. */
    function ResumeState(): ResumeModeMessage
      reads this
    {
      ResumeModeMessage(resumeMode, currentBreakpoint.file, currentBreakpoint.line,
                        currentLocalVariables, currentUpvalueVariables, currentGlobalVariables)
    }

    /** handlerGetBreakpoints. */
    method GetBreakpoints() returns (r: seq<DebugBreakpoint>)
      ensures r == breakpoints
    {
      r := breakpoints;
    }

    /** handlerSetBreakpoint: append the breakpoint and echo it. */
    method SetBreakpoint(bp: DebugBreakpoint) returns (echo: DebugBreakpoint)
      modifies this`breakpoints
      ensures breakpoints == old(breakpoints) + [bp]
      ensures echo == bp
    {
      breakpoints := breakpoints + [bp];
      echo := bp;
    }

    /**
     * handlerRemoveBreakpoint as written: the filter loop ranges over the freshly created,
     * empty slice rather than over the stored list, so whatever the argument, the breakpoint
     * list ends up empty.
     */
    method RemoveBreakpoint(bp: DebugBreakpoint) returns (echo: DebugBreakpoint)
      modifies this`breakpoints
      ensures breakpoints == []
      ensures echo == bp
    {
      var newBreakpoints: seq<DebugBreakpoint> := [];
      newBreakpoints := KeepEqual(newBreakpoints, bp);
      breakpoints := newBreakpoints;
      echo := bp;
    }

    /** handlerGetResumeMode: read the snapshot, change nothing. */
    method GetResumeMode() returns (r: ResumeModeMessage)
      ensures r == ResumeState()
    {
      r := ResumeModeMessage(resumeMode, currentBreakpoint.file, currentBreakpoint.line,
                             currentLocalVariables, currentUpvalueVariables, currentGlobalVariables);
    }

    /** handlerSetResumeMode: overwrite mode, position and the three tables, and echo the request. */
    method SetResumeMode(request: ResumeModeMessage) returns (echo: ResumeModeMessage)
      modifies this`resumeMode, this`currentBreakpoint, this`currentLocalVariables,
               this`currentUpvalueVariables, this`currentGlobalVariables
      ensures ResumeState() == request
      ensures echo == request
    {
      resumeMode := request.resumeMode;
      currentBreakpoint := DebugBreakpoint(request.currentFile, request.currentLine);
      currentLocalVariables := request.localVariables;
      currentUpvalueVariables := request.upvalueVariables;
      currentGlobalVariables := request.globalVariables;
      echo := request;
    }

    /** handlerGetInfo. */
    method GetInfo() returns (resourcePath: string)
      ensures resourcePath == infoResourcePath
    {
      resourcePath := infoResourcePath;
    }

    /**
     * handlerSetInfo: the body is decoded into the stored Info, so a body without
     * `resource_path` (None) keeps the old value.
     */
    method SetInfo(resourcePath: Option<string>) returns (echo: string)
      modifies this`infoResourcePath
      ensures infoResourcePath == (if resourcePath.Some? then resourcePath.value else old(infoResourcePath))
      ensures echo == infoResourcePath
    {
      if resourcePath.Some? {
        infoResourcePath := resourcePath.value;
      }
      echo := infoResourcePath;
    }

    /** handlerGetPendingEval: hand out the pending expression and clear it. */
    method GetPendingEval() returns (expression: string)
      modifies this`pendingEval
      ensures expression == old(pendingEval)
      ensures pendingEval == ""
    {
      expression := pendingEval;
      pendingEval := "";
    }

    /** handlerSetPendingEval. */
    method SetPendingEval(expression: string) returns (echo: string)
      modifies this`pendingEval
      ensures pendingEval == expression && echo == expression
    {
      pendingEval := expression;
      echo := expression;
    }

    /** handlerGetEvalResult: hand out the stored result and clear it. */
    method GetEvalResult() returns (result: string)
      modifies this`evalResult
      ensures result == old(evalResult)
      ensures evalResult == ""
    {
      result := evalResult;
      evalResult := "";
    }

    /** handlerSetEvalResult. */
    method SetEvalResult(result: string) returns (echo: string)
      modifies this`evalResult
      ensures evalResult == result && echo == result
    {
      evalResult := result;
      echo := result;
    }
  }

  /** A get after a set returns the snapshot that was set, and a second get returns it again. */
  method ResumeModeRoundTrip(api: MtaDebugApi, request: ResumeModeMessage) returns (first: ResumeModeMessage, second: ResumeModeMessage)
    modifies api
    ensures first == request && second == request
    ensures api.ResumeState() == request
  {
    var _ := api.SetResumeMode(request);
    first := api.GetResumeMode();
    second := api.GetResumeMode();
  }

  /** The pending expression can be read once: a second read without a set returns "". */
  method PendingEvalReadOnce(api: MtaDebugApi, expression: string) returns (first: string, second: string)
    modifies api
    ensures first == expression && second == ""
  {
    var _ := api.SetPendingEval(expression);
    first := api.GetPendingEval();
    second := api.GetPendingEval();
  }

  /** The evaluation result can be read once: a second read without a set returns "". */
  method EvalResultReadOnce(api: MtaDebugApi, result: string) returns (first: string, second: string)
    modifies api
    ensures first == result && second == ""
  {
    var _ := api.SetEvalResult(result);
    first := api.GetEvalResult();
    second := api.GetEvalResult();
  }

  /** get_info after a set_info naming a resource path returns that path. */
  method InfoRoundTrip(api: MtaDebugApi, resourcePath: string) returns (r: string)
    modifies api
    ensures r == resourcePath
  {
    var _ := api.SetInfo(Some(resourcePath));
    r := api.GetInfo();
  }
}

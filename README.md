# MTA:SA debugger bridge — a Dafny model

This project models the three stateful pieces of the MTA:SA Lua debugger tooling:

- **The debug adapter session** (`MTASADebugSession` in the VS Code extension): the DAP request
  handlers as methods of the class `MtasaDebug.MtasaDebugSession`. It owns the breakpoint-id
  counter (starting at 1000), the per-source breakpoint map, the variable-handle table, the
  paused snapshot (file, line and the local, upvalue and global tables), the resource paths and
  the `isRunning` flag. The calls `clear_breakpoints`, `set_breakpoint` and `set_resume_mode`
  and the `Initialized` and `Stopped` events are appended to `log`, a sequence of `Outgoing`
  values (`ClearBreakpoints`, `SetBreakpoint(file, line)`, `SetResumeMode(mode)`,
  `InitializedEvent`, `StoppedEvent(reason, thread)`). The polling requests `get_info` and
  `get_resume_mode` are not logged; only their replies enter the model.
  Backend replies are arguments of the step methods that handle them: `LaunchInfo` handles a
  `get_info` reply, `CheckForPausedTick` a `get_resume_mode` reply, and `OnContinueReply` and
  `OnNextReply` the completion of `set_resume_mode`, successful or not. `getRelativeResourcePath` is the pure
  function `RelativeResourcePath`. The JavaScript string built-ins it uses are in `JsStrings`.
- **The test server's debug backend** (`MTADebugAPI`): the class `MtaDebugApi.MtaDebugApi`, with
  one method per HTTP handler. JSON bodies are replaced by typed arguments and results. It holds
  a breakpoint list that is only appended to or wiped, a resume-mode snapshot that `set` overwrites
  and `get` reads back, and two read-once mailboxes (pending evaluation and evaluation result).
- **The test server's process wrapper** (`MTAServer`): the 5000-slot console ring buffer as an
  array with a cursor, the `Running` flag, and the guards of `Start`, `Stop` and `Restart`.
  `Stop` is guarded by `Running`. `Start` is guarded only by the old process's recorded state:
  it refuses when that process has ended without a normal exit, and a process that is still
  running does not stop a second spawn (`StartWhileRunning`). A ghost history
  `written` of every captured line lets `GetLog` be stated as "the newest 5000 lines, oldest first".

What the adapter does, in the terms of the model:

- There is one thread (id 1) and no server/client context split.
- Resume modes are 0 (resume), 1 (paused) and 2 (line step). There is no step-in or step-out.
- The poller emits `Stopped` on every tick whose reply says paused. `isRunning` is written but never read, so nothing suppresses repeated stops (`PausedTwice`).
- `isRunning` is set when the `set_resume_mode` request of `continue` completes, successfully or not, and cleared when that of `next` completes.
- `variables` picks its table by the handle key's prefix alone (`ScopeKeyKinds`).
- The relative path removes the first occurrence of the lower-cased resource path anywhere in the lower-cased path.
- The debugger's lines start at 1. With a client counting from 1, lines reach the backend unchanged (`LaunchThenSetBreakpoints`).

`handlerRemoveBreakpoint` is modelled as written. Its filter loop ranges over a freshly made
empty slice, so it always leaves the breakpoint list empty.

## Model

| member | source | states |
|---|---|---|
| `JsStrings.ToLowerAppend` | VSCode_Extension/src/mtasaDebug.ts:386 | `toLowerCase` folds each character on its own, so lower-casing a concatenation is the concatenation of the lower-cased parts |
| `JsStrings.IndexOf` | VSCode_Extension/src/mtasaDebug.ts:386 | the result is an index where the pattern occurs with no earlier occurrence, or None when it occurs nowhere |
| `JsStrings.RemoveFirst` | VSCode_Extension/src/mtasaDebug.ts:386 | `replace(pattern, '')` returns the string unchanged when the pattern does not occur; otherwise the text before the first occurrence and the text after it are kept in order, and putting the pattern back at that index gives the original string |
| `JsStrings.ForwardSlashes` | VSCode_Extension/src/mtasaDebug.ts:388 | `replace(/\\/g, '/')` keeps the length, turns each backslash into `/`, keeps every other character, and so leaves no backslash |
| `JsStrings.NatToString` | VSCode_Extension/src/mtasaDebug.ts:245-247 | the decimal rendering of a non-negative frame id is non-empty, all digits, has no leading zero (0 is written "0") and denotes the number |
| `JsStrings.IntToString` | VSCode_Extension/src/mtasaDebug.ts:245-247 | the rendering in `"local_" + frameReference` starts with `-` exactly for a negative number; every other character is a digit, with no leading zero, 0 is written "0", and the digits denote its magnitude |
| `JsStrings.IndexOfFrom` | VSCode_Extension/src/mtasaDebug.ts:386 | the search from a start index finds the first occurrence at or after it, or reports that there is none |
| `JsStrings.StartsWith` | VSCode_Extension/src/mtasaDebug.ts:263-285 | `startsWith` holds exactly when the prefix is no longer than the string and agrees with it character by character |
| `JsStrings.Basename` | VSCode_Extension/src/mtasaDebug.ts:227 | `basename` is a suffix of the path with no separator, preceded by a separator when shorter than the path |
| `MtasaDebug.LineConversionRoundTrip` | VSCode_Extension/src/mtasaDebug.ts:175-185 | converting a client line to the debugger's convention and back gives the same line, in both directions |
| `MtasaDebug.RelativeResourcePath` | VSCode_Extension/src/mtasaDebug.ts:385-389 | the relative path sent to the backend never contains a backslash |
| `MtasaDebug.RelativeResourcePathStripsPrefix` | VSCode_Extension/src/mtasaDebug.ts:385-389 | when the lower-cased resource path is a prefix of the lower-cased path, the result is the remainder with backslashes turned into slashes |
| `MtasaDebug.RelativeResourcePathOfAbsolute` | VSCode_Extension/src/mtasaDebug.ts:385-389 | a path made by appending `p` to the resource path comes back as `p`, lower-cased and with slashes |
| `MtasaDebug.BreakpointCalls` | VSCode_Extension/src/mtasaDebug.ts:190-195 | there is one backend call per requested line, in order; each is a `set_breakpoint` for the file, at a line that converts back to the requested client line |
| `MtasaDebug.ScopeKeyKinds` | VSCode_Extension/src/mtasaDebug.ts:245-285 | the keys `local_f`, `closure_f` and `global_f` that scopesRequest creates select, by their prefix, the local, upvalue and global tables in variablesRequest |
| `MtasaDebug.ListVariables` | VSCode_Extension/src/mtasaDebug.ts:264-273 | fails exactly when the table has an own `hasOwnProperty` entry, which shadows the method the loop calls; otherwise the list holds every own entry of the table except `__isObject`, each once, with its value, type `string` and reference 0, and nothing else |
| `MtasaDebug.ThreadsRequest` | VSCode_Extension/src/mtasaDebug.ts:209-217 | exactly one thread is reported, with the id that every Stopped event names (the class invariant ties the two) |
| `MtasaDebug.MtasaDebugSession.constructor` | VSCode_Extension/src/mtasaDebug.ts:45-81 | a new session has breakpoint counter 1000, no breakpoints, no handles, no snapshot, no resource paths, no poll timer, is not running and has sent nothing |
| `MtasaDebug.MtasaDebugSession.SetBreakPointsRequest` | VSCode_Extension/src/mtasaDebug.ts:161-204 | returns one verified breakpoint per requested line, in order, at the requested line, with consecutive ids from the counter's prior value; the counter advances by the number of lines; only this path's map entry is replaced; the log gains one clear and then one `set_breakpoint` per line; before launch info arrives, a non-empty request takes one id, sends only the clear, and fails |
| `MtasaDebug.MtasaDebugSession.AddBreakpoints` | VSCode_Extension/src/mtasaDebug.ts:174-196 | the loop hands out consecutive ids and logs one `set_breakpoint` per line with the converted line |
| `MtasaDebug.MtasaDebugSession.CreateHandle` | VSCode_Extension/src/mtasaDebug.ts:63 | the handle table gives out a handle never used before and maps it to the key, leaving other handles alone |
| `MtasaDebug.MtasaDebugSession.ScopesRequest` | VSCode_Extension/src/mtasaDebug.ts:242-253 | exactly three scopes (Local, Closure, Global) with three fresh handles, in increasing order, bound to `local_f`, `closure_f` and `global_f`, which select the local, upvalue and global tables |
| `MtasaDebug.MtasaDebugSession.VariablesRequest` | VSCode_Extension/src/mtasaDebug.ts:258-302 | fails exactly when the handle is unknown or the table its key's prefix selects has an own `hasOwnProperty` entry; otherwise the result lists exactly the entries of that table (local, closure or global), minus the marker; any other prefix gives an empty list |
| `MtasaDebug.MtasaDebugSession.StackTraceRequest` | VSCode_Extension/src/mtasaDebug.ts:222-237 | exactly one frame, total 1, at the paused file under the resources path, named by the base name of that path, and at the paused line in the client's convention |
| `MtasaDebug.MtasaDebugSession.ContinueRequest` | VSCode_Extension/src/mtasaDebug.ts:307-310 | continue sends `set_resume_mode` 0 and changes nothing else |
| `MtasaDebug.MtasaDebugSession.OnContinueReply` | VSCode_Extension/src/mtasaDebug.ts:311-314 | when the request completes, whether or not it failed, the session is running |
| `MtasaDebug.MtasaDebugSession.NextRequest` | VSCode_Extension/src/mtasaDebug.ts:320-323 | next sends `set_resume_mode` 2 and changes nothing else |
| `MtasaDebug.MtasaDebugSession.OnNextReply` | VSCode_Extension/src/mtasaDebug.ts:324-327 | when the request completes, whether or not it failed, the session is not running |
| `MtasaDebug.MtasaDebugSession.LaunchInfo` | VSCode_Extension/src/mtasaDebug.ts:112-141 | info is accepted exactly when the reply is 200 with non-empty resource name and path; then the resource paths are set from the server path, Initialized and `set_resume_mode` 0 are sent, and the poll timer is created only if none exists; otherwise nothing changes |
| `MtasaDebug.MtasaDebugSession.CheckForPausedTick` | VSCode_Extension/src/mtasaDebug.ts:357-377 | a 200 reply in mode Paused copies file, line and the three tables, clears `isRunning` and emits one `Stopped('breakpoint', 1)`; any other reply changes nothing |
| `MtasaDebug.PausedTwice` | VSCode_Extension/src/mtasaDebug.ts:357-376 | two paused ticks in a row emit two Stopped events, because `isRunning` is never consulted |
| `MtasaDebug.BreakpointIdsIncrease` | VSCode_Extension/src/mtasaDebug.ts:186 | every id in a later setBreakpoints reply is greater than every id in an earlier one |
| `MtasaDebug.LaunchThenSetBreakpoints` | VSCode_Extension/src/mtasaDebug.ts:110-204 | launching at any server path with resource `debug/` and then setting lines 10 and 20 in its `server.lua` returns ids 1000 and 1001, and sends Initialized, resume, clear, then `server.lua` at lines 10 and 20 |
| `MtaDebugApi.Equals` | TestServer/MTADebugAPI.go:37-39 | two breakpoints are equal exactly when they are the same value, i.e. same file and same line |
| `MtaDebugApi.MatchingKeepsEqual` | TestServer/MTADebugAPI.go:92-97 | the equality filter keeps only copies of the argument, and keeps none exactly when the argument does not occur; the handler only ever runs it over a fresh empty slice, so all it can show there is the empty list |
| `MtaDebugApi.KeepEqual` | TestServer/MTADebugAPI.go:92-97 | the filter loop returns the entries equal to the argument, in order |
| `MtaDebugApi.MtaDebugApi.constructor` | TestServer/MTADebugAPI.go:41-47 | a fresh backend has no breakpoints, resume mode 0, and an empty pending evaluation and evaluation result |
| `MtaDebugApi.MtaDebugApi.GetBreakpoints` | TestServer/MTADebugAPI.go:68-70 | returns the stored list |
| `MtaDebugApi.MtaDebugApi.SetBreakpoint` | TestServer/MTADebugAPI.go:72-83 | appends the breakpoint at the end, keeps all earlier entries, and echoes it |
| `MtaDebugApi.MtaDebugApi.RemoveBreakpoint` | TestServer/MTADebugAPI.go:85-102 | whatever the argument, the list ends up empty (the loop filters an empty slice); the argument is echoed |
| `MtaDebugApi.MtaDebugApi.GetResumeMode` | TestServer/MTADebugAPI.go:104-115 | returns the stored mode, file, line and three tables and changes nothing |
| `MtaDebugApi.MtaDebugApi.SetResumeMode` | TestServer/MTADebugAPI.go:117-142 | the stored snapshot becomes the request, field for field, and the request is echoed |
| `MtaDebugApi.MtaDebugApi.GetInfo` | TestServer/MTADebugAPI.go:144-149 | returns the stored resource path |
| `MtaDebugApi.MtaDebugApi.SetInfo` | TestServer/MTADebugAPI.go:151-158 | a body with `resource_path` overwrites it; a body without one keeps the old value |
| `MtaDebugApi.MtaDebugApi.GetPendingEval` | TestServer/MTADebugAPI.go:160-171 | returns the pending expression and leaves `""` |
| `MtaDebugApi.MtaDebugApi.SetPendingEval` | TestServer/MTADebugAPI.go:173-186 | overwrites the pending expression and echoes it |
| `MtaDebugApi.MtaDebugApi.GetEvalResult` | TestServer/MTADebugAPI.go:188-199 | returns the stored result and leaves `""` |
| `MtaDebugApi.MtaDebugApi.SetEvalResult` | TestServer/MTADebugAPI.go:201-214 | overwrites the stored result and echoes it |
| `MtaDebugApi.ResumeModeRoundTrip` | TestServer/MTADebugAPI.go:104-142 | get after set returns what was set, and a second get returns it again |
| `MtaDebugApi.PendingEvalReadOnce` | TestServer/MTADebugAPI.go:160-186 | after a set, the first get returns the expression and the second returns `""` |
| `MtaDebugApi.EvalResultReadOnce` | TestServer/MTADebugAPI.go:188-214 | after a set, the first get returns the result and the second returns `""` |
| `MtaDebugApi.InfoRoundTrip` | TestServer/MTADebugAPI.go:144-158 | get_info after a set_info with a resource path returns that path |
| `MtaServer.Recent` | TestServer/MTAServer.go:133-145 | the lines a full ring can hold are a suffix of the history, with as many lines as were written, capped at 5000 |
| `MtaServer.Advance` | TestServer/MTAServer.go:67 | stepping around the ring stays inside it and wraps at most once |
| `MtaServer.RingOrder` | TestServer/MTAServer.go:137-142 | the ring walk visits every slot once, starting at the cursor and wrapping around |
| `MtaServer.EmptyRing` | TestServer/MTAServer.go:31 | a ring whose slots are all empty, as `ring.New` makes it, is the expected ring after no writes |
| `MtaServer.LogTextOfWindow` | TestServer/MTAServer.go:133-145 | the text of a ring holding the recent lines after its empty slots is those lines, oldest first, each followed by a newline |
| `MtaServer.RecentPush` | TestServer/MTAServer.go:66-67 | a new line joins the recent lines, and once 5000 are held it pushes out the oldest |
| `MtaServer.WindowPush` | TestServer/MTAServer.go:66-67 | one more line shifts the expected ring by one slot and puts the new line last |
| `MtaServer.RingWrite` | TestServer/MTAServer.go:66-67 | writing at the cursor and advancing it shifts the walk order by one, with the new value last |
| `MtaServer.MtaServer.constructor` | TestServer/MTAServer.go:28-35 | a new server has a 5000-slot ring, all slots empty, no process, and is not running |
| `MtaServer.MtaServer.WriteOutputLine` | TestServer/MTAServer.go:66-67 | the line is stored at the cursor, no other slot changes, and the cursor advances by one, wrapping at 5000 |
| `MtaServer.RingLog` | TestServer/MTAServer.go:137-142 | the walk from the cursor joins the filled slots in ring order, each followed by a newline |
| `MtaServer.MtaServer.GetLog` | TestServer/MTAServer.go:133-145 | the log joins the filled slots from the cursor in ring order; so after k ≤ 5000 writes it is all k lines in order, and after more it is exactly the last 5000, oldest first |
| `MtaServer.MtaServer.Start` | TestServer/MTAServer.go:37-89 | refuses, changing nothing, only when the previous process has ended without a normal exit; otherwise it forgets the old process, and on open pipes marks the new one started and running |
| `MtaServer.MtaServer.Stop` | TestServer/MTAServer.go:91-110 | with no started process, or not running, it fails and changes nothing; otherwise `Running` is cleared before the signal, whether or not the signal succeeds |
| `MtaServer.MtaServer.Restart` | TestServer/MTAServer.go:112-121 | returns Stop's error without starting; after a successful Stop the result is Start's, the process stays recorded as started when Start refuses, and otherwise it is started and running exactly when the pipes opened |
| `MtaServer.StartWhileRunning` | TestServer/MTAServer.go:37-44 | a server that is started and running can be started again, and both calls succeed |

## Left out

- HTTP transport and JSON. The `request` calls, gorilla `mux` routing and JSON encoding and decoding are replaced by the `log`, typed arguments and results. The `panic` on a decode error is not modelled.
- Timers. The 200 ms launch retry, the 500 ms poller and the 1 s delay in `evaluateRequest` are not modelled. Each callback body is a step method the environment may call at any time: `LaunchInfo` per `get_info` reply, `CheckForPausedTick` per poll reply, `On…Reply` per acknowledgement. `clearInterval` is not modelled, so a reply still in flight after acceptance is handled like any other.
- `evaluateRequest`, `restartRequest` and `initializeRequest`: they only forward a string or set a capability flag and reply after I/O. The `log` helper, `Logger` and the `trace` option are left out too.
- Node's `path.normalize` is taken as the identity: inputs are assumed already normalised.
- Basename: does not strip trailing separators as Node's `basename` does. The paths it sees end in a file name.
- ToLower: folds only ASCII letters, not the full Unicode case mapping of `toLowerCase`.
- The start value of the library's handle table is a constructor parameter. Only its monotonic, never-reused behaviour is modelled.
- The library's line conversion is modelled for debugger lines starting at 1, with the client's convention as a constructor flag. Path conversion to the client is the identity, as both sides use plain paths.
- JavaScript `undefined` fields before the first pause or launch are modelled as `""`, `0` and empty tables. `for..in` over `undefined` also yields nothing.
- ListVariables: does not fix the order of the variables, which JavaScript gives by property insertion order. The contract states the set of entries, each exactly once.
- IntToString: renders every integer in plain decimal, whereas JavaScript switches to exponent form from 10^21 on (`"" + 1e21` is "1e+21"). The only frame id the adapter hands out is 0.
- VariablesRequest: does not fix the order of the listed variables either, for the same reason. It states the set of entries of the selected table, each exactly once.
- The `get_info` and `get_resume_mode` polling requests are not recorded in `log`. Their replies are the arguments of `LaunchInfo` and `CheckForPausedTick`.
- Go `nil` maps in the backend are modelled as empty maps. `json.Decode` into a fresh struct is a typed argument. Only `set_info` decodes into the stored struct, hence its `Option` argument.
- Process handling in the server: the `exec.Command` spawn, the stdin/stdout pipes, the scanner goroutine (its loop body is `WriteOutputLine`), `Signal`, and the `WaitMutex` wait. `Stop` drops its `wait` flag, which only blocks. The operating system's answers are parameters: whether the old process has ended without a normal exit (its process state is recorded and is not a normal exit), whether the pipes opened, whether the signal was sent. `Start` marks the process started when it returns, although `Run` sets it in a goroutine.
- Concurrency between the scanner goroutine and `GetLog` is not modelled. Each write is atomic here.
- `ExecCommand` and `ToggleTimeoutPrevention`: they only write to stdin or create and remove files.
- TestServer/MTAServerAPI.go, TestServer/MTAUnitAPI.go and TestServer/main.go are not part of this model. They are decode-and-forward wrappers and process start-up.
- VSCode_Extension/src/extension.ts and LuaLibrary/Minify.py are not part of this model. They register editor commands and concatenate files.

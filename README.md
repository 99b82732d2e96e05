# XamarinEngine attach binding and logging helpers, in Dafny

This project models the core of `XamarinEngine`, the Visual Studio debug engine of
VSMonoDebugger that puts a Mono soft-debugger session behind Visual Studio's
`IDebugEngine2` interface. Two pieces of it hold their own logic:

- **The attach/detach binding.** The engine holds at most one bound program
  (`_activeProgram`) and one event-callback sink (`_eventCallback`). `Attach`
  refuses with `S_FALSE` unless exactly one program is passed and none is bound.
  On acceptance it records the binding, starts the session (swallowing any
  exception), and returns what the inner engine's `Attach` returns.
  `DestroyProgram` clears both fields. `CreateAndRegisterXamarinThread` sends a
  thread-create event through the bound sink. It throws `InvalidOperationException`
  when either COM status is not `S_OK`.
- **The logging helpers.** These are the three `Log` overloads and the callbacks
  that `RegisterEventHandlers` defines: line logging with `TrimEnd('\n', '\r')`,
  the target-event message, and an exception handler that always answers
  "continue". `RegisterEventHandlers` is private and nothing in the file calls it,
  so these callbacks are defined but never set on the session. The handlers the
  session does get are set in `SerializeDebuggerOptions` (lines 69-107). Of those,
  only the `TargetThreadStarted` handler, which registers the thread, is
  modelled (`OnTargetThreadStarted`).

Files:

- `wrappers.dfy`: `Option`, standing for a .NET reference that may be null.
- `decimal.dfy`: decimal text of an integer, which the event message uses for
  a thread id, and its parser.
- `debug_client.dfy`: the soft debugger client types the engine reads
  (`ThreadInfo`, `TargetEventArgs`, an exception).
- `engine_log.dfy`: the logging helpers as functions. Each returns the entry it
  would write.
- `host_bridge.dfy`: the binding. `Step` and `RegisterThread` specify it on
  values; the class `XamarinEngine` carries the two fields, and its methods are
  proved against `Step` and `RegisterThread`.

The engine's collaborators are inputs:

- the inner engine's status (`innerStatus`);
- whether the session's `Run` throws (`runThrows`);
- the COM statuses of the event's `GetAttributes` (`attrStatus`) and of the
  sink's `Event` (`eventStatus`).

A ghost field `Calls` records the calls the engine makes into them, in order.
`S_OK` is 0 and `S_FALSE` is 1, as in COM.

What the code does not do, and the model therefore does not either:

- `Attach` does not report a fixed success: it returns the inner engine's status.
- No events are buffered before `Attach`.
- No thread is remembered once registered: each `TargetThreadStarted` registers
  the thread again.
- The engine keeps no lifecycle state for the session.

Edge cases of the code that the model keeps:

- Elements of the program array may be null. An accepted `Attach` whose one
  program is null leaves `_activeProgram` null, so the next `Attach` is accepted
  too (`NullProgramDoesNotBlock`).
- The guard reads the array's length, not `celtPrograms`.
- Registering a thread with no bound sink fails with a null dereference. This
  happens after the attributes check.

## Model

| member | source | states |
|---|---|---|
| `HostBridge.AttachRefusesWrongProgramCount` | VSMonoDebugger/Mono.Debugging.VisualStudio/XamarinEngine.cs:336-340 | Attach with other than exactly one program returns S_FALSE and leaves both fields unchanged |
| `HostBridge.AttachRefusesWhenBound` | VSMonoDebugger/Mono.Debugging.VisualStudio/XamarinEngine.cs:342-346 | Attach while a program is bound returns S_FALSE and leaves the existing binding untouched |
| `HostBridge.AttachAcceptedBinds` | VSMonoDebugger/Mono.Debugging.VisualStudio/XamarinEngine.cs:348-360 | an accepted Attach binds the one program and the callback and returns exactly the inner engine's status; the binding stays even if that status is a failure; a throwing session start makes no difference |
| `HostBridge.DestroyUnbinds` | VSMonoDebugger/Mono.Debugging.VisualStudio/XamarinEngine.cs:395-401 | DestroyProgram clears both fields from any prior state and returns the inner engine's status |
| `HostBridge.ReattachAfterDestroy` | VSMonoDebugger/Mono.Debugging.VisualStudio/XamarinEngine.cs:336-349 | after DestroyProgram, an Attach with one program is accepted and binds it |
| `HostBridge.NullProgramDoesNotBlock` | VSMonoDebugger/Mono.Debugging.VisualStudio/XamarinEngine.cs:342-348 | only `_activeProgram` guards Attach, so binding a null program leaves the next Attach accepted |
| `HostBridge.RunCommands` | VSMonoDebugger/Mono.Debugging.VisualStudio/XamarinEngine.cs:332-401 | a sequence of Attach/DestroyProgram commands, applied in order, yields one status per command |
| `HostBridge.RunAppend` | VSMonoDebugger/Mono.Debugging.VisualStudio/XamarinEngine.cs:332-401 | running two command sequences one after the other gives the same final binding and statuses as running their concatenation |
| `HostBridge.BoundRefusesUntilDestroy` | VSMonoDebugger/Mono.Debugging.VisualStudio/XamarinEngine.cs:342-346 | while a program is bound, any number of Attach calls are all refused with S_FALSE and the binding is kept |
| `HostBridge.AttachDestroyAttach` | VSMonoDebugger/Mono.Debugging.VisualStudio/XamarinEngine.cs:332-401 | Attach, DestroyProgram, Attach with one program each on a fresh engine return the inner statuses and end bound to the second program |
| `HostBridge.RegisterThread` | VSMonoDebugger/Mono.Debugging.VisualStudio/XamarinEngine.cs:40-51 | registration succeeds iff both statuses are S_OK and a sink is bound; with no sink bound it throws NullReferenceException after the attributes check; a failed attributes check throws InvalidOperationException before the sink is called; a failed Event status throws the second message; the event sent carries the bound sink, the bound program, the thread and the attributes |
| `HostBridge.RegisterAfterDestroyFails` | VSMonoDebugger/Mono.Debugging.VisualStudio/XamarinEngine.cs:40-51 | after DestroyProgram, registering a thread sends nothing and does not succeed |
| `HostBridge.XamarinEngine.constructor` | VSMonoDebugger/Mono.Debugging.VisualStudio/XamarinEngine.cs:24-38 | a new engine has no program and no callback bound |
| `HostBridge.XamarinEngine.Attach` | VSMonoDebugger/Mono.Debugging.VisualStudio/XamarinEngine.cs:332-361 | the new fields and the status are those `Step` gives; an accepted Attach starts the session and then calls the inner engine with the same arguments, a refused one calls nothing |
| `HostBridge.XamarinEngine.DestroyProgram` | VSMonoDebugger/Mono.Debugging.VisualStudio/XamarinEngine.cs:395-401 | the new fields and status are those `Step` gives, after one call to the inner engine's DestroyProgram |
| `HostBridge.XamarinEngine.CreateAndRegisterXamarinThread` | VSMonoDebugger/Mono.Debugging.VisualStudio/XamarinEngine.cs:40-51 | the outcome is `RegisterThread`'s; GetAttributes is called first and the sink's Event only if it succeeded; the binding is unchanged |
| `HostBridge.OnTargetThreadStarted` | VSMonoDebugger/Mono.Debugging.VisualStudio/XamarinEngine.cs:80-84 | the TargetThreadStarted handler registers the event's thread with `RegisterThread`'s outcome, calling GetAttributes and then, only if that succeeded and a sink is bound, the sink's Event; a null thread fails with a null dereference at line 42 and calls nothing |
| `HostBridge.AttachTwiceThenReattach` | VSMonoDebugger/Mono.Debugging.VisualStudio/XamarinEngine.cs:332-401 | on the engine object, a second Attach returns S_FALSE, and after DestroyProgram an Attach is accepted again |
| `EngineLog.TrimEnd` | VSMonoDebugger/Mono.Debugging.VisualStudio/XamarinEngine.cs:243-247 | `TrimEnd('\n', '\r')` returns a prefix of its input that does not end in a line break, and everything it cuts off is a line break |
| `EngineLog.TrimEndUnique` | VSMonoDebugger/Mono.Debugging.VisualStudio/XamarinEngine.cs:243-247 | any prefix with those three properties is the one TrimEnd returns: it removes exactly the maximal trailing run |
| `EngineLog.TrimEndIdempotent` | VSMonoDebugger/Mono.Debugging.VisualStudio/XamarinEngine.cs:243-247 | trimming twice is trimming once |
| `EngineLog.TrimEndIgnoresAppendedLineBreaks` | VSMonoDebugger/Mono.Debugging.VisualStudio/XamarinEngine.cs:243-247 | appending line breaks to a text does not change what is logged |
| `EngineLog.TrimEndKeepsUnbrokenText` | VSMonoDebugger/Mono.Debugging.VisualStudio/XamarinEngine.cs:243-247 | text not ending in a line break is logged unchanged |
| `EngineLog.LogLine` | VSMonoDebugger/Mono.Debugging.VisualStudio/XamarinEngine.cs:239-249 | a line is logged at error level exactly when it came from stderr, with the trimmed text and no exception |
| `EngineLog.LogLineMessage` | VSMonoDebugger/Mono.Debugging.VisualStudio/XamarinEngine.cs:239-249 | the logged text is a prefix of the input, does not end in a line break, only line breaks were cut, and trimming it again changes nothing |
| `EngineLog.LogLineIgnoresMethodName` | VSMonoDebugger/Mono.Debugging.VisualStudio/XamarinEngine.cs:239-249 | the method name argument does not affect the entry |
| `EngineLog.OnWriter` | VSMonoDebugger/Mono.Debugging.VisualStudio/XamarinEngine.cs:166-173 | the LogWriter and OutputWriter callbacks defined in RegisterEventHandlers log at error level exactly for stderr, a trimmed prefix of the text, with no exception |
| `EngineLog.TargetEventMessage` | VSMonoDebugger/Mono.Debugging.VisualStudio/XamarinEngine.cs:251-268 | the message starts with the method name; it is exactly the name iff the args are null or name no thread; otherwise it ends with ')' |
| `EngineLog.ThreadMessageFields` | VSMonoDebugger/Mono.Debugging.VisualStudio/XamarinEngine.cs:263 | in `<name>: Thread=(<id>, <threadName>, <location>)` the tag follows the name; the id's decimal text, which parses back to the id, is followed by ", "; the rest is the thread's name, ", ", its location and ")" |
| `EngineLog.LogTargetEvent` | VSMonoDebugger/Mono.Debugging.VisualStudio/XamarinEngine.cs:251-280 | a target event is always logged at info level with no exception attached |
| `EngineLog.OnSessionEvent` | VSMonoDebugger/Mono.Debugging.VisualStudio/XamarinEngine.cs:179-226 | each session-event handler defined in RegisterEventHandlers logs at info level with no exception under its event's name; the TargetStarted handler passes null args, so it logs exactly "TargetStarted" |
| `EngineLog.EventNamesDistinct` | VSMonoDebugger/Mono.Debugging.VisualStudio/XamarinEngine.cs:179-226 | different events are logged under different names |
| `EngineLog.LogException` | VSMonoDebugger/Mono.Debugging.VisualStudio/XamarinEngine.cs:233-237 | an exception is logged at error level with the method name as message, and the answer is true |
| `EngineLog.ExceptionHandler` | VSMonoDebugger/Mono.Debugging.VisualStudio/XamarinEngine.cs:174-177 | the exception handler defined in RegisterEventHandlers answers true ("continue") for every exception |
| `EngineLog.ExceptionHandlerEntry` | VSMonoDebugger/Mono.Debugging.VisualStudio/XamarinEngine.cs:174-177 | the handler logs the exception at error level under "ExceptionHandler" |
| `Decimal.NatToDigits` | VSMonoDebugger/Mono.Debugging.VisualStudio/XamarinEngine.cs:263 | the decimal text of a thread id's magnitude is non-empty, all digits, with no leading zero |
| `Decimal.DigitsRoundTrip` | VSMonoDebugger/Mono.Debugging.VisualStudio/XamarinEngine.cs:263 | reading back the digits of n gives n |
| `Decimal.FormatParseRoundTrip` | VSMonoDebugger/Mono.Debugging.VisualStudio/XamarinEngine.cs:263 | the decimal text of any id, sign included, parses back to the id |

## Left out

- `SerializeDebuggerOptions` and `LaunchSuspended` (XamarinEngine.cs:53-148, 290-297): they consist of JSON deserialization, remoting `ObjRef` marshalling, `BinaryFormatter` and Base64, all foreign library calls, and the method does not compile as written (line 67 uses an undeclared `eventArgs`; line 107 names a handler that is commented out). The `_session` and `_startInfo` they set up are represented only by `runThrows`.
- The other handlers `SerializeDebuggerOptions` sets on the session (lines 69-107), besides `TargetThreadStarted`: `ExceptionHandler = exception => true` answers "continue" without logging. The `LogWriter` and `OutputWriter` there write the text to the debug output untrimmed. The rest only write to the debug output. All of it is I/O or a constant. The verbose-logging branch at lines 64-68 does not compile.
- The pass-through methods (`ResumeProcess`, `CanTerminateProcess`, `TerminateProcess`, `EnumPrograms`, `CreatePendingBreakpoint`, `SetException`, `RemoveSetException`, `RemoveAllSetExceptions`, `ContinueFromSynchronousEvent`, `SetLocale`, `SetRegistryRoot`, `SetMetric`, `CauseBreak`): each only forwards to the inner engine.
- `GetEngineId`: it returns a constant GUID.
- Logger output: NLog, `Debug.WriteLine` and the assembly-path logging (lines 150-162) are I/O. The log functions return the entry they would write. The error messages Attach logs on refusal are not modelled.
- Concurrency: the session's event handlers run on the soft debugger's threads and the engine takes no locks. The model treats every call as sequential.
- The session's `Run` and the inner engine are not modelled beyond the outcome they hand back.
- A null `rgpPrograms` array, a null `text` in the line logger and a null `ThreadInfo` in registration each throw `NullReferenceException` in the code. Strings, sequences and thread records are never null in the model.
- `HostBridge.XamarinEngine.CreateAndRegisterXamarinThread`: the `XamarinThread` object it builds, holding the engine and the session, is represented only by the `ThreadInfo` it copies.
- The engine reference (`_engine`), the event's interface id (`XamarinThreadCreateEvent.IID`) and the process argument (always null) passed to the sink are not part of `ThreadCreateEvent`.
- `EngineLog.TargetEventMessage`: thread ids are unbounded integers, not 64-bit. Negative ids are shown with a leading '-', the invariant-culture form.

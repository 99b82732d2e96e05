/**
 * The parts of the soft debugger's client-side types that the engine reads:
 * a target thread's identity, the arguments of a target event, and an exception
 * handed to the session's exception handler.
 */
module DebugClient {
  import opened Wrappers

  /** `ThreadInfo`: the target-assigned id (a 64-bit integer), display name and location. */
  datatype ThreadInfo = ThreadInfo(id: int, name: string, location: string)

  /** `TargetEventArgs`: only the thread is read by the engine; a null thread is `None`. */
  datatype TargetEventArgs = TargetEventArgs(thread: Option<ThreadInfo>)

  /** An exception object, known to the engine only by its type and message. */
  datatype ExceptionInfo = ExceptionInfo(typeName: string, message: string)
}

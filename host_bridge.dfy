/**
 * The attach/detach binding of `XamarinEngine` and its thread registration.
 *
 * The engine holds at most one bound program and one event-callback sink. Its
 * collaborators appear as inputs: the status the inner engine returns
 * (`innerStatus`), whether the soft debugger session's `Run` throws
 * (`runThrows`), and the COM status codes of the thread-create event's
 * `GetAttributes` (`attrStatus`) and of the callback's `Event` (`eventStatus`).
 *
 * `Step` and `RegisterThread` specify the operations on values; the class
 * `XamarinEngine` performs them on its fields and is proved against them.
 */
module HostBridge {
  import opened Wrappers
  import opened DebugClient

  /** COM status codes. */
  const S_OK: int := 0
  const S_FALSE: int := 1

  /** Opaque host references (`IDebugProgram2`, `IDebugProgramNode2`, `IDebugEventCallback2`). */
  datatype ProgramRef = ProgramRef(id: nat)
  datatype ProgramNodeRef = ProgramNodeRef(id: nat)
  datatype CallbackRef = CallbackRef(id: nat)

  /** The two fields `_activeProgram` and `_eventCallback`; null is `None`. */
  datatype Binding = Binding(activeProgram: Option<ProgramRef>, eventCallback: Option<CallbackRef>)

  const Unbound := Binding(None, None)

  // ---------------------------------------------------------------------------
  // Attach and DestroyProgram

  datatype AttachVerdict = NotExactlyOneProgram | AlreadyAttached | Accepted

  /** Attach's two guards, in the order the engine tests them. */
  function AttachVerdictOf(b: Binding, programs: seq<Option<ProgramRef>>): AttachVerdict {
    if |programs| != 1 then NotExactlyOneProgram
    else if b.activeProgram.Some? then AlreadyAttached
    else Accepted
  }

  /** A host command, with the outcomes of the collaborators it calls. */
  datatype Command =
    | Attach(programs: seq<Option<ProgramRef>>, callback: Option<CallbackRef>, runThrows: bool, innerStatus: int)
    | DestroyProgram(program: Option<ProgramRef>, innerStatus: int)

  datatype Outcome = Outcome(binding: Binding, status: int)

  /** The binding after a command and the status the command returns. */
  function Step(b: Binding, c: Command): Outcome {
    match c
    case Attach(programs, callback, runThrows, innerStatus) =>
      if AttachVerdictOf(b, programs) != Accepted then Outcome(b, S_FALSE)
      else Outcome(Binding(programs[0], callback), innerStatus)
    case DestroyProgram(_, innerStatus) =>
      Outcome(Unbound, innerStatus)
  }

  /** Attach with other than exactly one program is refused and changes nothing. */
  lemma AttachRefusesWrongProgramCount(b: Binding, c: Command)
    requires c.Attach? && |c.programs| != 1
    ensures Step(b, c) == Outcome(b, S_FALSE)
  {
  }

  /** Attach while a program is bound is refused and keeps the binding. */
  lemma AttachRefusesWhenBound(b: Binding, c: Command)
    requires c.Attach? && b.activeProgram.Some?
    ensures Step(b, c) == Outcome(b, S_FALSE)
  {
  }

  /**
   * An accepted Attach binds the one program and the callback, returns exactly
   * the inner engine's status, and keeps the binding even when that status is a
   * failure; whether the session's start threw makes no difference.
   */
  lemma AttachAcceptedBinds(b: Binding, c: Command)
    requires c.Attach? && |c.programs| == 1 && b.activeProgram.None?
    ensures Step(b, c) == Outcome(Binding(c.programs[0], c.callback), c.innerStatus)
    ensures Step(b, c) == Step(b, c.(runThrows := !c.runThrows))
  {
  }

  /** DestroyProgram clears both fields whatever the prior state. */
  lemma DestroyUnbinds(b: Binding, c: Command)
    requires c.DestroyProgram?
    ensures Step(b, c) == Outcome(Unbound, c.innerStatus)
  {
  }

  /** After DestroyProgram, an Attach with one program is accepted again. */
  lemma ReattachAfterDestroy(b: Binding, d: Command, a: Command)
    requires d.DestroyProgram?
    requires a.Attach? && |a.programs| == 1
    ensures AttachVerdictOf(Step(b, d).binding, a.programs) == Accepted
    ensures Step(Step(b, d).binding, a) == Outcome(Binding(a.programs[0], a.callback), a.innerStatus)
  {
  }

  /**
   * The binding checks `_activeProgram` only: an accepted Attach whose one program
   * is null leaves the engine open to the next Attach.
   */
  lemma NullProgramDoesNotBlock(b: Binding, a1: Command, a2: Command)
    requires a1.Attach? && a1.programs == [None] && b.activeProgram.None?
    requires a2.Attach? && |a2.programs| == 1
    ensures AttachVerdictOf(Step(b, a1).binding, a2.programs) == Accepted
  {
  }

  /** A sequence of commands, applied in order: the final binding and the statuses returned, in order. */
  function RunCommands(b: Binding, cs: seq<Command>): (r: (Binding, seq<int>))
    ensures |r.1| == |cs|
    decreases |cs|
  {
    if cs == [] then (b, [])
    else
      var first := Step(b, cs[0]);
      var rest := RunCommands(first.binding, cs[1..]);
      (rest.0, [first.status] + rest.1)
  }

  /** Unfolds `RunCommands` once (a proof step). */
  lemma RunFirst(b: Binding, cs: seq<Command>)
    requires cs != []
    ensures RunCommands(b, cs) == (RunCommands(Step(b, cs[0]).binding, cs[1..]).0, [Step(b, cs[0]).status] + RunCommands(Step(b, cs[0]).binding, cs[1..]).1)
  {
  }

  /** Running two sequences one after the other is running their concatenation. */
  lemma {:induction false} RunAppend(b: Binding, xs: seq<Command>, ys: seq<Command>)
    ensures RunCommands(b, xs + ys) ==
      (RunCommands(RunCommands(b, xs).0, ys).0, RunCommands(b, xs).1 + RunCommands(RunCommands(b, xs).0, ys).1)
    decreases |xs|
  {
    if xs == [] {
      assert xs + ys == ys;
      assert RunCommands(b, xs) == (b, []);
      assert [] + RunCommands(b, ys).1 == RunCommands(b, ys).1;
    } else {
      assert (xs + ys)[0] == xs[0];
      assert (xs + ys)[1..] == xs[1..] + ys;
      var first := Step(b, xs[0]);
      var mid := RunCommands(first.binding, xs[1..]);
      RunAppend(first.binding, xs[1..], ys);
      RunFirst(b, xs + ys);
      RunFirst(b, xs);
      var tail := RunCommands(mid.0, ys);
      assert RunCommands(first.binding, xs[1..] + ys) == (tail.0, mid.1 + tail.1);
      assert RunCommands(b, xs + ys) == (tail.0, [first.status] + (mid.1 + tail.1));
      assert RunCommands(b, xs) == (mid.0, [first.status] + mid.1);
      assert [first.status] + (mid.1 + tail.1) == ([first.status] + mid.1) + tail.1;
    }
  }

  /**
   * While a program is bound, every Attach is refused and the binding is kept,
   * however many are tried, until a DestroyProgram.
   */
  lemma {:induction false} BoundRefusesUntilDestroy(b: Binding, cs: seq<Command>)
    requires b.activeProgram.Some?
    requires forall i :: 0 <= i < |cs| ==> cs[i].Attach?
    ensures RunCommands(b, cs).0 == b
    ensures forall i :: 0 <= i < |cs| ==> RunCommands(b, cs).1[i] == S_FALSE
    decreases |cs|
  {
    if cs != [] {
      AttachRefusesWhenBound(b, cs[0]);
      BoundRefusesUntilDestroy(b, cs[1..]);
    }
  }

  /** Statuses of Attach, DestroyProgram, Attach on a fresh engine, one program each time. */
  lemma AttachDestroyAttach(p: Option<ProgramRef>, q: Option<ProgramRef>, cb1: Option<CallbackRef>, cb2: Option<CallbackRef>,
                            s1: int, s2: int, s3: int, run1: bool, run2: bool)
    ensures RunCommands(Unbound, [Attach([p], cb1, run1, s1), DestroyProgram(p, s2), Attach([q], cb2, run2, s3)])
      == (Binding(q, cb2), [s1, s2, s3])
  {
    var c1, c2, c3 := Attach([p], cb1, run1, s1), DestroyProgram(p, s2), Attach([q], cb2, run2, s3);
    var b3 := Binding(q, cb2);
    assert [c3][1..] == [] && [c2, c3][1..] == [c3] && [c1, c2, c3][1..] == [c2, c3];
    RunFirst(Unbound, [c3]);
    assert [s3] + [] == [s3];
    assert RunCommands(Unbound, [c3]) == (b3, [s3]);
    RunFirst(Binding(p, cb1), [c2, c3]);
    assert Step(Binding(p, cb1), c2) == Outcome(Unbound, s2);
    assert [s2] + [s3] == [s2, s3];
    assert RunCommands(Binding(p, cb1), [c2, c3]) == (b3, [s2, s3]);
    RunFirst(Unbound, [c1, c2, c3]);
    assert [s1] + [s2, s3] == [s1, s2, s3];
  }

  // ---------------------------------------------------------------------------
  // CreateAndRegisterXamarinThread

  /** The thread-create event delivered through the callback sink. */
  datatype ThreadCreateEvent = ThreadCreateEvent(callback: CallbackRef, program: Option<ProgramRef>, thread: ThreadInfo, attributes: nat)

  /** How registration ends: normally, or with the exception it throws. */
  datatype Registration = Registered | InvalidOperation(message: string) | NullReference

  const AttributesFailedMessage := "Failed to create and register a thread. The event object failed to get its attributes"
  const EventFailedMessage := "Failed to create and register a thread. The event has not been sent succesfully"

  datatype RegistrationOutcome = RegistrationOutcome(result: Registration, sent: Option<ThreadCreateEvent>)

  /**
   * Registering a thread: the event's attributes are read first, and only when
   * that succeeds is the event sent to the bound sink (a null sink throws) with
   * the bound program, the thread and the attributes.
   */
  function RegisterThread(b: Binding, t: ThreadInfo, attrStatus: int, attributes: nat, eventStatus: int): (o: RegistrationOutcome)
    ensures o.result == Registered <==> attrStatus == S_OK && b.eventCallback.Some? && eventStatus == S_OK
    ensures o.sent.Some? <==> attrStatus == S_OK && b.eventCallback.Some?
    ensures attrStatus != S_OK ==> o.result == InvalidOperation(AttributesFailedMessage)
    ensures attrStatus == S_OK && b.eventCallback.None? ==> o.result == NullReference
    ensures attrStatus == S_OK && b.eventCallback.Some? && eventStatus != S_OK ==> o.result == InvalidOperation(EventFailedMessage)
    ensures o.sent.Some? ==> o.sent.value == ThreadCreateEvent(b.eventCallback.value, b.activeProgram, t, attributes)
  {
    if attrStatus != S_OK then RegistrationOutcome(InvalidOperation(AttributesFailedMessage), None)
    else if b.eventCallback.None? then RegistrationOutcome(NullReference, None)
    else
      var ev := ThreadCreateEvent(b.eventCallback.value, b.activeProgram, t, attributes);
      if eventStatus != S_OK then RegistrationOutcome(InvalidOperation(EventFailedMessage), Some(ev))
      else RegistrationOutcome(Registered, Some(ev))
  }

  /** Registration on an engine just destroyed sends nothing and cannot succeed. */
  lemma RegisterAfterDestroyFails(b: Binding, d: Command, t: ThreadInfo, attrStatus: int, attributes: nat, eventStatus: int)
    requires d.DestroyProgram?
    ensures RegisterThread(Step(b, d).binding, t, attrStatus, attributes, eventStatus).sent == None
    ensures RegisterThread(Step(b, d).binding, t, attrStatus, attributes, eventStatus).result != Registered
  {
  }

  // ---------------------------------------------------------------------------
  // The engine object

  /** The engine's calls into its collaborators, in the order it makes them. */
  datatype ExternalCall =
    | SessionRun(threw: bool)
    | InnerAttach(programs: seq<Option<ProgramRef>>, nodes: seq<ProgramNodeRef>, celtPrograms: nat, callback: Option<CallbackRef>, reason: nat)
    | InnerDestroyProgram(program: Option<ProgramRef>)
    | GetAttributes
    | CallbackEvent(event: ThreadCreateEvent)

  class XamarinEngine {
    var activeProgram: Option<ProgramRef>
    var eventCallback: Option<CallbackRef>
    /** The calls made so far into the session, the inner engine and the callback sink. */
    ghost var Calls: seq<ExternalCall>

    function Current(): Binding
      reads this
    {
      Binding(activeProgram, eventCallback)
    }

    constructor ()
      ensures Current() == Unbound && Calls == []
    {
      activeProgram, eventCallback := None, None;
      Calls := [];
    }

    /**
     * `IDebugEngine2.Attach`. The guards look at the length of `programs`, not at
     * `celtPrograms`. On acceptance the binding is recorded before the session is
     * started; an exception from the start is swallowed; the inner engine's
     * status is returned.
     */
    method Attach(programs: seq<Option<ProgramRef>>, nodes: seq<ProgramNodeRef>, celtPrograms: nat,
                  callback: Option<CallbackRef>, reason: nat, runThrows: bool, innerStatus: int)
      returns (status: int)
      modifies this
      ensures Outcome(Current(), status) == Step(old(Current()), Command.Attach(programs, callback, runThrows, innerStatus))
      ensures Calls == old(Calls) +
        if AttachVerdictOf(old(Current()), programs) == Accepted
        then [SessionRun(runThrows), InnerAttach(programs, nodes, celtPrograms, callback, reason)]
        else []
    {
      if |programs| != 1 {
        return S_FALSE;
      }
      if activeProgram.Some? {
        return S_FALSE;
      }
      activeProgram := programs[0];
      eventCallback := callback;
      Calls := Calls + [SessionRun(runThrows)];
      Calls := Calls + [InnerAttach(programs, nodes, celtPrograms, callback, reason)];
      status := innerStatus;
    }

    /** `IDebugEngine2.DestroyProgram`: clears the binding, then returns the inner engine's status. */
    method DestroyProgram(program: Option<ProgramRef>, innerStatus: int) returns (status: int)
      modifies this
      ensures Outcome(Current(), status) == Step(old(Current()), Command.DestroyProgram(program, innerStatus))
      ensures Calls == old(Calls) + [InnerDestroyProgram(program)]
    {
      activeProgram := None;
      eventCallback := None;
      Calls := Calls + [InnerDestroyProgram(program)];
      status := innerStatus;
    }

    /**
     * `CreateAndRegisterXamarinThread`: reads the event's attributes, then sends
     * the event through the bound sink; either failing status ends in
     * `InvalidOperation`. The binding is not changed.
     */
    method CreateAndRegisterXamarinThread(t: ThreadInfo, attrStatus: int, attributes: nat, eventStatus: int)
      returns (result: Registration)
      modifies this`Calls
      ensures result == RegisterThread(Current(), t, attrStatus, attributes, eventStatus).result
      ensures Calls == old(Calls) + [GetAttributes] +
        match RegisterThread(Current(), t, attrStatus, attributes, eventStatus).sent
        case None => []
        case Some(ev) => [CallbackEvent(ev)]
    {
      Calls := Calls + [GetAttributes];
      if attrStatus != S_OK {
        return InvalidOperation(AttributesFailedMessage);
      }
      if eventCallback.None? {
        return NullReference;
      }
      var ev := ThreadCreateEvent(eventCallback.value, activeProgram, t, attributes);
      Calls := Calls + [CallbackEvent(ev)];
      if eventStatus != S_OK {
        return InvalidOperation(EventFailedMessage);
      }
      result := Registered;
    }
  }

  /**
   * The `TargetThreadStarted` handler that `SerializeDebuggerOptions` sets on the
   * session: it registers the started thread. A null thread fails with a null
   * dereference when its id is read, before any call is made.
   */
  method OnTargetThreadStarted(e: XamarinEngine, x: TargetEventArgs, attrStatus: int, attributes: nat, eventStatus: int)
    returns (result: Registration)
    modifies e`Calls
    ensures x.thread.None? ==> result == NullReference && e.Calls == old(e.Calls)
    ensures x.thread.Some? ==> result == RegisterThread(e.Current(), x.thread.value, attrStatus, attributes, eventStatus).result
    ensures x.thread.Some? ==>
      (e.Calls == old(e.Calls) + [GetAttributes] +
        match RegisterThread(e.Current(), x.thread.value, attrStatus, attributes, eventStatus).sent
        case None => []
        case Some(ev) => [CallbackEvent(ev)])
  {
    if x.thread.None? {
      return NullReference;
    }
    result := e.CreateAndRegisterXamarinThread(x.thread.value, attrStatus, attributes, eventStatus);
  }

  /** The engine's methods compose as `RunCommands` says: a second Attach is refused until DestroyProgram. */
  method AttachTwiceThenReattach(p: ProgramRef, q: ProgramRef, cb: CallbackRef, s1: int, s3: int, s4: int)
    returns (r1: int, r2: int, r3: int, r4: int)
    ensures r1 == s1 && r2 == S_FALSE && r3 == s3 && r4 == s4
  {
    var e := new XamarinEngine();
    r1 := e.Attach([Some(p)], [], 1, Some(cb), 0, false, s1);
    r2 := e.Attach([Some(q)], [], 1, Some(cb), 0, false, s1);
    assert e.activeProgram == Some(p);
    r3 := e.DestroyProgram(Some(p), s3);
    r4 := e.Attach([Some(q)], [], 1, Some(cb), 0, true, s4);
    assert e.activeProgram == Some(q);
  }
}

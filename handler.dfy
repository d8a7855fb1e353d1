/**
 * `onMessage`: the script registers the one handler the host may later call.
 * The slot is filled at most once; a second registration raises and keeps the first.
 */
module Handler {
  import opened Wrappers
  import opened Js

  const NotAFunction := "Arg 0 is not a function"
  const AlreadyRegistered := "Handler already registered"

  /** The slot after one `onMessage` call, and how the call ends for the script. */
  datatype Registration = Registration(slot: Option<FuncRef>, outcome: CallbackOutcome)

  function Register(slot: Option<FuncRef>, args: seq<Value>): (r: Registration)
    // once set, the slot never changes
    ensures slot.Some? ==> r.slot == slot
    // the call succeeds exactly when the slot is empty and the first argument is a function,
    // and then that function is the handler
    ensures r.outcome == Returned <==> slot.None? && Arg(args, 0).Function?
    ensures r.outcome == Returned ==> r.slot == Some(Arg(args, 0).f)
    // every failure leaves the slot as it was
    ensures r.outcome != Returned ==> r.slot == slot
    ensures !Arg(args, 0).Function? ==> r.outcome == Thrown(TypeError(NotAFunction))
    ensures Arg(args, 0).Function? && slot.Some? ==> r.outcome == Thrown(Error(AlreadyRegistered))
  {
    var callback := Arg(args, 0);
    if !callback.Function? then Registration(slot, Thrown(TypeError(NotAFunction)))
    else if slot.Some? then Registration(slot, Thrown(Error(AlreadyRegistered)))
    else Registration(Some(callback.f), Returned)
  }

  /**
   * The calls a script and its embedder can make on a runtime, for reasoning about
   * the slot across a whole history. Only `onMessage` writes the slot. A history lists every
   * `onMessage` call as its own `CallOnMessage` entry, including the ones a script makes
   * while an `eval` or a dispatch runs, so `CallEval` and `CallSendMessage` mark only
   * where such a nested run begins.
   */
  datatype HostCall =
    | CallOnMessage(args: seq<Value>)
    | CallPostMessage(args: seq<Value>)
    | CallSendMessage(event: Value)
    | CallEval(source: string)

  function SlotAfter(slot: Option<FuncRef>, calls: seq<HostCall>): Option<FuncRef>
    decreases |calls|
  {
    if calls == [] then slot
    else
      var next := if calls[0].CallOnMessage? then Register(slot, calls[0].args).slot else slot;
      SlotAfter(next, calls[1..])
  }

  /** The first function ever passed to `onMessage` in `calls`, if any. */
  function FirstRegistered(calls: seq<HostCall>): Option<FuncRef>
    decreases |calls|
  {
    if calls == [] then None
    else if calls[0].CallOnMessage? && Arg(calls[0].args, 0).Function? then Some(Arg(calls[0].args, 0).f)
    else FirstRegistered(calls[1..])
  }

  /** A filled slot stays as it is, whatever the history. */
  lemma {:induction false} SlotNeverChanges(h: FuncRef, calls: seq<HostCall>)
    ensures SlotAfter(Some(h), calls) == Some(h)
    decreases |calls|
  {
    if calls != [] {
      SlotNeverChanges(h, calls[1..]);
    }
  }

  /** Starting empty, the handler is the first function ever registered. */
  lemma {:induction false} HandlerIsFirstRegistered(calls: seq<HostCall>)
    ensures SlotAfter(None, calls) == FirstRegistered(calls)
    decreases |calls|
  {
    if calls != [] {
      if calls[0].CallOnMessage? && Arg(calls[0].args, 0).Function? {
        SlotNeverChanges(Arg(calls[0].args, 0).f, calls[1..]);
      } else {
        HandlerIsFirstRegistered(calls[1..]);
      }
    }
  }

  /** The slot after `onMessage` calls with these argument lists, made in order by running script. */
  function RegisterAll(slot: Option<FuncRef>, argLists: seq<seq<Value>>): Option<FuncRef>
    decreases |argLists|
  {
    if argLists == [] then slot else RegisterAll(Register(slot, argLists[0]).slot, argLists[1..])
  }

  /** The same argument lists as a history of `onMessage` calls. */
  function OnMessageCalls(argLists: seq<seq<Value>>): seq<HostCall>
  {
    seq(|argLists|, i requires 0 <= i < |argLists| => CallOnMessage(argLists[i]))
  }

  /** Registering from running script is the history view restricted to `onMessage` calls. */
  lemma {:induction false} RegisterAllIsSlotAfter(slot: Option<FuncRef>, argLists: seq<seq<Value>>)
    ensures RegisterAll(slot, argLists) == SlotAfter(slot, OnMessageCalls(argLists))
    decreases |argLists|
  {
    var calls := OnMessageCalls(argLists);
    if argLists != [] {
      assert calls[0] == CallOnMessage(argLists[0]);
      assert calls[1..] == OnMessageCalls(argLists[1..]);
      RegisterAllIsSlotAfter(Register(slot, argLists[0]).slot, argLists[1..]);
    }
  }

  /** Whatever running script passes to `onMessage`, a filled slot keeps its handler. */
  lemma {:induction false} RegisterAllKeepsHandler(h: FuncRef, argLists: seq<seq<Value>>)
    ensures RegisterAll(Some(h), argLists) == Some(h)
  {
    RegisterAllIsSlotAfter(Some(h), argLists);
    SlotNeverChanges(h, OnMessageCalls(argLists));
  }

  /** From an empty slot, running script registers the first function it passes to `onMessage`. */
  lemma {:induction false} RegisterAllTakesFirst(argLists: seq<seq<Value>>)
    ensures RegisterAll(None, argLists) == FirstRegistered(OnMessageCalls(argLists))
  {
    RegisterAllIsSlotAfter(None, argLists);
    HandlerIsFirstRegistered(OnMessageCalls(argLists));
  }
}

/**
 * The worker runtime of src/core/runtime.rs: a context created with the bootstrap scripts
 * and the two bridge callbacks, evaluation, and dispatch of events to the registered handler.
 */
module CoreRuntime {
  import opened Wrappers
  import opened Js
  import opened Evaluation
  import opened State
  import opened Handler
  import opened MessageRelay

  /** The host callbacks behind the two bridge functions. */
  const MessageFromWorker := HostFunction("message_from_worker")
  const RegisterMessageHandler := HostFunction("register_message_handler")

  /** The scripts `create_init` evaluates, each bundled with `include_str!` from src/runtime/. */
  datatype BundledScript =
    | InitJs | AtobJs | BtoaJs | ConsoleJs | NavigatorJs | EventsJs
    | HeadersJs | ResponseJs | RequestJs | FetchEventJs | MessageJs

  /** The path each script is bundled from, relative to src/core/. */
  function PathOf(b: BundledScript): string
  {
    match b
    case InitJs => "../runtime/init.js"
    case AtobJs => "../runtime/atob.js"
    case BtoaJs => "../runtime/btoa.js"
    case ConsoleJs => "../runtime/console.js"
    case NavigatorJs => "../runtime/navigator.js"
    case EventsJs => "../runtime/events.js"
    case HeadersJs => "../runtime/fetch/headers.js"
    case ResponseJs => "../runtime/fetch/response.js"
    case RequestJs => "../runtime/fetch/request.js"
    case FetchEventJs => "../runtime/fetch/fetch-event.js"
    case MessageJs => "../runtime/message.js"
  }

  /** One step of `create_init` after the context exists. */
  datatype SetupStep = EvalBundled(script: BundledScript) | InstallBridge(name: string, callback: FuncRef)

  /** The steps of `create_init`, in order: ten bootstrap scripts, the two bridges, the message relay script. */
  function CoreInitSteps(): seq<SetupStep>
  {
    [ EvalBundled(InitJs), EvalBundled(AtobJs), EvalBundled(BtoaJs), EvalBundled(ConsoleJs),
      EvalBundled(NavigatorJs), EvalBundled(EventsJs), EvalBundled(HeadersJs),
      EvalBundled(ResponseJs), EvalBundled(RequestJs), EvalBundled(FetchEventJs),
      InstallBridge("postMessage", MessageFromWorker),
      InstallBridge("onMessage", RegisterMessageHandler),
      EvalBundled(MessageJs) ]
  }

  /**
   * The handler slot after evaluating `source` from `w`: a source that compiles runs, and
   * every `onMessage` call the run makes goes through `register_message_handler`.
   */
  function SlotAfterEval(e: Engine, w: Realm, source: string): (r: Option<FuncRef>)
    // a filled slot keeps its handler whatever the script does
    ensures w.handler.Some? ==> r == w.handler
    // a source that never runs leaves the slot alone
    ensures EvalScript(e, w, source).result == Err(CompileError) ==> r == w.handler
  {
    if !e.makeString(source) || e.compile(source).None? then w.handler
    else
      var calls := e.runRegistrations(e.compile(source).value, w);
      if w.handler.Some? then RegisterAllKeepsHandler(w.handler.value, calls); RegisterAll(w.handler, calls)
      else RegisterAll(w.handler, calls)
  }

  /** One step on the global object and the slot; `None` when a bundled script fails and its `unwrap` panics. */
  function ApplyStep(e: Engine, r: Realm, step: SetupStep): Option<Realm>
  {
    match step
    case EvalBundled(script) =>
      var source := e.bundle(PathOf(script));
      var o := EvalScript(e, r, source);
      if o.result.Ok? then Some(Realm(o.heap, SlotAfterEval(e, r, source))) else None
    case InstallBridge(name, callback) => Some(Realm(r.heap[name := Function(callback)], r.handler))
  }

  /** The steps in order; `None` as soon as one fails. */
  function Setup(e: Engine, r: Realm, steps: seq<SetupStep>): Option<Realm>
    decreases |steps|
  {
    if steps == [] then Some(r)
    else match ApplyStep(e, r, steps[0])
      case None => None
      case Some(r') => Setup(e, r', steps[1..])
  }

  /** The global object and slot a successful `create_init` hands out, or `None` when it panics. */
  function CoreInit(e: Engine): Option<Realm>
  {
    Setup(e, Realm(e.initial, None), CoreInitSteps())
  }

  /** Performing a list of steps is performing its two halves one after the other. */
  lemma {:induction false} SetupSplit(e: Engine, r: Realm, a: seq<SetupStep>, b: seq<SetupStep>)
    ensures Setup(e, r, a + b) == (match Setup(e, r, a) case None => None case Some(r') => Setup(e, r', b))
    decreases |a|
  {
    if a == [] {
      assert a + b == b;
    } else {
      assert (a + b)[0] == a[0];
      assert (a + b)[1..] == a[1..] + b;
      match ApplyStep(e, r, a[0])
      case None =>
      case Some(r') => SetupSplit(e, r', a[1..], b);
    }
  }

  /** A run of steps that succeeds succeeds on each of its prefixes. */
  lemma SetupPrefix(e: Engine, r: Realm, steps: seq<SetupStep>, k: nat)
    requires k <= |steps| && Setup(e, r, steps).Some?
    ensures Setup(e, r, steps[..k]).Some?
  {
    assert steps == steps[..k] + steps[k..];
    SetupSplit(e, r, steps[..k], steps[k..]);
  }

  /** After a run of steps that ends with installing two bridges, both are bound in the global object. */
  lemma {:induction false} InstalledBridgesAreBound(e: Engine, r: Realm, steps: seq<SetupStep>, k: nat)
    requires 2 <= k <= |steps| && steps[k - 2].InstallBridge? && steps[k - 1].InstallBridge?
    requires steps[k - 2].name != steps[k - 1].name
    requires Setup(e, r, steps[..k]).Some?
    ensures var g := Setup(e, r, steps[..k]).value.heap;
            steps[k - 2].name in g && g[steps[k - 2].name] == Function(steps[k - 2].callback) &&
            steps[k - 1].name in g && g[steps[k - 1].name] == Function(steps[k - 1].callback)
  {
    var s1, s2 := steps[k - 2], steps[k - 1];
    assert steps[..k] == steps[..k - 2] + [s1, s2];
    SetupSplit(e, r, steps[..k - 2], [s1, s2]);
    var g0 := Setup(e, r, steps[..k - 2]).value;
    var g1 := Realm(g0.heap[s1.name := Function(s1.callback)], g0.handler);
    var g2 := Realm(g1.heap[s2.name := Function(s2.callback)], g1.handler);
    assert [s1, s2][1..] == [s2];
    assert [s2][1..] == [];
    assert Setup(e, g1, [s2]) == Setup(e, g2, []);
    assert Setup(e, g0, [s1, s2]) == Setup(e, g1, [s2]);
  }

  /** The first twelve steps of `create_init` leave both bridges bound. */
  lemma BridgesBoundAfterTwelveSteps(e: Engine)
    requires Setup(e, Realm(e.initial, None), CoreInitSteps()[..12]).Some?
    ensures var g := Setup(e, Realm(e.initial, None), CoreInitSteps()[..12]).value.heap;
            "postMessage" in g && g["postMessage"] == Function(MessageFromWorker) &&
            "onMessage" in g && g["onMessage"] == Function(RegisterMessageHandler)
  {
    var steps := CoreInitSteps();
    assert steps[10].name != steps[11].name;
    InstalledBridgesAreBound(e, Realm(e.initial, None), steps, 12);
  }

  /**
   * Whenever `create_init` succeeds, `message.js` is its last step and runs in a global object
   * where `postMessage` and `onMessage` are the host's bridges.
   */
  lemma BridgesInstalledBeforeMessageScript(e: Engine)
    requires CoreInit(e).Some?
    ensures Setup(e, Realm(e.initial, None), CoreInitSteps()[..12]).Some?
    ensures var g := Setup(e, Realm(e.initial, None), CoreInitSteps()[..12]).value.heap;
            "postMessage" in g && g["postMessage"] == Function(MessageFromWorker) &&
            "onMessage" in g && g["onMessage"] == Function(RegisterMessageHandler)
    ensures |CoreInitSteps()| == 13 && CoreInitSteps()[12] == EvalBundled(MessageJs)
  {
    SetupPrefix(e, Realm(e.initial, None), CoreInitSteps(), 12);
    BridgesBoundAfterTwelveSteps(e);
  }

  /**
   * An engine whose every script is `try { onMessage(f); "first" } catch (e) { "again" }`:
   * it registers `f` and completes with a text that depends on how that call ended.
   */
  function CatchingEngine(f: FuncRef): Engine
  {
    Engine(
      map[], (path: string) => "", (source: string) => true,
      (source: string) => Some(CompiledScript(0)),
      (c: CompiledScript, w: Realm) =>
        Completed(Str(if Register(w.handler, [Function(f)]).outcome == Returned then "first" else "again"), w.heap),
      (g: FuncRef, receiver: Value, args: seq<Value>, w: Realm) => Threw(w.heap),
      (c: CompiledScript, w: Realm) => [[Function(f)]],
      (g: FuncRef, receiver: Value, args: seq<Value>, w: Realm) => [],
      (v: Value) => None, (v: Value) => None, (x: Extension, w: Realm) => w)
  }

  /** The script sees its own `onMessage` outcome: from an empty slot it registers `f`, and again it is refused. */
  lemma CatchingScriptSeesRegistration(f: FuncRef, h: Heap, source: string)
    ensures var e := CatchingEngine(f);
            EvalScript(e, Realm(h, None), source).result == Ok("first") &&
            SlotAfterEval(e, Realm(h, None), source) == Some(f) &&
            EvalScript(e, Realm(h, Some(f)), source).result == Ok("again") &&
            SlotAfterEval(e, Realm(h, Some(f)), source) == Some(f)
  {
    var e := CatchingEngine(f);
    assert [[Function(f)]][1..] == [];
    assert RegisterAll(None, [[Function(f)]]) == RegisterAll(Some(f), []);
  }

  /** A domain event: a hook run before dispatch, and how it materialises as a script value. */
  datatype Event = Event(prepare: Heap -> Heap, toValue: Heap -> Value)

  class JsRuntime {
    const engine: Engine
    /** The global object of the runtime's context. */
    var heap: Heap
    /** The state in the context's slot, shared by the bridge callbacks. */
    const state: JsState
    /** What the host emitted for `postMessage` calls, in order. */
    var output: seq<Output>
    /** The calls the host made into the registered handler, in order. */
    var invocations: seq<Invocation>
    /** The setup steps performed so far. */
    var performed: seq<SetupStep>

    /** `create_init`: an empty slot, then the setup steps in order. */
    constructor CreateInit(e: Engine)
      requires CoreInit(e).Some?
      ensures engine == e && fresh(state)
      ensures Realm(heap, state.handler) == CoreInit(e).value
      ensures performed == CoreInitSteps()
      ensures output == [] && invocations == []
    {
      engine := e;
      heap := e.initial;
      state := new JsState.Empty();
      output := [];
      invocations := [];
      performed := [];
      new;
      PerformAll(CoreInitSteps());
    }

    /** The steps in order, each on the global object and slot the previous one left. */
    method PerformAll(steps: seq<SetupStep>)
      requires Setup(engine, Realm(heap, state.handler), steps).Some?
      modifies this, state
      ensures Realm(heap, state.handler) == Setup(engine, old(Realm(heap, state.handler)), steps).value
      ensures performed == old(performed) + steps
      ensures output == old(output) && invocations == old(invocations)
    {
      ghost var start := Realm(heap, state.handler);
      for i := 0 to |steps|
        invariant Setup(engine, start, steps[..i]) == Some(Realm(heap, state.handler))
        invariant Setup(engine, start, steps) == Setup(engine, Realm(heap, state.handler), steps[i..])
        invariant performed == old(performed) + steps[..i]
        invariant output == old(output) && invocations == old(invocations)
      {
        assert steps[i..] == [steps[i]] + steps[i + 1..];
        SetupSplit(engine, start, steps[..i], [steps[i]]);
        assert steps[..i + 1] == steps[..i] + [steps[i]];
        assert [steps[i]][1..] == [];
        Perform(steps[i]);
      }
      assert steps[..|steps|] == steps;
    }

    /** One setup step; the source unwraps a bundled script's result, so it must succeed. */
    method Perform(step: SetupStep)
      requires ApplyStep(engine, Realm(heap, state.handler), step).Some?
      modifies this, state
      ensures Realm(heap, state.handler) == ApplyStep(engine, old(Realm(heap, state.handler)), step).value
      ensures performed == old(performed) + [step]
      ensures output == old(output) && invocations == old(invocations)
    {
      match step {
        case EvalBundled(script) =>
          var r := Eval(engine.bundle(PathOf(script)));
        case InstallBridge(name, callback) =>
          heap := heap[name := Function(callback)];
      }
      performed := performed + [step];
    }

    /**
     * `eval`: the shared pipeline on this runtime's global object. While the script runs,
     * each of its `onMessage` calls goes through the host callback.
     */
    method Eval(source: string) returns (r: Result<string, EvalError>)
      modifies this, state
      ensures r == EvalScript(engine, old(Realm(heap, state.handler)), source).result
      ensures heap == EvalScript(engine, old(Realm(heap, state.handler)), source).heap
      ensures state.handler == SlotAfterEval(engine, old(Realm(heap, state.handler)), source)
      ensures old(state.handler).Some? ==> state.handler == old(state.handler)
      ensures output == old(output) && invocations == old(invocations) && performed == old(performed)
    {
      var start := Realm(heap, state.handler);
      var o := EvalScript(engine, start, source);
      if engine.makeString(source) && engine.compile(source).Some? {
        RegisterEach(engine.runRegistrations(engine.compile(source).value, start));
      }
      heap := o.heap;
      r := o.result;
    }

    /** The `onMessage` calls running script makes, one after the other. */
    method RegisterEach(argLists: seq<seq<Value>>)
      modifies state
      ensures state.handler == RegisterAll(old(state.handler), argLists)
    {
      for i := 0 to |argLists|
        invariant RegisterAll(old(state.handler), argLists) == RegisterAll(state.handler, argLists[i..])
      {
        assert argLists[i..][1..] == argLists[i + 1..];
        var _ := OnMessage(argLists[i]);
      }
    }

    /** `register_message_handler`, the callback behind `onMessage`. */
    method OnMessage(args: seq<Value>) returns (r: CallbackOutcome)
      modifies state
      ensures r == Register(old(state.handler), args).outcome
      ensures state.handler == Register(old(state.handler), args).slot
    {
      var callback := Arg(args, 0);
      if !callback.Function? {
        r := Thrown(TypeError(NotAFunction));
        return;
      }
      match state.handler
      case Some(_) =>
        r := Thrown(Error(AlreadyRegistered));
      case None =>
        state.handler := Some(callback.f);
        r := Returned;
    }

    /** `message_from_worker`, the callback behind `postMessage`. */
    method PostMessage(args: seq<Value>) returns (r: CallbackOutcome)
      modifies this
      ensures r == Relay(engine, args).outcome
      ensures output == old(output) + Relay(engine, args).emitted
      ensures heap == old(heap) && invocations == old(invocations) && performed == old(performed)
    {
      if ArityGuardFires(|args|) {
        r := Thrown(TypeError(ArityMessage));
        return;
      }
      var message := ToObject(Arg(args, 0));
      if message.None? {
        r := Panicked("message is not an object");
        return;
      }
      var kind := Lossy(engine, Get(message.value, "kind"));
      match ParseKind(kind)
      case Console =>
        var level := Lossy(engine, Get(message.value, "level"));
        var date := DateOf(engine, message.value);
        var list := Get(message.value, "args");
        if !list.Array? {
          r := Panicked("args is not an array");
          return;
        }
        var text := FormatArgs(engine, list.items);
        output := output + [ConsoleLine(date, level, text)];
        r := Returned;
      case Unrecognised(name) =>
        output := output + [UnknownKind(name)];
        r := Returned;
    }

    /**
     * `send_message`: prepare the event, then call the handler, if any, once with it.
     * A handler that calls `onMessage` again is refused, so the slot never changes here.
     */
    method SendMessage(event: Event) returns (r: Option<Value>)
      modifies this, state
      ensures state.handler == old(state.handler)
      ensures output == old(output) && performed == old(performed)
      ensures old(state.handler).None? ==>
                r == None && heap == event.prepare(old(heap)) && invocations == old(invocations)
      ensures old(state.handler).Some? ==>
                var h := event.prepare(old(heap));
                var arg := event.toValue(h);
                var c := engine.call(old(state.handler).value, Undefined, [arg], Realm(h, old(state.handler)));
                invocations == old(invocations) + [Invocation(old(state.handler).value, Undefined, [arg])] &&
                heap == c.heap &&
                r == (if c.Completed? then Some(c.value) else None)
    {
      heap := event.prepare(heap);
      var handler := state.handler;
      if handler.None? {
        r := None;
        return;
      }
      var arg := event.toValue(heap);
      var start := Realm(heap, handler);
      var c := engine.call(handler.value, Undefined, [arg], start);
      var calls := engine.callRegistrations(handler.value, Undefined, [arg], start);
      RegisterAllKeepsHandler(handler.value, calls);
      RegisterEach(calls);
      invocations := invocations + [Invocation(handler.value, Undefined, [arg])];
      heap := c.heap;
      r := if c.Completed? then Some(c.value) else None;
    }
  }

  /** With an empty slot, dispatch gives no result, calls nothing and leaves the slot empty. */
  method DispatchWithoutHandler(rt: JsRuntime, event: Event) returns (r: Option<Value>)
    requires rt.state.handler == None
    modifies rt, rt.state
    ensures r == None && rt.invocations == old(rt.invocations) && rt.state.handler == None
  {
    r := rt.SendMessage(event);
  }

  /**
   * On an empty slot, a second `onMessage` raises, and dispatch then calls the first handler,
   * once, with the event alone and no receiver.
   */
  method SecondRegistrationKeepsFirst(rt: JsRuntime, first: FuncRef, second: FuncRef, event: Event)
    returns (again: CallbackOutcome)
    requires rt.state.handler == None
    modifies rt, rt.state
    ensures again == Thrown(Error(AlreadyRegistered))
    ensures rt.state.handler == Some(first)
    ensures rt.invocations ==
              old(rt.invocations) + [Invocation(first, Undefined, [event.toValue(event.prepare(old(rt.heap)))])]
  {
    var ok := rt.OnMessage([Function(first)]);
    again := rt.OnMessage([Function(second)]);
    var _ := rt.SendMessage(event);
  }
}

/**
 * The context of src/base/mod.rs: a context without the engine's default `console`,
 * extensions bound in a fixed order, evaluation, and the fetch call into the handler.
 */
module BaseContext {
  import opened Wrappers
  import opened Js
  import opened Evaluation
  import opened State

  const UnwrapNone := "called `Option::unwrap()` on a `None` value"

  /** The global object of a new context: the engine's own, without `console`. */
  function CreatedHeap(e: Engine): (h: Heap)
    ensures "console" !in h
    ensures h.Keys == e.initial.Keys - {"console"}
    ensures forall k | k in h :: h[k] == e.initial[k]
  {
    e.initial - {"console"}
  }

  /** The extensions `create_init` binds, in order. */
  function DefaultExtensions(): seq<Extension>
  {
    [ConsoleExt, Base64UtilsExt, EventListerExt]
  }

  class JsContext {
    const engine: Engine
    /** The global object of the context. */
    var heap: Heap
    /** The state in the context's slot. */
    const state: JsState
    /** The extensions bound so far, in order. */
    var bound: seq<Extension>
    /** The calls the host made into the handler, in order. */
    var invocations: seq<Invocation>

    /** `create`: the engine's global object without `console`, and an empty slot. */
    constructor Create(e: Engine)
      ensures engine == e && fresh(state)
      ensures heap == CreatedHeap(e) && state.handler == None
      ensures bound == [] && invocations == []
    {
      engine := e;
      heap := CreatedHeap(e);
      state := new JsState.Empty();
      bound := [];
      invocations := [];
    }

    /** `create_init`: `create`, then each default extension bound once, in order. */
    constructor CreateInit(e: Engine)
      ensures engine == e && fresh(state)
      ensures bound == DefaultExtensions() && invocations == []
      ensures Realm(heap, state.handler) ==
              e.bind(EventListerExt, e.bind(Base64UtilsExt, e.bind(ConsoleExt, Realm(CreatedHeap(e), None))))
    {
      engine := e;
      heap := CreatedHeap(e);
      state := new JsState.Empty();
      bound := [];
      invocations := [];
      new;
      Register(ConsoleExt);
      Register(Base64UtilsExt);
      Register(EventListerExt);
    }

    /** `register`: the extension binds itself into the context. */
    method Register(ext: Extension)
      modifies this, state
      ensures Realm(heap, state.handler) == engine.bind(ext, old(Realm(heap, state.handler)))
      ensures bound == old(bound) + [ext] && invocations == old(invocations)
    {
      var realm := engine.bind(ext, Realm(heap, state.handler));
      heap := realm.heap;
      state.handler := realm.handler;
      bound := bound + [ext];
    }

    /** `last_exception` is not implemented and reports nothing. */
    method LastException() returns (r: Option<string>)
      ensures r == None
    {
      r := None;
    }

    /** `eval`: the shared pipeline on this context's global object. */
    method Eval(source: string) returns (r: Result<string, EvalError>)
      modifies this
      ensures r == EvalScript(engine, old(Realm(heap, state.handler)), source).result
      ensures heap == EvalScript(engine, old(Realm(heap, state.handler)), source).heap
      ensures bound == old(bound) && invocations == old(invocations)
    {
      var o := EvalScript(engine, Realm(heap, state.handler), source);
      heap := o.heap;
      r := o.result;
    }

    /**
     * `fetch`: no result without a handler; otherwise one call with an undefined receiver and
     * one undefined argument, and the text of its result. A throwing call or a result with
     * no text panics through `unwrap`.
     */
    method Fetch() returns (r: Host<Option<string>>)
      modifies this
      ensures state.handler == old(state.handler) && bound == old(bound)
      ensures old(state.handler).None? ==>
                r == Done(None) && heap == old(heap) && invocations == old(invocations)
      ensures old(state.handler).Some? ==>
                var c := engine.call(old(state.handler).value, Undefined, [Undefined], old(Realm(heap, state.handler)));
                invocations == old(invocations) + [Invocation(old(state.handler).value, Undefined, [Undefined])] &&
                heap == c.heap &&
                r == (if c.Completed? && ToText(engine, c.value).Some?
                      then Done(Some(ToText(engine, c.value).value))
                      else Panic(UnwrapNone))
    {
      var handler := state.handler;
      if handler.None? {
        r := Done(None);
        return;
      }
      var c := engine.call(handler.value, Undefined, [Undefined], Realm(heap, handler));
      invocations := invocations + [Invocation(handler.value, Undefined, [Undefined])];
      heap := c.heap;
      if c.Threw? {
        r := Panic(UnwrapNone);
        return;
      }
      match ToText(engine, c.value)
      case None =>
        r := Panic(UnwrapNone);
      case Some(text) =>
        r := Done(Some(text));
    }
  }

  const TypeofConsole := "typeof console"

  /** The engine's answer to `typeof console` in any global object that has no `console`. */
  ghost predicate ProbeFindsNoConsole(e: Engine)
  {
    e.makeString(TypeofConsole) && e.compile(TypeofConsole).Some? &&
    forall w: Realm | "console" !in w.heap ::
      e.run(e.compile(TypeofConsole).value, w).Completed? &&
      e.run(e.compile(TypeofConsole).value, w).value == Str("undefined")
  }

  /** The engine compiles `source` and its run throws, whatever the global object and slot. */
  ghost predicate AlwaysThrows(e: Engine, source: string)
  {
    e.makeString(source) && e.compile(source).Some? &&
    forall w: Realm :: e.run(e.compile(source).value, w).Threw?
  }

  /** A new context has no `console`, so `typeof console` is `"undefined"`. */
  method ConsoleShouldNotBeDefined(e: Engine) returns (r: Result<string, EvalError>)
    requires ProbeFindsNoConsole(e)
    ensures r == Ok("undefined")
  {
    var ctx := new JsContext.Create(e);
    r := ctx.Eval(TypeofConsole);
  }

  /** A script that throws is reported as a runtime error, and the context can evaluate again. */
  method EvalShouldNotPanicOnRuntimeError(e: Engine, next: string)
    returns (r: Result<string, EvalError>, again: Result<string, EvalError>)
    requires AlwaysThrows(e, "throw new Error('test')")
    ensures r == Err(RuntimeError)
    ensures again ==
              EvalScript(e, Realm(e.run(e.compile("throw new Error('test')").value, Realm(CreatedHeap(e), None)).heap, None), next).result
  {
    var ctx := new JsContext.Create(e);
    r := ctx.Eval("throw new Error('test')");
    again := ctx.Eval(next);
  }

  method EvalShouldNotPanicOnCompileError(e: Engine) returns (r: Result<string, EvalError>)
    requires e.compile("}") == None
    ensures r == Err(CompileError)
  {
    var ctx := new JsContext.Create(e);
    r := ctx.Eval("}");
  }

  /** A script context cannot resolve modules, so a dynamic import does not compile. */
  method EvalShouldNotPanicOnDynamicImport(e: Engine) returns (r: Result<string, EvalError>)
    requires e.compile("import('moduleName')") == None
    ensures r == Err(CompileError)
  {
    var ctx := new JsContext.Create(e);
    r := ctx.Eval("import('moduleName')");
  }

  /** A new context has no handler, so `fetch` gives no result and calls nothing. */
  method FetchWithoutHandler(e: Engine) returns (r: Host<Option<string>>, calls: nat)
    ensures r == Done(None) && calls == 0
  {
    var ctx := new JsContext.Create(e);
    r := ctx.Fetch();
    calls := |ctx.invocations|;
  }
}

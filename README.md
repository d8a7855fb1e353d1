# openworkers-runtime: host-side runtime core, modelled in Dafny

This project models the host side of a worker-style JavaScript runtime built on V8. The runtime
creates a context, evaluates bootstrap scripts into it and installs two bridge functions:
`postMessage`, which relays console records from script to host, and `onMessage`, which registers
the single handler the host may later call. It can then evaluate scripts and dispatch events to
that handler. Two versions of this layer are modelled: `src/core/runtime.rs` (`JsRuntime`) and
`src/base/mod.rs` (`JsContext`, with pluggable extensions and `fetch`).

The engine is not modelled. Everything V8 decides is an oracle, a total function held in a
`Js.Engine` value:
- the fresh global object;
- the contents of the bundled scripts;
- whether a source becomes an engine string and whether it compiles;
- what a run or a call completes with, and whether it throws, given the global object and the handler slot it starts from;
- which argument lists a run or a call passes to `onMessage` while it executes, in order;
- how a value converts to text or to an integer;
- what an extension's `bind` installs.

A context's engine state is reduced to its global object (`Heap`, a property map). The model
makes only these concrete:
- a string converts to itself and an integral number to itself;
- `to_object` fails exactly on `undefined` and `null`;
- `to_rust_string_lossy` on a value is its `to_string` text, or the empty string when that fails.
  This is the V8 binding's behaviour and is not visible in the source.

Modules, one per component:
- `Wrappers`: Option and Result.
- `Js`: values, completions, the oracle record, conversions.
- `Evaluation`: the `eval` pipeline. Both files contain it, line for line, so it is defined once
  and both classes use it.
- `State`: the handler slot.
- `Handler`: `onMessage` as a function on the slot, plus the slot's behaviour across a whole
  history of calls.
- `MessageRelay`: `postMessage` as a function, plus the loop that builds the console text.
- `CoreRuntime`: the `JsRuntime` class and its `create_init` steps.
- `BaseContext`: the `JsContext` class, plus the unit tests of `src/base/mod.rs` written as
  methods. Each test's engine behaviour is stated as an oracle precondition.

The arity guard of `postMessage`, `!args.length() == 1`, is kept as written. `!` is Rust's
bitwise complement here, so the guard fires only for a count of -2 and never rejects a call (see
Findings).

## Model

| member | source | states |
|---|---|---|
| `Evaluation.EvalScript` | src/core/runtime.rs:236-251 | A compile failure leaves the global object untouched. A success is the text of a completed run, and the global object is the one that run left. |
| `Evaluation.EvalReportsFirstFailingStage` | src/base/mod.rs:99-114 | `eval` fails exactly when one of its stages (string creation, compile, run, to_string) fails. The error is that of the first failing stage: CompileError, CompileError, RuntimeError, ConversionError. With no failure it returns the completion value's text. |
| `State.JsState.Empty` | src/core/runtime.rs:171-174 | The slot of a new context holds no handler. |
| `Handler.Register` | src/core/runtime.rs:109-150 | A filled slot never changes. Registration succeeds exactly when the slot is empty and argument 0 is a function, and then stores exactly that function. Each failure leaves the slot unchanged. A non-function raises TypeError "Arg 0 is not a function". A second function raises Error "Handler already registered". |
| `Handler.SlotNeverChanges` | src/core/runtime.rs:136-143 | Once the slot holds a handler, no sequence of host calls changes it. |
| `Handler.HandlerIsFirstRegistered` | src/core/runtime.rs:144-147 | From an empty slot, after any sequence of calls, the slot holds the first function ever passed to `onMessage`, or nothing. |
| `Handler.RegisterAllIsSlotAfter` | src/core/runtime.rs:116-149 | The `onMessage` calls a running script makes, applied one after another, leave the slot as the history made of exactly those calls does. |
| `Handler.RegisterAllKeepsHandler` | src/core/runtime.rs:136-143 | Whatever a running script passes to `onMessage`, a filled slot keeps its handler. |
| `Handler.RegisterAllTakesFirst` | src/core/runtime.rs:144-147 | From an empty slot, a running script's `onMessage` calls register the first function among their first arguments, or nothing. |
| `CoreRuntime.JsRuntime.CreateInit` | src/core/runtime.rs:154-233 | The runtime starts from an empty slot, then performs exactly the setup steps in order: ten bundled scripts, then `postMessage`, then `onMessage`, then `message.js`. Its global object and its slot are the result of those steps, so a handler that `message.js` registers is in the slot. Requires that every bundled script evaluates, because the source unwraps each result. |
| `CoreRuntime.JsRuntime.PerformAll` | src/core/runtime.rs:184-230 | Performs the setup steps one after another, each on the global object and slot the previous one left, and records them in order. Output and handler calls are unchanged. |
| `CoreRuntime.JsRuntime.Perform` | src/core/runtime.rs:184-230 | One setup step: a bundled script is evaluated through `eval`, a bridge is bound under its name. The global object and slot become those the step function gives, and the step is recorded. |
| `CoreRuntime.SetupSplit` | src/core/runtime.rs:184-230 | Performing a list of steps equals performing its first part and then the rest; a failure stops everything. |
| `CoreRuntime.InstalledBridgesAreBound` | src/core/runtime.rs:201-227 | Right after two installs, both names are bound to their host callbacks. |
| `CoreRuntime.SetupPrefix` | src/core/runtime.rs:184-230 | When all the steps succeed, so does every prefix of them. In particular, `create_init` reaches `message.js`. |
| `CoreRuntime.BridgesBoundAfterTwelveSteps` | src/core/runtime.rs:201-227 | Once the first twelve setup steps succeed, their global object binds `postMessage` to `message_from_worker` and `onMessage` to `register_message_handler`. |
| `CoreRuntime.BridgesInstalledBeforeMessageScript` | src/core/runtime.rs:201-230 | There are thirteen steps and `message.js` is the last. Whenever `create_init` succeeds, the global object `message.js` runs in binds `postMessage` to `message_from_worker` and `onMessage` to `register_message_handler`. |
| `CoreRuntime.SlotAfterEval` | src/core/runtime.rs:242-246 | A script changes the slot only through its `onMessage` calls. A filled slot keeps its handler whatever the script does, and a source that fails to become a string or to compile leaves the slot alone. |
| `CoreRuntime.JsRuntime.Eval` | src/core/runtime.rs:242-250 | The runtime's `eval` returns the shared pipeline's result and keeps its global object. The run sees the slot it starts from, so a script can react to how its own `onMessage` calls end. While the script runs, each of its `onMessage` calls goes through the callback, so a filled slot keeps its handler. Output and handler calls are unchanged. |
| `CoreRuntime.CatchingScriptSeesRegistration` | src/core/runtime.rs:136-147 | A script that calls `onMessage(f)` and catches the error completes with "first" from an empty slot, where it registers `f`. From a slot already holding `f` it completes with "again" and the slot is kept. |
| `CoreRuntime.JsRuntime.RegisterEach` | src/core/runtime.rs:116-149 | The `onMessage` calls a running script makes, one after another through the callback, leave the slot that applying `Handler.Register` to each gives. |
| `CoreRuntime.JsRuntime.OnMessage` | src/core/runtime.rs:116-149 | The callback's outcome and the new slot are those of `Handler.Register` on the old slot. |
| `CoreRuntime.JsRuntime.PostMessage` | src/core/runtime.rs:64-106 | The outcome is that of `MessageRelay.Relay`. The output gains exactly what the relay emits. The global object, the slot and the handler calls are unchanged. |
| `CoreRuntime.JsRuntime.SendMessage` | src/core/runtime.rs:253-293 | The event's prepare hook always runs first. With no handler: no result, and no call. Otherwise the stored handler is called exactly once, with receiver `undefined` and the event's value as its only argument, and the call's value is returned (none if it threw). The handler's own `onMessage` calls go through the callback and are refused, so the slot never changes. |
| `CoreRuntime.DispatchWithoutHandler` | src/core/runtime.rs:266-276 | On a runtime whose slot is empty, dispatch returns no result, calls nothing and leaves the slot empty. |
| `CoreRuntime.SecondRegistrationKeepsFirst` | src/core/runtime.rs:136-147 | On a runtime whose slot is empty, after two registrations the second raises "Handler already registered" and the first is the handler. Dispatch then calls that handler exactly once, with receiver `undefined` and the prepared event's value as its only argument. |
| `MessageRelay.Relay` | src/core/runtime.rs:69-105 | The host's arity guard never raises, whatever the arity. The host panics exactly when `to_object` fails on the message (it is `undefined` or `null`), or on a message of kind "console" whose `args` is not an array. A console message emits one line: its date, its level, and the joined text of its arguments. Any other kind emits only an unknown-kind diagnostic with that kind. |
| `MessageRelay.ArityGuardNeverFires` | src/core/runtime.rs:69-73 | The guard as written fires exactly for a count of -2, so never for a real call. |
| `MessageRelay.FormatArgs` | src/core/runtime.rs:82-98 | The loop's result equals `Joined` of the arguments: each argument's text after one space, in index order. |
| `MessageRelay.JoinedAppend` | src/core/runtime.rs:95-98 | The joined text of `a + b` is the joined text of `a` followed by that of `b`. |
| `MessageRelay.JoinedCons` | src/core/runtime.rs:95-98 | Read from the front, the first argument's text comes first, after one space. |
| `MessageRelay.DateDefaults` | src/core/runtime.rs:86-88 | An integral `date` is used as it is. A date the engine cannot make an integer becomes 0. A missing date becomes 0 when the engine reads `undefined` as no integer or as 0. |
| `MessageRelay.Render` | src/core/runtime.rs:100-103 | A console line starts with the bracketed date and ends with the argument text. |
| `MessageRelay.ConsoleInfoExample` | src/core/runtime.rs:81-100 | `{kind: "console", level: "info", date: 0, args: ["a", "b"]}` emits one line with text `" a b"`, printed as `"[<date 0>] console.info: a b"`. |
| `MessageRelay.ZeroArgumentsPanicAsWritten` | src/core/runtime.rs:69-76 | With no argument, the code as written panics at `to_object`, while the corrected guard raises the arity TypeError. |
| `MessageRelay.RelayCorrected` | src/core/runtime.rs:69-73 | With the intended guard, a call raises TypeError "postMessage expects 1 argument" exactly when its argument count is not one. |
| `MessageRelay.CorrectedGuardDiffersOnlyOnArity` | src/core/runtime.rs:69-73 | The corrected relay and the relay as written agree exactly on calls with one argument. |
| `BaseContext.CreatedHeap` | src/base/mod.rs:57-62 | A new context's global object is the engine's, with exactly the `console` key removed and every other entry kept. |
| `BaseContext.JsContext.Create` | src/base/mod.rs:44-72 | A new context has that global object and an empty slot. No extension is bound and no handler has been called. |
| `BaseContext.JsContext.CreateInit` | src/base/mod.rs:75-83 | Exactly the extensions Console, Base64Utils, EventListener are bound, each once and in that order. Each bind is applied to the state the previous one left. |
| `BaseContext.JsContext.Register` | src/base/mod.rs:86-92 | The extension's bind is applied to the global object and the slot. The extension is appended to the bound list. |
| `BaseContext.JsContext.LastException` | src/base/mod.rs:94-96 | Always returns no exception. |
| `BaseContext.JsContext.Eval` | src/base/mod.rs:105-113 | The context's `eval` returns the shared pipeline's result, run from the context's global object and slot, and keeps the global object that run left. |
| `BaseContext.JsContext.Fetch` | src/base/mod.rs:117-147 | With no handler: no result, and no call. Otherwise exactly one call with receiver `undefined` and one `undefined` argument, and the text of its value is returned. A call that throws, or a value with no text, panics through `unwrap`. The model keeps the slot unchanged (writes by extension functions the handler calls are not modelled). |
| `BaseContext.FetchWithoutHandler` | src/base/mod.rs:124-140 | On a newly created context, `fetch` returns no result and calls nothing. |
| `BaseContext.ConsoleShouldNotBeDefined` | src/base/mod.rs:160-168 | Assume the engine answers `typeof console` with "undefined" wherever `console` is absent. Then it does so in a new context. |
| `BaseContext.EvalShouldNotPanicOnRuntimeError` | src/base/mod.rs:170-179 | A script that always throws gives RuntimeError, not a panic. The context then evaluates the next script against the global object that run left. |
| `BaseContext.EvalShouldNotPanicOnCompileError` | src/base/mod.rs:181-190 | If the engine does not compile `}`, eval gives CompileError. |
| `BaseContext.EvalShouldNotPanicOnDynamicImport` | src/base/mod.rs:192-200 | If the engine does not compile `import('moduleName')`, eval gives CompileError. |

## Left out

- V8 itself: parsing, compilation, execution, conversions and property access are oracles, not JavaScript semantics.
- Property reads: prototypes, getters and array holes are not modelled. A named property absent from an object, or read on a non-object, is `undefined`.
- Conversions: the to_string oracle is a pure function of the value. A user-defined `toString` that changes the heap is not modelled.
- Re-entrancy: the `onMessage` calls a script makes while it runs (under `eval`, a bootstrap step or a dispatched handler) come from an oracle and go through `register_message_handler` in order. That oracle does not depend on whether `onMessage` is bound yet, so the model does not rule out registrations by the bootstrap scripts that run before the bridge is installed; in the source they cannot reach the callback. A run's completion and its `onMessage` calls are functions of the global object and the slot it starts from. `Handler.Register` is deterministic, so that slot decides how each such call ends. The `postMessage` calls a running script makes are not folded into the runtime's output. `CoreRuntime.JsRuntime.PostMessage` models each such call on its own.
- CoreRuntime.JsRuntime.Eval: a `postMessage` call made by running script that panics in `message_from_worker` (`postMessage()`, `postMessage(null)`, or a console message whose `args` is not an array) ends the host process in the source. The model's `Eval`, `SendMessage` and bootstrap steps still return normally, with the pipeline's result, the call's value or the next setup state.
- Pending exceptions: when `to_string` or `integer_value` fails inside `message_from_worker` (on a Symbol, say), V8 leaves an exception pending that is rethrown into the calling script. The model reads such a value as the empty string or the date 0 and reports `Returned`.
- The base context has no `onMessage` bridge, so it ignores the `onMessage` oracles of a run or a call.
- Base slot writes: in `src/base/mod.rs` the slot is written only by extension code, which is not shown. The model folds the writes made while an extension binds into the `bind` oracle. An extension-installed function that a script calls later, under `eval` or from the handler under `fetch`, may also write the slot. Those writes are not modelled: `BaseContext.JsContext.Eval` and `BaseContext.JsContext.Fetch` keep the slot unchanged.
- The extension implementations (`ConsoleExt`, `Base64UtilsExt`, `EventListerExt`) and the bundled bootstrap sources are not part of this model. Only the order of binds and evaluations is.
- `promise_reject_callback`, `message_callback`, the isolate settings and `initialize_v8`: diagnostics and one-time engine setup.
- `run_event_loop`: one microtask checkpoint in a loop that always breaks, around commented-out timer code; it is async.
- Scope and lifetime discipline (`HandleScope`, `ContextScope`, `Global`), and the `Rc<RefCell<_>>` borrows: Rust/V8 memory safety. The model keeps only the fact that the slot persists across calls.
- `get_slot(...).unwrap()` and `expect(...)`: the state is always attached in this model, so these never panic.
- Dates: chrono's conversion of the millisecond date and its `unwrap` on out-of-range timestamps. The date stays an integer, and its calendar rendering is a parameter of `MessageRelay.Render`.
- Printed output other than the console line and the unknown-kind diagnostic, such as "onMessage called", "Registering handler", "No handler registered" and "Event result", is I/O and is not modelled. So is the `inspect_v8_value` dump.
- `RuntimeMessage::prepare` and `to_value`: each is an arbitrary function of the global object, carried in `CoreRuntime.Event`.
- `global.set` when installing the bridges: its result is ignored in the source, and the model treats it as succeeding.
- Callback throws go through `utils::throw_type_error` and `utils::throw_error`, which are not part of this model. They are modelled as the outcome `Thrown(TypeError(...))` or `Thrown(Error(...))`.
- `register_message_handler`'s `try_into` branch: it cannot fail after `is_function()` holds, so it has no separate branch.
- Integer widths: `args.length()` is an `i32` and the model uses the unbounded count. The complement `-n - 1` agrees with the `i32` complement on every `i32`. Model dates are unbounded: an integral number is its own date, so the `i64` saturation of `integer_value` is not modelled.
- `MessageRelay.Render`: its contract states only the leading bracket and the trailing argument text. `MessageRelay.ConsoleInfoExample` states a full line.

## Findings

| source | as written | input that shows it | evidently intended | confidence | as-written member | corrected member |
|---|---|---|---|---|---|---|
| src/core/runtime.rs:69 | `if !args.length() == 1` takes the bitwise complement of the count and compares it with 1, so the guard fires only for a count of -2 | `postMessage()` with no argument: the guard lets it through, and `to_object` on `undefined` panics the host instead of raising a TypeError | `if args.length() != 1`, which raises "postMessage expects 1 argument" for any other count | high (not executed) | `MessageRelay.ArityGuardNeverFires` | `MessageRelay.RelayCorrected` |

`CoreRuntime.JsRuntime.PostMessage` keeps the guard as written, because it models the code as it
is. `MessageRelay.ZeroArgumentsPanicAsWritten` shows the panic, and
`MessageRelay.CorrectedGuardDiffersOnlyOnArity` says exactly where the two versions differ.

/**
 * The embedded script engine, seen from the host.
 *
 * The engine itself is not modelled: everything it decides (which source compiles,
 * what a run or a call produces, how a value converts to text or to an integer, what an
 * extension installs) is an oracle, a total function carried in an `Engine` value.
 * Only the host-side shapes of values and results are concrete.
 */
module Js {
  import opened Wrappers

  /** A reference to a callable: one created by script code, or one of the host's callbacks. */
  datatype FuncRef = JsFunction(id: nat) | HostFunction(name: string)

  /**
   * An engine value as the host inspects it. `Object` lists the properties a property read
   * can see; `Int` is a number with an integral value; `Primitive` stands for every other
   * primitive (booleans, other numbers, symbols, big integers).
   */
  datatype Value =
    | Undefined
    | Null
    | Str(s: string)
    | Int(i: int)
    | Primitive(tag: nat)
    | Array(items: seq<Value>)
    | Object(props: map<string, Value>)
    | Function(f: FuncRef)

  /** The global object of a context: the only part of the engine heap the model keeps. */
  type Heap = map<string, Value>

  /** A compiled script, as returned by the compile oracle. */
  datatype CompiledScript = CompiledScript(id: nat)

  /** How a run or a call ends: with a value, or with a thrown exception; either may have changed the heap. */
  datatype Completion = Completed(value: Value, heap: Heap) | Threw(heap: Heap)

  /** The error a host callback raises back into script. */
  datatype JsError = TypeError(message: string) | Error(message: string)

  /** How a host callback ends, from the script's side; `Panicked` aborts the host process. */
  datatype CallbackOutcome = Returned | Thrown(error: JsError) | Panicked(reason: string)

  /** The host-side result of an operation that may panic through `unwrap`. */
  datatype Host<+T> = Done(value: T) | Panic(reason: string)

  /** The built-in extensions of src/base/mod.rs. */
  datatype Extension = ConsoleExt | Base64UtilsExt | EventListerExt

  /** What an extension's bind may touch: the global object and the context's handler slot. */
  datatype Realm = Realm(heap: Heap, handler: Option<FuncRef>)

  /** One call the host made into script: callee, receiver and arguments. */
  datatype Invocation = Invocation(callee: FuncRef, receiver: Value, args: seq<Value>)

  datatype Engine = Engine(
    initial: Heap,                                          // the global object of Context::new
    bundle: string -> string,                               // contents of an `include_str!` file by path
    makeString: string -> bool,                             // v8::String::new succeeds
    compile: string -> Option<CompiledScript>,              // v8::Script::compile
    // Script::run and Function::call; each sees the global object and the slot it starts from
    run: (CompiledScript, Realm) -> Completion,
    call: (FuncRef, Value, seq<Value>, Realm) -> Completion,
    // the argument lists a run, or a call, passes to `onMessage` while it executes, in order
    runRegistrations: (CompiledScript, Realm) -> seq<seq<Value>>,
    callRegistrations: (FuncRef, Value, seq<Value>, Realm) -> seq<seq<Value>>,
    toText: Value -> Option<string>,                        // Value::to_string, for non-strings
    integerValue: Value -> Option<int>,                     // Value::integer_value, for non-integers
    bind: (Extension, Realm) -> Realm                       // JsExt::bind
  )

  /** `Value::to_string`: a string converts to itself, anything else is up to the engine. */
  function ToText(e: Engine, v: Value): Option<string>
  {
    if v.Str? then Some(v.s) else e.toText(v)
  }

  /** `to_rust_string_lossy` on a value: its text, or the empty string when conversion fails. */
  function Lossy(e: Engine, v: Value): string
  {
    match ToText(e, v)
    case Some(s) => s
    case None => ""
  }

  /** `Value::integer_value`: an integral number is itself, anything else is up to the engine. */
  function IntegerValue(e: Engine, v: Value): Option<int>
  {
    if v.Int? then Some(v.i) else e.integerValue(v)
  }

  /** `Value::to_object`: fails exactly on `undefined` and `null`; anything else is (wrapped as) an object. */
  function ToObject(v: Value): Option<Value>
  {
    if v == Undefined || v == Null then None else Some(v)
  }

  /** A named property read: the property of an object, `undefined` when absent or on a non-object. */
  function Get(o: Value, key: string): Value
  {
    match o
    case Object(props) => if key in props then props[key] else Undefined
    case _ => Undefined
  }

  /** `args.get(i)` on callback arguments: `undefined` past the end. */
  function Arg(args: seq<Value>, i: nat): Value
  {
    if i < |args| then args[i] else Undefined
  }
}

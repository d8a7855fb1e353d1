/**
 * `postMessage` (the host callback `message_from_worker`): script code ships a structured
 * message to the host. A `"console"` message becomes one log line; any other kind is
 * reported as unknown and otherwise ignored.
 */
module MessageRelay {
  import opened Wrappers
  import opened Js

  const ArityMessage := "postMessage expects 1 argument"

  /** What the host emits for one message. */
  datatype Output =
    | ConsoleLine(date: int, level: string, text: string)
    | UnknownKind(kind: string)

  /** How a relay call ends, and what it emitted. */
  datatype RelayResult = RelayResult(outcome: CallbackOutcome, emitted: seq<Output>)

  /** The message kinds the host knows, and the fallback. */
  datatype Kind = Console | Unrecognised(name: string)

  /** The `match` on the message's kind text. */
  function ParseKind(name: string): Kind
  {
    if name == "console" then Console else Unrecognised(name)
  }

  /** Rust's `!` on an integer: bitwise complement, which in two's complement is -n-1. */
  function BitNot(n: int): int
  {
    -n - 1
  }

  /** The arity guard as written: `!args.length() == 1`, the complement compared with 1. */
  predicate ArityGuardFires(n: int)
  {
    BitNot(n) == 1
  }

  /** As written, the guard fires only for the count -2, so never for a real call. */
  lemma ArityGuardNeverFires(n: int)
    ensures ArityGuardFires(n) <==> n == -2
    ensures n >= 0 ==> !ArityGuardFires(n)
  {
  }

  /** The text after `console.<level>:`: each argument's text after one space, in index order. */
  function Joined(e: Engine, items: seq<Value>): string
    decreases |items|
  {
    if items == [] then ""
    else Joined(e, items[..|items| - 1]) + " " + Lossy(e, items[|items| - 1])
  }

  lemma {:induction false} JoinedAppend(e: Engine, a: seq<Value>, b: seq<Value>)
    ensures Joined(e, a + b) == Joined(e, a) + Joined(e, b)
    decreases |b|
  {
    if b == [] {
      assert a + b == a;
    } else {
      var b' := b[..|b| - 1];
      assert (a + b)[..|a + b| - 1] == a + b';
      assert (a + b)[|a + b| - 1] == b[|b| - 1];
      JoinedAppend(e, a, b');
    }
  }

  /** Read from the front: the first argument's text comes first, after a space. */
  lemma JoinedCons(e: Engine, x: Value, rest: seq<Value>)
    ensures Joined(e, [x] + rest) == " " + Lossy(e, x) + Joined(e, rest)
  {
    JoinedAppend(e, [x], rest);
    assert [x][..0] == [];
  }

  /** The loop of message_from_worker that builds the output string. */
  method FormatArgs(e: Engine, items: seq<Value>) returns (output: string)
    ensures output == Joined(e, items)
  {
    output := "";
    for i := 0 to |items|
      invariant output == Joined(e, items[..i])
    {
      assert items[..i + 1][..i] == items[..i];
      output := output + " " + Lossy(e, items[i]);
    }
    assert items[..|items|] == items;
  }

  /** A missing or non-integer `date` becomes 0. */
  function DateOf(e: Engine, message: Value): int
  {
    match IntegerValue(e, Get(message, "date"))
    case Some(d) => d
    case None => 0
  }

  lemma DateDefaults(e: Engine, message: Value)
    ensures Get(message, "date").Int? ==> DateOf(e, message) == Get(message, "date").i
    ensures IntegerValue(e, Get(message, "date")).None? ==> DateOf(e, message) == 0
    ensures !(message.Object? && "date" in message.props) && e.integerValue(Undefined) in {None, Some(0)} ==>
              DateOf(e, message) == 0
  {
  }

  function Relay(e: Engine, args: seq<Value>): (r: RelayResult)
    // the host's arity guard never rejects a call
    ensures !r.outcome.Thrown?
    // the host panics exactly on a nullish message or a console message whose args are no array
    ensures r.outcome.Panicked? <==>
              ToObject(Arg(args, 0)).None? ||
              (Lossy(e, Get(Arg(args, 0), "kind")) == "console" && !Get(Arg(args, 0), "args").Array?)
    // a call that returns emits exactly one output, a panic none
    ensures r.outcome == Returned ==> |r.emitted| == 1
    ensures r.outcome.Panicked? ==> r.emitted == []
    // a console message gives one log line built from its level, date and arguments
    ensures r.outcome == Returned && Lossy(e, Get(Arg(args, 0), "kind")) == "console" ==>
              r.emitted == [ConsoleLine(DateOf(e, Arg(args, 0)), Lossy(e, Get(Arg(args, 0), "level")),
                                        Joined(e, Get(Arg(args, 0), "args").items))]
    // any other kind only produces the diagnostic
    ensures ToObject(Arg(args, 0)).Some? && Lossy(e, Get(Arg(args, 0), "kind")) != "console" ==>
              r == RelayResult(Returned, [UnknownKind(Lossy(e, Get(Arg(args, 0), "kind")))])
  {
    if ArityGuardFires(|args|) then RelayResult(Thrown(TypeError(ArityMessage)), [])
    else match ToObject(Arg(args, 0))
      case None => RelayResult(Panicked("message is not an object"), [])
      case Some(message) =>
        var kind := Lossy(e, Get(message, "kind"));
        match ParseKind(kind)
        case Console =>
          var level := Lossy(e, Get(message, "level"));
          var date := DateOf(e, message);
          (match Get(message, "args")
           case Array(items) => RelayResult(Returned, [ConsoleLine(date, level, Joined(e, items))])
           case _ => RelayResult(Panicked("args is not an array"), []))
        case Unrecognised(name) => RelayResult(Returned, [UnknownKind(name)])
  }

  /** The line the host prints for an output; `dateText` is the calendar rendering of a millisecond date. */
  function Render(dateText: int -> string, o: Output): (line: string)
    // a console line starts with the bracketed date and ends with the argument text
    ensures o.ConsoleLine? ==> |line| > |o.text| && line[0] == '[' && line[|line| - |o.text|..] == o.text
  {
    match o
    case ConsoleLine(date, level, text) => "[" + dateText(date) + "] console." + level + ":" + text
    case UnknownKind(kind) => "Unknown message kind: " + kind
  }

  /** The console message `{kind: "console", level: "info", date: 0, args: ["a", "b"]}` logs `console.info: a b`. */
  lemma ConsoleInfoExample(e: Engine, dateText: int -> string)
    ensures var message := Object(map["kind" := Str("console"), "level" := Str("info"),
                                      "date" := Int(0), "args" := Array([Str("a"), Str("b")])]);
            var r := Relay(e, [message]);
            r == RelayResult(Returned, [ConsoleLine(0, "info", " a b")]) &&
            Render(dateText, r.emitted[0]) == "[" + dateText(0) + "] console.info: a b"
  {
    var items := [Str("a"), Str("b")];
    JoinedCons(e, Str("a"), [Str("b")]);
    JoinedCons(e, Str("b"), []);
    assert [Str("b")] + [] == [Str("b")];
    assert [Str("a")] + [Str("b")] == items;
    assert Joined(e, items) == " a b";
  }

  /** The evidently intended guard: a call with any count other than one raises a type error. */
  function RelayCorrected(e: Engine, args: seq<Value>): (r: RelayResult)
    ensures |args| != 1 <==> r == RelayResult(Thrown(TypeError(ArityMessage)), [])
  {
    if |args| != 1 then RelayResult(Thrown(TypeError(ArityMessage)), [])
    else Relay(e, args)
  }

  /** `postMessage()` with no argument: as written the host panics, where the intended guard raises. */
  lemma ZeroArgumentsPanicAsWritten(e: Engine)
    ensures Relay(e, []).outcome.Panicked?
    ensures RelayCorrected(e, []).outcome == Thrown(TypeError(ArityMessage))
  {
  }

  /** The two agree on every call with exactly one argument, and only there. */
  lemma CorrectedGuardDiffersOnlyOnArity(e: Engine, args: seq<Value>)
    ensures RelayCorrected(e, args) == Relay(e, args) <==> |args| == 1
  {
  }
}

/**
 * The `eval` pipeline shared, line for line, by src/core/runtime.rs and src/base/mod.rs:
 * make an engine string of the source, compile it, run it, convert the completion value
 * to text. The first stage that fails decides the error.
 */
module Evaluation {
  import opened Wrappers
  import opened Js

  datatype EvalError = CompileError | RuntimeError | ConversionError

  /** What `eval` returns, and the global object it leaves behind. */
  datatype EvalOutcome = EvalOutcome(result: Result<string, EvalError>, heap: Heap)

  /** `eval` on the global object and slot `w` the script starts from. */
  function EvalScript(e: Engine, w: Realm, source: string): (r: EvalOutcome)
    // nothing has run when the source does not compile
    ensures r.result == Err(CompileError) ==> r.heap == w.heap
    // a success is the text of a completed run, and the heap is the one that run left
    ensures r.result.Ok? ==>
              e.compile(source).Some? &&
              e.run(e.compile(source).value, w).Completed? && r.heap == e.run(e.compile(source).value, w).heap &&
              ToText(e, e.run(e.compile(source).value, w).value) == Some(r.result.value)
  {
    if !e.makeString(source) then EvalOutcome(Err(CompileError), w.heap)
    else match e.compile(source)
      case None => EvalOutcome(Err(CompileError), w.heap)
      case Some(script) =>
        match e.run(script, w)
        case Threw(h') => EvalOutcome(Err(RuntimeError), h')
        case Completed(v, h') =>
          match ToText(e, v)
          case None => EvalOutcome(Err(ConversionError), h')
          case Some(text) => EvalOutcome(Ok(text), h')
  }

  /** The stages of `eval`, in the order the code attempts them. */
  datatype Stage = MakeString | Compile | Run | Convert

  function Stages(): seq<Stage>
  {
    [MakeString, Compile, Run, Convert]
  }

  /** The error a failure of each stage is reported as. */
  function StageError(st: Stage): EvalError
  {
    match st
    case MakeString => CompileError
    case Compile => CompileError
    case Run => RuntimeError
    case Convert => ConversionError
  }

  /** Whether stage `st` fails when it is reached. */
  predicate Fails(e: Engine, w: Realm, source: string, st: Stage)
  {
    match st
    case MakeString => !e.makeString(source)
    case Compile => e.compile(source).None?
    case Run => e.compile(source).Some? && e.run(e.compile(source).value, w).Threw?
    case Convert =>
      e.compile(source).Some? && e.run(e.compile(source).value, w).Completed? &&
      ToText(e, e.run(e.compile(source).value, w).value).None?
  }

  /** The first of `stages` that fails, if any. */
  function FirstFailing(e: Engine, w: Realm, source: string, stages: seq<Stage>): Option<Stage>
  {
    if stages == [] then None
    else if Fails(e, w, source, stages[0]) then Some(stages[0])
    else FirstFailing(e, w, source, stages[1..])
  }

  /** `eval` fails exactly when some stage fails, and then with the error of the first one. */
  lemma EvalReportsFirstFailingStage(e: Engine, w: Realm, source: string)
    ensures EvalScript(e, w, source).result.Err? <==> FirstFailing(e, w, source, Stages()).Some?
    ensures FirstFailing(e, w, source, Stages()).Some? ==>
              EvalScript(e, w, source).result.error == StageError(FirstFailing(e, w, source, Stages()).value)
    ensures FirstFailing(e, w, source, Stages()).None? ==>
              e.compile(source).Some? && e.run(e.compile(source).value, w).Completed? &&
              EvalScript(e, w, source).result == Ok(ToText(e, e.run(e.compile(source).value, w).value).value)
  {
    var s := Stages();
    assert s[1..] == [Compile, Run, Convert];
    assert s[2..] == [Run, Convert];
    assert s[3..] == [Convert];
    assert FirstFailing(e, w, source, s[3..]) ==
           (if Fails(e, w, source, Convert) then Some(Convert) else None);
    assert FirstFailing(e, w, source, s[2..]) ==
           (if Fails(e, w, source, Run) then Some(Run) else FirstFailing(e, w, source, s[3..]));
    assert FirstFailing(e, w, source, s[1..]) ==
           (if Fails(e, w, source, Compile) then Some(Compile) else FirstFailing(e, w, source, s[2..]));
  }
}

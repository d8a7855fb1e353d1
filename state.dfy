/**
 * The runtime state attached to a context: a single slot for the message handler.
 * Both runtimes keep it in the context's slot storage; the model keeps it as one object
 * that the runtime owns for its whole lifetime.
 */
module State {
  import opened Wrappers
  import opened Js

  class JsState {
    var handler: Option<FuncRef>

    /** A context starts with no handler registered. */
    constructor Empty()
      ensures handler == None
    {
      handler := None;
    }
  }
}

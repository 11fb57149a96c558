/** The collaborators the Lua script layer calls into but does not own: the
    regex engine, the ANSI-escape stripper, the Lua interpreter (reduced to
    the outcome of each call) and the event channel to the main thread.
    Each library is a set of total functions handed to the model, so that
    every property proved about the layer holds for any behaviour of them. */
module Foreign {

  datatype Option<+T> = None | Some(value: T)

  /** The source text of a compiled regular expression. */
  type Pattern = string

  /** An opaque handle to a Lua function stored beside an entry. */
  type CallbackId = nat

  /** The regex engine: `isMatch` is `Regex::is_match`; `captures` lists the
      groups of the first match, element 0 being the whole match and `None`
      a group that did not take part in it. */
  datatype Regex = Regex(
    isMatch: (Pattern, string) -> bool,
    captures: (Pattern, string) -> seq<Option<string>>)

  /** What a Lua function or chunk is given: an alias or trigger callback
      gets one Lua sequence table of capture texts, a GMCP listener one
      string, a hook nothing. */
  datatype Args = CaptureTable(captures: seq<string>) | Text(content: string) | NoArgs

  /** What one Lua run did, as far as this layer can see: the events it sent
      through the `blight` object, oldest first, and `Some(message)` when it
      raised an error. */
  datatype Run = Run(sent: seq<Event>, error: Option<string>)

  /** Lua execution reduced to runs: `call` runs a callback on its
      arguments; `exec` runs a script chunk given its text and its chunk
      name. */
  datatype Interpreter = Interpreter(
    call: (CallbackId, Args) -> Run,
    exec: (string, string) -> Run)

  /** All foreign behaviour the layer depends on. `stripAnsi` is
      `strip_ansi_escapes::strip` followed by the lossy UTF-8 decoding. */
  datatype Libraries = Libraries(
    regex: Regex,
    stripAnsi: string -> string,
    lua: Interpreter)

  /** The events on the channel to the main thread: the diagnostic this
      layer builds from a Lua error message, and any event a script asks
      for through the `blight` object, its content left abstract. */
  datatype Event = StackTrace(message: string) | Scripted(payload: string)

  /** The `Sender<Event>` to the main thread. All clones of a sender feed
      the same channel, so a clone is the same object here; `sent` is every
      event pushed through it, oldest first. */
  class Writer {
    var sent: seq<Event>

    constructor ()
      ensures sent == []
    {
      sent := [];
    }
  }
}

/** Script callbacks and script errors (runtime_javascript.go): the three
    callback tables an instance carries, the lookup by execution mode, and
    the error values a failed script call turns into. */
module Callbacks {
  import opened Common

  /** A script function value (a goja.Callable), known by its identity. */
  datatype Callable = Callable(handle: nat)

  /** RuntimeJavascriptCallbacks: RPC, Before and After functions by id. */
  datatype JsCallbacks = JsCallbacks(
    rpc: map<string, Callable>,
    before: map<string, Callable>,
    after: map<string, Callable>)

  const NoCallbacks := JsCallbacks(map[], map[], map[])

  /** Looking up a key in a Go map of functions: nil when it is absent. */
  function Lookup(table: map<string, Callable>, key: string): (r: Option<Callable>)
    ensures r.Some? <==> key in table
    ensures r.Some? ==> r.value == table[key]
  {
    if key in table then Some(table[key]) else None
  }

  /** The table GetCallback consults for a mode, if any. */
  function TableFor(cb: JsCallbacks, mode: ExecutionMode): (r: Option<map<string, Callable>>)
  {
    match mode
    case RPC => Some(cb.rpc)
    case Before => Some(cb.before)
    case After => Some(cb.after)
    case _ => None
  }

  /** RuntimeJS.GetCallback. The reserved modes (matchmaker, tournament and
      leaderboard hooks) and every other mode yield nil. */
  function GetCallback(cb: JsCallbacks, mode: ExecutionMode, key: string): (r: Option<Callable>)
    ensures r.Some? ==> TableFor(cb, mode).Some? && key in TableFor(cb, mode).value
    ensures r.Some? ==> r.value == TableFor(cb, mode).value[key]
  {
    match mode
    case RPC => Lookup(cb.rpc, key)
    case Before => Lookup(cb.before, key)
    case After => Lookup(cb.after, key)
    case Matchmaker => None
    case TournamentEnd => None
    case TournamentReset => None
    case LeaderboardReset => None
    case OtherMode(_) => None
  }

  /** A lookup finds exactly the keys of its own mode's table. */
  lemma GetCallbackOwnTable(cb: JsCallbacks, mode: ExecutionMode, key: string)
    ensures mode == RPC ==> (GetCallback(cb, mode, key).Some? <==> key in cb.rpc)
    ensures mode == Before ==> (GetCallback(cb, mode, key).Some? <==> key in cb.before)
    ensures mode == After ==> (GetCallback(cb, mode, key).Some? <==> key in cb.after)
    ensures !(mode == RPC || mode == Before || mode == After) ==> GetCallback(cb, mode, key) == None
  {
  }

  /** GetCallback reads nothing but its own mode's table: two callback sets
      that agree on that table give the same answer. */
  lemma GetCallbackReadsOwnTable(cb1: JsCallbacks, cb2: JsCallbacks, mode: ExecutionMode, key: string)
    requires TableFor(cb1, mode) == TableFor(cb2, mode)
    ensures GetCallback(cb1, mode, key) == GetCallback(cb2, mode, key)
  {
  }

  /** JsErrorType, an int enumeration. */
  type JsErrorType = int

  const JsErrorException: JsErrorType := 0
  const JsErrorRuntime: JsErrorType := 1

  /** JsErrorType.String: only exceptions have a name. */
  function TypeName(t: JsErrorType): (s: string)
    ensures s == "exception" <==> t == JsErrorException
    ensures t != JsErrorException ==> s == ""
  {
    if t == JsErrorException then "exception" else ""
  }

  /** newJsExceptionError: an error carrying a stack trace, whose text is
      the given message and whose Message field is left empty. */
  function NewJsExceptionError(t: JsErrorType, message: string, stackTrace: string): (e: Error)
    ensures e.Script? && e.kind == TypeName(t)
    ensures e.stackTrace == stackTrace && e.message == "" && ErrorText(e) == message
  {
    Script(stackTrace, TypeName(t), "", message)
  }

  /** newJsError: an error wrapping another one, with no stack trace and the
      wrapped error's text as its Message. */
  function NewJsError(t: JsErrorType, errText: string): (e: Error)
    ensures e.Script? && e.kind == TypeName(t)
    ensures e.stackTrace == "" && e.message == errText && ErrorText(e) == errText
  {
    Script("", TypeName(t), errText, errText)
  }

  /** What Error() returns, for the errors whose text the bridge fixes. */
  function ErrorText(e: Error): (s: string)
    requires e.Failure? || e.Script?
    ensures e.Failure? ==> s == e.message
    ensures e.Script? ==> s == e.cause
  {
    if e.Failure? then e.message else e.cause
  }
}

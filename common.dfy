/** Values shared by every part of the JavaScript runtime bridge: optional
    values, gRPC status codes, execution modes, script values and the
    ASCII string helpers that the `strings` package calls stand for. */
module Common {

  datatype Option<+T> = None | Some(value: T)

  datatype Result<+T, +E> = Ok(value: T) | Err(error: E)

  /** The gRPC status codes the bridge reports (numbers as in `codes`). */
  datatype Code = OK | NotFound | Internal
  {
    function Number(): (n: nat)
      ensures n == 0 <==> this == OK
    {
      match this
      case OK => 0
      case NotFound => 5
      case Internal => 13
    }
  }

  /** `RuntimeExecutionMode`. The modes the bridge names are listed; every
      other mode of the enumeration is `OtherMode`. */
  datatype ExecutionMode =
    | RPC | Before | After
    | Matchmaker | TournamentEnd | TournamentReset | LeaderboardReset
    | OtherMode(tag: nat)

  /** A value crossing between the host and a script (an exported goja
      value, or a decoded `interface{}`). */
  datatype JsValue =
    | JUndefined
    | JNull
    | JBool(b: bool)
    | JNumber(n: int)
    | JString(s: string)
    | JArray(items: seq<JsValue>)
    | JObject(fields: map<string, JsValue>)

  /** An errors value as the bridge passes it on. */
  datatype Error =
    | ContextError                 // ctx.Err() of a cancelled context
    | RpcNotFound                  // ErrRuntimeRPCNotFound
    | Failure(message: string)     // errors.New(message)
    | Script(stackTrace: string, kind: string, message: string, cause: string)  // *jsError

  function LowerChar(c: char): (d: char)
    ensures 'A' <= c <= 'Z' ==> 'a' <= d <= 'z'
    ensures !('A' <= c <= 'Z') ==> d == c
  {
    if 'A' <= c <= 'Z' then (c as int + 32) as char else c
  }

  /** strings.ToLower, restricted to ASCII letters. */
  function Lower(s: string): (r: string)
  {
    if s == [] then [] else [LowerChar(s[0])] + Lower(s[1..])
  }

  /** Lower-casing maps each character on its own and keeps the length. */
  lemma {:induction false} LowerLength(s: string)
    ensures |Lower(s)| == |s|
    ensures forall i :: 0 <= i < |s| ==> Lower(s)[i] == LowerChar(s[i])
  {
    if s != [] {
      LowerLength(s[1..]);
    }
  }

  predicate HasPrefix(s: string, p: string)
  {
    |p| <= |s| && s[..|p|] == p
  }

  /** strings.TrimPrefix: `s` without `p` when it starts with it. */
  function TrimPrefix(s: string, p: string): (r: string)
    ensures HasPrefix(s, p) ==> p + r == s
    ensures !HasPrefix(s, p) ==> r == s
  {
    if HasPrefix(s, p) then s[|p|..] else s
  }
}

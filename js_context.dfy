/** The context object handed to every script call
    (runtime_javascript_context.go): a sparse key/value map that always
    holds the node, the environment and the execution mode and holds each
    caller detail only when it is set. */
module JsContext {
  import opened Common

  /** The context keys the source declares; `Name` is the string the
      script sees. The four match keys are declared but never set. */
  datatype CtxKey =
    | KeyEnv | KeyMode | KeyNode | KeyQueryParams | KeyUserId | KeyUsername
    | KeyVars | KeyUserSessionExp | KeySessionId | KeyClientIp | KeyClientPort
    | KeyMatchId | KeyMatchNode | KeyMatchLabel | KeyMatchTickRate
  {
    function Name(): string
    {
      match this
      case KeyEnv => "env"
      case KeyMode => "execution_mode"
      case KeyNode => "node"
      case KeyQueryParams => "query_params"
      case KeyUserId => "user_id"
      case KeyUsername => "username"
      case KeyVars => "vars"
      case KeyUserSessionExp => "user_session_exp"
      case KeySessionId => "session_id"
      case KeyClientIp => "client_ip"
      case KeyClientPort => "client_port"
      case KeyMatchId => "match_id"
      case KeyMatchNode => "match_node"
      case KeyMatchLabel => "match_label"
      case KeyMatchTickRate => "match_tick_rate"
    }

    predicate IsMatchKey()
    {
      KeyMatchId? || KeyMatchNode? || KeyMatchLabel? || KeyMatchTickRate?
    }
  }

  /** A value stored in the context object. */
  datatype CtxValue =
    | CtxString(s: string)
    | CtxEnv(env: map<string, string>)
    | CtxMode(mode: ExecutionMode)
    | CtxQueryParams(params: map<string, seq<string>>)
    | CtxInt(n: int)
    | CtxVars(vars: map<string, string>)

  /** The per-call parameters of NewRuntimeJsContext, in its order; `None`
      stands for a nil Go map. */
  datatype InvocationParams = InvocationParams(
    queryParams: Option<map<string, seq<string>>>,
    sessionExpiry: int,
    userId: string,
    username: string,
    vars: Option<map<string, string>>,
    sessionId: string,
    clientIp: string,
    clientPort: string)

  /** Whether the context object built from `p` carries `key`. */
  predicate Present(key: CtxKey, p: InvocationParams)
  {
    match key
    case KeyNode | KeyEnv | KeyMode => true
    case KeyQueryParams => p.queryParams.Some?
    case KeyUserSessionExp => p.sessionExpiry != 0
    case KeyUserId => p.userId != ""
    case KeyUsername => p.username != ""
    case KeyVars => p.vars.Some?
    case KeySessionId => p.sessionId != ""
    case KeyClientIp => p.clientIp != ""
    case KeyClientPort => p.clientPort != ""
    case _ => false
  }

  const AllKeys: set<CtxKey> :=
    {KeyEnv, KeyMode, KeyNode, KeyQueryParams, KeyUserId, KeyUsername, KeyVars,
     KeyUserSessionExp, KeySessionId, KeyClientIp, KeyClientPort,
     KeyMatchId, KeyMatchNode, KeyMatchLabel, KeyMatchTickRate}

  /** The keys a context object built from `p` carries. */
  function PresentKeys(p: InvocationParams): set<CtxKey>
  {
    set k | k in AllKeys && Present(k, p)
  }

  /** The value each key carries when present. */
  function ValueAt(key: CtxKey, node: string, env: map<string, string>, mode: ExecutionMode,
                   p: InvocationParams): CtxValue
  {
    match key
    case KeyNode => CtxString(node)
    case KeyEnv => CtxEnv(env)
    case KeyMode => CtxMode(mode)
    case KeyQueryParams => CtxQueryParams(if p.queryParams.Some? then p.queryParams.value else map[])
    case KeyUserSessionExp => CtxInt(p.sessionExpiry)
    case KeyUserId => CtxString(p.userId)
    case KeyUsername => CtxString(p.username)
    case KeyVars => CtxVars(if p.vars.Some? then p.vars.value else map[])
    case KeySessionId => CtxString(p.sessionId)
    case KeyClientIp => CtxString(p.clientIp)
    case KeyClientPort => CtxString(p.clientPort)
    case _ => CtxString("")
  }

  /** The position of a key's `Set` call in NewRuntimeJsContext. */
  function SetOrder(key: CtxKey): nat
  {
    match key
    case KeyNode | KeyEnv | KeyMode => 0
    case KeyQueryParams => 1
    case KeyUserSessionExp => 2
    case KeyUserId => 3
    case KeyUsername => 4
    case KeyVars => 5
    case KeySessionId => 6
    case KeyClientIp => 7
    case KeyClientPort => 8
    case _ => 9
  }

  /** Reference definition of the invocation context: every present key
      with its value. */
  function ContextObject(node: string, env: map<string, string>, mode: ExecutionMode,
                         p: InvocationParams): map<CtxKey, CtxValue>
  {
    map k | k in PresentKeys(p) :: ValueAt(k, node, env, mode, p)
  }

  lemma InAllKeys(k: CtxKey)
    ensures k in AllKeys
  {
    match k
    case KeyEnv => case KeyMode => case KeyNode => case KeyQueryParams =>
    case KeyUserId => case KeyUsername => case KeyVars => case KeyUserSessionExp =>
    case KeySessionId => case KeyClientIp => case KeyClientPort =>
    case KeyMatchId => case KeyMatchNode => case KeyMatchLabel => case KeyMatchTickRate =>
  }

  /** The key set by the `n`-th conditional `Set`, for n from 1 to 8. */
  function KeyAt(n: nat): CtxKey
  {
    match n
    case 1 => KeyQueryParams
    case 2 => KeyUserSessionExp
    case 3 => KeyUserId
    case 4 => KeyUsername
    case 5 => KeyVars
    case 6 => KeySessionId
    case 7 => KeyClientIp
    case _ => KeyClientPort
  }

  /** `k` is where it is after the first `n` conditional `Set` calls: in `m`
      exactly when present and set so far, with its value. */
  ghost predicate KeyStaged(m: map<CtxKey, CtxValue>, n: nat, k: CtxKey, node: string,
                            env: map<string, string>, mode: ExecutionMode, p: InvocationParams)
  {
    (k in m <==> Present(k, p) && SetOrder(k) <= n)
    && (k in m ==> m[k] == ValueAt(k, node, env, mode, p))
  }

  /** `m` is the object after the first `n` conditional `Set` calls. */
  ghost predicate Stage(m: map<CtxKey, CtxValue>, n: nat, node: string, env: map<string, string>,
                        mode: ExecutionMode, p: InvocationParams)
  {
    forall k :: KeyStaged(m, n, k, node, env, mode, p)
  }

  /** The object after its three unconditional `Set` calls is the first stage. */
  lemma StageStart(node: string, env: map<string, string>, mode: ExecutionMode, p: InvocationParams)
    ensures Stage(map[][KeyNode := CtxString(node)][KeyEnv := CtxEnv(env)][KeyMode := CtxMode(mode)],
                  0, node, env, mode, p)
  {
    var m := map[][KeyNode := CtxString(node)][KeyEnv := CtxEnv(env)][KeyMode := CtxMode(mode)];
    forall k ensures KeyStaged(m, 0, k, node, env, mode, p) {
    }
  }

  /** The `n`-th conditional `Set` extends a stage to the next one. */
  lemma StageStep(m: map<CtxKey, CtxValue>, n: nat, present: bool, key: CtxKey, value: CtxValue,
                  node: string, env: map<string, string>, mode: ExecutionMode, p: InvocationParams)
    requires 1 <= n <= 8 && Stage(m, n - 1, node, env, mode, p)
    requires key == KeyAt(n) && present == Present(key, p)
    requires present ==> value == ValueAt(key, node, env, mode, p)
    ensures Stage(if present then m[key := value] else m, n, node, env, mode, p)
  {
    assert SetOrder(key) == n;
    var after := if present then m[key := value] else m;
    forall k ensures KeyStaged(after, n, k, node, env, mode, p) {
      assert KeyStaged(m, n - 1, k, node, env, mode, p);
      assert SetOrder(k) == n ==> k == key;
    }
  }

  // One lemma per conditional `Set` of NewRuntimeJsContext, in its order.

  lemma SetQueryParams(m: map<CtxKey, CtxValue>, node: string, env: map<string, string>,
                        mode: ExecutionMode, p: InvocationParams)
    requires Stage(m, 0, node, env, mode, p)
    ensures Stage(if p.queryParams != None then m[KeyQueryParams := CtxQueryParams(p.queryParams.value)] else m, 1, node, env, mode, p)
  {
    StageStep(m, 1, p.queryParams != None, KeyQueryParams, ValueAt(KeyQueryParams, node, env, mode, p), node, env, mode, p);
  }

  lemma SetSessionExp(m: map<CtxKey, CtxValue>, node: string, env: map<string, string>,
                       mode: ExecutionMode, p: InvocationParams)
    requires Stage(m, 1, node, env, mode, p)
    ensures Stage(if p.sessionExpiry != 0 then m[KeyUserSessionExp := CtxInt(p.sessionExpiry)] else m, 2, node, env, mode, p)
  {
    StageStep(m, 2, p.sessionExpiry != 0, KeyUserSessionExp, CtxInt(p.sessionExpiry), node, env, mode, p);
  }

  lemma SetUserId(m: map<CtxKey, CtxValue>, node: string, env: map<string, string>,
                   mode: ExecutionMode, p: InvocationParams)
    requires Stage(m, 2, node, env, mode, p)
    ensures Stage(if p.userId != "" then m[KeyUserId := CtxString(p.userId)] else m, 3, node, env, mode, p)
  {
    StageStep(m, 3, p.userId != "", KeyUserId, CtxString(p.userId), node, env, mode, p);
  }

  lemma SetUsername(m: map<CtxKey, CtxValue>, node: string, env: map<string, string>,
                     mode: ExecutionMode, p: InvocationParams)
    requires Stage(m, 3, node, env, mode, p)
    ensures Stage(if p.username != "" then m[KeyUsername := CtxString(p.username)] else m, 4, node, env, mode, p)
  {
    StageStep(m, 4, p.username != "", KeyUsername, CtxString(p.username), node, env, mode, p);
  }

  lemma SetVars(m: map<CtxKey, CtxValue>, node: string, env: map<string, string>,
                 mode: ExecutionMode, p: InvocationParams)
    requires Stage(m, 4, node, env, mode, p)
    ensures Stage(if p.vars != None then m[KeyVars := CtxVars(p.vars.value)] else m, 5, node, env, mode, p)
  {
    StageStep(m, 5, p.vars != None, KeyVars, ValueAt(KeyVars, node, env, mode, p), node, env, mode, p);
  }

  lemma SetSessionId(m: map<CtxKey, CtxValue>, node: string, env: map<string, string>,
                      mode: ExecutionMode, p: InvocationParams)
    requires Stage(m, 5, node, env, mode, p)
    ensures Stage(if p.sessionId != "" then m[KeySessionId := CtxString(p.sessionId)] else m, 6, node, env, mode, p)
  {
    StageStep(m, 6, p.sessionId != "", KeySessionId, CtxString(p.sessionId), node, env, mode, p);
  }

  lemma SetClientIp(m: map<CtxKey, CtxValue>, node: string, env: map<string, string>,
                     mode: ExecutionMode, p: InvocationParams)
    requires Stage(m, 6, node, env, mode, p)
    ensures Stage(if p.clientIp != "" then m[KeyClientIp := CtxString(p.clientIp)] else m, 7, node, env, mode, p)
  {
    StageStep(m, 7, p.clientIp != "", KeyClientIp, CtxString(p.clientIp), node, env, mode, p);
  }

  lemma SetClientPort(m: map<CtxKey, CtxValue>, node: string, env: map<string, string>,
                       mode: ExecutionMode, p: InvocationParams)
    requires Stage(m, 7, node, env, mode, p)
    ensures Stage(if p.clientPort != "" then m[KeyClientPort := CtxString(p.clientPort)] else m, 8, node, env, mode, p)
  {
    StageStep(m, 8, p.clientPort != "", KeyClientPort, CtxString(p.clientPort), node, env, mode, p);
  }

  /** After the eighth `Set` the object is the context object. */
  lemma StageEnd(m: map<CtxKey, CtxValue>, node: string, env: map<string, string>,
                 mode: ExecutionMode, p: InvocationParams)
    requires Stage(m, 8, node, env, mode, p)
    ensures m == ContextObject(node, env, mode, p)
  {
    var c := ContextObject(node, env, mode, p);
    forall k ensures k in m <==> k in c {
      InAllKeys(k);
      assert KeyStaged(m, 8, k, node, env, mode, p);
    }
    assert m.Keys == c.Keys;
    forall k | k in m ensures m[k] == c[k] {
      assert KeyStaged(m, 8, k, node, env, mode, p);
    }
  }

  /** NewRuntimeJsContext: a fresh object filled by one `Set` per present
      field, in the source's order. */
  method NewRuntimeJsContext(node: string, env: map<string, string>, mode: ExecutionMode,
                             p: InvocationParams)
    returns (ctx: map<CtxKey, CtxValue>)
    ensures ctx == ContextObject(node, env, mode, p)
  {
    ctx := map[];
    ctx := ctx[KeyNode := CtxString(node)];
    ctx := ctx[KeyEnv := CtxEnv(env)];
    ctx := ctx[KeyMode := CtxMode(mode)];
    StageStart(node, env, mode, p);
    SetQueryParams(ctx, node, env, mode, p);
    if p.queryParams != None {
      ctx := ctx[KeyQueryParams := CtxQueryParams(p.queryParams.value)];
    }
    SetSessionExp(ctx, node, env, mode, p);
    if p.sessionExpiry != 0 {
      ctx := ctx[KeyUserSessionExp := CtxInt(p.sessionExpiry)];
    }
    SetUserId(ctx, node, env, mode, p);
    if p.userId != "" {
      ctx := ctx[KeyUserId := CtxString(p.userId)];
    }
    SetUsername(ctx, node, env, mode, p);
    if p.username != "" {
      ctx := ctx[KeyUsername := CtxString(p.username)];
    }
    SetVars(ctx, node, env, mode, p);
    if p.vars != None {
      ctx := ctx[KeyVars := CtxVars(p.vars.value)];
    }
    SetSessionId(ctx, node, env, mode, p);
    if p.sessionId != "" {
      ctx := ctx[KeySessionId := CtxString(p.sessionId)];
    }
    SetClientIp(ctx, node, env, mode, p);
    if p.clientIp != "" {
      ctx := ctx[KeyClientIp := CtxString(p.clientIp)];
    }
    SetClientPort(ctx, node, env, mode, p);
    if p.clientPort != "" {
      ctx := ctx[KeyClientPort := CtxString(p.clientPort)];
    }
    StageEnd(ctx, node, env, mode, p);
  }

  /** What a context object records about its parameters, key by key. */
  lemma ContextFields(node: string, env: map<string, string>, mode: ExecutionMode,
                      p: InvocationParams)
    ensures var ctx := ContextObject(node, env, mode, p);
      && KeyNode in ctx && ctx[KeyNode] == CtxString(node)
      && KeyEnv in ctx && ctx[KeyEnv] == CtxEnv(env)
      && KeyMode in ctx && ctx[KeyMode] == CtxMode(mode)
      && (KeyQueryParams in ctx <==> p.queryParams.Some?)
      && (p.queryParams.Some? ==> ctx[KeyQueryParams] == CtxQueryParams(p.queryParams.value))
      && (KeyUserSessionExp in ctx <==> p.sessionExpiry != 0)
      && (p.sessionExpiry != 0 ==> ctx[KeyUserSessionExp] == CtxInt(p.sessionExpiry))
      && (KeyUserId in ctx <==> p.userId != "")
      && (p.userId != "" ==> ctx[KeyUserId] == CtxString(p.userId))
      && (KeyUsername in ctx <==> p.username != "")
      && (p.username != "" ==> ctx[KeyUsername] == CtxString(p.username))
      && (KeyVars in ctx <==> p.vars.Some?)
      && (p.vars.Some? ==> ctx[KeyVars] == CtxVars(p.vars.value))
      && (KeySessionId in ctx <==> p.sessionId != "")
      && (p.sessionId != "" ==> ctx[KeySessionId] == CtxString(p.sessionId))
      && (KeyClientIp in ctx <==> p.clientIp != "")
      && (p.clientIp != "" ==> ctx[KeyClientIp] == CtxString(p.clientIp))
      && (KeyClientPort in ctx <==> p.clientPort != "")
      && (p.clientPort != "" ==> ctx[KeyClientPort] == CtxString(p.clientPort))
  {
  }

  /** No key outside the eleven set above ever appears: none of the match
      keys. */
  lemma NoMatchKeys(node: string, env: map<string, string>, mode: ExecutionMode,
                    p: InvocationParams, k: CtxKey)
    requires k in ContextObject(node, env, mode, p)
    ensures !k.IsMatchKey()
  {
  }

  /** NewRuntimeJsInitContext: the context of a module's InitModule call. */
  method NewRuntimeJsInitContext(node: string, env: map<string, string>)
    returns (ctx: map<CtxKey, CtxValue>)
    ensures ctx.Keys == {KeyNode, KeyEnv}
    ensures ctx[KeyNode] == CtxString(node) && ctx[KeyEnv] == CtxEnv(env)
  {
    ctx := map[];
    ctx := ctx[KeyNode := CtxString(node)];
    ctx := ctx[KeyEnv := CtxEnv(env)];
  }
}

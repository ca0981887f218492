/** The hook adapters of the JavaScript runtime provider (Rpc, BeforeRt,
    AfterRt, BeforeReq, AfterReq) as functions of the pool state: take an
    instance, find the callback, convert the message, invoke, convert the
    result back, and release the instance on the paths that do. */
module Hooks {
  import opened Common
  import opened Callbacks
  import opened JsContext
  import opened Invocation
  import opened Pool
  import opened Registry

  /** newFn: an instance of the node, environment and callbacks the modules
      registered; its VM stands for the number of instances built before. */
  datatype Factory = Factory(node: string, env: map<string, string>, callbacks: JsCallbacks)
  {
    function Build(k: nat): RuntimeJS
    {
      RuntimeJS(k, node, env, callbacks)
    }
  }

  /** The provider's pool of instances. */
  type Instances = PoolState<RuntimeJS>

  /** What one Get sees of concurrency: whether the context is cancelled and
      which ready case Go's select picks when both are. */
  datatype Sched = Sched(cancelled: bool, cancelWins: bool)

  /** Get on the provider, building with newFn when it allocates. */
  function Acquire(s: Instances, sched: Sched, f: Factory): GetResult<RuntimeJS>
  {
    GetStep(s, sched.cancelled, sched.cancelWins, f.Build(s.constructed))
  }

  /** A hook call: its reply (`None` while it waits in Get) and the pool
      afterwards. */
  datatype Outcome<R> = Outcome(reply: Option<R>, pool: Instances)

  /** The caller details every hook passes on to InvokeFunction. */
  datatype Caller = Caller(userId: string, username: string, vars: Option<map<string, string>>,
                           expiry: int, clientIp: string, clientPort: string)

  function Params(c: Caller, queryParams: Option<map<string, seq<string>>>, sessionId: string): InvocationParams
  {
    InvocationParams(queryParams, c.expiry, c.userId, c.username, c.vars, sessionId, c.clientIp, c.clientPort)
  }

  /** The typed-request hooks have no query parameters and pass an empty
      session id. */
  function ReqParams(c: Caller): InvocationParams
  {
    Params(c, None, "")
  }

  /** What jsonpbUnmarshaler.Unmarshal leaves in the message, and whether it
      succeeded. */
  datatype Unmarshalled = Unmarshalled(content: JsValue, ok: bool)

  /** The conversions between messages, JSON text and script values; `None`
      is a failure. `decode` is json.Unmarshal into a map, which leaves the
      map nil (`Some(None)`) for the text `null`. */
  datatype Codec = Codec(
    marshal: JsValue -> Option<string>,
    decode: string -> Option<Option<map<string, JsValue>>>,
    encode: JsValue -> Option<string>,
    unmarshal: (string, JsValue) -> Unmarshalled)

  /** A request or response handed to a typed hook as an `interface{}`:
      nil, a value that is not a proto.Message, or a message's contents. */
  datatype Request = NoRequest | NotMessage | Message(content: JsValue)

  const InvalidRpcReturn := "Runtime function returned invalid data - only allowed one return value of type string."
  const BeforeNotFound := "Runtime Before function not found."
  const AfterNotFound := "Runtime After function not found."
  const CouldNotRunBefore := "Could not run runtime Before function."
  const CouldNotRunAfter := "Could not run runtime After function."
  const CouldNotCompleteBefore := "Could not complete runtime Before function."

  /** A message as the map handed to the script: marshal to JSON, then
      decode. `Some(None)` is a nil map; `None` a failed conversion or a
      value that is not a message. */
  function ToMap(req: Request, codec: Codec): Option<Option<map<string, JsValue>>>
  {
    match req
    case NoRequest => Some(None)
    case NotMessage => None
    case Message(content) =>
      match codec.marshal(content)
      case None => None
      case Some(text) => codec.decode(text)
  }

  /** Only a message can give a non-nil map. */
  lemma ToMapOfMessage(req: Request, codec: Codec)
    ensures ToMap(req, codec).Some? && ToMap(req, codec).value.Some? ==> req.Message?
    ensures req == NoRequest ==> ToMap(req, codec) == Some(None)
    ensures req == NotMessage ==> ToMap(req, codec) == None
  {
  }

  // ---------------------------------------------------------------- Rpc

  /** Rpc's (payload, error, code), or a panic. */
  datatype RpcReply = RpcReturned(payload: string, err: Option<Error>, code: Code) | RpcPanicked

  /** How Rpc reads InvokeFunction's result: the error as it is, a nil
      value panics in Export, a string is the payload, anything else is
      refused. */
  function RpcResult(res: Invoked): RpcReply
  {
    if res.err.Some? then RpcReturned("", res.err, res.code)
    else if res.value.None? then RpcPanicked
    else
      match res.value.value
      case JString(payload) => RpcReturned(payload, None, res.code)
      case _ => RpcReturned("", Some(Failure(InvalidRpcReturn)), Internal)
  }

  /** Rpc once an instance `r` is held; the pool is `s`. */
  function RpcOn(r: RuntimeJS, s: Instances, id: string, p: InvocationParams, payload: string,
                 engine: Engine): Outcome<RpcReply>
  {
    match GetCallback(r.callbacks, RPC, id)
    case None => Outcome(Some(RpcReturned("", Some(RpcNotFound), NotFound)), PutStep(s, r))
    case Some(fn) => Outcome(Some(RpcResult(InvokeSpec(r, RPC, fn, p, [PString(payload)], engine))), s)
  }

  /** RuntimeProviderJS.Rpc as written. */
  function RpcSpec(s: Instances, sched: Sched, f: Factory, id: string, c: Caller,
                   queryParams: Option<map<string, seq<string>>>, sessionId: string, payload: string,
                   engine: Engine): Outcome<RpcReply>
  {
    var g := Acquire(s, sched, f);
    match g.acquired
    case MustWait => Outcome(None, g.state)
    case Cancelled => Outcome(Some(RpcReturned("", Some(ContextError), Internal)), g.state)
    case Idle(r) => RpcOn(r, g.state, id, Params(c, queryParams, sessionId), payload, engine)
    case Fresh(r) => RpcOn(r, g.state, id, Params(c, queryParams, sessionId), payload, engine)
  }

  /** How Rpc's reply follows from what the script did: a thrown or failed
      call passes its error on with Internal; a nil, undefined or null
      return panics; a string return is the payload with OK; any other
      value is the fixed "only allowed one return value of type string"
      error with Internal. */
  lemma RpcReplyCases(o: ScriptOutcome)
    ensures var reply := RpcResult(Classify(o));
      && (reply == RpcPanicked <==> o.Returned? && (o.v == None || o.v == Some(JUndefined) || o.v == Some(JNull)))
      && (!o.Returned? ==> reply == RpcReturned("", Classify(o).err, Internal) && Classify(o).err.Some?)
      && (o.Returned? && o.v.Some? && o.v.value.JString? ==> reply == RpcReturned(o.v.value.s, None, OK))
      && (o.Returned? && o.v.Some? && !o.v.value.JString? && o.v.value != JUndefined && o.v.value != JNull ==>
            reply == RpcReturned("", Some(Failure(InvalidRpcReturn)), Internal))
  {
  }

  /** A cancelled Get ends Rpc with the context's error and Internal; a
      missing callback gives ErrRuntimeRPCNotFound with NotFound and returns
      the instance; once the function is invoked the instance is never
      returned to the pool. */
  lemma RpcPaths(s: Instances, sched: Sched, f: Factory, id: string, c: Caller,
                 queryParams: Option<map<string, seq<string>>>, sessionId: string, payload: string,
                 engine: Engine)
    ensures var g := Acquire(s, sched, f);
      var out := RpcSpec(s, sched, f, id, c, queryParams, sessionId, payload, engine);
      && (g.acquired.Cancelled? ==> out == Outcome(Some(RpcReturned("", Some(ContextError), Internal)), s))
      && (g.acquired.MustWait? ==> out == Outcome(None, s))
      && ((g.acquired.Idle? || g.acquired.Fresh?) && GetCallback(g.acquired.r.callbacks, RPC, id).None? ==>
            out == Outcome(Some(RpcReturned("", Some(RpcNotFound), NotFound)), PutStep(g.state, g.acquired.r)))
      && ((g.acquired.Idle? || g.acquired.Fresh?) && GetCallback(g.acquired.r.callbacks, RPC, id).Some? ==>
            out.pool == g.state && out.reply.Some? && out.reply.value != RpcReturned("", Some(RpcNotFound), NotFound))
  {
    GetWaitsIff(s, sched.cancelled, sched.cancelWins, f.Build(s.constructed));
    GetCancelled(s, sched.cancelWins, f.Build(s.constructed));
  }

  /** Rpc as evidently intended: the instance goes back to the pool on
      every path once it is held, and a nil result is an empty payload. */
  function RpcFixedOn(r: RuntimeJS, s: Instances, id: string, p: InvocationParams, payload: string,
                      engine: Engine): Outcome<RpcReply>
  {
    match GetCallback(r.callbacks, RPC, id)
    case None => Outcome(Some(RpcReturned("", Some(RpcNotFound), NotFound)), PutStep(s, r))
    case Some(fn) =>
      var res := InvokeSpec(r, RPC, fn, p, [PString(payload)], engine);
      var reply := if res.err.None? && res.value.None? then RpcReturned("", None, OK) else RpcResult(res);
      Outcome(Some(reply), PutStep(s, r))
  }

  function RpcFixedSpec(s: Instances, sched: Sched, f: Factory, id: string, c: Caller,
                        queryParams: Option<map<string, seq<string>>>, sessionId: string, payload: string,
                        engine: Engine): Outcome<RpcReply>
  {
    var g := Acquire(s, sched, f);
    match g.acquired
    case MustWait => Outcome(None, g.state)
    case Cancelled => Outcome(Some(RpcReturned("", Some(ContextError), Internal)), g.state)
    case Idle(r) => RpcFixedOn(r, g.state, id, Params(c, queryParams, sessionId), payload, engine)
    case Fresh(r) => RpcFixedOn(r, g.state, id, Params(c, queryParams, sessionId), payload, engine)
  }

  /** The pool can serve a Get without waiting. */
  predicate Available(s: Instances)
  {
    |s.idle| > 0 || s.currentCount < s.maxCount
  }

  /** The corrected Rpc never panics, and on a valid pool that can serve a
      call it answers without waiting and leaves the pool valid and able to
      serve the next call: calls never exhaust it. */
  lemma RpcFixedKeepsPoolAvailable(s: Instances, sched: Sched, f: Factory, id: string, c: Caller,
                                   queryParams: Option<map<string, seq<string>>>, sessionId: string,
                                   payload: string, engine: Engine)
    requires Valid(s) && Available(s) && !sched.cancelled
    ensures var out := RpcFixedSpec(s, sched, f, id, c, queryParams, sessionId, payload, engine);
      && out.reply.Some? && out.reply.value != RpcPanicked
      && Valid(out.pool) && Available(out.pool)
  {
    var built := f.Build(s.constructed);
    var g := Acquire(s, sched, f);
    GetPreservesValid(s, sched.cancelled, sched.cancelWins, built);
    GetFreshIff(s, sched.cancelled, sched.cancelWins, built);
    GetWaitsIff(s, sched.cancelled, sched.cancelWins, built);
    assert g.acquired.Idle? || g.acquired.Fresh?;
    PutPreservesValid(g.state, g.acquired.r);
    PutEffect(g.state, g.acquired.r);
    if g.acquired.Idle? {
      GetPrefersIdle(s, sched.cancelled, sched.cancelWins, built);
      assert |g.state.idle| == |s.idle| - 1;
    }
    assert |g.state.idle| < g.state.maxCount;
  }

  /** The corrected Rpc answers nil with an empty payload instead of
      panicking. */
  lemma RpcFixedNeverPanics(s: Instances, sched: Sched, f: Factory, id: string, c: Caller,
                            queryParams: Option<map<string, seq<string>>>, sessionId: string,
                            payload: string, engine: Engine)
    ensures RpcFixedSpec(s, sched, f, id, c, queryParams, sessionId, payload, engine).reply != Some(RpcPanicked)
  {
  }

  /** Rpc as written panics when the function returns nothing, where the
      corrected one answers an empty payload with OK. */
  lemma RpcNilReturnPanics(r: RuntimeJS, s: Instances, id: string, p: InvocationParams, payload: string,
                           engine: Engine, fn: Callable)
    requires GetCallback(r.callbacks, RPC, id) == Some(fn)
    requires engine(r.vm, fn, Arguments(ContextObject(r.node, r.env, RPC, p), [PString(payload)])) == Returned(None)
    ensures RpcOn(r, s, id, p, payload, engine).reply == Some(RpcPanicked)
    ensures RpcFixedOn(r, s, id, p, payload, engine).reply == Some(RpcReturned("", None, OK))
  {
  }

  /** A one-instance pool: after one successful Rpc as written the next
      Get waits for ever, because the instance was never returned; after
      the corrected Rpc the next Get takes it from the queue. */
  lemma RpcLeakExhaustsPool()
    ensures var s := PoolState([], 1, 0, 0);
      var f := Factory("node", map[], JsCallbacks(map["echo" := Callable(0)], map[], map[]));
      var c := Caller("", "", None, 0, "", "");
      var engine: Engine := (vm, fn, args) => Returned(Some(JString("ok")));
      var out := RpcSpec(s, Sched(false, false), f, "echo", c, None, "", "", engine);
      var fixed := RpcFixedSpec(s, Sched(false, false), f, "echo", c, None, "", "", engine);
      && out.reply == Some(RpcReturned("ok", None, OK))
      && Acquire(out.pool, Sched(false, false), f).acquired == MustWait
      && fixed.reply == Some(RpcReturned("ok", None, OK))
      && Acquire(fixed.pool, Sched(false, false), f).acquired == Idle(f.Build(0))
  {
    var s := PoolState([], 1, 0, 0);
    var f := Factory("node", map[], JsCallbacks(map["echo" := Callable(0)], map[], map[]));
    assert Inc32(0) == 1;
    assert Acquire(s, Sched(false, false), f).acquired == Fresh(f.Build(0));
  }

  // ---------------------------------------------------------------- BeforeRt

  /** BeforeRt's reply: whether it returns the caller's envelope, the error,
      and what it wrote into the envelope (`None`: left alone). */
  datatype RtBefore = RtBefore(returned: bool, err: Option<Error>, written: Option<JsValue>)

  /** The part of BeforeRt after the call: the error as it is, a nil result
      drops the message, else the result is encoded and unmarshalled over
      the envelope, which a failed unmarshal may leave half written. */
  function BeforeRtResult(res: Invoked, content: JsValue, codec: Codec): RtBefore
  {
    if res.err.Some? then RtBefore(false, res.err, None)
    else if res.value.None? then RtBefore(false, None, None)
    else
      match codec.encode(res.value.value)
      case None => RtBefore(false, Some(Failure(CouldNotCompleteBefore)), None)
      case Some(text) =>
        var u := codec.unmarshal(text, content);
        RtBefore(u.ok, if u.ok then None else Some(Failure(CouldNotCompleteBefore)), Some(u.content))
  }

  function BeforeRtOn(r: RuntimeJS, s: Instances, id: string, p: InvocationParams, content: JsValue,
                      codec: Codec, engine: Engine): Outcome<RtBefore>
  {
    match GetCallback(r.callbacks, Before, id)
    case None => Outcome(Some(RtBefore(false, Some(Failure(BeforeNotFound)), None)), PutStep(s, r))
    case Some(fn) =>
      match ToMap(Message(content), codec)
      case None => Outcome(Some(RtBefore(false, Some(Failure(CouldNotRunBefore)), None)), PutStep(s, r))
      case Some(m) =>
        Outcome(Some(BeforeRtResult(InvokeSpec(r, Before, fn, p, [PMap(m)], engine), content, codec)), PutStep(s, r))
  }

  /** RuntimeProviderJS.BeforeRt on an envelope with contents `content`. */
  function BeforeRtSpec(s: Instances, sched: Sched, f: Factory, id: string, c: Caller, sessionId: string,
                        content: JsValue, codec: Codec, engine: Engine): Outcome<RtBefore>
  {
    var g := Acquire(s, sched, f);
    match g.acquired
    case MustWait => Outcome(None, g.state)
    case Cancelled => Outcome(Some(RtBefore(false, Some(ContextError), None)), g.state)
    case Idle(r) => BeforeRtOn(r, g.state, id, Params(c, None, sessionId), content, codec, engine)
    case Fresh(r) => BeforeRtOn(r, g.state, id, Params(c, None, sessionId), content, codec, engine)
  }

  /** The envelope comes back exactly when the call succeeded with a value
      that encoded and unmarshalled over it, and then it carries what the
      unmarshal wrote; a call without a value drops the message, (nil,
      nil); a failed call passes its error on and writes nothing. */
  lemma BeforeRtResultCases(res: Invoked, content: JsValue, codec: Codec)
    ensures var out := BeforeRtResult(res, content, codec);
      && (out.returned <==>
            res.err.None? && res.value.Some? && codec.encode(res.value.value).Some?
            && codec.unmarshal(codec.encode(res.value.value).value, content).ok)
      && (out.returned ==> (out.err.None? &&
            out.written == Some(codec.unmarshal(codec.encode(res.value.value).value, content).content)))
      && (res.err.None? && res.value.None? ==> out == RtBefore(false, None, None))
      && (res.err.Some? ==> out == RtBefore(false, res.err, None))
      && (!out.returned && out.err.None? ==> res.err.None? && res.value.None?)
  {
  }

  /** Every BeforeRt call that holds an instance gives it back, and one
      that answers without a callback or a convertible envelope leaves the
      envelope alone. */
  lemma BeforeRtReleases(s: Instances, sched: Sched, f: Factory, id: string, c: Caller, sessionId: string,
                         content: JsValue, codec: Codec, engine: Engine)
    ensures var g := Acquire(s, sched, f);
      var out := BeforeRtSpec(s, sched, f, id, c, sessionId, content, codec, engine);
      && ((g.acquired.Idle? || g.acquired.Fresh?) ==> out.reply.Some? && out.pool == PutStep(g.state, g.acquired.r))
      && ((g.acquired.Idle? || g.acquired.Fresh?) && GetCallback(g.acquired.r.callbacks, Before, id).None? ==>
            out.reply == Some(RtBefore(false, Some(Failure(BeforeNotFound)), None)))
      && ((g.acquired.Idle? || g.acquired.Fresh?) && GetCallback(g.acquired.r.callbacks, Before, id).Some?
           && ToMap(Message(content), codec).None? ==>
            out.reply == Some(RtBefore(false, Some(Failure(CouldNotRunBefore)), None)))
      && (g.acquired.Cancelled? ==> out == Outcome(Some(RtBefore(false, Some(ContextError), None)), s))
  {
    GetCancelled(s, sched.cancelWins, f.Build(s.constructed));
  }

  // ---------------------------------------------------------------- AfterRt

  function AfterRtOn(r: RuntimeJS, s: Instances, id: string, p: InvocationParams, content: JsValue,
                     codec: Codec, engine: Engine): Outcome<Option<Error>>
  {
    match GetCallback(r.callbacks, After, id)
    case None => Outcome(Some(Some(Failure(BeforeNotFound))), PutStep(s, r))
    case Some(fn) =>
      match ToMap(Message(content), codec)
      case None => Outcome(Some(Some(Failure(CouldNotRunBefore))), PutStep(s, r))
      case Some(m) => Outcome(Some(InvokeSpec(r, After, fn, p, [PMap(m)], engine).err), PutStep(s, r))
  }

  /** RuntimeProviderJS.AfterRt; its messages say "Before" as written. */
  function AfterRtSpec(s: Instances, sched: Sched, f: Factory, id: string, c: Caller, sessionId: string,
                       content: JsValue, codec: Codec, engine: Engine): Outcome<Option<Error>>
  {
    var g := Acquire(s, sched, f);
    match g.acquired
    case MustWait => Outcome(None, g.state)
    case Cancelled => Outcome(Some(Some(ContextError)), g.state)
    case Idle(r) => AfterRtOn(r, g.state, id, Params(c, None, sessionId), content, codec, engine)
    case Fresh(r) => AfterRtOn(r, g.state, id, Params(c, None, sessionId), content, codec, engine)
  }

  /** An engine whose every call returns, with whatever value. */
  ghost predicate AlwaysReturns(engine: Engine)
  {
    forall vm, fn, args :: engine(vm, fn, args).Returned?
  }

  /** AfterRt surfaces only the script's error: swapping an engine whose
      calls return for another one whose calls return, whatever the values,
      changes nothing; and every call that holds an instance gives it back. */
  lemma AfterRtIgnoresResult(s: Instances, sched: Sched, f: Factory, id: string, c: Caller, sessionId: string,
                             content: JsValue, codec: Codec, e1: Engine, e2: Engine)
    requires AlwaysReturns(e1) && AlwaysReturns(e2)
    ensures AfterRtSpec(s, sched, f, id, c, sessionId, content, codec, e1)
         == AfterRtSpec(s, sched, f, id, c, sessionId, content, codec, e2)
    ensures var g := Acquire(s, sched, f);
      (g.acquired.Idle? || g.acquired.Fresh?) ==>
        AfterRtSpec(s, sched, f, id, c, sessionId, content, codec, e1).pool == PutStep(g.state, g.acquired.r)
  {
  }

  // ---------------------------------------------------------------- BeforeReq

  /** BeforeReq's reply: whether it returns the caller's request, the error,
      the code, and what it wrote into the request. */
  datatype ReqBefore = ReqBefore(returned: bool, err: Option<Error>, code: Code, written: Option<JsValue>)

  /** The part of BeforeReq after the call; `m` is the map that was handed
      to the script, non-nil only for a message. */
  function BeforeReqResult(res: Invoked, req: Request, m: Option<map<string, JsValue>>, codec: Codec): ReqBefore
    requires m.Some? ==> req.Message?
  {
    if res.err.Some? then ReqBefore(false, res.err, res.code, None)
    else if res.value.None? || m.None? then ReqBefore(false, None, OK, None)
    else
      match codec.encode(res.value.value)
      case None => ReqBefore(false, Some(Failure(CouldNotCompleteBefore)), Internal, None)
      case Some(text) =>
        var u := codec.unmarshal(text, req.content);
        if u.ok then ReqBefore(true, None, OK, Some(u.content))
        else ReqBefore(false, Some(Failure(CouldNotCompleteBefore)), Internal, Some(u.content))
  }

  function BeforeReqOn(r: RuntimeJS, s: Instances, id: string, c: Caller, req: Request,
                       codec: Codec, engine: Engine): Outcome<ReqBefore>
  {
    match GetCallback(r.callbacks, Before, id)
    case None => Outcome(Some(ReqBefore(false, Some(Failure(BeforeNotFound)), NotFound, None)), PutStep(s, r))
    case Some(fn) =>
      match ToMap(req, codec)
      case None => Outcome(Some(ReqBefore(false, Some(Failure(CouldNotRunBefore)), Internal, None)), PutStep(s, r))
      case Some(m) =>
        ToMapOfMessage(req, codec);
        var res := InvokeSpec(r, Before, fn, ReqParams(c), [PMap(m)], engine);
        Outcome(Some(BeforeReqResult(res, req, m, codec)), PutStep(s, r))
  }

  /** RuntimeProviderJS.BeforeReq. */
  function BeforeReqSpec(s: Instances, sched: Sched, f: Factory, id: string, c: Caller, req: Request,
                         codec: Codec, engine: Engine): Outcome<ReqBefore>
  {
    var g := Acquire(s, sched, f);
    match g.acquired
    case MustWait => Outcome(None, g.state)
    case Cancelled => Outcome(Some(ReqBefore(false, Some(ContextError), Internal, None)), g.state)
    case Idle(r) => BeforeReqOn(r, g.state, id, c, req, codec, engine)
    case Fresh(r) => BeforeReqOn(r, g.state, id, c, req, codec, engine)
  }

  /** The request comes back exactly when the call succeeded with a value,
      there was a map to override, and the value encoded and unmarshalled
      over the request; a nil result or a nil map is (nil, nil, OK) and
      writes nothing; a failed call passes its error and code on. */
  lemma BeforeReqResultCases(res: Invoked, req: Request, m: Option<map<string, JsValue>>, codec: Codec)
    requires m.Some? ==> req.Message?
    ensures var out := BeforeReqResult(res, req, m, codec);
      && (out.returned <==>
            res.err.None? && res.value.Some? && m.Some? && codec.encode(res.value.value).Some?
            && codec.unmarshal(codec.encode(res.value.value).value, req.content).ok)
      && (out.returned ==> (out.err.None? &&
            out.written == Some(codec.unmarshal(codec.encode(res.value.value).value, req.content).content)))
      && (res.err.None? && (res.value.None? || m.None?) ==> out == ReqBefore(false, None, OK, None))
      && (res.err.Some? ==> out == ReqBefore(false, res.err, res.code, None))
      && (out.written.Some? ==> req.Message?)
  {
  }

  /** BeforeReq's error and code agree on every path: an error never comes
      with OK, no error always does, a returned request never comes with an
      error, and a nil request is never written or returned. */
  lemma BeforeReqCodes(s: Instances, sched: Sched, f: Factory, id: string, c: Caller, req: Request,
                       codec: Codec, engine: Engine)
    ensures var out := BeforeReqSpec(s, sched, f, id, c, req, codec, engine);
      out.reply.Some? ==>
        && (out.reply.value.err.None? <==> out.reply.value.code == OK)
        && (out.reply.value.returned ==> out.reply.value.err.None?)
        && (req == NoRequest ==> !out.reply.value.returned && out.reply.value.written == None)
  {
    var g := Acquire(s, sched, f);
    if g.acquired.Idle? || g.acquired.Fresh? {
      var r := g.acquired.r;
      var cb := GetCallback(r.callbacks, Before, id);
      if cb.Some? && ToMap(req, codec).Some? {
        var m := ToMap(req, codec).value;
        ErrorIffInternal(engine(r.vm, cb.value, Arguments(ContextObject(r.node, r.env, Before, ReqParams(c)), [PMap(m)])));
      }
    }
  }

  /** Every BeforeReq call that holds an instance gives it back. */
  lemma BeforeReqReleases(s: Instances, sched: Sched, f: Factory, id: string, c: Caller, req: Request,
                          codec: Codec, engine: Engine)
    ensures var g := Acquire(s, sched, f);
      var out := BeforeReqSpec(s, sched, f, id, c, req, codec, engine);
      && ((g.acquired.Idle? || g.acquired.Fresh?) ==> out.reply.Some? && out.pool == PutStep(g.state, g.acquired.r))
      && ((g.acquired.Idle? || g.acquired.Fresh?) && GetCallback(g.acquired.r.callbacks, Before, id).None? ==>
            out.reply == Some(ReqBefore(false, Some(Failure(BeforeNotFound)), NotFound, None)))
      && ((g.acquired.Idle? || g.acquired.Fresh?) && GetCallback(g.acquired.r.callbacks, Before, id).Some?
           && ToMap(req, codec).None? ==>
            out.reply == Some(ReqBefore(false, Some(Failure(CouldNotRunBefore)), Internal, None)))
  {
  }

  /** The generic typed Before wrapper: nil and the error and code when
      there is no result or an error, else the result with no error and
      code 0. */
  function TypedBefore(out: ReqBefore): ReqBefore
  {
    if !out.returned || out.err.Some? then ReqBefore(false, out.err, out.code, out.written)
    else ReqBefore(true, None, OK, out.written)
  }

  /** The getaccount Before wrapper, which has no request: the error and
      code, or nil and code 0. */
  function GetAccountBefore(out: ReqBefore): (Option<Error>, Code)
  {
    if out.err.Some? then (out.err, out.code) else (None, OK)
  }

  /** The typed wrappers change nothing of what BeforeReq answers. */
  lemma TypedBeforeTransparent(s: Instances, sched: Sched, f: Factory, id: string, c: Caller, req: Request,
                               codec: Codec, engine: Engine)
    ensures var out := BeforeReqSpec(s, sched, f, id, c, req, codec, engine);
      out.reply.Some? ==>
        TypedBefore(out.reply.value) == out.reply.value
        && GetAccountBefore(out.reply.value) == (out.reply.value.err, out.reply.value.code)
  {
    BeforeReqCodes(s, sched, f, id, c, req, codec, engine);
  }

  // ---------------------------------------------------------------- AfterReq

  function AfterReqOn(r: RuntimeJS, s: Instances, id: string, c: Caller, res: Request, req: Request,
                      codec: Codec, engine: Engine): Outcome<Option<Error>>
  {
    match GetCallback(r.callbacks, After, id)
    case None => Outcome(Some(Some(Failure(AfterNotFound))), PutStep(s, r))
    case Some(fn) =>
      match ToMap(res, codec)
      case None => Outcome(Some(Some(Failure(CouldNotRunAfter))), PutStep(s, r))
      case Some(resMap) =>
        match ToMap(req, codec)
        case None => Outcome(Some(Some(Failure(CouldNotRunAfter))), PutStep(s, r))
        case Some(reqMap) =>
          Outcome(Some(InvokeSpec(r, After, fn, ReqParams(c), [PMap(resMap), PMap(reqMap)], engine).err), PutStep(s, r))
  }

  /** RuntimeProviderJS.AfterReq on a response and a request. */
  function AfterReqSpec(s: Instances, sched: Sched, f: Factory, id: string, c: Caller, res: Request,
                        req: Request, codec: Codec, engine: Engine): Outcome<Option<Error>>
  {
    var g := Acquire(s, sched, f);
    match g.acquired
    case MustWait => Outcome(None, g.state)
    case Cancelled => Outcome(Some(Some(ContextError)), g.state)
    case Idle(r) => AfterReqOn(r, g.state, id, c, res, req, codec, engine)
    case Fresh(r) => AfterReqOn(r, g.state, id, c, res, req, codec, engine)
  }

  /** AfterReq surfaces only the script's error, and every call that holds
      an instance gives it back. */
  lemma AfterReqIgnoresResult(s: Instances, sched: Sched, f: Factory, id: string, c: Caller, res: Request,
                              req: Request, codec: Codec, e1: Engine, e2: Engine)
    requires AlwaysReturns(e1) && AlwaysReturns(e2)
    ensures AfterReqSpec(s, sched, f, id, c, res, req, codec, e1)
         == AfterReqSpec(s, sched, f, id, c, res, req, codec, e2)
    ensures var g := Acquire(s, sched, f);
      (g.acquired.Idle? || g.acquired.Fresh?) ==>
        AfterReqSpec(s, sched, f, id, c, res, req, codec, e1).pool == PutStep(g.state, g.acquired.r)
  {
  }

  /** Which of (response, request) a typed After wrapper hands on. */
  function AfterArgs(shape: AfterShape, response: Request, request: Request): (Request, Request)
  {
    match shape
    case OutOnly => (response, NoRequest)
    case InOnly => (NoRequest, request)
    case OutAndIn => (response, request)
  }

  /** The typed-request hooks never put a session id in the context. */
  lemma TypedHooksHaveNoSessionId(node: string, env: map<string, string>, c: Caller)
    ensures KeySessionId !in ContextObject(node, env, Before, ReqParams(c))
    ensures KeySessionId !in ContextObject(node, env, After, ReqParams(c))
  {
    ContextFields(node, env, Before, ReqParams(c));
    ContextFields(node, env, After, ReqParams(c));
  }
}

/** RuntimeProviderJS: the pool of instances with its Get and Put, the hook
    methods over it, the start-up in NewRuntimeProviderJS (load, evaluate,
    build the registration tables, warm the pool) and
    CheckRuntimeProviderJavascript. */
module Provider {
  import opened Common
  import opened Callbacks
  import opened JsContext
  import opened Invocation
  import opened Pool
  import opened Registry
  import opened ModuleCache
  import opened Eval
  import opened Hooks

  /** A proto.Message the caller owns; BeforeRt and BeforeReq write into it. */
  class ProtoMessage {
    var content: JsValue

    constructor (content: JsValue)
      ensures this.content == content
    {
      this.content := content;
    }
  }

  /** A typed hook's `interface{}` argument: nil, a value that is not a
      proto.Message, or a message. */
  datatype RequestArg = NilArg | OtherArg | ProtoArg(msg: ProtoMessage)

  function View(a: RequestArg): Request
    reads if a.ProtoArg? then {a.msg} else {}
  {
    match a
    case NilArg => NoRequest
    case OtherArg => NotMessage
    case ProtoArg(msg) => Message(msg.content)
  }

  function Frame(a: RequestArg): set<object>
  {
    if a.ProtoArg? then {a.msg} else {}
  }

  /** What the provider's pool starts with: an empty queue of capacity
      maxCount and the counter at MinCount. */
  function InitialPool(minCount: Uint32, maxCount: Uint32): Instances
  {
    PoolState([], maxCount, minCount, 0)
  }

  /** The warm-up loop: `n` instances built and sent into the queue, one at
      a time; `None` when a send finds the queue full and blocks. */
  function WarmedUp(s: Instances, f: Factory, n: nat): Option<Instances>
    decreases n
  {
    if n == 0 then Some(s)
    else
      match WarmedUp(s, f, n - 1)
      case None => None
      case Some(t) =>
        if |t.idle| >= t.maxCount then None
        else Some(t.(idle := t.idle + [f.Build(t.constructed)], constructed := t.constructed + 1))
  }

  /** The instances numbered k, k + 1, ..., k + n - 1. */
  function Builds(f: Factory, k: nat, n: nat): (r: seq<RuntimeJS>)
    ensures |r| == n
    decreases n
  {
    if n == 0 then [] else Builds(f, k, n - 1) + [f.Build(k + n - 1)]
  }

  /** With room for them, the warm-up appends `n` new instances in the
      order they were built and leaves the counter alone. */
  lemma {:induction false} WarmUpFills(s: Instances, f: Factory, n: nat)
    requires |s.idle| + n <= s.maxCount
    ensures WarmedUp(s, f, n) == Some(s.(idle := s.idle + Builds(f, s.constructed, n), constructed := s.constructed + n))
    decreases n
  {
    if n > 0 {
      WarmUpFills(s, f, n - 1);
      var t := s.(idle := s.idle + Builds(f, s.constructed, n - 1), constructed := s.constructed + n - 1);
      assert Builds(f, s.constructed, n) == Builds(f, s.constructed, n - 1) + [f.Build(t.constructed)];
      assert s.idle + Builds(f, s.constructed, n) == t.idle + [f.Build(t.constructed)];
    } else {
      assert s.idle + [] == s.idle;
    }
  }

  /** Without room for them, the warm-up blocks for ever. */
  lemma {:induction false} WarmUpBlocks(s: Instances, f: Factory, n: nat)
    requires n > 0 && |s.idle| + n > s.maxCount
    ensures WarmedUp(s, f, n) == None
    decreases n
  {
    if |s.idle| + (n - 1) <= s.maxCount {
      WarmUpFills(s, f, n - 1);
    } else if n > 1 {
      WarmUpBlocks(s, f, n - 1);
    }
  }

  /** The instances the pool hands out, and the pool itself. */
  class RuntimeProviderJs {
    var idle: seq<RuntimeJS>
    const maxCount: Uint32
    var currentCount: Uint32
    var constructed: nat
    const factory: Factory

    function State(): Instances
      reads this
    {
      PoolState(idle, maxCount, currentCount, constructed)
    }

    constructor (minCount: Uint32, maxCount: Uint32, factory: Factory)
      ensures State() == InitialPool(minCount, maxCount) && this.factory == factory
    {
      idle := [];
      this.maxCount := maxCount;
      currentCount := minCount;
      constructed := 0;
      this.factory := factory;
    }

    /** Get: an idle instance, else a new one when the counter allows it,
        else the second select, which waits when nothing is ready. */
    method Get(sched: Sched) returns (acquired: Acquired<RuntimeJS>)
      modifies this
      ensures GetResult(acquired, State()) == Acquire(old(State()), sched, factory)
    {
      if sched.cancelled && (|idle| == 0 || sched.cancelWins) {
        return Cancelled;
      }
      if |idle| > 0 {
        acquired := Idle(idle[0]);
        idle := idle[1..];
        return;
      }
      if currentCount < maxCount {
        currentCount := Inc32(currentCount);
        if currentCount <= maxCount {
          acquired := Fresh(factory.Build(constructed));
          constructed := constructed + 1;
          return;
        }
      }
      // The second select: its ctx.Done case cannot fire here, since a
      // cancelled call with an empty queue ended at the first select.
      return MustWait;
    }

    /** Put: a send that discards the instance when the queue is full. */
    method Put(r: RuntimeJS)
      modifies this
      ensures State() == PutStep(old(State()), r)
    {
      if |idle| < maxCount {
        idle := idle + [r];
      }
    }

    /** The warm-up loop of NewRuntimeProviderJS. */
    method WarmUp(n: nat) returns (blocked: bool)
      modifies this
      ensures blocked <==> WarmedUp(old(State()), factory, n).None?
      ensures !blocked ==> WarmedUp(old(State()), factory, n) == Some(State())
    {
      ghost var s0 := State();
      for i := 0 to n
        invariant WarmedUp(s0, factory, i) == Some(State())
      {
        if |idle| >= maxCount {
          WarmUpStuck(s0, factory, i + 1, n);
          return true;
        }
        idle := idle + [factory.Build(constructed)];
        constructed := constructed + 1;
      }
      return false;
    }

    method Rpc(sched: Sched, id: string, c: Caller, queryParams: Option<map<string, seq<string>>>,
               sessionId: string, payload: string, engine: Engine)
      returns (reply: Option<RpcReply>)
      modifies this
      ensures Outcome(reply, State()) == RpcSpec(old(State()), sched, factory, id, c, queryParams, sessionId, payload, engine)
    {
      var acquired := Get(sched);
      if acquired.MustWait? {
        return None;
      }
      if acquired.Cancelled? {
        return Some(RpcReturned("", Some(ContextError), Internal));
      }
      var r := acquired.r;
      var fn := GetCallback(r.callbacks, RPC, id);
      if fn.None? {
        Put(r);
        return Some(RpcReturned("", Some(RpcNotFound), NotFound));
      }
      var res := InvokeFunction(r, RPC, fn.value, Params(c, queryParams, sessionId), [PString(payload)], engine);
      if res.err.Some? {
        return Some(RpcReturned("", res.err, res.code));
      }
      if res.value.None? {
        // Export on a nil goja.Value.
        return Some(RpcPanicked);
      }
      if !res.value.value.JString? {
        return Some(RpcReturned("", Some(Failure(InvalidRpcReturn)), Internal));
      }
      return Some(RpcReturned(res.value.value.s, None, res.code));
    }

    method BeforeRt(sched: Sched, id: string, c: Caller, sessionId: string, envelope: ProtoMessage,
                    codec: Codec, engine: Engine)
      returns (reply: Option<RtBefore>)
      modifies this, envelope
      ensures Outcome(reply, State()) ==
        BeforeRtSpec(old(State()), sched, factory, id, c, sessionId, old(envelope.content), codec, engine)
      ensures envelope.content ==
        if reply.Some? && reply.value.written.Some? then reply.value.written.value else old(envelope.content)
    {
      var acquired := Get(sched);
      if acquired.MustWait? {
        return None;
      }
      if acquired.Cancelled? {
        return Some(RtBefore(false, Some(ContextError), None));
      }
      var r := acquired.r;
      var fn := GetCallback(r.callbacks, Before, id);
      if fn.None? {
        Put(r);
        return Some(RtBefore(false, Some(Failure(BeforeNotFound)), None));
      }
      var envelopeMap := ToMap(Message(envelope.content), codec);
      if envelopeMap.None? {
        Put(r);
        return Some(RtBefore(false, Some(Failure(CouldNotRunBefore)), None));
      }
      var res := InvokeFunction(r, Before, fn.value, Params(c, None, sessionId), [PMap(envelopeMap.value)], engine);
      Put(r);
      reply := Some(BeforeRtResult(res, envelope.content, codec));
      if reply.value.written.Some? {
        envelope.content := reply.value.written.value;
      }
    }

    method AfterRt(sched: Sched, id: string, c: Caller, sessionId: string, envelope: ProtoMessage,
                   codec: Codec, engine: Engine)
      returns (reply: Option<Option<Error>>)
      modifies this
      ensures Outcome(reply, State()) ==
        AfterRtSpec(old(State()), sched, factory, id, c, sessionId, envelope.content, codec, engine)
    {
      var acquired := Get(sched);
      if acquired.MustWait? {
        return None;
      }
      if acquired.Cancelled? {
        return Some(Some(ContextError));
      }
      var r := acquired.r;
      var fn := GetCallback(r.callbacks, After, id);
      if fn.None? {
        Put(r);
        return Some(Some(Failure(BeforeNotFound)));
      }
      var envelopeMap := ToMap(Message(envelope.content), codec);
      if envelopeMap.None? {
        Put(r);
        return Some(Some(Failure(CouldNotRunBefore)));
      }
      var res := InvokeFunction(r, After, fn.value, Params(c, None, sessionId), [PMap(envelopeMap.value)], engine);
      Put(r);
      return Some(res.err);
    }

    method BeforeReq(sched: Sched, id: string, c: Caller, req: RequestArg, codec: Codec, engine: Engine)
      returns (reply: Option<ReqBefore>)
      modifies this, Frame(req)
      ensures Outcome(reply, State()) == BeforeReqSpec(old(State()), sched, factory, id, c, old(View(req)), codec, engine)
      ensures req.ProtoArg? ==> (req.msg.content ==
        if reply.Some? && reply.value.written.Some? then reply.value.written.value else old(req.msg.content))
    {
      var view := View(req);
      var acquired := Get(sched);
      if acquired.MustWait? {
        return None;
      }
      if acquired.Cancelled? {
        return Some(ReqBefore(false, Some(ContextError), Internal, None));
      }
      var r := acquired.r;
      var fn := GetCallback(r.callbacks, Before, id);
      if fn.None? {
        Put(r);
        return Some(ReqBefore(false, Some(Failure(BeforeNotFound)), NotFound, None));
      }
      var reqMap := ToMap(view, codec);
      if reqMap.None? {
        Put(r);
        return Some(ReqBefore(false, Some(Failure(CouldNotRunBefore)), Internal, None));
      }
      ToMapOfMessage(view, codec);
      var res := InvokeFunction(r, Before, fn.value, ReqParams(c), [PMap(reqMap.value)], engine);
      Put(r);
      reply := Some(BeforeReqResult(res, view, reqMap.value, codec));
      if reply.value.written.Some? {
        req.msg.content := reply.value.written.value;
      }
    }

    method AfterReq(sched: Sched, id: string, c: Caller, res: RequestArg, req: RequestArg,
                    codec: Codec, engine: Engine)
      returns (reply: Option<Option<Error>>)
      modifies this
      ensures Outcome(reply, State()) ==
        AfterReqSpec(old(State()), sched, factory, id, c, View(res), View(req), codec, engine)
    {
      var acquired := Get(sched);
      if acquired.MustWait? {
        return None;
      }
      if acquired.Cancelled? {
        return Some(Some(ContextError));
      }
      var r := acquired.r;
      var fn := GetCallback(r.callbacks, After, id);
      if fn.None? {
        Put(r);
        return Some(Some(Failure(AfterNotFound)));
      }
      var resMap := ToMap(View(res), codec);
      if resMap.None? {
        Put(r);
        return Some(Some(Failure(CouldNotRunAfter)));
      }
      var reqMap := ToMap(View(req), codec);
      if reqMap.None? {
        Put(r);
        return Some(Some(Failure(CouldNotRunAfter)));
      }
      var invoked := InvokeFunction(r, After, fn.value, ReqParams(c), [PMap(resMap.value), PMap(reqMap.value)], engine);
      Put(r);
      return Some(invoked.err);
    }
  }

  /** Once a send blocks, the rest of the warm-up cannot take place. */
  lemma {:induction false} WarmUpStuck(s: Instances, f: Factory, i: nat, n: nat)
    requires 0 < i <= n
    requires WarmedUp(s, f, i - 1).Some? && |WarmedUp(s, f, i - 1).value.idle| >= s.maxCount
    ensures WarmedUp(s, f, n) == None
    decreases n
  {
    if n > i {
      WarmUpStuck(s, f, i, n - 1);
    } else {
      WarmedUpKeepsMax(s, f, i - 1);
    }
  }

  lemma {:induction false} WarmedUpKeepsMax(s: Instances, f: Factory, n: nat)
    requires WarmedUp(s, f, n).Some?
    ensures WarmedUp(s, f, n).value.maxCount == s.maxCount
    ensures WarmedUp(s, f, n).value.currentCount == s.currentCount
    decreases n
  {
    if n > 0 {
      WarmedUpKeepsMax(s, f, n - 1);
    }
  }

  /** Every name of a successful load has its module. */
  lemma LoadedFiled(paths: seq<string>, read: string -> Option<string>,
                    compile: (string, string) -> Option<Program>)
    requires Load(paths, read, compile).Ok?
    ensures var c := Load(paths, read, compile).value;
      forall n :: n in c.names ==> n in c.modules
  {
    var c := Load(paths, read, compile).value;
    LoadedNames(paths, read, compile);
    LoadedKeys(paths, read, compile);
    forall n | n in c.names ensures n in c.modules {
      assert n in multiset(c.names);
      assert n in multiset(JsNames(paths));
    }
  }

  /** The evaluation of a successful load. */
  function Evaluated(paths: seq<string>, read: string -> Option<string>,
                     compile: (string, string) -> Option<Program>, node: string, env: map<string, string>,
                     initName: string, run: Runner, init: Initializer): (EvalState, Option<Error>)
    requires Load(paths, read, compile).Ok?
  {
    LoadedFiled(paths, read, compile);
    var c := Load(paths, read, compile).value;
    EvalAll(c.names, c.modules, node, env, initName, run, init)
  }

  /** How NewRuntimeProviderJS ends: a panic on a failed load, the
      evaluation's error, a warm-up that blocks, or the module names and
      the registration tables. */
  datatype Startup =
    | CachePanicked(loadError: LoadError)
    | EvalFailed(err: Error)
    | WarmUpBlocked
    | Started(names: seq<string>, tables: Tables)

  /** The number of instances the warm-up sends: MinCount, when there are
      modules at all. */
  function WarmUpCount(names: seq<string>, minCount: Uint32): nat
  {
    if |names| > 0 then minCount else 0
  }

  function StartSpec(paths: seq<string>, read: string -> Option<string>,
                     compile: (string, string) -> Option<Program>, node: string, env: map<string, string>,
                     initName: string, run: Runner, init: Initializer, px: Prefixes,
                     minCount: Uint32, maxCount: Uint32): Startup
  {
    match Load(paths, read, compile)
    case Err(e) => CachePanicked(e)
    case Ok(cache) =>
      var ev := Evaluated(paths, read, compile, node, env, initName, run, init);
      if ev.1.Some? then EvalFailed(ev.1.value)
      else if WarmedUp(InitialPool(minCount, maxCount), Factory(node, env, ev.0.callbacks),
                       WarmUpCount(cache.names, minCount)).None? then WarmUpBlocked
      else Started(cache.names, AnnounceAll(NoTables, px, ev.0.anns))
  }

  /** NewRuntimeProviderJS: load, evaluate with a fresh set of registration
      tables, create the provider with newFn over the collected callbacks,
      and warm the pool when there are modules. */
  method NewRuntimeProviderJs(paths: seq<string>, read: string -> Option<string>,
                              compile: (string, string) -> Option<Program>, node: string,
                              env: map<string, string>, initName: string, run: Runner, init: Initializer,
                              px: Prefixes, minCount: Uint32, maxCount: Uint32)
    returns (out: Startup, provider: RuntimeProviderJs?)
    ensures out == StartSpec(paths, read, compile, node, env, initName, run, init, px, minCount, maxCount)
    ensures out.Started? ==>
      && provider != null && fresh(provider)
      && provider.factory == Factory(node, env, Evaluated(paths, read, compile, node, env, initName, run, init).0.callbacks)
      && WarmedUp(InitialPool(minCount, maxCount), provider.factory, WarmUpCount(out.names, minCount))
         == Some(provider.State())
    ensures !out.Started? ==> provider == null
  {
    var cache, loadErr := CacheJavascriptModules(paths, read, compile);
    if loadErr.Some? {
      return CachePanicked(loadErr.value), null;
    }
    LoadedFiled(paths, read, compile);
    var reg := new Registrations();
    var callbacks, evalErr := EvalRuntimeModules(cache.State(), node, env, initName, run, init, reg, px);
    if evalErr.Some? {
      return EvalFailed(evalErr.value), null;
    }
    var p := new RuntimeProviderJs(minCount, maxCount, Factory(node, env, callbacks));
    var blocked := false;
    if |cache.names| > 0 {
      blocked := p.WarmUp(minCount);
    }
    if blocked {
      return WarmUpBlocked, null;
    }
    return Started(cache.names, reg.Current()), p;
  }

  /** With MinCount at most MaxCount the warm-up never blocks, and the pool
      starts valid: MinCount counted, and either MinCount idle instances or,
      without modules, none. */
  lemma StartupPool(paths: seq<string>, read: string -> Option<string>,
                    compile: (string, string) -> Option<Program>, node: string, env: map<string, string>,
                    initName: string, run: Runner, init: Initializer, px: Prefixes,
                    minCount: Uint32, maxCount: Uint32)
    requires Load(paths, read, compile).Ok?
    requires Evaluated(paths, read, compile, node, env, initName, run, init).1.None?
    ensures var names := Load(paths, read, compile).value.names;
      var f := Factory(node, env, Evaluated(paths, read, compile, node, env, initName, run, init).0.callbacks);
      var w := WarmedUp(InitialPool(minCount, maxCount), f, WarmUpCount(names, minCount));
      && (minCount <= maxCount ==>
            && w.Some? && Valid(w.value) && w.value.currentCount == minCount
            && w.value.idle == Builds(f, 0, WarmUpCount(names, minCount)))
      && (minCount > maxCount && |names| > 0 ==> w.None?)
      && (minCount > maxCount && |names| == 0 ==> w == Some(InitialPool(minCount, maxCount)) && !Valid(w.value))
  {
    var names := Load(paths, read, compile).value.names;
    var f := Factory(node, env, Evaluated(paths, read, compile, node, env, initName, run, init).0.callbacks);
    var n := WarmUpCount(names, minCount);
    if minCount <= maxCount {
      WarmUpFills(InitialPool(minCount, maxCount), f, n);
    } else if |names| > 0 {
      WarmUpBlocks(InitialPool(minCount, maxCount), f, n);
    }
  }

  /** Every RPC id in the registration tables has its callback in every
      instance newFn builds: a registered RPC never answers NotFound. */
  lemma RegisteredRpcHasCallback(names: seq<string>, modules: map<string, JsModule>, node: string,
                                 env: map<string, string>, initName: string, run: Runner, init: Initializer,
                                 px: Prefixes, id: string, k: nat)
    requires forall n :: n in names ==> n in modules
    ensures var st := EvalAll(names, modules, node, env, initName, run, init).0;
      id in AnnounceAll(NoTables, px, st.anns).rpc ==>
        GetCallback(Factory(node, env, st.callbacks).Build(k).callbacks, RPC, id).Some?
  {
    var st := EvalAll(names, modules, node, env, initName, run, init).0;
    AnnounceAllRpc(NoTables, px, st.anns, id);
    EvalAnnouncedHaveCallbacks(names, modules, node, env, initName, run, init);
    if id in AnnounceAll(NoTables, px, st.anns).rpc {
      var i :| 0 <= i < |st.anns| && st.anns[i] == Announcement(RPC, id);
      assert Filed(st.callbacks, st.anns[i]);
      GetCallbackOwnTable(st.callbacks, RPC, id);
    }
  }

  /** CheckRuntimeProviderJavascript's result: the load's error, a panic,
      or the evaluation's error (`None` when the modules are fine). */
  datatype CheckOutcome = CheckFailed(loadError: LoadError) | CheckPanicked | CheckDone(err: Option<Error>)

  /** CheckRuntimeProviderJavascript as written: it evaluates with a nil
      provider, whose logger the evaluation reads first, so every load that
      succeeds ends in a nil-pointer panic. */
  method CheckRuntimeProviderJavascript(paths: seq<string>, read: string -> Option<string>,
                                        compile: (string, string) -> Option<Program>)
    returns (out: CheckOutcome)
    ensures Load(paths, read, compile).Err? ==> out == CheckFailed(Load(paths, read, compile).error)
    ensures Load(paths, read, compile).Ok? ==> out == CheckPanicked
  {
    var cache, err := CacheJavascriptModules(paths, read, compile);
    if err.Some? {
      return CheckFailed(err.value);
    }
    return CheckPanicked;
  }

  /** CheckRuntimeProviderJavascript as evidently intended: the load's
      error, else the evaluation's. */
  function CheckFixed(paths: seq<string>, read: string -> Option<string>,
                      compile: (string, string) -> Option<Program>, node: string, env: map<string, string>,
                      initName: string, run: Runner, init: Initializer): CheckOutcome
  {
    match Load(paths, read, compile)
    case Err(e) => CheckFailed(e)
    case Ok(_) => CheckDone(Evaluated(paths, read, compile, node, env, initName, run, init).1)
  }

  /** The corrected check never panics and fails exactly when the provider's
      start-up would: with the load's error where start-up panics, with the
      evaluation's error where start-up returns it. */
  lemma CheckFixedAgreesWithStartup(paths: seq<string>, read: string -> Option<string>,
                                    compile: (string, string) -> Option<Program>, node: string,
                                    env: map<string, string>, initName: string, run: Runner, init: Initializer,
                                    px: Prefixes, minCount: Uint32, maxCount: Uint32)
    ensures var check := CheckFixed(paths, read, compile, node, env, initName, run, init);
      var start := StartSpec(paths, read, compile, node, env, initName, run, init, px, minCount, maxCount);
      && check != CheckPanicked
      && (forall e :: check == CheckFailed(e) <==> start == CachePanicked(e))
      && (forall e :: check == CheckDone(Some(e)) <==> start == EvalFailed(e))
      && (check == CheckDone(None) <==> start.Started? || start.WarmUpBlocked?)
  {
  }

  /** The smallest witness: no paths at all. The corrected check reports no
      error, while the check as written panics on it. */
  lemma CheckPanicsOnEmptyRuntime(read: string -> Option<string>, compile: (string, string) -> Option<Program>,
                                  node: string, env: map<string, string>, initName: string, run: Runner,
                                  init: Initializer)
    ensures Load([], read, compile).Ok?
    ensures CheckFixed([], read, compile, node, env, initName, run, init) == CheckDone(None)
  {
  }
}

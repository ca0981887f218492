/** Calling a script function from the host (RuntimeJS.InvokeFunction): the
    argument list handed to the function and the classification of what
    the engine gives back into a value, an error and a status code. */
module Invocation {
  import opened Common
  import opened Callbacks
  import opened JsContext

  /** A pooled instance (RuntimeJS): its VM, the node name, the runtime
      environment and the callbacks its modules registered. The VM stands
      for everything the engine keeps between calls. */
  datatype RuntimeJS = RuntimeJS(vm: nat, node: string, env: map<string, string>, callbacks: JsCallbacks)

  /** A payload as handed to vm.ToValue: the RPC payload string, or a
      decoded message (`None` for a nil Go map). */
  datatype Payload = PString(s: string) | PMap(m: Option<map<string, JsValue>>)

  /** An argument of a script call: the context object, the logger
      instance, the host-API instance, or a payload. */
  datatype JsArg = CtxArg(ctx: map<CtxKey, CtxValue>) | LoggerArg | NkArg | PayloadArg(payload: Payload)

  /** What the engine reports for a call: a thrown JavaScript exception
      (its Error() text and its String() form with the stack), any other
      error (its text), or the returned value (`None` for a nil goja.Value). */
  datatype ScriptOutcome = Threw(text: string, stack: string) | Failed(text: string) | Returned(v: Option<JsValue>)

  /** The goja call `fn(goja.Null(), jv...)` on a VM. */
  type Engine = (nat, Callable, seq<JsArg>) -> ScriptOutcome

  /** InvokeFunction's result: (goja.Value, error, codes.Code). */
  datatype Invoked = Invoked(value: Option<JsValue>, err: Option<Error>, code: Code)

  /** The payload arguments, in order. */
  function PayloadArgs(payloads: seq<Payload>): seq<JsArg>
    decreases |payloads|
  {
    if payloads == [] then []
    else PayloadArgs(payloads[..|payloads| - 1]) + [PayloadArg(payloads[|payloads| - 1])]
  }

  /** The argument list of a script call. */
  function Arguments(ctx: map<CtxKey, CtxValue>, payloads: seq<Payload>): seq<JsArg>
  {
    [CtxArg(ctx), LoggerArg, NkArg] + PayloadArgs(payloads)
  }

  /** How InvokeFunction reads the engine's report. */
  function Classify(o: ScriptOutcome): Invoked
  {
    match o
    case Threw(text, stack) => Invoked(None, Some(NewJsExceptionError(JsErrorException, text, stack)), Internal)
    case Failed(text) => Invoked(None, Some(NewJsError(JsErrorRuntime, text)), Internal)
    case Returned(v) =>
      if v == None || v == Some(JUndefined) || v == Some(JNull) then Invoked(None, None, OK)
      else Invoked(v, None, OK)
  }

  /** The whole of InvokeFunction as a function of its inputs. */
  function InvokeSpec(r: RuntimeJS, mode: ExecutionMode, fn: Callable, p: InvocationParams,
                      payloads: seq<Payload>, engine: Engine): Invoked
  {
    Classify(engine(r.vm, fn, Arguments(ContextObject(r.node, r.env, mode, p), payloads)))
  }

  /** InvokeFunction: build the context, lay out the arguments one by one,
      call the function and classify the outcome. */
  method InvokeFunction(r: RuntimeJS, mode: ExecutionMode, fn: Callable, p: InvocationParams,
                        payloads: seq<Payload>, engine: Engine)
    returns (res: Invoked)
    ensures res == InvokeSpec(r, mode, fn, p, payloads, engine)
  {
    var ctx := NewRuntimeJsContext(r.node, r.env, mode, p);
    var jv := [CtxArg(ctx), LoggerArg, NkArg];
    for i := 0 to |payloads|
      invariant jv == [CtxArg(ctx), LoggerArg, NkArg] + PayloadArgs(payloads[..i])
    {
      assert payloads[..i + 1][..i] == payloads[..i];
      jv := jv + [PayloadArg(payloads[i])];
    }
    assert payloads[..|payloads|] == payloads;
    var outcome := engine(r.vm, fn, jv);
    match outcome {
      case Threw(text, stack) =>
        return Invoked(None, Some(NewJsExceptionError(JsErrorException, text, stack)), Internal);
      case Failed(text) =>
        return Invoked(None, Some(NewJsError(JsErrorRuntime, text)), Internal);
      case Returned(v) =>
        if v == None || v == Some(JUndefined) || v == Some(JNull) {
          return Invoked(None, None, OK);
        }
        return Invoked(v, None, OK);
    }
  }

  /** The payload arguments are the payloads, one each, in order. */
  lemma {:induction false} PayloadArgsLayout(payloads: seq<Payload>)
    ensures |PayloadArgs(payloads)| == |payloads|
    ensures forall i :: 0 <= i < |payloads| ==> PayloadArgs(payloads)[i] == PayloadArg(payloads[i])
    decreases |payloads|
  {
    if payloads != [] {
      PayloadArgsLayout(payloads[..|payloads| - 1]);
    }
  }

  /** The arguments are exactly the context, the logger and the host-API
      instance, followed by the payloads in order. */
  lemma ArgumentLayout(ctx: map<CtxKey, CtxValue>, payloads: seq<Payload>)
    ensures var args := Arguments(ctx, payloads);
      && |args| == 3 + |payloads|
      && args[0] == CtxArg(ctx) && args[1] == LoggerArg && args[2] == NkArg
      && forall i :: 0 <= i < |payloads| ==> args[3 + i] == PayloadArg(payloads[i])
  {
    PayloadArgsLayout(payloads);
  }

  /** A thrown exception becomes an error of Type "exception" carrying the
      engine's stack trace and text, with code Internal and no value. */
  lemma ExceptionOutcome(text: string, stack: string)
    ensures var res := Classify(Threw(text, stack));
      && res.value == None && res.code == Internal && res.err.Some?
      && res.err.value.Script? && res.err.value.kind == "exception"
      && res.err.value.stackTrace == stack && ErrorText(res.err.value) == text
  {
  }

  /** Any other error becomes an error of empty Type wrapping its text,
      with no stack trace, code Internal and no value. */
  lemma RuntimeErrorOutcome(text: string)
    ensures var res := Classify(Failed(text));
      && res.value == None && res.code == Internal && res.err.Some?
      && res.err.value.Script? && res.err.value.kind == ""
      && res.err.value.stackTrace == "" && ErrorText(res.err.value) == text
  {
  }

  /** A return gives no error and code OK; its value is dropped exactly
      when it is nil, undefined or null. */
  lemma ReturnOutcome(v: Option<JsValue>)
    ensures var res := Classify(Returned(v));
      && res.err == None && res.code == OK
      && (res.value == None <==> (v == None || v == Some(JUndefined) || v == Some(JNull)))
      && (res.value.Some? ==> res.value == v)
  {
  }

  /** Error and code agree: an error comes with Internal, success with OK,
      and an error never comes with a value. */
  lemma ErrorIffInternal(o: ScriptOutcome)
    ensures var res := Classify(o);
      && (res.err.Some? <==> res.code == Internal)
      && (res.err.None? <==> res.code == OK)
      && (res.err.Some? ==> res.value == None)
  {
  }
}

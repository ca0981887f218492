/** Evaluating the cached modules in name order on one VM
    (evalRuntimeModules): run each program, call the init function the VM's
    global then holds, and collect the callbacks it registers and the
    announcements it makes. */
module Eval {
  import opened Common
  import opened Callbacks
  import opened JsContext
  import opened ModuleCache
  import opened Registry

  /** What running a module's program does to the init global: leaves it
      as it was, or assigns it (`None` for a value that is not a function). */
  datatype GlobalEffect = Keeps | Assigns(fn: Option<Callable>)

  /** The engine's report for RunProgram. */
  datatype RunOutcome = RunFailed(err: Error) | RunDone(effect: GlobalEffect)

  /** One registration the init function makes through the initializer: the
      initializer files `fn` under `id` in its mode's table and announces
      (mode, id). */
  datatype Registration = Registration(mode: ExecutionMode, id: string, fn: Callable)

  /** The engine's report for the init call: the registrations made, and
      how the call ended (returned, threw with a String() form, or failed
      otherwise). */
  datatype InitOutcome =
    | InitReturned(regs: seq<Registration>)
    | InitThrew(regs: seq<Registration>, text: string)
    | InitFailed(regs: seq<Registration>, err: Error)

  /** The runs and calls on the evaluating VM; the `nat` is the position of
      the module in name order, which stands for the VM's state. */
  type Runner = (Program, nat) -> RunOutcome
  type Initializer = (Callable, nat, map<CtxKey, CtxValue>) -> InitOutcome

  /** The evaluation so far: the init global, the callbacks collected and
      the announcements made. */
  datatype EvalState = EvalState(global: Option<Callable>, callbacks: JsCallbacks, anns: seq<Announcement>)

  const StartState := EvalState(None, NoCallbacks, [])

  /** How the initializer files one registration. */
  function Record(cb: JsCallbacks, reg: Registration): JsCallbacks
  {
    match reg.mode
    case RPC => cb.(rpc := cb.rpc[reg.id := reg.fn])
    case Before => cb.(before := cb.before[reg.id := reg.fn])
    case After => cb.(after := cb.after[reg.id := reg.fn])
    case _ => cb
  }

  function RecordAll(cb: JsCallbacks, regs: seq<Registration>): JsCallbacks
    decreases |regs|
  {
    if regs == [] then cb else Record(RecordAll(cb, regs[..|regs| - 1]), regs[|regs| - 1])
  }

  function AnnouncementsOf(regs: seq<Registration>): seq<Announcement>
    decreases |regs|
  {
    if regs == [] then []
    else AnnouncementsOf(regs[..|regs| - 1]) + [Announcement(regs[|regs| - 1].mode, regs[|regs| - 1].id)]
  }

  /** The last registration of a (mode, id) decides the function filed
      there: later registrations under other keys do not touch it. */
  lemma {:induction false} LastRegistrationWins(cb: JsCallbacks, regs: seq<Registration>, j: nat)
    requires j < |regs| && (regs[j].mode == RPC || regs[j].mode == Before || regs[j].mode == After)
    requires forall k :: j < k < |regs| ==> regs[k].mode != regs[j].mode || regs[k].id != regs[j].id
    ensures GetCallback(RecordAll(cb, regs), regs[j].mode, regs[j].id) == Some(regs[j].fn)
    decreases |regs|
  {
    var last := |regs| - 1;
    if j < last {
      var prefix := regs[..last];
      assert prefix[j] == regs[j];
      forall k | j < k < |prefix| ensures prefix[k].mode != prefix[j].mode || prefix[k].id != prefix[j].id {
        assert prefix[k] == regs[k];
      }
      LastRegistrationWins(cb, prefix, j);
    }
  }

  /** A (mode, id) that no registration names keeps what it had. */
  lemma {:induction false} UnregisteredKept(cb: JsCallbacks, regs: seq<Registration>, mode: ExecutionMode, id: string)
    requires forall k :: 0 <= k < |regs| ==> regs[k].mode != mode || regs[k].id != id
    ensures GetCallback(RecordAll(cb, regs), mode, id) == GetCallback(cb, mode, id)
    decreases |regs|
  {
    if regs != [] {
      var prefix := regs[..|regs| - 1];
      forall k | 0 <= k < |prefix| ensures prefix[k].mode != mode || prefix[k].id != id {
        assert prefix[k] == regs[k];
      }
      UnregisteredKept(cb, prefix, mode, id);
    }
  }

  /** The state after an init call's registrations. */
  function Registered(st: EvalState, regs: seq<Registration>): EvalState
  {
    st.(callbacks := RecordAll(st.callbacks, regs), anns := st.anns + AnnouncementsOf(regs))
  }

  /** The context of an InitModule call. */
  function InitContext(node: string, env: map<string, string>): map<CtxKey, CtxValue>
  {
    map[KeyNode := CtxString(node), KeyEnv := CtxEnv(env)]
  }

  /** The error text when a module leaves no init function behind. */
  function InitNotFound(initName: string): string
  {
    initName + " function not found."
  }

  /** One module. The registrations a failing init call made are kept:
      they were announced before it failed. */
  function EvalStep(st: EvalState, prg: Program, pos: nat, node: string, env: map<string, string>,
                    initName: string, run: Runner, init: Initializer): (EvalState, Option<Error>)
  {
    match run(prg, pos)
    case RunFailed(err) => (st, Some(err))
    case RunDone(effect) =>
      var global := if effect.Keeps? then st.global else effect.fn;
      var st1 := st.(global := global);
      if global.None? then (st1, Some(Failure(InitNotFound(initName))))
      else InitStep(st1, global.value, pos, node, env, init)
  }

  /** The init call of one module, once its init function is known. */
  function InitStep(st: EvalState, f: Callable, pos: nat, node: string, env: map<string, string>,
                    init: Initializer): (EvalState, Option<Error>)
  {
    match init(f, pos, InitContext(node, env))
    case InitReturned(regs) => (Registered(st, regs), None)
    case InitThrew(regs, text) => (Registered(st, regs), Some(Failure(text)))
    case InitFailed(regs, err) => (Registered(st, regs), Some(err))
  }

  /** The modules of `names`, in order, up to the first error. */
  function EvalAll(names: seq<string>, modules: map<string, JsModule>, node: string, env: map<string, string>,
                   initName: string, run: Runner, init: Initializer): (EvalState, Option<Error>)
    requires forall n :: n in names ==> n in modules
    decreases |names|
  {
    if names == [] then (StartState, None)
    else
      var prev := EvalAll(names[..|names| - 1], modules, node, env, initName, run, init);
      if prev.1.Some? then prev
      else EvalStep(prev.0, modules[names[|names| - 1]].program, |names| - 1, node, env, initName, run, init)
  }

  /** Every announcement made so far has its callback filed under its id
      in its mode's table. */
  ghost predicate AnnouncedHaveCallbacks(st: EvalState)
  {
    forall i :: 0 <= i < |st.anns| ==> Filed(st.callbacks, st.anns[i])
  }

  predicate Filed(cb: JsCallbacks, a: Announcement)
  {
    match a.mode
    case RPC => a.id in cb.rpc
    case Before => a.id in cb.before
    case After => a.id in cb.after
    case _ => true
  }

  /** evalRuntimeModules: one iteration per cached name; each announcement
      goes through the registration closure as it is made. */
  method EvalRuntimeModules(cache: CacheState, node: string, env: map<string, string>, initName: string,
                            run: Runner, init: Initializer, reg: Registrations, px: Prefixes)
    returns (callbacks: JsCallbacks, err: Option<Error>)
    requires forall n :: n in cache.names ==> n in cache.modules
    modifies reg
    ensures var res := EvalAll(cache.names, cache.modules, node, env, initName, run, init);
      && err == res.1 && (err.None? ==> callbacks == res.0.callbacks)
      && reg.Current() == AnnounceAll(old(reg.Current()), px, res.0.anns)
  {
    var st := StartState;
    ghost var t0 := reg.Current();
    for i := 0 to |cache.names|
      invariant EvalAll(cache.names[..i], cache.modules, node, env, initName, run, init) == (st, None)
      invariant reg.Current() == AnnounceAll(t0, px, st.anns)
    {
      EvalAllSnoc(cache.names, i, cache.modules, node, env, initName, run, init);
      var stepErr;
      st, stepErr := EvalModule(st, cache.modules[cache.names[i]].program, i, node, env, initName,
                                run, init, reg, px, t0);
      if stepErr.Some? {
        EvalStopsAtFirstError(cache.names, i + 1, cache.modules, node, env, initName, run, init);
        return NoCallbacks, stepErr;
      }
    }
    assert cache.names[..|cache.names|] == cache.names;
    return st.callbacks, None;
  }

  /** One iteration: run the program, look the init function up, call it
      with a fresh init context, and pass its announcements on. */
  method EvalModule(st: EvalState, prg: Program, pos: nat, node: string, env: map<string, string>,
                    initName: string, run: Runner, init: Initializer, reg: Registrations, px: Prefixes,
                    ghost t0: Tables)
    returns (st': EvalState, err: Option<Error>)
    requires reg.Current() == AnnounceAll(t0, px, st.anns)
    modifies reg
    ensures (st', err) == EvalStep(st, prg, pos, node, env, initName, run, init)
    ensures reg.Current() == AnnounceAll(t0, px, st'.anns)
  {
    var outcome := run(prg, pos);
    if outcome.RunFailed? {
      return st, Some(outcome.err);
    }
    st' := st;
    if outcome.effect.Assigns? {
      st' := st'.(global := outcome.effect.fn);
    }
    if st'.global.None? {
      return st', Some(Failure(InitNotFound(initName)));
    }
    st', err := CallInit(st', st'.global.value, pos, node, env, init, reg, px, t0);
  }

  /** The init call: a fresh init context, the call, and its announcements
      passed on whether or not it then fails. */
  method CallInit(st: EvalState, f: Callable, pos: nat, node: string, env: map<string, string>,
                  init: Initializer, reg: Registrations, px: Prefixes, ghost t0: Tables)
    returns (st': EvalState, err: Option<Error>)
    requires reg.Current() == AnnounceAll(t0, px, st.anns)
    modifies reg
    ensures (st', err) == InitStep(st, f, pos, node, env, init)
    ensures reg.Current() == AnnounceAll(t0, px, st'.anns)
  {
    var ctx := NewRuntimeJsInitContext(node, env);
    assert ctx == InitContext(node, env);
    var called := init(f, pos, ctx);
    AnnounceRegistrations(reg, called.regs, px, t0, st.anns);
    st' := Registered(st, called.regs);
    if called.InitThrew? {
      return st', Some(Failure(called.text));
    }
    if called.InitFailed? {
      return st', Some(called.err);
    }
    return st', None;
  }

  /** The initializer's announce calls for one init call, in order. */
  method AnnounceRegistrations(reg: Registrations, regs: seq<Registration>, px: Prefixes,
                               ghost t0: Tables, ghost anns: seq<Announcement>)
    requires reg.Current() == AnnounceAll(t0, px, anns)
    modifies reg
    ensures reg.Current() == AnnounceAll(t0, px, anns + AnnouncementsOf(regs))
  {
    assert anns + AnnouncementsOf(regs[..0]) == anns;
    for j := 0 to |regs|
      invariant reg.Current() == AnnounceAll(t0, px, anns + AnnouncementsOf(regs[..j]))
    {
      assert regs[..j + 1][..j] == regs[..j];
      AnnounceAllSnoc(t0, px, anns + AnnouncementsOf(regs[..j]), Announcement(regs[j].mode, regs[j].id));
      assert anns + AnnouncementsOf(regs[..j + 1])
          == (anns + AnnouncementsOf(regs[..j])) + [Announcement(regs[j].mode, regs[j].id)];
      reg.Announce(regs[j].mode, regs[j].id, px);
    }
    assert regs[..|regs|] == regs;
  }

  /** One more name is one more step, unless an error came first. */
  lemma EvalAllSnoc(names: seq<string>, i: nat, modules: map<string, JsModule>, node: string,
                    env: map<string, string>, initName: string, run: Runner, init: Initializer)
    requires i < |names| && forall n :: n in names ==> n in modules
    requires EvalAll(names[..i], modules, node, env, initName, run, init).1.None?
    ensures EvalAll(names[..i + 1], modules, node, env, initName, run, init)
         == EvalStep(EvalAll(names[..i], modules, node, env, initName, run, init).0,
                     modules[names[i]].program, i, node, env, initName, run, init)
  {
    assert names[..i + 1][..i] == names[..i];
  }

  /** AnnounceAll takes one more announcement at the end. */
  lemma AnnounceAllSnoc(t: Tables, px: Prefixes, anns: seq<Announcement>, a: Announcement)
    ensures AnnounceAll(t, px, anns + [a]) == ApplyRoute(AnnounceAll(t, px, anns), RouteOf(a.mode, a.id, px), a.id)
  {
    assert (anns + [a])[..|anns|] == anns;
  }

  /** An error on a prefix of the names is the error of the whole run. */
  lemma {:induction false} EvalStopsAtFirstError(names: seq<string>, i: nat, modules: map<string, JsModule>,
                                                 node: string, env: map<string, string>, initName: string,
                                                 run: Runner, init: Initializer)
    requires i <= |names| && forall n :: n in names ==> n in modules
    requires EvalAll(names[..i], modules, node, env, initName, run, init).1.Some?
    ensures EvalAll(names, modules, node, env, initName, run, init)
         == EvalAll(names[..i], modules, node, env, initName, run, init)
    decreases |names|
  {
    if i < |names| {
      var prefix := names[..|names| - 1];
      assert prefix[..i] == names[..i];
      EvalStopsAtFirstError(prefix, i, modules, node, env, initName, run, init);
    } else {
      assert names[..i] == names;
    }
  }

  /** A module that leaves the init global without a function stops the
      evaluation with "<name> function not found."; one that does not
      assign it calls the init function an earlier module defined. */
  lemma InitGlobalLookup(st: EvalState, prg: Program, pos: nat, node: string, env: map<string, string>,
                         initName: string, run: Runner, init: Initializer)
    requires run(prg, pos).RunDone?
    ensures var effect := run(prg, pos).effect;
      var global := if effect.Keeps? then st.global else effect.fn;
      && (global.None? ==>
            EvalStep(st, prg, pos, node, env, initName, run, init).1 == Some(Failure(InitNotFound(initName))))
      && (effect.Keeps? && st.global.Some? ==>
            EvalStep(st, prg, pos, node, env, initName, run, init).0.global == st.global)
  {
  }

  /** An init call that throws stops the evaluation with an error whose
      text is the exception's String() form. */
  lemma InitThrowIsFailure(st: EvalState, prg: Program, pos: nat, node: string, env: map<string, string>,
                           initName: string, run: Runner, init: Initializer, f: Callable)
    requires run(prg, pos) == RunDone(Assigns(Some(f)))
    requires init(f, pos, InitContext(node, env)).InitThrew?
    ensures EvalStep(st, prg, pos, node, env, initName, run, init).1
         == Some(Failure(init(f, pos, InitContext(node, env)).text))
  {
  }

  /** Recording registrations files every announced id. */
  lemma {:induction false} RegisteredFiled(st: EvalState, regs: seq<Registration>)
    requires AnnouncedHaveCallbacks(st)
    ensures AnnouncedHaveCallbacks(Registered(st, regs))
    decreases |regs|
  {
    if regs != [] {
      var init := regs[..|regs| - 1];
      var last := regs[|regs| - 1];
      RegisteredFiled(st, init);
      var mid := Registered(st, init);
      var fin := Registered(st, regs);
      assert fin.anns == mid.anns + [Announcement(last.mode, last.id)];
      forall i | 0 <= i < |fin.anns| ensures Filed(fin.callbacks, fin.anns[i]) {
        if i < |mid.anns| {
          assert fin.anns[i] == mid.anns[i];
          FiledKept(mid.callbacks, last, mid.anns[i]);
        }
      }
    }
  }

  /** Recording a registration keeps every earlier filing. */
  lemma FiledKept(cb: JsCallbacks, reg: Registration, a: Announcement)
    requires Filed(cb, a)
    ensures Filed(Record(cb, reg), a) && Filed(Record(cb, reg), Announcement(reg.mode, reg.id))
  {
  }

  /** Every callback the evaluation announced is in the callbacks it
      returns, under the announced id: the registration tables never name
      an RPC, Before or After function the instances do not have. */
  lemma {:induction false} EvalAnnouncedHaveCallbacks(names: seq<string>, modules: map<string, JsModule>,
                                                      node: string, env: map<string, string>, initName: string,
                                                      run: Runner, init: Initializer)
    requires forall n :: n in names ==> n in modules
    ensures AnnouncedHaveCallbacks(EvalAll(names, modules, node, env, initName, run, init).0)
    decreases |names|
  {
    if names != [] {
      var prefix := names[..|names| - 1];
      EvalAnnouncedHaveCallbacks(prefix, modules, node, env, initName, run, init);
      var prev := EvalAll(prefix, modules, node, env, initName, run, init);
      if prev.1.None? {
        var prg := modules[names[|names| - 1]].program;
        var pos := |names| - 1;
        match run(prg, pos) {
          case RunFailed(_) =>
          case RunDone(effect) =>
            var global := if effect.Keeps? then prev.0.global else effect.fn;
            var st1 := prev.0.(global := global);
            if global.Some? {
              RegisteredFiled(st1, init(global.value, pos, InitContext(node, env)).regs);
            }
        }
      }
    }
  }
}

# Nakama JavaScript runtime bridge, modelled in Dafny

Nakama lets server operators extend the game server with JavaScript
modules. The bridge behind that feature works in three steps:

- **Start-up.** `NewRuntimeProviderJS` discovers the `.js` files among the
  configured paths. It compiles them into a module cache whose names
  stay sorted. It then runs every module once, in name order, and calls
  the module's `InitModule` function. Each callback that `InitModule`
  registers is announced to a closure. The closure files the callback
  under its mode and id in one of three places: the RPC table, the
  realtime Before/After tables, or a typed Before/After slot for a known
  API request.
- **The pool.** A pool of engine instances serves the calls.
  `RuntimeProviderJS.Get` takes an idle instance, builds a new one while
  the allocation counter is below `MaxCount`, or waits. `Put` hands an
  instance back without blocking.
- **Calls.** The hooks (`Rpc`, `BeforeRt`, `AfterRt`, `BeforeReq`,
  `AfterReq`) take an instance and look up the script function. They
  convert the message to a map and call the function through
  `RuntimeJS.InvokeFunction`. That call hands the script a context object
  built by `NewRuntimeJsContext`, with one key per non-empty
  per-call parameter. The hooks then convert the script's answer back.

The project has one Dafny module per concern:

| module | file | what it holds |
|---|---|---|
| `Common` | common.dfy | status codes, execution modes, script values, errors, ASCII lower-casing, prefix trimming |
| `Paths` | paths.dfy | `filepath.Ext` and `filepath.Base` for slash-separated paths |
| `StringOrder` | string_order.dfy | the byte-wise order of `sort.Strings`, and sorting by insertion |
| `JsContext` | js_context.dfy | the context keys, and the context object built one `Set` at a time |
| `Callbacks` | callbacks.dfy | the three callback tables, `GetCallback`, the script error values |
| `ModuleCache` | module_cache.dfy | `RuntimeJSModuleCache` as a class, and `cacheJavascriptModules` |
| `Invocation` | invocation.dfy | `InvokeFunction`: the argument layout, and the classification of the engine's report |
| `Pool` | pool.dfy | one `Get` or `Put` step on the pool state, and the pool invariant |
| `Registry` | registry.dfy | the announce closure's routing into tables |
| `Eval` | eval.dfy | `evalRuntimeModules`: run, look up `InitModule`, call it, record and announce its registrations |
| `Hooks` | hooks.dfy | the five hooks as functions of the pool state and the engine |
| `Provider` | provider.dfy | `RuntimeProviderJS` as a class, start-up, warm-up, `CheckRuntimeProviderJavascript` |

### How the model is built

- **Imperative code stays imperative.** The source updates the module
  cache, the registration tables and the provider's pool in place. Each
  of these is a class whose methods are proved against a pure function
  of the old state. Examples: `ModuleCacheObj.Add` against
  `ModuleCache.Added`, `Registrations.Announce` against
  `Registry.ApplyRoute`, and `RuntimeProviderJs.Get` against
  `Pool.GetStep`. The loops of the source are `for` or `while` loops
  with invariants:
  - `cacheJavascriptModules`: each path in turn;
  - `evalRuntimeModules`: each module name;
  - `InvokeFunction`: each payload;
  - the warm-up: `MinCount` sends.
- **What the model takes as parameters.**
  - The JavaScript engine is `Engine` (a call's outcome), `Runner` (what
    running a program leaves in the global `InitModule`) and
    `Initializer` (what `InitModule` registers or throws).
  - File reading is `read`, and `goja.Compile` is `compile`.
  - The jsonpb and JSON codecs are `Codec`.
  - The two request prefixes (`RTAPI_PREFIX`, `API_PREFIX`) are `Prefixes`.
  - The `InitModule` name is `initName`.
- **Go's `select`.** When `ctx.Done()` and an idle instance are both
  ready, Go picks one at random. The model leaves that choice to
  `Sched.cancelWins`. A `Get` that would block returns `MustWait`, and
  the hook then answers nothing (`reply == None`).
- **The uint32 counter.** `currentCount` is a `uint32` incremented with
  `atomic.Uint32.Inc`. `Pool.Inc32` wraps it at 2^32.

### The request a Before hook rewrites

`BeforeReq` unmarshals the script's result into the caller's own message
and returns that same message (`server/runtime_javascript.go:319-324`).
`Provider.RuntimeProviderJs.BeforeReq` therefore modifies the message it
was given.

## Model

| member | source | states |
|---|---|---|
| Common.LowerLength | server/runtime_javascript.go:1367 | lower-casing maps each character on its own and keeps the length |
| Common.TrimPrefix | server/runtime_javascript.go:504-505 | the prefix followed by the result is the id when the id has the prefix; otherwise the id is unchanged |
| Paths.Base | server/runtime_javascript.go:1378 | the base name is never empty |
| Paths.ExtShape | server/runtime_javascript.go:1367 | an extension is empty, or a dot followed by no dot and no separator; it is a suffix of the path |
| Paths.LastElementShape | server/runtime_javascript.go:1378 | the last element holds no separator and is a suffix of the path |
| Paths.StripShape | server/runtime_javascript.go:1378 | stripping leaves a prefix of the path that does not end in a separator |
| Paths.ExtWithinLastElement | server/runtime_javascript.go:1367-1378 | a non-empty extension lies inside the last path element |
| Paths.JsModuleBaseName | server/runtime_javascript.go:1367-1378 | a path that passes the `.js` test gives a module name with no separator that ends in a case-folded `.js` |
| StringOrder.LeReflexive | server/runtime_javascript.go:133 | the order `sort.Strings` uses is reflexive |
| StringOrder.LeTotal | server/runtime_javascript.go:133 | the order is total |
| StringOrder.LeAntisymmetric | server/runtime_javascript.go:133 | the order is antisymmetric |
| StringOrder.LeTransitive | server/runtime_javascript.go:133 | the order is transitive |
| StringOrder.Insert | server/runtime_javascript.go:133 | insertion adds one occurrence of the name, keeps the other elements, and keeps a sorted sequence sorted |
| StringOrder.InsertBehindHead | server/runtime_javascript.go:133 | the head of a sorted sequence followed by a sorted insertion into its tail is sorted |
| StringOrder.SortStrings | server/runtime_javascript.go:133 | the result is sorted and is a permutation of the input |
| StringOrder.FirstIsLeast | server/runtime_javascript.go:133 | the first element of a sorted sequence is below each of its elements |
| StringOrder.SortedUnique | server/runtime_javascript.go:133 | two sorted permutations of the same names are equal, so the order of the cache names does not depend on the sorting algorithm |
| StringOrder.SortAppend | server/runtime_javascript.go:129-133 | sorting after each append gives the sort of all names appended so far |
| JsContext.NewRuntimeJsContext | server/runtime_javascript_context.go:39-70 | the object built by the `Set` calls is the reference context object for the node, env, mode and parameters |
| JsContext.StageEnd | server/runtime_javascript_context.go:44-69 | after the eighth conditional `Set` the object is the reference context object |
| JsContext.ContextFields | server/runtime_javascript_context.go:39-70 | node, env and mode are always present; each optional key is present exactly when its parameter is non-nil or non-empty, and then carries that value |
| JsContext.NoMatchKeys | server/runtime_javascript_context.go:21-37 | no match-only key ever appears in an invocation context |
| JsContext.NewRuntimeJsInitContext | server/runtime_javascript_context.go:72-78 | the init context holds exactly the node and env keys, with their values |
| Callbacks.GetCallback | server/runtime_javascript.go:47-66 | a found function comes from the mode's table under that key |
| Callbacks.GetCallbackOwnTable | server/runtime_javascript.go:47-66 | RPC, Before and After each find exactly the keys of their own table; every other mode finds nothing |
| Callbacks.GetCallbackReadsOwnTable | server/runtime_javascript.go:47-66 | the lookup reads only the table of its own mode |
| ModuleCache.AddedContents | server/runtime_javascript.go:128-134 | Add keeps the names sorted and adds one occurrence of the new name; that name maps to the new module, and the other modules are unchanged |
| ModuleCache.ModuleCacheObj.constructor | server/runtime_javascript.go:1361-1364 | a new cache has no names and no modules |
| ModuleCache.ModuleCacheObj.Add | server/runtime_javascript.go:128-134 | the names become the sorted old names plus the new one, and the module is filed under its name |
| ModuleCache.StepContents | server/runtime_javascript.go:1366-1390 | a path is skipped exactly when it does not end in `.js`; otherwise a module named by its base name is made, or a read or compile error is reported |
| ModuleCache.CacheJavascriptModules | server/runtime_javascript.go:1360-1393 | the cache is the reference load of the paths in order, or the first read or compile error and no cache |
| ModuleCache.LoadStopsAtFirstError | server/runtime_javascript.go:1373-1383 | a failure on a prefix of the paths is the failure of the whole load |
| ModuleCache.LoadErrorIsFirstFailure | server/runtime_javascript.go:1366-1390 | a failed load fails at a `.js` path that could not be read or compiled, and every path before it loaded |
| ModuleCache.LoadPrefixStep | server/runtime_javascript.go:1366-1390 | loading one more path extends the load of the paths before it by that path's step |
| ModuleCache.LoadLast | server/runtime_javascript.go:1366-1390 | one more path adds its outcome on top of the outcome of the paths before it |
| ModuleCache.LoadSucceedsIff | server/runtime_javascript.go:1366-1390 | a load succeeds exactly when every `.js` path reads and compiles |
| ModuleCache.LoadedNames | server/runtime_javascript.go:1366-1390 | a successful load lists the base names of the `.js` paths in ascending order |
| ModuleCache.LoadedKeys | server/runtime_javascript.go:1366-1390 | a successful load holds a module under exactly the base names of the `.js` paths |
| ModuleCache.LoadedModules | server/runtime_javascript.go:1378-1389 | each module is filed under its own name, comes from a `.js` path, and that path's base name is its name |
| Invocation.InvokeFunction | server/runtime_javascript.go:395-419 | the call gets the context, the logger, the host API and the payloads in order; the engine's report is classified into value, error and code |
| Invocation.PayloadArgsLayout | server/runtime_javascript.go:400-402 | each payload becomes one argument, in order |
| Invocation.ArgumentLayout | server/runtime_javascript.go:396-402 | the arguments are the context, the logger, the host API and then the payloads |
| Invocation.ExceptionOutcome | server/runtime_javascript.go:405-410 | a thrown exception gives an "exception" error carrying the stack trace and its text, with code Internal and no value |
| Invocation.RuntimeErrorOutcome | server/runtime_javascript.go:411-412 | any other engine error gives an untyped error wrapping its text, with no stack trace, code Internal and no value |
| Invocation.ReturnOutcome | server/runtime_javascript.go:414-418 | a return gives code OK and no error; the value is dropped exactly when it is nil, undefined or null |
| Invocation.ErrorIffInternal | server/runtime_javascript.go:404-418 | error and Internal go together, success and OK go together, and an error never comes with a value |
| Pool.Inc32 | server/runtime_javascript.go:434 | the increment adds one below 2^32 and wraps to 0 at 2^32 |
| Pool.Select | server/runtime_javascript.go:422-427 | the select finds nothing ready exactly when the context is live and the queue is empty |
| Pool.GetCancelled | server/runtime_javascript.go:422-425 | a cancelled context ends Get with the context's error unless an idle instance won the race; nothing is built and nothing changes |
| Pool.GetPrefersIdle | server/runtime_javascript.go:426-427 | an idle instance is handed out first: the head of the queue, with the counters untouched |
| Pool.GetFreshIff | server/runtime_javascript.go:428-441 | a new instance is built exactly when nothing was ready and the counter was below MaxCount before and after the increment; the counter then grows by one |
| Pool.GetWaitsIff | server/runtime_javascript.go:444-451 | Get waits exactly when nothing is ready and the counter has reached MaxCount, and then changes nothing |
| Pool.RecheckPasses | server/runtime_javascript.go:430-435 | below MaxCount the increment cannot wrap, so the recheck passes |
| Pool.GetCounterMonotone | server/runtime_javascript.go:428-441 | Get leaves the counter as it was or raises it by one |
| Pool.PutEffect | server/runtime_javascript.go:454-463 | Put appends exactly when the queue has room, drops the instance otherwise, and leaves the counters alone |
| Pool.GetPreservesValid | server/runtime_javascript.go:421-452 | Get keeps the counter at most MaxCount, counts every instance built, and keeps the queue within capacity |
| Pool.PutPreservesValid | server/runtime_javascript.go:454-463 | Put keeps the same invariant |
| Pool.NeverOverAllocates | server/runtime_javascript.go:421-463 | no run of Gets and Puts builds more than MaxCount instances |
| Registry.Registrations.constructor | server/runtime_javascript.go:487-491 | the registration tables start empty |
| Registry.Registrations.Announce | server/runtime_javascript.go:493-1299 | the closure files the id along the route its mode, the prefixes and the short id decide |
| Registry.RpcAlwaysRegisters | server/runtime_javascript.go:495-498 | every RPC id is filed under itself, and only the RPC table changes |
| Registry.BeforeRtIff | server/runtime_javascript.go:499-503 | a Before or After id lands in the realtime table exactly when it starts with the lower-cased realtime prefix |
| Registry.TypedSlotIff | server/runtime_javascript.go:504-507 | a typed slot is filled exactly for an id that lacks the realtime prefix, has the API prefix, and continues with a known short id |
| Registry.DroppedIff | server/runtime_javascript.go:493-1299 | an announcement is dropped exactly when its mode has no table, or its id has neither prefix, or an unknown short id |
| Registry.AnnounceIdempotent | server/runtime_javascript.go:493-1299 | announcing the same callback twice is the same as announcing it once |
| Registry.RpcRouteIff | server/runtime_javascript.go:495-498 | only RPC mode reaches the RPC table |
| Registry.RpcTableStep | server/runtime_javascript.go:495-498 | an announcement changes the RPC table only along the RPC route |
| Registry.ApplyKeepsSlotsKnown | server/runtime_javascript.go:504-507 | filing keeps the typed slots within the known short ids |
| Registry.AnnounceAllRpc | server/runtime_javascript.go:495-498 | after any sequence of announcements, an id is in the RPC table exactly when it was before or was announced in RPC mode |
| Registry.AnnounceAllSlotsKnown | server/runtime_javascript.go:493-1299 | any sequence of announcements keeps the typed slots within the known short ids |
| Eval.EvalRuntimeModules | server/runtime_javascript.go:1395-1445 | the callbacks and the first error are those of the reference evaluation of the names in order; the tables hold the routing of every announcement |
| Eval.EvalModule | server/runtime_javascript.go:1420-1440 | one module's step is the reference step, and the tables follow its announcements |
| Eval.CallInit | server/runtime_javascript.go:1433-1440 | calling InitModule records and announces its registrations, or reports its exception text or error |
| Eval.AnnounceRegistrations | server/runtime_javascript.go:1433-1434 | announcing a batch of registrations files each of them in order |
| Eval.EvalAllSnoc | server/runtime_javascript.go:1420-1441 | one more module adds its step on top of the evaluation of those before it |
| Eval.AnnounceAllSnoc | server/runtime_javascript.go:493-1299 | one more announcement adds its route on top of the tables so far |
| Eval.EvalStopsAtFirstError | server/runtime_javascript.go:1421-1439 | once a module fails, later modules change nothing |
| Eval.InitGlobalLookup | server/runtime_javascript.go:1426-1431 | a global that is not a function gives "InitModule function not found."; a function is called with the init context |
| Eval.InitThrowIsFailure | server/runtime_javascript.go:1435-1439 | a thrown InitModule becomes a plain error carrying the exception's text |
| Eval.RegisteredFiled | server/runtime_javascript.go:1433-1434 | registering keeps every announced callback filed in the callback tables |
| Eval.LastRegistrationWins | server/runtime_javascript.go:1433-1443 | when a mode and id are registered more than once, the callbacks returned hold the function of the last registration |
| Eval.UnregisteredKept | server/runtime_javascript.go:1433-1443 | a mode and id that no registration names keep the function they had before the init call |
| Eval.FiledKept | server/runtime_javascript.go:1433-1434 | recording a registration keeps earlier callbacks filed and files the new one |
| Eval.EvalAnnouncedHaveCallbacks | server/runtime_javascript.go:1395-1445 | every callback announced during evaluation is in the returned callback tables |
| Hooks.ToMapOfMessage | server/runtime_javascript.go:276-298 | a nil request gives a nil map, and a value that is not a message cannot be converted |
| Hooks.RpcReplyCases | server/runtime_javascript.go:166-177 | a script error is passed on with Internal; a nil return panics; a string is the payload with OK; any other value gives the fixed invalid-return error with Internal |
| Hooks.RpcPaths | server/runtime_javascript.go:156-178 | a cancelled Get gives the context error with Internal; a missing function gives NotFound and returns the instance; an invoked instance is never returned |
| Hooks.RpcFixedKeepsPoolAvailable | server/runtime_javascript.go:156-178 | the corrected Rpc answers on a valid pool that can serve, never panics, and leaves the pool valid and able to serve the next call |
| Hooks.RpcFixedNeverPanics | server/runtime_javascript.go:170-177 | the corrected Rpc never panics |
| Hooks.RpcNilReturnPanics | server/runtime_javascript.go:170 | Rpc as written panics on a nil return, where the corrected one answers an empty payload with OK |
| Hooks.RpcLeakExhaustsPool | server/runtime_javascript.go:166-177 | on a pool of one, a successful Rpc as written leaves the next Get waiting; after the corrected Rpc the next Get takes the instance from the queue |
| Hooks.BeforeRtResultCases | server/runtime_javascript.go:204-227 | the envelope comes back exactly when the call returned a value that encoded and unmarshalled over it; no value drops the message; an error is passed on |
| Hooks.BeforeRtReleases | server/runtime_javascript.go:180-228 | every instance taken is returned; a missing function or envelope conversion gives the fixed errors; a cancelled Get gives the context error |
| Hooks.AfterRtIgnoresResult | server/runtime_javascript.go:254-262 | AfterRt reports only the script's error, never its value, and returns every instance it takes |
| Hooks.BeforeReqResultCases | server/runtime_javascript.go:300-324 | the request comes back exactly when the call returned a value, there was a map to override, and the value unmarshalled over the request; a nil result or nil map gives OK with nothing; an error is passed on with its code |
| Hooks.BeforeReqCodes | server/runtime_javascript.go:265-325 | error and OK exclude each other on every path, a returned request comes without an error, and a nil request is never written |
| Hooks.BeforeReqReleases | server/runtime_javascript.go:265-325 | every instance taken is returned; a missing function gives NotFound, and a failed conversion gives Internal |
| Hooks.TypedBeforeTransparent | server/runtime_javascript.go:507-535 | the typed Before wrappers pass on exactly what BeforeReq answers |
| Hooks.AfterReqIgnoresResult | server/runtime_javascript.go:384-392 | AfterReq reports only the script's error, and returns every instance it takes |
| Hooks.TypedHooksHaveNoSessionId | server/runtime_javascript.go:300 | the typed request hooks never put a session id in the context |
| Provider.ProtoMessage.constructor | server/runtime_javascript.go:180 | a message holds the content it was made with |
| Provider.Builds | server/runtime_javascript.go:1339-1341 | the warm-up builds one instance per send |
| Provider.WarmUpFills | server/runtime_javascript.go:1336-1343 | when the queue has room, the warm-up appends the built instances in order and counts them |
| Provider.WarmUpBlocks | server/runtime_javascript.go:1339-1341 | when the sends exceed the queue's capacity, the warm-up blocks |
| Provider.WarmUpStuck | server/runtime_javascript.go:1339-1341 | once the queue is full, any longer warm-up blocks |
| Provider.WarmedUpKeepsMax | server/runtime_javascript.go:1339-1341 | the warm-up leaves MaxCount and the counter alone |
| Provider.RuntimeProviderJs.constructor | server/runtime_javascript.go:482-484 | the pool starts empty, with capacity MaxCount and the counter at MinCount |
| Provider.RuntimeProviderJs.Get | server/runtime_javascript.go:421-452 | the instance and the new pool are one Get step on the old pool |
| Provider.RuntimeProviderJs.Put | server/runtime_javascript.go:454-463 | the new pool is one Put step on the old pool |
| Provider.RuntimeProviderJs.WarmUp | server/runtime_javascript.go:1336-1343 | the warm-up blocks exactly when the reference warm-up does; otherwise the new pool is the reference result |
| Provider.RuntimeProviderJs.Rpc | server/runtime_javascript.go:156-178 | the reply and the new pool are Rpc's reference outcome |
| Provider.RuntimeProviderJs.BeforeRt | server/runtime_javascript.go:180-228 | the reply and the new pool are BeforeRt's reference outcome; the envelope holds what the unmarshal wrote, or its old content |
| Provider.RuntimeProviderJs.AfterRt | server/runtime_javascript.go:230-263 | the reply and the new pool are AfterRt's reference outcome |
| Provider.RuntimeProviderJs.BeforeReq | server/runtime_javascript.go:265-325 | the reply and the new pool are BeforeReq's reference outcome; the caller's message holds what the unmarshal wrote, or its old content |
| Provider.RuntimeProviderJs.AfterReq | server/runtime_javascript.go:327-393 | the reply and the new pool are AfterReq's reference outcome |
| Provider.LoadedFiled | server/runtime_javascript.go:1385-1389 | every name of a successful load has its module |
| Provider.NewRuntimeProviderJs | server/runtime_javascript.go:465-1349 | start-up is the reference start-up; on success a fresh provider holds the evaluated callbacks and the warmed pool |
| Provider.StartupPool | server/runtime_javascript.go:1336-1343 | with MinCount at most MaxCount, the warm-up never blocks and leaves a valid pool; above MaxCount, with modules present, it blocks; above MaxCount without modules, the pool stays the initial one, whose counter exceeds MaxCount, so it is not valid (no Get builds from it, by `Pool.GetFreshIff`) |
| Provider.RegisteredRpcHasCallback | server/runtime_javascript.go:493-498 | every id in the RPC table has its function in every instance newFn builds, so a registered RPC never answers NotFound |
| Provider.CheckRuntimeProviderJavascript | server/runtime_javascript.go:1351-1358 | as written: a failed load reports its error, and every successful load panics |
| Provider.CheckFixedAgreesWithStartup | server/runtime_javascript.go:1351-1358 | the corrected check never panics, fails with the load's error where start-up panics, and with the evaluation's error where start-up returns it |
| Provider.CheckPanicsOnEmptyRuntime | server/runtime_javascript.go:1356 | with no paths at all, the corrected check reports no error where the check as written panics |

## Left out

- The JavaScript engine (goja) is not modelled. Running a program, calling
  a function, exporting a value and the host-API and logger objects are
  parameters of the model.
- `runtime_javascript_init.go`, which holds the `InitModule` initializer
  and its registration functions, is not part of this model. Its effect
  is the `Initializer` parameter: a list of registrations or a failure.
- The Nakama host-API module and the JavaScript logger are not part of
  this model. They appear only as the `NkArg` and `LoggerArg` arguments.
- jsonpb and `encoding/json` are the `Codec` parameter. How messages map
  to JSON and back is not modelled.
- File-system access is the `read` parameter.
- Logging is left out. It changes no result.
- Concurrency is left out. Each `Get` and `Put` is one atomic step. A
  blocked `Get` or warm-up send is modelled as no answer, and waking up
  later is not modelled.
- Pool gauges, metrics and the `TODO Gauge metrics` site are left out.
- `goja.New` and `runtime.New` failures in `newFn` end the process with
  `logger.Fatal`. The model treats newFn as total.
- The same runtime failures at the start of `evalRuntimeModules` are left
  out as well.
- Common.Lower: folds ASCII letters only. `strings.ToLower` also folds
  other Unicode letters. That difference does not matter for the `.js`
  and prefix tests.
- The config values `MinCount` and `MaxCount` are Go `int`s converted to
  `uint32`. The model takes them as `Uint32` and does not model the
  truncation of larger values.
- Typed nil pointers passed as `interface{}` to `BeforeReq` and
  `AfterReq` are modelled as plain nil.
- The ~65 typed Before and After wrappers are modelled generically:
  - `Hooks.TypedBefore` covers the Before wrappers that carry a request;
  - `Hooks.GetAccountBefore` covers the Before wrapper without one;
  - `Hooks.AfterArgs` covers the three After argument shapes, kept per
    short id in `Registry.AfterShapeOf`.
  Each wrapper's concrete Go message type is not modelled.
- The source creates the provider struct first and sets `newFn` after the
  evaluation. The model creates the provider after the evaluation. No
  caller can observe the difference, because the provider is not used
  before then.
- The matchmaker, tournament and leaderboard results of
  `NewRuntimeProviderJS` are always nil in this source and are left out.
- Eval.Record: assumes that the initializer files each callback under the
  same mode and id it announces, since one `Registration` does both. The
  filing code lives in `runtime_javascript_init.go`, which is not part of this
  model. `Eval.EvalAnnouncedHaveCallbacks`, `Eval.RegisteredFiled` and
  `Provider.RegisteredRpcHasCallback` depend on this assumption.
- Eval.EvalRuntimeModules: its contract does not state the content of
  the callbacks. That content is stated separately by
  `Eval.EvalAnnouncedHaveCallbacks` and `Provider.RegisteredRpcHasCallback`.

## Findings

| source | as written | input that shows it | evidently intended | confidence | as-written member | corrected member |
|---|---|---|---|---|---|---|
| server/runtime_javascript.go:166-177 | after `InvokeFunction`, Rpc never calls `rp.Put(r)` on any path, so each completed call keeps its instance out of the pool | a pool with MaxCount 1 and a registered RPC returning a string: after one call, the next `Get` waits for ever | return the instance to the pool once the function has run, as the other four hooks do | not executed | Hooks.RpcLeakExhaustsPool | Hooks.RpcFixedKeepsPoolAvailable |
| server/runtime_javascript.go:170 | `retValue.Export()` is called on the nil value `InvokeFunction` returns for nil, undefined or null, which panics | an RPC function that returns nothing | answer an empty payload with OK, or the invalid-return error | not executed | Hooks.RpcNilReturnPanics | Hooks.RpcFixedNeverPanics |
| server/runtime_javascript.go:1351-1358 | `CheckRuntimeProviderJavascript` passes a nil provider to `evalRuntimeModules`, which reads `rp.logger` first (line 1397) | any set of paths that loads, for example the empty set | report the evaluation's error, as start-up does | not executed | Provider.CheckRuntimeProviderJavascript | Provider.CheckFixedAgreesWithStartup |

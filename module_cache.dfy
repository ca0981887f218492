/** The module cache (RuntimeJSModuleCache) and the all-or-nothing load of
    the `.js` files under the runtime path (cacheJavascriptModules). */
module ModuleCache {
  import opened Common
  import opened Paths
  import opened StringOrder

  /** A compiled program (goja.Program), known by its identity. */
  datatype Program = Program(id: nat)

  /** RuntimeJSModule. */
  datatype JsModule = JsModule(name: string, path: string, program: Program)

  /** Why a load stops: the file could not be read, or did not compile. */
  datatype LoadError = ReadFailed(path: string) | CompileFailed(name: string)

  /** The contents of a cache: the module names in ascending order (one
      entry per Add, so duplicates are possible) and the modules by name. */
  datatype CacheState = CacheState(names: seq<string>, modules: map<string, JsModule>)

  const EmptyCache := CacheState([], map[])

  /** The contents after Add(m). */
  function Added(c: CacheState, m: JsModule): CacheState
  {
    CacheState(SortStrings(c.names + [m.name]), c.modules[m.name := m])
  }

  /** Add keeps the names sorted, adds one occurrence of the new name,
      files the module under it and keeps the other modules. */
  lemma AddedContents(c: CacheState, m: JsModule)
    ensures var r := Added(c, m);
      && Sorted(r.names) && |r.names| == |c.names| + 1
      && multiset(r.names) == multiset(c.names) + multiset{m.name}
      && m.name in r.modules && r.modules[m.name] == m
      && (forall n :: n in c.modules && n != m.name ==> n in r.modules && r.modules[n] == c.modules[n])
      && r.modules.Keys == c.modules.Keys + {m.name}
  {
  }

  /** RuntimeJSModuleCache: `Names` is kept sorted by every Add. */
  class ModuleCacheObj {
    var names: seq<string>
    var modules: map<string, JsModule>

    constructor ()
      ensures names == [] && modules == map[]
    {
      names := [];
      modules := map[];
    }

    function State(): CacheState
      reads this
    {
      CacheState(names, modules)
    }

    /** Add: append the name, record the module, sort the names. */
    method Add(m: JsModule)
      modifies this
      ensures names == SortStrings(old(names) + [m.name])
      ensures modules == old(modules)[m.name := m]
      ensures State() == Added(old(State()), m)
    {
      names := names + [m.name];
      modules := modules[m.name := m];
      names := SortStrings(names);
    }
  }

  /** What cacheJavascriptModules does with one path: skip it unless its
      lower-cased extension is `.js`, else read it and compile it under its
      base name. `read` stands for ioutil.ReadFile and `compile` for
      goja.Compile; `None` is a failure. */
  function Step(path: string, read: string -> Option<string>,
                compile: (string, string) -> Option<Program>): Result<Option<JsModule>, LoadError>
  {
    if !IsJsModule(path) then Ok(None)
    else
      match read(path)
      case None => Err(ReadFailed(path))
      case Some(content) =>
        var name := Base(path);
        match compile(name, content)
        case None => Err(CompileFailed(name))
        case Some(prg) => Ok(Some(JsModule(name, path, prg)))
  }

  /** Only `.js` paths are read, and each gives a module named by its base
      name; a skipped path is not a failure. */
  lemma StepContents(path: string, read: string -> Option<string>,
                     compile: (string, string) -> Option<Program>)
    ensures !IsJsModule(path) <==> Step(path, read, compile) == Ok(None)
    ensures var r := Step(path, read, compile);
      r.Ok? && r.value.Some? ==> r.value.value == JsModule(Base(path), path, r.value.value.program)
  {
  }

  /** The outcome of loading `paths` in order: the first failure, or the
      cache every accepted path was added to. */
  function Load(paths: seq<string>, read: string -> Option<string>,
                compile: (string, string) -> Option<Program>): Result<CacheState, LoadError>
    decreases |paths|
  {
    if paths == [] then Ok(EmptyCache)
    else
      match Load(paths[..|paths| - 1], read, compile)
      case Err(e) => Err(e)
      case Ok(c) =>
        match Step(paths[|paths| - 1], read, compile)
        case Err(e) => Err(e)
        case Ok(None) => Ok(c)
        case Ok(Some(m)) => Ok(Added(c, m))
  }

  /** What one more path makes of a load so far. */
  function Extend(prev: Result<CacheState, LoadError>, step: Result<Option<JsModule>, LoadError>): Result<CacheState, LoadError>
  {
    match prev
    case Err(e) => Err(e)
    case Ok(c) =>
      match step
      case Err(e) => Err(e)
      case Ok(None) => Ok(c)
      case Ok(Some(m)) => Ok(Added(c, m))
  }

  /** Loading one more path of a sequence extends the load of the paths
      before it by that path's step. */
  lemma LoadPrefixStep(paths: seq<string>, i: nat, read: string -> Option<string>,
                       compile: (string, string) -> Option<Program>)
    requires i < |paths|
    ensures Load(paths[..i + 1], read, compile) == Extend(Load(paths[..i], read, compile), Step(paths[i], read, compile))
  {
    assert paths[..i + 1][..i] == paths[..i];
  }

  /** The base names of the `.js` paths, in path order. */
  function JsNames(paths: seq<string>): seq<string>
    decreases |paths|
  {
    if paths == [] then []
    else
      var last := paths[|paths| - 1];
      JsNames(paths[..|paths| - 1]) + (if IsJsModule(last) then [Base(last)] else [])
  }

  /** cacheJavascriptModules: a fresh cache holding every `.js` module, or
      the first error and no cache at all. */
  method CacheJavascriptModules(paths: seq<string>, read: string -> Option<string>,
                                compile: (string, string) -> Option<Program>)
    returns (cache: ModuleCacheObj?, err: Option<LoadError>)
    ensures Load(paths, read, compile).Ok? ==>
      err == None && cache != null && fresh(cache) && cache.State() == Load(paths, read, compile).value
    ensures Load(paths, read, compile).Err? ==>
      cache == null && err == Some(Load(paths, read, compile).error)
  {
    var c := new ModuleCacheObj();
    for i := 0 to |paths|
      invariant fresh(c)
      invariant Load(paths[..i], read, compile) == Ok(c.State())
    {
      var path := paths[i];
      LoadPrefixStep(paths, i, read, compile);
      if Lower(Ext(path)) != ".js" {
        continue;
      }
      var content := read(path);
      if content.None? {
        LoadStopsAtFirstError(paths, i + 1, read, compile);
        return null, Some(ReadFailed(path));
      }
      var name := Base(path);
      var prg := compile(name, content.value);
      if prg.None? {
        LoadStopsAtFirstError(paths, i + 1, read, compile);
        return null, Some(CompileFailed(name));
      }
      c.Add(JsModule(name, path, prg.value));
    }
    assert paths[..|paths|] == paths;
    return c, None;
  }

  /** A failure on a prefix is the failure of the whole load. */
  lemma {:induction false} LoadStopsAtFirstError(paths: seq<string>, i: nat,
                                                 read: string -> Option<string>,
                                                 compile: (string, string) -> Option<Program>)
    requires i <= |paths| && Load(paths[..i], read, compile).Err?
    ensures Load(paths, read, compile) == Load(paths[..i], read, compile)
  {
    if i < |paths| {
      var prefix := paths[..|paths| - 1];
      assert prefix[..i] == paths[..i];
      LoadStopsAtFirstError(prefix, i, read, compile);
    } else {
      assert paths[..i] == paths;
    }
  }

  /** A load fails exactly at the first `.js` path that cannot be read or
      compiled: everything before it loads, and the error is that path's. */
  lemma {:induction false} LoadErrorIsFirstFailure(paths: seq<string>, read: string -> Option<string>,
                                                   compile: (string, string) -> Option<Program>)
    requires Load(paths, read, compile).Err?
    ensures exists i :: 0 <= i < |paths| && Load(paths[..i], read, compile).Ok?
                   && IsJsModule(paths[i])
                   && Step(paths[i], read, compile) == Err(Load(paths, read, compile).error)
  {
    var prefix := paths[..|paths| - 1];
    var i := |paths| - 1;
    assert paths[..i] == prefix;
    if Load(prefix, read, compile).Err? {
      LoadErrorIsFirstFailure(prefix, read, compile);
      var j :| 0 <= j < |prefix| && Load(prefix[..j], read, compile).Ok? && IsJsModule(prefix[j])
             && Step(prefix[j], read, compile) == Err(Load(prefix, read, compile).error);
      assert prefix[..j] == paths[..j];
    }
  }

  /** One step of Load: the last path's outcome on top of the prefix's. */
  lemma LoadLast(paths: seq<string>, read: string -> Option<string>,
                 compile: (string, string) -> Option<Program>)
    requires paths != []
    ensures var prev := Load(paths[..|paths| - 1], read, compile);
      var step := Step(paths[|paths| - 1], read, compile);
      && (Load(paths, read, compile).Ok? <==> prev.Ok? && step.Ok?)
      && (prev.Ok? && step == Ok(None) ==> Load(paths, read, compile) == prev)
      && (prev.Ok? && step.Ok? && step.value.Some? ==>
            Load(paths, read, compile) == Ok(Added(prev.value, step.value.value)))
  {
  }

  /** A load succeeds exactly when every `.js` path reads and compiles. */
  lemma {:induction false} LoadSucceedsIff(paths: seq<string>, read: string -> Option<string>,
                                           compile: (string, string) -> Option<Program>)
    ensures Load(paths, read, compile).Ok? <==>
      forall i :: 0 <= i < |paths| ==> Step(paths[i], read, compile).Ok?
  {
    if paths != [] {
      var prefix := paths[..|paths| - 1];
      LoadSucceedsIff(prefix, read, compile);
      LoadLast(paths, read, compile);
      if Load(paths, read, compile).Ok? {
        forall i | 0 <= i < |paths| ensures Step(paths[i], read, compile).Ok? {
          if i < |prefix| { assert paths[i] == prefix[i]; }
        }
      }
      if forall i :: 0 <= i < |paths| ==> Step(paths[i], read, compile).Ok? {
        forall i | 0 <= i < |prefix| ensures Step(prefix[i], read, compile).Ok? {
          assert prefix[i] == paths[i];
        }
      }
    }
  }

  /** A successful load lists the base names of the `.js` paths in
      ascending order, whatever order the paths came in. */
  lemma {:induction false} LoadedNames(paths: seq<string>, read: string -> Option<string>,
                                       compile: (string, string) -> Option<Program>)
    requires Load(paths, read, compile).Ok?
    ensures Load(paths, read, compile).value.names == SortStrings(JsNames(paths))
  {
    if paths == [] {
      assert SortStrings(JsNames(paths)) == [];
    } else {
      var prefix := paths[..|paths| - 1];
      var last := paths[|paths| - 1];
      LoadLast(paths, read, compile);
      LoadedNames(prefix, read, compile);
      StepContents(last, read, compile);
      var c := Load(prefix, read, compile).value;
      if IsJsModule(last) {
        var m := Step(last, read, compile).value.value;
        assert Load(paths, read, compile).value.names == SortStrings(c.names + [Base(last)]);
        // Sorting after each Add sorts all the names seen so far.
        SortAppend(JsNames(prefix), Base(last));
        assert JsNames(paths) == JsNames(prefix) + [Base(last)];
        assert SortStrings(c.names + [Base(last)]) == SortStrings(JsNames(paths));
      } else {
        assert JsNames(paths) == JsNames(prefix);
        assert Load(paths, read, compile) == Load(prefix, read, compile);
      }
    }
  }

  /** A successful load holds a module under exactly the base names of the
      `.js` paths. */
  lemma {:induction false} LoadedKeys(paths: seq<string>, read: string -> Option<string>,
                                      compile: (string, string) -> Option<Program>)
    requires Load(paths, read, compile).Ok?
    ensures Load(paths, read, compile).value.modules.Keys == set n | n in JsNames(paths)
  {
    if paths != [] {
      var prefix := paths[..|paths| - 1];
      var last := paths[|paths| - 1];
      LoadLast(paths, read, compile);
      LoadedKeys(prefix, read, compile);
      StepContents(last, read, compile);
      if IsJsModule(last) {
        AddedContents(Load(prefix, read, compile).value, Step(last, read, compile).value.value);
      }
    }
  }

  /** Every module of a successful load is filed under its own name and was
      read from a `.js` path whose base name that is. */
  lemma {:induction false} LoadedModules(paths: seq<string>, read: string -> Option<string>,
                                         compile: (string, string) -> Option<Program>)
    requires Load(paths, read, compile).Ok?
    ensures var modules := Load(paths, read, compile).value.modules;
      forall n :: n in modules ==>
        modules[n].name == n && IsJsModule(modules[n].path) && Base(modules[n].path) == n
  {
    if paths != [] {
      var prefix := paths[..|paths| - 1];
      var last := paths[|paths| - 1];
      LoadLast(paths, read, compile);
      LoadedModules(prefix, read, compile);
      StepContents(last, read, compile);
      if IsJsModule(last) {
        AddedContents(Load(prefix, read, compile).value, Step(last, read, compile).value.value);
      }
    }
  }
}

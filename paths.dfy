/** The two `path/filepath` helpers module discovery relies on, for the
    slash-separated paths of a Unix host. */
module Paths {
  import opened Common

  const Separator: char := '/'

  /** filepath.Ext: the suffix from the final dot of the final path
      element, or "" when that element has no dot. */
  function Ext(path: string): string
  {
    if path == [] then []
    else
      var c := path[|path| - 1];
      if c == Separator then []
      else if c == '.' then ['.']
      else
        var e := Ext(path[..|path| - 1]);
        if e == [] then [] else e + [c]
  }

  /** The characters after the last separator (the last element of a path
      that does not end in a separator). */
  function LastElement(path: string): string
  {
    if path == [] || path[|path| - 1] == Separator then []
    else LastElement(path[..|path| - 1]) + [path[|path| - 1]]
  }

  function StripTrailingSeparators(path: string): string
  {
    if path != [] && path[|path| - 1] == Separator
    then StripTrailingSeparators(path[..|path| - 1])
    else path
  }

  /** filepath.Base: the last element of the path, trailing separators
      removed; "." for the empty path and "/" for a path of separators. */
  function Base(path: string): (b: string)
    ensures b != []
  {
    if path == [] then "."
    else
      var stripped := StripTrailingSeparators(path);
      var last := LastElement(stripped);
      if last == [] then [Separator] else last
  }

  /** The test cacheJavascriptModules applies to every path. */
  predicate IsJsModule(path: string)
  {
    Lower(Ext(path)) == ".js"
  }

  /** An extension is empty or a dot followed by neither a dot nor a
      separator, and it is a suffix of the path. */
  lemma {:induction false} ExtShape(path: string)
    ensures var e := Ext(path);
      && (e == [] || (e[0] == '.' && Separator !in e && '.' !in e[1..]))
      && |e| <= |path| && e == path[|path| - |e|..]
  {
    if path != [] && path[|path| - 1] != Separator && path[|path| - 1] != '.' {
      ExtShape(path[..|path| - 1]);
    }
  }

  /** The last element holds no separator and is a suffix of the path. */
  lemma {:induction false} LastElementShape(path: string)
    ensures var r := LastElement(path);
      Separator !in r && |r| <= |path| && r == path[|path| - |r|..]
  {
    if path != [] && path[|path| - 1] != Separator {
      LastElementShape(path[..|path| - 1]);
    }
  }

  /** Stripping leaves a prefix of the path that does not end in a separator. */
  lemma {:induction false} StripShape(path: string)
    ensures var r := StripTrailingSeparators(path);
      (r == [] || r[|r| - 1] != Separator) && |r| <= |path| && r == path[..|r|]
  {
    if path != [] && path[|path| - 1] == Separator {
      StripShape(path[..|path| - 1]);
    }
  }

  /** A non-empty extension lies inside the last element. */
  lemma {:induction false} ExtWithinLastElement(path: string)
    requires Ext(path) != []
    ensures |Ext(path)| <= |LastElement(path)|
  {
    var c := path[|path| - 1];
    if c != '.' {
      ExtWithinLastElement(path[..|path| - 1]);
    }
  }

  /** A path that passes the `.js` test names a module whose base name is
      that of the file, ending in the same (case-folded) `.js`. */
  lemma JsModuleBaseName(path: string)
    requires IsJsModule(path)
    ensures var b := Base(path);
      Separator !in b && |b| >= 3 && Lower(b[|b| - 3..]) == ".js"
  {
    var e := Ext(path);
    ExtShape(path);
    LowerLength(e);
    assert |e| == 3;
    assert path[|path| - 1] != Separator;
    assert StripTrailingSeparators(path) == path;
    ExtWithinLastElement(path);
    LastElementShape(path);
    var last := LastElement(path);
    assert last[|last| - 3..] == path[|path| - 3..] == e;
  }
}

/** The legacy configurable-callable wrapper (`sucrose/config/callableconf.py`):
    `enable_config` turns its field arguments into a path, and `_ConfigWrapper`
    loads the keyword arguments stored at that path in a project's configuration,
    keeps only those the target accepts, and caches them when a project is fixed at
    construction. Printing and the `__getattr__` delegation are not modelled. */
module LegacyCallableConf {
  import opened Wrappers
  import opened Text
  import opened Values
  import Utils
  import ConfTools
  import LegacyFlatProject

  /** `enable_config(*fields, sep=sep)`: one field and a separator make the path the
      pieces of that field; otherwise the fields are the path. */
  function ConfigPath(fields: seq<string>, sep: Option<char>): (path: seq<string>)
    ensures !(|fields| == 1 && sep.Some?) ==> path == fields
    ensures |fields| == 1 && sep.Some? ==>
      |path| >= 1 && Join(path, sep.value) == fields[0] && forall k :: 0 <= k < |path| ==> sep.value !in path[k]
  {
    if |fields| == 1 && sep.Some? then JoinSplit(fields[0], sep.value); Split(fields[0], sep.value) else fields
  }

  /** The target as `_get_KEYWORD_params` sees it: a plain callable's signature, or
      the signature of a class's `__init__` looked up on the class, which lists the
      receiver. */
  datatype Target = Function(sig: ConfTools.Signature) | Class(init: ConfTools.Signature)

  /** A parameter that `_get_KEYWORD_params` keeps: not positional-only, not
      `*args`, and, for a class, not named `self`. A `**kwargs` parameter is kept
      under its name. */
  predicate Keeps(isClass: bool, p: ConfTools.Param) {
    !(isClass && p.name == "self") && p.kind != ConfTools.PositionalOnly && p.kind != ConfTools.VarPositional
  }

  /** The names `_get_KEYWORD_params` returns for a parameter list, in order. */
  function BoundNames(isClass: bool, sig: ConfTools.Signature): (names: seq<string>)
    ensures |names| <= |sig|
    decreases |sig|
  {
    if sig == [] then []
    else
      var last := sig[|sig| - 1];
      BoundNames(isClass, sig[..|sig| - 1]) + if Keeps(isClass, last) then [last.name] else []
  }

  /** Every name returned comes from a parameter that is kept. */
  lemma {:induction false} BoundNamesSound(isClass: bool, sig: ConfTools.Signature, i: int)
    requires 0 <= i < |BoundNames(isClass, sig)|
    ensures exists j :: 0 <= j < |sig| && Keeps(isClass, sig[j]) && sig[j].name == BoundNames(isClass, sig)[i]
    decreases |sig|
  {
    var init := sig[..|sig| - 1];
    var last := sig[|sig| - 1];
    if i < |BoundNames(isClass, init)| {
      BoundNamesSound(isClass, init, i);
      var j :| 0 <= j < |init| && Keeps(isClass, init[j]) && init[j].name == BoundNames(isClass, init)[i];
      assert sig[j] == init[j];
    } else {
      assert Keeps(isClass, last) && BoundNames(isClass, sig)[i] == last.name;
    }
  }

  /** Every kept parameter's name is returned. */
  lemma {:induction false} BoundNamesComplete(isClass: bool, sig: ConfTools.Signature, j: int)
    requires 0 <= j < |sig| && Keeps(isClass, sig[j])
    ensures sig[j].name in BoundNames(isClass, sig)
    decreases |sig|
  {
    var init := sig[..|sig| - 1];
    if j < |sig| - 1 {
      assert init[j] == sig[j];
      BoundNamesComplete(isClass, init, j);
    }
  }

  /** `_get_KEYWORD_params(func)`. */
  method GetKeywordParams(t: Target) returns (names: seq<string>)
    ensures names == BoundNames(t.Class?, if t.Class? then t.init else t.sig)
  {
    var isClass := t.Class?;
    var sig := if isClass then t.init else t.sig;
    names := [];
    var i := 0;
    while i < |sig|
      invariant 0 <= i <= |sig|
      invariant names == BoundNames(isClass, sig[..i])
    {
      var param := sig[i];
      assert sig[..i + 1][..i] == sig[..i];
      if isClass && param.name == "self" {
      } else if param.kind == ConfTools.PositionalOnly || param.kind == ConfTools.VarPositional {
      } else {
        names := names + [param.name];
      }
      i := i + 1;
    }
    assert sig[..i] == sig;
  }

  datatype WrapError =
    | NoProject                     // RuntimeError: no project given and none started
    | ConfigNotFound(path: seq<string>) // RuntimeError: nothing at the path
    | NotADict                      // TypeError: the value at the path is not a dict

  /** The keyword arguments kept from a configuration entry. */
  function Filtered(kwargs: map<string, Value>, bound: seq<string>): (kept: map<string, Value>)
    ensures kept.Keys == kwargs.Keys * set n | n in bound
    ensures forall k :: k in kept ==> kept[k] == kwargs[k]
  {
    map k | k in kwargs && k in bound :: kwargs[k]
  }

  /** The reference outcome of `_load_config` on a configuration. */
  function LoadedKwargs(config: map<string, Value>, path: seq<string>, bound: seq<string>): (r: Result<map<string, Value>, WrapError>)
    ensures Utils.Walk(VDict(config), path).None? <==> r == Failure(ConfigNotFound(path))
    ensures (Utils.Walk(VDict(config), path).Some? && !Utils.Walk(VDict(config), path).value.VDict?) <==> r == Failure(NotADict)
    ensures r.Success? ==> r.value == Filtered(Utils.Walk(VDict(config), path).value.entries, bound)
  {
    match Utils.Walk(VDict(config), path)
    case None => Failure(ConfigNotFound(path))
    case Some(v) => if v.VDict? then Success(Filtered(v.entries, bound)) else Failure(NotADict)
  }

  /** `_load_config(self)` given the project it resolves to: the entry at the path
      in a copy of the project's configuration, with every key the target does not
      accept popped. */
  method LoadConfig(p: LegacyFlatProject.Project, path: seq<string>, bound: seq<string>) returns (r: Result<map<string, Value>, WrapError>)
    ensures r == LoadedKwargs(p.configData, path, bound)
  {
    var config := p.Config();
    assert config == p.configData;
    var found := Utils.Walk(VDict(config), path);
    if found.None? {
      return Failure(ConfigNotFound(path));
    }
    if !found.value.VDict? {
      return Failure(NotADict);
    }
    var kwargs := found.value.entries;
    var keys := kwargs.Keys;
    while keys != {}
      invariant keys <= found.value.entries.Keys
      invariant kwargs.Keys <= found.value.entries.Keys
      invariant forall k :: k in kwargs ==> kwargs[k] == found.value.entries[k]
      invariant forall k :: k in found.value.entries && k !in keys ==> (k in kwargs <==> k in bound)
      invariant forall k :: k in keys ==> k in kwargs
      decreases keys
    {
      var paramKey :| paramKey in keys;
      if paramKey !in bound {
        kwargs := kwargs - {paramKey};
      }
      keys := keys - {paramKey};
    }
    assert kwargs == Filtered(found.value.entries, bound);
    return Success(kwargs);
  }

  class ConfigWrapper {
    const target: Target
    const cpath: seq<string>
    const keywordBound: seq<string>
    const proj: Option<LegacyFlatProject.Project>
    var kwargs: Option<map<string, Value>>

    /** The cache is only ever filled for a wrapper built with a project. */
    predicate Valid()
      reads this
    {
      kwargs.Some? ==> proj.Some?
    }

    constructor (target: Target, cpath: seq<string>, keywordBound: seq<string>,
                 proj: Option<LegacyFlatProject.Project>, kwargs: Option<map<string, Value>>)
      requires kwargs.Some? ==> proj.Some?
      ensures Valid()
      ensures this.target == target && this.cpath == cpath && this.keywordBound == keywordBound
      ensures this.proj == proj && this.kwargs == kwargs
    {
      this.target := target;
      this.cpath := cpath;
      this.keywordBound := keywordBound;
      this.proj := proj;
      this.kwargs := kwargs;
    }

    /** `_ConfigWrapper(target, config_path, proj=proj)`: without a project nothing is
        loaded yet; with one, the filtered arguments are loaded now and cached, and
        a failure to load them is raised from the constructor. */
    static method New(target: Target, cpath: seq<string>, proj: Option<LegacyFlatProject.Project>)
      returns (r: Result<ConfigWrapper, WrapError>)
      ensures r.Success? ==> fresh(r.value) && r.value.Valid()
      ensures r.Success? ==> r.value.target == target && r.value.cpath == cpath && r.value.proj == proj
      ensures r.Success? ==> r.value.keywordBound == BoundNames(target.Class?, if target.Class? then target.init else target.sig)
      ensures proj.None? ==> r.Success? && r.value.kwargs.None?
      ensures proj.Some? ==> var loaded := LoadedKwargs(proj.value.configData, cpath, BoundNames(target.Class?, if target.Class? then target.init else target.sig));
        && (r.Failure? <==> loaded.Failure?)
        && (r.Failure? ==> r.error == loaded.error)
        && (r.Success? ==> r.value.kwargs == Some(loaded.value))
    {
      var bound := GetKeywordParams(target);
      if proj.None? {
        var w := new ConfigWrapper(target, cpath, bound, proj, None);
        return Success(w);
      }
      var loaded := LoadConfig(proj.value, cpath, bound);
      if loaded.Failure? {
        return Failure(loaded.error);
      }
      var w := new ConfigWrapper(target, cpath, bound, proj, Some(loaded.value));
      return Success(w);
    }

    /** `__call__(**kwds)`: the keyword arguments the target is called with. Without
        a cache they are loaded afresh from the current project, and the call-time
        ones win; with the cache, the call-time ones are written INTO the cache, so
        they are still there on later calls. */
    method Call(current: Option<LegacyFlatProject.Project>, kwds: map<string, Value>) returns (r: Result<map<string, Value>, WrapError>)
      requires Valid()
      modifies this
      ensures Valid()
      ensures old(kwargs).Some? ==> r == Success(old(kwargs).value + kwds) && kwargs == Some(old(kwargs).value + kwds)
      ensures old(kwargs).None? ==> kwargs == None
      ensures old(kwargs).None? && proj.None? && current.None? ==> r == Failure(NoProject)
      ensures old(kwargs).None? && (proj.Some? || current.Some?) ==>
        var p := if proj.Some? then proj.value else current.value;
        match LoadedKwargs(p.configData, cpath, keywordBound)
        case Failure(e) => r == Failure(e)
        case Success(loaded) => r == Success(loaded + kwds)
    {
      if kwargs.Some? {
        kwargs := Some(kwargs.value + kwds);
        return Success(kwargs.value);
      }
      var p := if proj.Some? then proj else current;
      if p.None? {
        return Failure(NoProject);
      }
      var loaded := LoadConfig(p.value, cpath, keywordBound);
      if loaded.Failure? {
        return Failure(loaded.error);
      }
      return Success(loaded.value + kwds);
    }
  }

  /** With the arguments cached, an override given to one call is still applied by
      the next call that gives none. */
  method OverrideLeaks(w: ConfigWrapper, key: string, v: Value) returns (first: Result<map<string, Value>, WrapError>,
                                                                         second: Result<map<string, Value>, WrapError>)
    requires w.Valid() && w.kwargs.Some?
    modifies w
    ensures first.Success? && second.Success?
    ensures key in first.value && first.value[key] == v
    ensures key in second.value && second.value[key] == v
  {
    first := w.Call(None, map[key := v]);
    second := w.Call(None, map[]);
    assert second.value == first.value + map[];
  }
}

/** Binding a callable's keyword parameters from a dataset
    (`src/sucrose/config/conftools.py`).

    Reflection is replaced by an explicit description of the target: a plain
    callable carries its parameter list, a class carries the parameter lists of
    the `__init__` and `__new__` it defines itself (if any). */
module ConfTools {
  import opened Wrappers
  import opened Values

  datatype ParamKind = PositionalOnly | PositionalOrKeyword | VarPositional | KeywordOnly | VarKeyword

  datatype Param = Param(name: string, kind: ParamKind, hasDefault: bool)

  /** A parameter list, in declaration order. */
  type Signature = seq<Param>

  /** Python never lets two parameters of one signature share a name. */
  predicate WellFormed(sig: Signature) {
    forall i, j :: 0 <= i < j < |sig| ==> sig[i].name != sig[j].name
  }

  datatype Target =
    | Callable(hasDict: bool, sig: Signature)
      // a class: the signatures of the `__init__`/`__new__` found in its own `__dict__`,
      // each listed with its receiver (`self`/`cls`) first
    | ClassType(ownInit: Option<Signature>, ownNew: Option<Signature>)

  datatype BindError =
    | NoDictAttribute       // TypeError: func must have __dict__ attribute
    | NoConstructor         // TypeError: target must have __init__ or __new__
    | MissingKey(name: string) // ValueError: key ... is missing in dataset

  /** The signature lines 13-25 introspect, AS WRITTEN: `inspect.signature` of the
      function `cls.__init__` (or `cls.__new__`) taken from the class, which still
      lists the receiver. */
  function TargetSignatureAsWritten(t: Target): (r: Result<Signature, BindError>)
    ensures t.Callable? && !t.hasDict <==> r == Failure(NoDictAttribute)
    ensures t.ClassType? && t.ownInit.None? && t.ownNew.None? <==> r == Failure(NoConstructor)
    ensures t.ClassType? && t.ownInit.Some? ==> r == Success(t.ownInit.value)
  {
    match t
    case Callable(hasDict, sig) => if hasDict then Success(sig) else Failure(NoDictAttribute)
    case ClassType(init, newer) =>
      if init.Some? then Success(init.value)
      else if newer.Some? then Success(newer.value)
      else Failure(NoConstructor)
  }

  /** The signature a class is called with: that of the bound constructor, without
      its receiver. This is what binding a class target needs. */
  function TargetSignature(t: Target): (r: Result<Signature, BindError>)
    ensures t.Callable? ==> r == TargetSignatureAsWritten(t)
    ensures t.ClassType? ==> (r.Success? <==> TargetSignatureAsWritten(t).Success?)
    ensures t.ClassType? && r.Success? ==> var full := TargetSignatureAsWritten(t).value;
      r.value == if full == [] then [] else full[1..]
  {
    match TargetSignatureAsWritten(t)
    case Failure(e) => Failure(e)
    case Success(sig) =>
      if t.ClassType? && sig != [] then Success(sig[1..]) else Success(sig)
  }

  /** What `_get_keyword_params` returns: the parallel name and has-default lists,
      and whether a `**kwargs` parameter is present. */
  datatype KeywordSchema = KeywordSchema(names: seq<string>, hasDefault: seq<bool>, hasVarKeyword: bool)

  /** A parameter that can be passed by keyword under its own name. */
  predicate Bindable(p: Param) {
    p.kind == PositionalOrKeyword || p.kind == KeywordOnly
  }

  /** The loop of lines 30-38 over a parameter list: the reference definition the
      method below is proved against. */
  function Schema(sig: Signature): KeywordSchema {
    if sig == [] then KeywordSchema([], [], false)
    else
      var s := Schema(sig[..|sig| - 1]);
      var p := sig[|sig| - 1];
      if p.kind == PositionalOnly || p.kind == VarPositional then s
      else if p.kind == VarKeyword then s.(hasVarKeyword := true)
      else KeywordSchema(s.names + [p.name], s.hasDefault + [p.hasDefault], s.hasVarKeyword)
  }

  lemma {:induction false} SchemaParallel(sig: Signature)
    ensures |Schema(sig).names| == |Schema(sig).hasDefault|
  {
    if sig != [] {
      SchemaParallel(sig[..|sig| - 1]);
    }
  }

  /** Each listed name, with its default flag, is a keyword-passable parameter. */
  lemma {:induction false} SchemaSound(sig: Signature, i: int)
    requires 0 <= i < |Schema(sig).names| && i < |Schema(sig).hasDefault|
    ensures exists k ::
              0 <= k < |sig| && Bindable(sig[k]) &&
              sig[k].name == Schema(sig).names[i] && sig[k].hasDefault == Schema(sig).hasDefault[i]
  {
    var init := sig[..|sig| - 1];
    var s, s0 := Schema(sig), Schema(init);
    SchemaParallel(init);
    if i < |s0.names| && s.names[i] == s0.names[i] && s.hasDefault[i] == s0.hasDefault[i] {
      SchemaSound(init, i);
      var k :| 0 <= k < |init| && Bindable(init[k]) && init[k].name == s0.names[i] && init[k].hasDefault == s0.hasDefault[i];
      assert sig[k] == init[k];
    } else {
      assert Bindable(sig[|sig| - 1]);
    }
  }

  /** Every keyword-passable parameter is listed. */
  lemma {:induction false} SchemaComplete(sig: Signature, k: int)
    requires 0 <= k < |sig| && Bindable(sig[k])
    ensures sig[k].name in Schema(sig).names
  {
    var init := sig[..|sig| - 1];
    if k < |init| {
      assert sig[k] == init[k];
      SchemaComplete(init, k);
    }
  }

  /** The flag is set exactly when there is a `**kwargs` parameter. */
  lemma {:induction false} SchemaVarKeyword(sig: Signature)
    ensures Schema(sig).hasVarKeyword <==> exists k :: 0 <= k < |sig| && sig[k].kind == VarKeyword
  {
    if sig != [] {
      var init := sig[..|sig| - 1];
      SchemaVarKeyword(init);
      if exists k :: 0 <= k < |init| && init[k].kind == VarKeyword {
        var k :| 0 <= k < |init| && init[k].kind == VarKeyword;
        assert sig[k] == init[k];
      }
      if exists k :: 0 <= k < |sig| && sig[k].kind == VarKeyword {
        var k :| 0 <= k < |sig| && sig[k].kind == VarKeyword;
        if k < |init| {
          assert init[k] == sig[k];
        }
      }
    }
  }

  /** Positional-only, `*args` and `**kwargs` parameters never show up as names. */
  lemma SchemaExcludesUnbindable(sig: Signature, k: int)
    requires WellFormed(sig) && 0 <= k < |sig| && !Bindable(sig[k])
    ensures sig[k].name !in Schema(sig).names
  {
    SchemaParallel(sig);
    var names := Schema(sig).names;
    forall i | 0 <= i < |names| ensures names[i] != sig[k].name {
      SchemaSound(sig, i);
    }
  }

  /** `_get_keyword_params(target)`, with the receiver of a class's constructor dropped. */
  function KeywordParams(t: Target): Result<KeywordSchema, BindError> {
    match TargetSignature(t)
    case Failure(e) => Failure(e)
    case Success(sig) => Success(Schema(sig))
  }

  /** `_get_keyword_params(target)`. */
  method GetKeywordParams(t: Target) returns (r: Result<KeywordSchema, BindError>)
    ensures r == KeywordParams(t)
    ensures r.Success? ==> |r.value.names| == |r.value.hasDefault|
  {
    var target := TargetSignature(t);
    if target.Failure? {
      return Failure(target.error);
    }
    var sig := target.value;
    var results: seq<string> := [];
    var hasDefault: seq<bool> := [];
    var hasVarKeyword := false;
    var i := 0;
    while i < |sig|
      invariant 0 <= i <= |sig|
      invariant KeywordSchema(results, hasDefault, hasVarKeyword) == Schema(sig[..i])
    {
      var param := sig[i];
      assert sig[..i + 1][..i] == sig[..i];
      if param.kind == PositionalOnly || param.kind == VarPositional {
      } else if param.kind == VarKeyword {
        hasVarKeyword := true;
      } else {
        results := results + [param.name];
        hasDefault := hasDefault + [param.hasDefault];
      }
      i := i + 1;
    }
    assert sig[..i] == sig;
    SchemaParallel(sig);
    return Success(KeywordSchema(results, hasDefault, hasVarKeyword));
  }

  /** `zip(names, has_default)`: pairs up to the shorter list. */
  function Zip(names: seq<string>, hasDefault: seq<bool>): (es: seq<(string, bool)>)
    ensures |es| == if |names| <= |hasDefault| then |names| else |hasDefault|
    ensures forall i :: 0 <= i < |es| ==> es[i] == (names[i], hasDefault[i])
  {
    if names == [] || hasDefault == [] then []
    else [(names[0], hasDefault[0])] + Zip(names[1..], hasDefault[1..])
  }

  /** The keywords lines 52-57 stage from schema entries `(name, has_default)`: a
      name found in the dataset takes the dataset's value; a missing name without a
      default fails naming it; a missing name with a default is left out. */
  function Stage(es: seq<(string, bool)>, dataset: map<string, Value>): Result<map<string, Value>, BindError> {
    if es == [] then Success(map[])
    else
      var n := |es| - 1;
      match Stage(es[..n], dataset)
      case Failure(e) => Failure(e)
      case Success(kw) =>
        if es[n].0 in dataset then Success(kw[es[n].0 := dataset[es[n].0]])
        else if es[n].1 then Success(kw)
        else Failure(MissingKey(es[n].0))
  }

  /** Entry `i` names a parameter without default that the dataset lacks. */
  predicate MissingRequired(es: seq<(string, bool)>, dataset: map<string, Value>, i: int)
    requires 0 <= i < |es|
  {
    es[i].0 !in dataset && !es[i].1
  }

  /** Staging fails exactly when a required entry is missing, naming the first one. */
  lemma {:induction false} StageFails(es: seq<(string, bool)>, dataset: map<string, Value>)
    ensures Stage(es, dataset).Failure? <==> exists i :: 0 <= i < |es| && MissingRequired(es, dataset, i)
    ensures Stage(es, dataset).Failure? ==>
      exists i :: 0 <= i < |es| && MissingRequired(es, dataset, i) && Stage(es, dataset).error == MissingKey(es[i].0)
        && forall j :: 0 <= j < i ==> !MissingRequired(es, dataset, j)
  {
    if es != [] {
      var n := |es| - 1;
      var init := es[..n];
      StageFails(init, dataset);
      forall j | 0 <= j < n ensures MissingRequired(init, dataset, j) == MissingRequired(es, dataset, j) {
        assert init[j] == es[j];
      }
      if Stage(init, dataset).Failure? {
        var i :| 0 <= i < n && MissingRequired(init, dataset, i) && Stage(init, dataset).error == MissingKey(init[i].0)
          && forall j :: 0 <= j < i ==> !MissingRequired(init, dataset, j);
        assert MissingRequired(es, dataset, i);
      } else if Stage(es, dataset).Failure? {
        assert MissingRequired(es, dataset, n);
      } else {
        forall i | 0 <= i < |es| ensures !MissingRequired(es, dataset, i) {
          if i < n { assert !MissingRequired(init, dataset, i); }
        }
      }
    }
  }

  /** On success the staged keywords are exactly the entries' names present in the
      dataset, with the dataset's values, and nothing else. */
  lemma {:induction false} StageKeywords(es: seq<(string, bool)>, dataset: map<string, Value>)
    requires Stage(es, dataset).Success?
    ensures forall k :: k in Stage(es, dataset).value <==> k in dataset && exists i :: 0 <= i < |es| && es[i].0 == k
    ensures forall k :: k in Stage(es, dataset).value ==> Stage(es, dataset).value[k] == dataset[k]
  {
    if es != [] {
      var n := |es| - 1;
      var init := es[..n];
      StageKeywords(init, dataset);
      assert forall j :: 0 <= j < n ==> init[j] == es[j];
      forall k | k in dataset && exists i :: 0 <= i < |es| && es[i].0 == k
        ensures k in Stage(es, dataset).value
      {
        var i :| 0 <= i < |es| && es[i].0 == k;
        if i < n { assert init[i].0 == k; }
      }
    }
  }

  /** A `functools.partial` object: the target with its staged keywords. */
  datatype Partial = Partial(target: Target, keywords: map<string, Value>)

  /** `partial_config(func, dataset)` (lines 44-59). */
  function PartialConfigOf(t: Target, dataset: map<string, Value>): Result<Partial, BindError> {
    match KeywordParams(t)
    case Failure(e) => Failure(e)
    case Success(s) =>
      if s.hasVarKeyword then Success(Partial(t, dataset))
      else
        match Stage(Zip(s.names, s.hasDefault), dataset)
        case Failure(e) => Failure(e)
        case Success(kw) => Success(Partial(t, kw))
  }

  /** `partial_config.__new__(cls, func, dataset)`. */
  method PartialConfig(t: Target, dataset: map<string, Value>) returns (r: Result<Partial, BindError>)
    ensures r == PartialConfigOf(t, dataset)
  {
    var schema := GetKeywordParams(t);
    if schema.Failure? {
      return Failure(schema.error);
    }
    if schema.value.hasVarKeyword {
      return Success(Partial(t, dataset));
    }
    var entries := Zip(schema.value.names, schema.value.hasDefault);
    var keywords: map<string, Value> := map[];
    var i := 0;
    while i < |entries|
      invariant 0 <= i <= |entries|
      invariant Stage(entries[..i], dataset) == Success(keywords)
    {
      assert entries[..i + 1][..i] == entries[..i];
      var (name, hasDefault) := entries[i];
      if name in dataset {
        keywords := keywords[name := dataset[name]];
      } else if !hasDefault {
        StagePrefixFails(entries, dataset, i + 1);
        return Failure(MissingKey(name));
      }
      i := i + 1;
    }
    assert entries[..i] == entries;
    return Success(Partial(t, keywords));
  }

  /** A failure in staging a prefix of the entries is the failure of the whole. */
  lemma {:induction false} StagePrefixFails(es: seq<(string, bool)>, dataset: map<string, Value>, m: int)
    requires 0 <= m <= |es|
    requires Stage(es[..m], dataset).Failure?
    ensures Stage(es, dataset) == Stage(es[..m], dataset)
    decreases |es| - m
  {
    if m < |es| {
      var n := |es| - 1;
      assert es[..n][..m] == es[..m];
      StagePrefixFails(es[..n], dataset, m);
    } else {
      assert es[..m] == es;
    }
  }

  /** With a `**kwargs` parameter, the whole dataset is staged unfiltered. */
  lemma VarKeywordStagesAll(t: Target, dataset: map<string, Value>)
    requires KeywordParams(t).Success? && KeywordParams(t).value.hasVarKeyword
    ensures PartialConfigOf(t, dataset) == Success(Partial(t, dataset))
  {
  }

  /** Without `**kwargs`: binding fails exactly when a parameter without default is
      missing from the dataset, naming the first such one, and otherwise stages exactly
      the parameters present in the dataset, with the dataset's values; extra dataset
      keys are dropped. */
  lemma PartialConfigFiltered(t: Target, dataset: map<string, Value>)
    requires KeywordParams(t).Success? && !KeywordParams(t).value.hasVarKeyword
    ensures var s := KeywordParams(t).value; var r := PartialConfigOf(t, dataset);
      && |s.names| == |s.hasDefault|
      && (r.Failure? <==> exists i :: 0 <= i < |s.names| && s.names[i] !in dataset && !s.hasDefault[i])
      && (r.Failure? ==>
            exists i :: 0 <= i < |s.names| && s.names[i] !in dataset && !s.hasDefault[i] && r.error == MissingKey(s.names[i]))
      && (r.Success? ==> forall k :: k in r.value.keywords <==> k in s.names && k in dataset)
      && (r.Success? ==> forall k :: k in r.value.keywords ==> r.value.keywords[k] == dataset[k])
  {
    var s := KeywordParams(t).value;
    SchemaParallel(TargetSignature(t).value);
    var es := Zip(s.names, s.hasDefault);
    StageFails(es, dataset);
    if Stage(es, dataset).Failure? {
      var i :| 0 <= i < |es| && MissingRequired(es, dataset, i) && Stage(es, dataset).error == MissingKey(es[i].0);
      assert es[i] == (s.names[i], s.hasDefault[i]);
    } else {
      forall i | 0 <= i < |s.names| ensures !(s.names[i] !in dataset && !s.hasDefault[i]) {
        assert !MissingRequired(es, dataset, i);
      }
      StageKeywords(es, dataset);
      forall k | k in s.names ensures exists i :: 0 <= i < |es| && es[i].0 == k {
        var i :| 0 <= i < |s.names| && s.names[i] == k;
        assert es[i].0 == k;
      }
      forall k | exists i :: 0 <= i < |es| && es[i].0 == k ensures k in s.names {
        var i :| 0 <= i < |es| && es[i].0 == k;
        assert s.names[i] == k;
      }
    }
  }

  /** Calling the partial: call-time keywords are merged over the staged ones. */
  function Invoke(p: Partial, callKeywords: map<string, Value>): (args: map<string, Value>)
    ensures args.Keys == p.keywords.Keys + callKeywords.Keys
    ensures forall k :: k in callKeywords ==> args[k] == callKeywords[k]
    ensures forall k :: k in p.keywords && k !in callKeywords ==> args[k] == p.keywords[k]
  {
    p.keywords + callKeywords
  }

  // ---------------------------------------------------------------------------
  // The receiver of a class's constructor.

  /** `partial_config` on the signature as written. */
  function PartialConfigAsWritten(t: Target, dataset: map<string, Value>): Result<Partial, BindError> {
    match TargetSignatureAsWritten(t)
    case Failure(e) => Failure(e)
    case Success(sig) =>
      var s := Schema(sig);
      if s.hasVarKeyword then Success(Partial(t, dataset))
      else
        match Stage(Zip(s.names, s.hasDefault), dataset)
        case Failure(e) => Failure(e)
        case Success(kw) => Success(Partial(t, kw))
  }

  /** `class Net: def __init__(self, width=8)`. */
  function Net(): Target {
    ClassType(Some([Param("self", PositionalOrKeyword, false), Param("width", PositionalOrKeyword, true)]), None)
  }

  /** As written, binding `Net` from an empty dataset demands a key `self`. */
  lemma ClassReceiverIsRequired()
    ensures PartialConfigAsWritten(Net(), map[]) == Failure(MissingKey("self"))
  {
    var self, width := Param("self", PositionalOrKeyword, false), Param("width", PositionalOrKeyword, true);
    assert TargetSignatureAsWritten(Net()) == Success([self, width]);
    assert [self, width][..1] == [self] && [self][..0] == [];
    assert Schema([self]) == KeywordSchema(["self"], [false], false);
    assert Schema([self, width]) == KeywordSchema(["self", "width"], [false, true], false);
    var es := Zip(["self", "width"], [false, true]);
    assert es == [("self", false), ("width", true)];
    assert es[..1] == [("self", false)] && es[..1][..0] == [];
    assert Stage(es[..1], map[]) == Failure(MissingKey("self"));
  }

  /** Without the receiver, binding `Net` from an empty dataset succeeds, staging nothing. */
  lemma ClassReceiverDropped()
    ensures PartialConfigOf(Net(), map[]) == Success(Partial(Net(), map[]))
  {
    var width := Param("width", PositionalOrKeyword, true);
    assert TargetSignature(Net()) == Success([width]);
    assert [width][..0] == [];
    assert Schema([width]) == KeywordSchema(["width"], [true], false);
    var es := Zip(["width"], [true]);
    assert es == [("width", true)];
    assert es[..0] == [];
  }
}

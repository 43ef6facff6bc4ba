/** Building binders from configuration (`src/sucrose/config/callableconf.py`):
    the dataset of a prefix is what `find_all` yields, keyed by the part of each
    field name after its last "/", and the binder applies `partial_config` with it. */
module CallableConf {
  import opened Wrappers
  import opened Text
  import opened Values
  import Configs
  import ConfTools

  /** `name.rsplit("/", 1)[-1]`: the suffix of `name` after its last "/". */
  function LastSegment(name: string): (k: string)
    ensures '/' !in k
    ensures |k| <= |name|
    ensures '/' !in name ==> k == name
  {
    RSplitRoundTrip(name, '/');
    RSplitTail(name, '/')
  }

  /** The segment is exactly what follows the last "/" of the name. */
  lemma LastSegmentIsTail(name: string)
    ensures var k := LastSegment(name);
      && k == name[|name| - |k|..]
      && ('/' in name ==> |k| < |name| && name[|name| - |k| - 1] == '/')
  {
    RSplitRoundTrip(name, '/');
    var k := LastSegment(name);
    if '/' in name {
      var head := RSplitHead(name, '/');
      assert name == head + ['/'] + k;
      assert name[|name| - |k|..] == k;
    } else {
      assert name[|name| - |k|..] == name;
    }
  }

  /** The dict comprehension of lines 20-21 over the yielded pairs, in order: a later
      pair with the same last segment overwrites an earlier one. */
  function Dataset(pairs: Configs.FieldList): map<string, Value> {
    if pairs == [] then map[]
    else
      var n := |pairs| - 1;
      Dataset(pairs[..n])[LastSegment(pairs[n].0) := pairs[n].1]
  }

  /** Index of the last pair whose name ends in segment `k`, or -1. */
  function LastWithSegment(pairs: Configs.FieldList, k: string): (i: int)
    ensures -1 <= i < |pairs|
    ensures i == -1 <==> forall j :: 0 <= j < |pairs| ==> LastSegment(pairs[j].0) != k
    ensures 0 <= i ==> LastSegment(pairs[i].0) == k && forall j :: i < j < |pairs| ==> LastSegment(pairs[j].0) != k
  {
    if pairs == [] then -1
    else if LastSegment(pairs[|pairs| - 1].0) == k then |pairs| - 1
    else
      var init := pairs[..|pairs| - 1];
      assert forall j :: 0 <= j < |init| ==> init[j] == pairs[j];
      LastWithSegment(init, k)
  }

  /** The dataset's keys are the last segments of the yielded names, and each key
      holds the value of the LAST pair with that segment. */
  lemma {:induction false} DatasetEntries(pairs: Configs.FieldList)
    ensures forall k :: k in Dataset(pairs) <==> LastWithSegment(pairs, k) >= 0
    ensures forall k :: k in Dataset(pairs) ==> Dataset(pairs)[k] == pairs[LastWithSegment(pairs, k)].1
  {
    if pairs != [] {
      var n := |pairs| - 1;
      DatasetEntries(pairs[..n]);
    }
  }

  /** The returned wrapper: it binds any target to the dataset. */
  datatype Binder = Binder(dataset: map<string, Value>)

  /** Every dataset key is the last segment of a name with the prefix, and holds the
      value `lookup` resolves for that name; every resolvable name with the prefix
      contributes its last segment. */
  lemma DatasetOfFindAll(data: Configs.ConfigTree, domain: string, prefix: string, pairs: Configs.FieldList)
    requires Configs.FindAll(data, domain, prefix, {}) == Success(pairs)
    ensures forall k :: k in Dataset(pairs) ==>
      exists name :: LastSegment(name) == k && StartsWith(name, prefix)
        && Configs.Lookup(data, domain, name) == Success(Dataset(pairs)[k])
    ensures forall name :: StartsWith(name, prefix) && Configs.Lookup(data, domain, name).Success? ==>
      LastSegment(name) in Dataset(pairs)
  {
    DatasetEntries(pairs);
    forall k | k in Dataset(pairs)
      ensures exists name ::
                LastSegment(name) == k && StartsWith(name, prefix)
                && Configs.Lookup(data, domain, name) == Success(Dataset(pairs)[k])
    {
      var i := LastWithSegment(pairs, k);
      assert LastSegment(pairs[i].0) == k;
    }
    forall name | StartsWith(name, prefix) && Configs.Lookup(data, domain, name).Success?
      ensures LastSegment(name) in Dataset(pairs)
    {
      assert name in Configs.NameSet(pairs);
      var j :| 0 <= j < |pairs| && pairs[j].0 == name;
      assert LastWithSegment(pairs, LastSegment(name)) >= 0;
    }
  }

  /** `config_from_data(prefix, domain, data)`: the only failure is the one `find_all`
      raises on invalid data; an empty dataset still gives a binder. */
  function ConfigFromData(prefix: string, domain: string, data: Configs.ConfigTree): (r: Result<Binder, Configs.ConfigError>)
    ensures r.Failure? <==> !Configs.ValidTree(data)
    ensures r.Success? ==> forall k :: k in r.value.dataset ==>
      exists name :: LastSegment(name) == k && StartsWith(name, prefix)
        && Configs.Lookup(data, domain, name) == Success(r.value.dataset[k])
    ensures r.Success? ==> forall name :: StartsWith(name, prefix) && Configs.Lookup(data, domain, name).Success? ==>
      LastSegment(name) in r.value.dataset
  {
    match Configs.FindAll(data, domain, prefix, {})
    case Failure(e) => Failure(e)
    case Success(pairs) =>
      DatasetOfFindAll(data, domain, prefix, pairs);
      Success(Binder(Dataset(pairs)))
  }

  /** `_wrapper(obj)`: `partial_config(obj, dataset)`. */
  function ApplyBinder(b: Binder, obj: ConfTools.Target): (r: Result<ConfTools.Partial, ConfTools.BindError>)
    ensures r == ConfTools.PartialConfigOf(obj, b.dataset)
    ensures r.Success? ==> r.value.target == obj
    ensures r.Success? && ConfTools.KeywordParams(obj).value.hasVarKeyword ==> r.value.keywords == b.dataset
    ensures r.Success? && !ConfTools.KeywordParams(obj).value.hasVarKeyword ==>
      forall k :: k in r.value.keywords ==> k in b.dataset && r.value.keywords[k] == b.dataset[k]
  {
    var r := ConfTools.PartialConfigOf(obj, b.dataset);
    if r.Success? && !ConfTools.KeywordParams(obj).value.hasVarKeyword then
      ConfTools.PartialConfigFiltered(obj, b.dataset);
      r
    else
      r
  }

  /** `config_from_project(prefix, proj)`: the project is passed explicitly, as its
      name and its configuration. */
  function ConfigFromProject(prefix: string, projectName: string, config: Configs.ConfigTree): (r: Result<Binder, Configs.ConfigError>)
    ensures r == ConfigFromData(prefix, projectName, config)
  {
    ConfigFromData(prefix, projectName, config)
  }
}

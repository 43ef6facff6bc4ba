/** Domain-hierarchical configuration resolution (`src/sucrose/config/configs.py`).

    A configuration maps a domain path such as `a/b/c` to that domain's fields.
    A field is resolved by walking the domain chain most specific first: each step
    replaces the domain by `domain.rsplit("/", 1)[0]`, and the walk ends once
    that no longer changes the string. */
module Configs {
  import opened Wrappers
  import opened Text
  import opened Values

  /** A domain's fields, in the dict's insertion order. */
  type FieldList = seq<(string, Value)>

  /** Domain path to that domain's fields. */
  type ConfigTree = map<string, FieldList>

  datatype ConfigError =
    | InvalidDomain                                // ValueError from check_data
    | FieldNotFound(field: string, domain: string) // KeyError naming the last domain tried

  /** Position of the entry named `f`, or -1. A Python dict holds a name at most once;
      on a list with repeats this is the first entry. */
  function FieldIndex(fs: FieldList, f: string): (i: int)
    ensures -1 <= i < |fs|
    ensures i == -1 <==> forall k :: 0 <= k < |fs| ==> fs[k].0 != f
    ensures 0 <= i ==> fs[i].0 == f && forall k :: 0 <= k < i ==> fs[k].0 != f
  {
    if fs == [] then -1
    else if fs[0].0 == f then 0
    else
      var i := FieldIndex(fs[1..], f);
      if i < 0 then -1 else i + 1
  }

  /** `f in dom_data` */
  predicate Defines(fs: FieldList, f: string) {
    FieldIndex(fs, f) >= 0
  }

  /** `dom_data[f]` */
  function Get(fs: FieldList, f: string): Value
    requires Defines(fs, f)
  {
    fs[FieldIndex(fs, f)].1
  }

  /** The invariant check_data enforces: no domain path starts with the separator. */
  predicate ValidTree(data: ConfigTree) {
    forall d :: d in data ==> !StartsWith(d, "/")
  }

  /** `check_data`: fails exactly when some domain key starts with "/". */
  method CheckData(data: ConfigTree) returns (r: Result<(), ConfigError>)
    ensures r.Success? <==> ValidTree(data)
    ensures r.Failure? ==> r.error == InvalidDomain
  {
    var keys := data.Keys;
    while keys != {}
      invariant keys <= data.Keys
      invariant forall d :: d in data && d !in keys ==> !StartsWith(d, "/")
      decreases keys
    {
      var d :| d in keys;
      if StartsWith(d, "/") {
        return Failure(InvalidDomain);
      }
      keys := keys - {d};
    }
    return Success(());
  }

  /** `domain.rsplit("/", 1)[0]` */
  function Parent(domain: string): (p: string)
    ensures p == domain || |p| < |domain|
    ensures p == domain <==> '/' !in domain
  {
    RSplitHead(domain, '/')
  }

  /** The domains the walk visits, most specific first. */
  function Chain(domain: string): (c: seq<string>)
    ensures |c| >= 1 && c[0] == domain
    decreases |domain|
  {
    var p := Parent(domain);
    if p == domain then [domain] else [domain] + Chain(p)
  }

  /** The last domain of the walk, the one a KeyError names. */
  function Root(domain: string): string
    decreases |domain|
  {
    var p := Parent(domain);
    if p == domain then domain else Root(p)
  }

  predicate DefinedAt(data: ConfigTree, domain: string, f: string) {
    domain in data && Defines(data[domain], f)
  }

  /** Position in `chain` of the first domain that defines `f`, or -1: the reference
      definition of "nearest defining domain". */
  function FirstDefining(data: ConfigTree, chain: seq<string>, f: string): (i: int)
    ensures -1 <= i < |chain|
    ensures i == -1 <==> forall k :: 0 <= k < |chain| ==> !DefinedAt(data, chain[k], f)
    ensures 0 <= i ==> DefinedAt(data, chain[i], f)
    ensures 0 <= i ==> forall k :: 0 <= k < i ==> !DefinedAt(data, chain[k], f)
  {
    if chain == [] then -1
    else if DefinedAt(data, chain[0], f) then 0
    else
      var i := FirstDefining(data, chain[1..], f);
      if i < 0 then -1 else i + 1
  }

  /** The body of `lookup` after its check_data call (lines 22-35). */
  function Resolve(data: ConfigTree, domain: string, field: string): Result<Value, ConfigError>
    decreases |domain|
  {
    if DefinedAt(data, domain, field) then Success(Get(data[domain], field))
    else
      var p := Parent(domain);
      if p == domain then Failure(FieldNotFound(field, domain)) else Resolve(data, p, field)
  }

  /** One step of the chain: the first defining position in `Chain(domain)` is 0 when
      `domain` defines the field, and otherwise one more than in the parent's chain. */
  lemma FirstDefiningStep(data: ConfigTree, domain: string, f: string)
    requires Parent(domain) != domain
    ensures var i, j := FirstDefining(data, Chain(domain), f), FirstDefining(data, Chain(Parent(domain)), f);
      i == if DefinedAt(data, domain, f) then 0 else if j < 0 then -1 else j + 1
  {
    var c, cp := Chain(domain), Chain(Parent(domain));
    assert c == [domain] + cp;
    assert c[1..] == cp;
  }

  /** `lookup` returns the value of the nearest domain on the chain that defines the
      field, and raises KeyError exactly when none does. */
  lemma {:induction false} ResolveIsNearest(data: ConfigTree, domain: string, field: string)
    ensures var c := Chain(domain); var i := FirstDefining(data, c, field);
      Resolve(data, domain, field) ==
        if i < 0 then Failure(FieldNotFound(field, Root(domain)))
        else Success(Get(data[c[i]], field))
    decreases |domain|
  {
    var p := Parent(domain);
    if p != domain {
      FirstDefiningStep(data, domain, field);
      if !DefinedAt(data, domain, field) {
        ResolveIsNearest(data, p, field);
        assert Chain(domain)[1..] == Chain(p);
      }
    }
  }

  /** `lookup(data, domain, field)`. */
  function Lookup(data: ConfigTree, domain: string, field: string): (r: Result<Value, ConfigError>)
    ensures !ValidTree(data) ==> r == Failure(InvalidDomain)
    ensures ValidTree(data) ==>
      (r.Failure? <==> forall k :: 0 <= k < |Chain(domain)| ==> !DefinedAt(data, Chain(domain)[k], field))
    ensures ValidTree(data) && r.Failure? ==> r.error == FieldNotFound(field, Root(domain))
    ensures r.Success? ==>
      exists k :: 0 <= k < |Chain(domain)| && DefinedAt(data, Chain(domain)[k], field)
        && r.value == Get(data[Chain(domain)[k]], field)
        && forall j :: 0 <= j < k ==> !DefinedAt(data, Chain(domain)[j], field)
  {
    ResolveIsNearest(data, domain, field);
    if !ValidTree(data) then Failure(InvalidDomain) else Resolve(data, domain, field)
  }

  /** A domain that defines the field answers it itself, whatever its ancestors hold. */
  lemma LookupOwnField(data: ConfigTree, domain: string, field: string)
    requires ValidTree(data) && DefinedAt(data, domain, field)
    ensures Lookup(data, domain, field) == Success(Get(data[domain], field))
  {
    ResolveIsNearest(data, domain, field);
  }

  /** A domain that does not define the field defers to its parent, unless it is the
      last domain of the walk, where the KeyError names it. */
  lemma LookupDefersToParent(data: ConfigTree, domain: string, field: string)
    requires ValidTree(data) && !DefinedAt(data, domain, field)
    ensures Parent(domain) != domain ==> Lookup(data, domain, field) == Lookup(data, Parent(domain), field)
    ensures Parent(domain) == domain ==> Lookup(data, domain, field) == Failure(FieldNotFound(field, domain))
  {
    ResolveIsNearest(data, domain, field);
    var p := Parent(domain);
    if p != domain {
      ResolveIsNearest(data, p, field);
      FirstDefiningStep(data, domain, field);
    }
  }

  // ---------------------------------------------------------------------------
  // find_all

  function NameSet(out: FieldList): set<string> {
    set k | 0 <= k < |out| :: out[k].0
  }

  predicate DistinctNames(out: FieldList) {
    forall i, j :: 0 <= i < j < |out| ==> out[i].0 != out[j].0
  }

  /** The loop of lines 49-52 over one domain's fields: yields each field that has the
      prefix and is not excluded yet, adding it to the exclusion set. Returns what was
      yielded and the exclusion set afterwards. */
  function ScanFields(fs: FieldList, prefix: string, exclude: set<string>): (FieldList, set<string>)
    decreases |fs|
  {
    if fs == [] then ([], exclude)
    else if StartsWith(fs[0].0, prefix) && fs[0].0 !in exclude then
      var rest := ScanFields(fs[1..], prefix, exclude + {fs[0].0});
      ([fs[0]] + rest.0, rest.1)
    else
      ScanFields(fs[1..], prefix, exclude)
  }

  lemma GetTail(fs: FieldList, f: string)
    requires fs != [] && fs[0].0 != f
    ensures Defines(fs, f) <==> Defines(fs[1..], f)
    ensures Defines(fs, f) ==> Get(fs, f) == Get(fs[1..], f)
  {
  }

  lemma {:induction false} ScanFacts(fs: FieldList, prefix: string, exclude: set<string>)
    ensures var (out, ex) := ScanFields(fs, prefix, exclude);
      && ex == exclude + NameSet(out)
      && DistinctNames(out)
      && (forall k :: 0 <= k < |out| ==>
            out[k].0 !in exclude && StartsWith(out[k].0, prefix)
            && Defines(fs, out[k].0) && out[k].1 == Get(fs, out[k].0))
      && (forall n :: StartsWith(n, prefix) && n !in exclude && Defines(fs, n) ==> n in NameSet(out))
    decreases |fs|
  {
    if fs != [] {
      var n := fs[0].0;
      var out := ScanFields(fs, prefix, exclude).0;
      if StartsWith(n, prefix) && n !in exclude {
        var rest := ScanFields(fs[1..], prefix, exclude + {n});
        ScanFacts(fs[1..], prefix, exclude + {n});
        assert out == [fs[0]] + rest.0;
        NameSetAppend([fs[0]], rest.0);
        assert NameSet([fs[0]]) == {n} by {
          assert [fs[0]][0].0 == n;
        }
        forall k | 0 <= k < |out|
          ensures out[k].0 !in exclude && StartsWith(out[k].0, prefix)
          ensures Defines(fs, out[k].0) && out[k].1 == Get(fs, out[k].0)
        {
          if k > 0 {
            assert out[k] == rest.0[k - 1];
            GetTail(fs, out[k].0);
          }
        }
        forall m | StartsWith(m, prefix) && m !in exclude && Defines(fs, m)
          ensures m in NameSet(out)
        {
          if m != n { GetTail(fs, m); }
        }
      } else {
        ScanFacts(fs[1..], prefix, exclude);
        forall k | 0 <= k < |out|
          ensures Defines(fs, out[k].0) && out[k].1 == Get(fs, out[k].0)
        {
          GetTail(fs, out[k].0);
        }
        forall m | StartsWith(m, prefix) && m !in exclude && Defines(fs, m)
          ensures m in NameSet(out)
        {
          GetTail(fs, m);
        }
      }
    }
  }

  /** What the loop of lines 47-52 yields for one domain, with the exclusion set after it. */
  function Scanned(data: ConfigTree, domain: string, prefix: string, exclude: set<string>): (FieldList, set<string>) {
    if domain in data then ScanFields(data[domain], prefix, exclude) else ([], exclude)
  }

  /** The generator `find_all(data, domain, prefix, exclude)` after its check_data
      call, as the list of pairs it yields. Python's `exclude.copy()` makes the
      exclusion set local to each call; here every set is a value anyway. */
  function FindFrom(data: ConfigTree, domain: string, prefix: string, exclude: set<string>): FieldList
    decreases |domain|
  {
    var scanned := Scanned(data, domain, prefix, exclude);
    var p := Parent(domain);
    if p == domain then scanned.0 else scanned.0 + FindFrom(data, p, prefix, scanned.1)
  }

  lemma ScannedExclude(data: ConfigTree, domain: string, prefix: string, exclude: set<string>)
    ensures Scanned(data, domain, prefix, exclude).1 == exclude + NameSet(Scanned(data, domain, prefix, exclude).0)
  {
    if domain in data {
      ScanFacts(data[domain], prefix, exclude);
    }
  }

  /** Everything in `out` has the prefix, was not in `exclude`, and carries exactly
      the value `lookup` resolves for that name from `domain`. */
  predicate SoundEntries(data: ConfigTree, domain: string, prefix: string, exclude: set<string>, out: FieldList) {
    forall k :: 0 <= k < |out| ==>
      out[k].0 !in exclude && StartsWith(out[k].0, prefix)
      && Resolve(data, domain, out[k].0) == Success(out[k].1)
  }

  /** Everything in `out` is a field of `domain` itself. */
  predicate LocalEntries(data: ConfigTree, domain: string, out: FieldList) {
    forall k :: 0 <= k < |out| ==> DefinedAt(data, domain, out[k].0)
  }

  lemma ScannedSound(data: ConfigTree, domain: string, prefix: string, exclude: set<string>)
    ensures SoundEntries(data, domain, prefix, exclude, Scanned(data, domain, prefix, exclude).0)
    ensures LocalEntries(data, domain, Scanned(data, domain, prefix, exclude).0)
  {
    if domain in data {
      ScanFacts(data[domain], prefix, exclude);
    }
  }

  lemma ScannedDistinct(data: ConfigTree, domain: string, prefix: string, exclude: set<string>)
    ensures DistinctNames(Scanned(data, domain, prefix, exclude).0)
  {
    if domain in data {
      ScanFacts(data[domain], prefix, exclude);
    }
  }

  lemma ScannedComplete(data: ConfigTree, domain: string, prefix: string, exclude: set<string>, n: string)
    requires StartsWith(n, prefix) && n !in exclude && DefinedAt(data, domain, n)
    ensures n in NameSet(Scanned(data, domain, prefix, exclude).0)
  {
    ScanFacts(data[domain], prefix, exclude);
  }

  /** A name with the prefix that survives a domain's scan is not defined there. */
  lemma FartherNotDefinedHere(data: ConfigTree, domain: string, prefix: string, exclude: set<string>, n: string)
    requires StartsWith(n, prefix) && n !in Scanned(data, domain, prefix, exclude).1
    ensures !DefinedAt(data, domain, n)
  {
    ScannedExclude(data, domain, prefix, exclude);
    if DefinedAt(data, domain, n) {
      ScannedComplete(data, domain, prefix, exclude, n);
    }
  }

  lemma ResolveFarther(data: ConfigTree, domain: string, n: string)
    requires Parent(domain) != domain && !DefinedAt(data, domain, n)
    ensures Resolve(data, domain, n) == Resolve(data, Parent(domain), n)
  {
  }

  /** What `find_all` yields resolves, through `lookup`, to the very value yielded:
      the nearest level's value wins. */
  lemma {:induction false} FindFromSound(data: ConfigTree, domain: string, prefix: string, exclude: set<string>)
    ensures SoundEntries(data, domain, prefix, exclude, FindFrom(data, domain, prefix, exclude))
    decreases |domain|
  {
    var out := FindFrom(data, domain, prefix, exclude);
    var o, ex := Scanned(data, domain, prefix, exclude).0, Scanned(data, domain, prefix, exclude).1;
    ScannedSound(data, domain, prefix, exclude);
    ScannedExclude(data, domain, prefix, exclude);
    var p := Parent(domain);
    if p != domain {
      var rest := FindFrom(data, p, prefix, ex);
      FindFromSound(data, p, prefix, ex);
      assert out == o + rest;
      forall k | 0 <= k < |out|
        ensures out[k].0 !in exclude && StartsWith(out[k].0, prefix)
        ensures Resolve(data, domain, out[k].0) == Success(out[k].1)
      {
        if k < |o| {
          assert out[k] == o[k];
        } else {
          var j := k - |o|;
          assert out[k] == rest[j];
          FartherNotDefinedHere(data, domain, prefix, exclude, rest[j].0);
          ResolveFarther(data, domain, rest[j].0);
        }
      }
    } else {
      assert out == o;
    }
  }

  /** No name is yielded twice. */
  lemma {:induction false} FindFromDistinct(data: ConfigTree, domain: string, prefix: string, exclude: set<string>)
    ensures DistinctNames(FindFrom(data, domain, prefix, exclude))
    decreases |domain|
  {
    var out := FindFrom(data, domain, prefix, exclude);
    var o, ex := Scanned(data, domain, prefix, exclude).0, Scanned(data, domain, prefix, exclude).1;
    ScannedDistinct(data, domain, prefix, exclude);
    var p := Parent(domain);
    if p != domain {
      var rest := FindFrom(data, p, prefix, ex);
      ScannedExclude(data, domain, prefix, exclude);
      FindFromSound(data, p, prefix, ex);
      FindFromDistinct(data, p, prefix, ex);
      assert out == o + rest;
      forall i, j | 0 <= i < j < |out| ensures out[i].0 != out[j].0 {
        if j < |o| {
          assert out[i] == o[i] && out[j] == o[j];
        } else if i < |o| {
          assert out[i] == o[i] && out[j] == rest[j - |o|];
          assert out[i].0 in NameSet(o);
        } else {
          assert out[i] == rest[i - |o|] && out[j] == rest[j - |o|];
        }
      }
    } else {
      assert out == o;
    }
  }

  lemma NameSetAppend(a: FieldList, b: FieldList)
    ensures NameSet(a + b) == NameSet(a) + NameSet(b)
  {
    var ab := a + b;
    forall x | x in NameSet(ab) ensures x in NameSet(a) + NameSet(b) {
      var k :| 0 <= k < |ab| && ab[k].0 == x;
      if k >= |a| { assert b[k - |a|].0 == x; }
    }
    forall x | x in NameSet(a) + NameSet(b) ensures x in NameSet(ab) {
      if x in NameSet(a) {
        var k :| 0 <= k < |a| && a[k].0 == x;
        assert ab[k].0 == x;
      } else {
        var k :| 0 <= k < |b| && b[k].0 == x;
        assert ab[|a| + k].0 == x;
      }
    }
  }

  /** The names `find_all` yields: this domain's scan, then the parent's. */
  lemma FindFromNames(data: ConfigTree, domain: string, prefix: string, exclude: set<string>)
    ensures var o, ex := Scanned(data, domain, prefix, exclude).0, Scanned(data, domain, prefix, exclude).1;
      NameSet(FindFrom(data, domain, prefix, exclude)) ==
        if Parent(domain) == domain then NameSet(o) else NameSet(o) + NameSet(FindFrom(data, Parent(domain), prefix, ex))
  {
    var o, ex := Scanned(data, domain, prefix, exclude).0, Scanned(data, domain, prefix, exclude).1;
    if Parent(domain) != domain {
      NameSetAppend(o, FindFrom(data, Parent(domain), prefix, ex));
    }
  }

  /** Every name with the prefix, not excluded, that `lookup` resolves is yielded. */
  lemma {:induction false} FindFromComplete(data: ConfigTree, domain: string, prefix: string, exclude: set<string>, n: string)
    requires StartsWith(n, prefix) && n !in exclude && Resolve(data, domain, n).Success?
    ensures n in NameSet(FindFrom(data, domain, prefix, exclude))
    decreases |domain|
  {
    var o, ex := Scanned(data, domain, prefix, exclude).0, Scanned(data, domain, prefix, exclude).1;
    var p := Parent(domain);
    FindFromNames(data, domain, prefix, exclude);
    ScannedExclude(data, domain, prefix, exclude);
    if DefinedAt(data, domain, n) {
      ScannedComplete(data, domain, prefix, exclude, n);
    } else if n !in ex {
      assert p != domain;
      FindFromComplete(data, p, prefix, ex, n);
    }
  }

  /** Position of the domain that supplies `f`, counted along the chain. */
  function Depth(data: ConfigTree, domain: string, f: string): int {
    FirstDefining(data, Chain(domain), f)
  }

  lemma DepthOfFarther(data: ConfigTree, domain: string, f: string)
    requires Parent(domain) != domain && !DefinedAt(data, domain, f)
    requires Resolve(data, Parent(domain), f).Success?
    ensures Depth(data, domain, f) == Depth(data, Parent(domain), f) + 1 >= 1
  {
    FirstDefiningStep(data, domain, f);
    ResolveIsNearest(data, Parent(domain), f);
  }

  predicate OrderedByDepth(data: ConfigTree, domain: string, out: FieldList) {
    forall i, j :: 0 <= i < j < |out| ==>
      0 <= Depth(data, domain, out[i].0) <= Depth(data, domain, out[j].0)
  }

  lemma OrderedConcat(data: ConfigTree, domain: string, a: FieldList, b: FieldList)
    requires forall k :: 0 <= k < |a| ==> Depth(data, domain, a[k].0) == 0
    requires forall k :: 0 <= k < |b| ==> Depth(data, domain, b[k].0) >= 1
    requires OrderedByDepth(data, domain, b)
    ensures OrderedByDepth(data, domain, a + b)
  {
    var ab := a + b;
    forall i, j | 0 <= i < j < |ab|
      ensures 0 <= Depth(data, domain, ab[i].0) <= Depth(data, domain, ab[j].0)
    {
      if j < |a| {
        assert ab[i] == a[i] && ab[j] == a[j];
      } else if i < |a| {
        assert ab[i] == a[i] && ab[j] == b[j - |a|];
      } else {
        assert ab[i] == b[i - |a|] && ab[j] == b[j - |a|];
      }
    }
  }

  /** The parent's entries, seen from the child, sit one level farther away. */
  lemma {:induction false} OrderedShift(data: ConfigTree, domain: string, prefix: string, exclude: set<string>)
    requires Parent(domain) != domain
    requires OrderedByDepth(data, Parent(domain), FindFrom(data, Parent(domain), prefix, Scanned(data, domain, prefix, exclude).1))
    ensures var rest := FindFrom(data, Parent(domain), prefix, Scanned(data, domain, prefix, exclude).1);
      && (forall k :: 0 <= k < |rest| ==> Depth(data, domain, rest[k].0) >= 1)
      && OrderedByDepth(data, domain, rest)
  {
    var p, ex := Parent(domain), Scanned(data, domain, prefix, exclude).1;
    var rest := FindFrom(data, p, prefix, ex);
    FindFromSound(data, p, prefix, ex);
    forall k | 0 <= k < |rest|
      ensures Depth(data, domain, rest[k].0) == Depth(data, p, rest[k].0) + 1 >= 1
    {
      FartherNotDefinedHere(data, domain, prefix, exclude, rest[k].0);
      DepthOfFarther(data, domain, rest[k].0);
    }
  }

  /** Entries of a nearer domain are all yielded before entries of a farther one. */
  lemma {:induction false} FindFromOrdered(data: ConfigTree, domain: string, prefix: string, exclude: set<string>)
    ensures OrderedByDepth(data, domain, FindFrom(data, domain, prefix, exclude))
    decreases |domain|
  {
    var o, ex := Scanned(data, domain, prefix, exclude).0, Scanned(data, domain, prefix, exclude).1;
    ScannedSound(data, domain, prefix, exclude);
    forall k | 0 <= k < |o| ensures Depth(data, domain, o[k].0) == 0 {
      assert DefinedAt(data, Chain(domain)[0], o[k].0);
    }
    var p := Parent(domain);
    if p != domain {
      FindFromOrdered(data, p, prefix, ex);
      OrderedShift(data, domain, prefix, exclude);
      OrderedConcat(data, domain, o, FindFrom(data, p, prefix, ex));
    } else {
      OrderedConcat(data, domain, o, []);
      assert o + [] == o;
    }
  }

  /** `find_all(data, domain, prefix, exclude)`, as the pairs the generator yields.
      The check_data failure surfaces before anything is yielded. */
  function FindAll(data: ConfigTree, domain: string, prefix: string, exclude: set<string>): (r: Result<FieldList, ConfigError>)
    ensures !ValidTree(data) <==> r == Failure(InvalidDomain)
    ensures r.Success? ==> DistinctNames(r.value)
    ensures r.Success? ==> forall k :: 0 <= k < |r.value| ==>
      r.value[k].0 !in exclude && StartsWith(r.value[k].0, prefix)
      && Lookup(data, domain, r.value[k].0) == Success(r.value[k].1)
    ensures r.Success? ==> forall n :: StartsWith(n, prefix) && n !in exclude && Lookup(data, domain, n).Success? ==>
      n in NameSet(r.value)
    ensures r.Success? ==> OrderedByDepth(data, domain, r.value)
  {
    FindFromSound(data, domain, prefix, exclude);
    FindFromDistinct(data, domain, prefix, exclude);
    FindFromOrdered(data, domain, prefix, exclude);
    forall n | StartsWith(n, prefix) && n !in exclude && Resolve(data, domain, n).Success?
      ensures n in NameSet(FindFrom(data, domain, prefix, exclude))
    {
      FindFromComplete(data, domain, prefix, exclude, n);
    }
    if !ValidTree(data) then Failure(InvalidDomain) else Success(FindFrom(data, domain, prefix, exclude))
  }
}

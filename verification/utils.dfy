/** Nested path lookup in mappings (`src/sucrose/utils.py`).

    Values are immutable here, so a recursive copy is equal to its original; what a
    copy buys in Python (a fresh object that the caller may mutate) is not modelled. */
module Utils {
  import opened Wrappers
  import opened Text
  import opened Values

  /** `mapping_copy(data)`: copies every entry, recursing into nested mappings.
      (`sucrose/utils.py` lines 8-18 hold the same function.) */
  method MappingCopy(data: map<string, Value>) returns (copied: map<string, Value>)
    ensures copied.Keys == data.Keys
    ensures forall k :: k in data ==> copied[k] == data[k]
    decreases VDict(data)
  {
    copied := map[];
    var keys := data.Keys;
    while keys != {}
      invariant keys <= data.Keys
      invariant copied.Keys == data.Keys - keys
      invariant forall k :: k in copied ==> copied[k] == data[k]
      decreases keys
    {
      var key :| key in keys;
      var val := data[key];
      if val.VDict? {
        assert val in data.Values;
        var sub := MappingCopy(val.entries);
        copied := copied[key := VDict(sub)];
      } else {
        copied := copied[key := val];
      }
      keys := keys - {key};
    }
  }

  /** Successive indexing along `path`: None as soon as a key is missing or the
      value reached so far is not a mapping. */
  function Walk(data: Value, path: seq<string>): Option<Value> {
    if path == [] then Some(data)
    else if data.VDict? && path[0] in data.entries then Walk(data.entries[path[0]], path[1..])
    else None
  }

  /** What `lookup_path(data, path, default=default)` returns. */
  function Reached(data: map<string, Value>, path: seq<string>, default: Value): Value {
    Walk(VDict(data), path).GetOr(default)
  }

  /** Walking `p + q` is walking `p`, then `q` from where `p` ended. */
  lemma {:induction false} WalkAppend(data: Value, p: seq<string>, q: seq<string>)
    ensures Walk(data, p + q) == match Walk(data, p) case None => None case Some(v) => Walk(v, q)
    decreases |p|
  {
    if p != [] {
      assert (p + q)[0] == p[0] && (p + q)[1..] == p[1..] + q;
      if data.VDict? && p[0] in data.entries {
        WalkAppend(data.entries[p[0]], p[1..], q);
      }
    } else {
      assert p + q == q;
    }
  }

  /** One step: what the walk of `path[..i]` reached, indexed by `path[i]`. */
  predicate StepOk(data: Value, path: seq<string>, i: int)
    requires 0 <= i < |path|
  {
    var v := Walk(data, path[..i]);
    v.Some? && v.value.VDict? && path[i] in v.value.entries
  }

  /** The walk fails exactly at the first key that is missing or that meets a value
      which is not a mapping. */
  lemma {:induction false} WalkFails(data: Value, path: seq<string>)
    ensures Walk(data, path).None? <==>
      exists i :: 0 <= i < |path| && Walk(data, path[..i]).Some? && !StepOk(data, path, i)
  {
    if Walk(data, path).None? {
      var i := FirstFailingStep(data, path);
      assert Walk(data, path[..i]).Some?;
    } else {
      forall i | 0 <= i < |path| && Walk(data, path[..i]).Some? ensures StepOk(data, path, i) {
        assert path == path[..i] + [path[i]] + path[i + 1..];
        WalkAppend(data, path[..i], [path[i]] + path[i + 1..]);
        assert path[..i] + ([path[i]] + path[i + 1..]) == path;
      }
    }
  }

  /** The position where a failing walk stops. */
  lemma {:induction false} FirstFailingStep(data: Value, path: seq<string>) returns (i: int)
    requires Walk(data, path).None?
    ensures 0 <= i < |path| && Walk(data, path[..i]).Some? && !StepOk(data, path, i)
    decreases |path|
  {
    assert path[..0] == [];
    if data.VDict? && path[0] in data.entries {
      var j := FirstFailingStep(data.entries[path[0]], path[1..]);
      i := j + 1;
      assert path[..i] == [path[0]] + path[1..][..j];
      assert Walk(data, path[..i]) == Walk(data.entries[path[0]], path[1..][..j]);
      assert path[i] == path[1..][j];
    } else {
      i := 0;
    }
  }

  /** `lookup_path(data, path, copy=copy, default=default)`. */
  method LookupPath(data: map<string, Value>, path: seq<string>, copy: bool, default: Value) returns (r: Value)
    ensures r == Reached(data, path, default)
  {
    var cur := VDict(data);
    var i := 0;
    while i < |path|
      invariant 0 <= i <= |path|
      invariant Walk(VDict(data), path) == Walk(cur, path[i..])
    {
      var key := path[i];
      assert path[i..][0] == key && path[i..][1..] == path[i + 1..];
      if cur.VDict? {
        if key in cur.entries {
          cur := cur.entries[key];
        } else {
          return default;
        }
      } else {
        return default;
      }
      i := i + 1;
    }
    if copy && cur.VDict? {
      var copied := MappingCopy(cur.entries);
      return VDict(copied);
    }
    return cur;
  }

  /** `lookup(data, field, sep=sep, copy=copy, default=default)`; the separator is a
      single character. Without a field the data itself comes back. */
  method Lookup(data: map<string, Value>, field: Option<string>, sep: char, copy: bool, default: Value) returns (r: Value)
    ensures field.None? ==> r == VDict(data)
    ensures field.Some? ==> r == Reached(data, Split(field.value, sep), default)
  {
    if field.None? {
      if copy {
        var copied := MappingCopy(data);
        return VDict(copied);
      }
      return VDict(data);
    }
    var path := Split(field.value, sep);
    r := LookupPath(data, path, copy, default);
  }

  /** A path whose keys do not contain the separator can be given to `lookup` as the
      keys joined by the separator: the result is the same as `lookup_path`'s. */
  lemma LookupJoined(data: map<string, Value>, path: seq<string>, sep: char, default: Value)
    requires |path| >= 1
    requires forall k :: 0 <= k < |path| ==> sep !in path[k]
    ensures Reached(data, Split(Join(path, sep), sep), default) == Reached(data, path, default)
  {
    SplitJoin(path, sep);
  }

  /** A client: the path ["model", "width"] reads the nested entry, and a path
      through a non-mapping gives the default. */
  method LookupNested(width: Value) returns (r: Value, missing: Value)
    ensures r == width && missing == VNone
  {
    var data := map["model" := VDict(map["width" := width]), "seed" := VInt(3)];
    assert "model" != "seed";
    assert data["model"] == VDict(map["width" := width]) && data["seed"] == VInt(3);
    assert ["model", "width"][1..] == ["width"] && ["width"][1..] == [];
    assert Walk(VDict(map["width" := width]), ["width"]) == Some(width);
    r := LookupPath(data, ["model", "width"], false, VNone);
    assert ["seed", "width"][0] == "seed";
    assert Walk(VDict(data), ["seed", "width"]) == Walk(VInt(3), ["width"]) == None;
    missing := LookupPath(data, ["seed", "width"], false, VNone);
  }
}

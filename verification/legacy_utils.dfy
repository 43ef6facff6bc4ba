/** The legacy nested lookup (`sucrose/utils.py`). Its `mapping_copy` is the same
    code as the current one and is modelled once, as `Utils.MappingCopy`. */
module LegacyUtils {
  import opened Wrappers
  import opened Text
  import opened Values
  import Utils

  /** `lookup(data, field, sep=sep, copy=copy, default=default)`: the field is always
      a string, split on the (single-character) separator and walked in one loop. */
  method Lookup(data: map<string, Value>, field: string, sep: char, copy: bool, default: Value) returns (r: Value)
    ensures r == Utils.Reached(data, Split(field, sep), default)
  {
    var path := Split(field, sep);
    var cur := VDict(data);
    var i := 0;
    while i < |path|
      invariant 0 <= i <= |path|
      invariant Utils.Walk(VDict(data), path) == Utils.Walk(cur, path[i..])
    {
      var key := path[i];
      assert path[i..][0] == key && path[i..][1..] == path[i + 1..];
      if cur.VDict? {
        if key in cur.entries {
          cur := cur.entries[key];
        } else {
          return default;
        }
      } else {
        return default;
      }
      i := i + 1;
    }
    if copy && cur.VDict? {
      var copied := Utils.MappingCopy(cur.entries);
      return VDict(copied);
    }
    return cur;
  }

  /** The legacy lookup and the current one agree on every string field. */
  method AgreesWithCurrent(data: map<string, Value>, field: string, sep: char, copy: bool, default: Value)
    returns (legacy: Value, current: Value)
    ensures legacy == current
  {
    legacy := Lookup(data, field, sep, copy, default);
    current := Utils.Lookup(data, Some(field), sep, copy, default);
  }
}

/** Checkpoint records (`src/sucrose/project/ckpt.py`): `save_state_dict_impl`
    assembles a record from keyword arguments and writes it unless it is empty;
    `load_state_dict_impl` reads a record back, feeds each requested component the
    entry under its key, and returns what is left. */
module Ckpt {
  import opened Wrappers
  import opened Values
  import opened Checkpoints

  /** A keyword argument given to `save_state_dict_impl`: an object supporting
      `state_dict()` (held here as the state it returns), or any other value. */
  datatype Item = Stateful(state: Value) | Plain(value: Value)

  /** What the record stores for one argument. */
  function Stored(it: Item): Value {
    match it
    case Stateful(s) => s
    case Plain(v) => v
  }

  /** The reference record for the given arguments: one entry per keyword. */
  function Record(items: map<string, Item>): (rec: map<string, Value>)
    ensures rec.Keys == items.Keys
    ensures forall k :: k in items ==> rec[k] == Stored(items[k])
  {
    map k | k in items :: Stored(items[k])
  }

  /** `os.path.join(ckpts_dir, file)` names a file directly inside the checkpoint
      directory. A name holding "/" lies in a subdirectory, which `_save_pt_file`
      does not create and `os.listdir` does not list; the directory modelled here
      has no subdirectories. */
  predicate InDir(file: string) {
    '/' !in file
  }

  datatype SaveError =
    | NoParentDir(file: string) // the write fails: the file's parent directory does not exist

  /** Whether `save_state_dict_impl(dir, file, **items)` raises: only a non-empty
      record is written, and it cannot be written under a name outside the
      directory. */
  predicate SaveFails(file: string, items: map<string, Item>) {
    items != map[] && !InDir(file)
  }

  /** The directory after `save_state_dict_impl(dir, file, **items)`. The directory is
      made before the write, so it exists even when the write then fails. */
  function SaveOutcome(dir: CkptDir, file: string, items: map<string, Item>): (d: CkptDir)
    ensures items == map[] ==> d == dir
    ensures items != map[] ==> d.present
    ensures items != map[] && InDir(file) ==> d.files.Keys == dir.files.Keys + {file}
    ensures items != map[] && InDir(file) ==> d.files[file] == VDict(Record(items))
    ensures !InDir(file) ==> d.files == dir.files
    ensures forall n :: n in dir.files && n != file ==> n in d.files && d.files[n] == dir.files[n]
  {
    if items == map[] then dir
    else if InDir(file) then Write(dir, file, VDict(Record(items)))
    else CkptDir(true, dir.files)
  }

  /** `save_state_dict_impl(ckpts_dir, ckpt_file, **state_dict)`: the record is
      assembled key by key, and nothing is written when it is empty. */
  method SaveStateDictImpl(dir: CkptDir, file: string, items: map<string, Item>)
    returns (d: CkptDir, r: Result<(), SaveError>)
    ensures d == SaveOutcome(dir, file, items)
    ensures r.Failure? <==> SaveFails(file, items)
    ensures r.Failure? ==> r.error == NoParentDir(file)
  {
    var dataToSave: map<string, Value> := map[];
    var keys := items.Keys;
    while keys != {}
      invariant keys <= items.Keys
      invariant dataToSave.Keys == items.Keys - keys
      invariant forall k :: k in dataToSave ==> dataToSave[k] == Stored(items[k])
      decreases keys
    {
      var key :| key in keys;
      if items[key].Stateful? {
        dataToSave := dataToSave[key := items[key].state];
      } else {
        dataToSave := dataToSave[key := items[key].value];
      }
      keys := keys - {key};
    }
    assert dataToSave == Record(items);
    if |dataToSave| > 0 {
      d := CkptDir(true, dir.files);
      if !InDir(file) {
        return d, Failure(NoParentDir(file));
      }
      d := Write(d, file, VDict(dataToSave));
    } else {
      assert items == map[];
      d := dir;
    }
    r := Success(());
  }

  datatype LoadError =
    | FileNotFound(file: string) // FileNotFoundError from `_load_pt_file`
    | NotADict                   // TypeError: the stored value is not a dict

  /** `_load_pt_file`: the stored value, or FileNotFoundError when there is no such
      file; a name outside the directory is never found. */
  function LoadFile(dir: CkptDir, file: string): (r: Result<Value, LoadError>)
    ensures r.Success? <==> dir.present && InDir(file) && file in dir.files
    ensures r.Success? ==> r.value == dir.files[file]
    ensures r.Failure? ==> r.error == FileNotFound(file)
  {
    if dir.present && InDir(file) && file in dir.files then Success(dir.files[file]) else Failure(FileNotFound(file))
  }

  /** What a load hands out: the entry each component was fed, and the extras. */
  datatype Loaded = Loaded(fed: map<string, Value>, extras: map<string, Value>)

  /** The reference outcome of `load_state_dict_impl(dir, file, **components)`. The
      shape is checked before any component is fed; each component whose key is in
      the record is fed that entry, and the extras are the record without those
      entries. */
  function LoadOutcome(dir: CkptDir, file: string, components: set<string>): (r: Result<Loaded, LoadError>)
    ensures LoadFile(dir, file).Failure? ==> r == Failure(FileNotFound(file))
    ensures LoadFile(dir, file).Success? && !LoadFile(dir, file).value.VDict? ==> r == Failure(NotADict)
    ensures r.Success? ==> LoadFile(dir, file).Success? && LoadFile(dir, file).value.VDict?
    ensures r.Success? ==> var rec := dir.files[file].entries;
      && r.value.fed.Keys == rec.Keys * components
      && r.value.extras.Keys == rec.Keys - components
      && (forall k :: k in r.value.fed ==> r.value.fed[k] == rec[k])
      && (forall k :: k in r.value.extras ==> r.value.extras[k] == rec[k])
  {
    match LoadFile(dir, file)
    case Failure(e) => Failure(e)
    case Success(v) =>
      if !v.VDict? then Failure(NotADict)
      else Success(Loaded(map k | k in v.entries && k in components :: v.entries[k], v.entries - components))
  }

  /** `load_state_dict_impl(ckpts_dir, ckpt_file, **state_dict)`: entries are popped
      from the loaded dict one component at a time. */
  method LoadStateDictImpl(dir: CkptDir, file: string, components: set<string>) returns (r: Result<Loaded, LoadError>)
    ensures r == LoadOutcome(dir, file, components)
  {
    var loaded := LoadFile(dir, file);
    if loaded.Failure? {
      return Failure(loaded.error);
    }
    if !loaded.value.VDict? {
      return Failure(NotADict);
    }
    var dataLoaded := loaded.value.entries;
    var fed: map<string, Value> := map[];
    var keys := components;
    while keys != {}
      invariant keys <= components
      invariant dataLoaded == loaded.value.entries - (components - keys)
      invariant fed.Keys == loaded.value.entries.Keys * (components - keys)
      invariant forall k :: k in fed ==> fed[k] == loaded.value.entries[k]
      decreases keys
    {
      var key :| key in keys;
      if key in dataLoaded {
        fed := fed[key := dataLoaded[key]];
        dataLoaded := dataLoaded - {key};
      }
      keys := keys - {key};
    }
    var entries := loaded.value.entries;
    assert components - keys == components;
    assert fed == map k | k in entries && k in components :: entries[k];
    return Success(Loaded(fed, dataLoaded));
  }

  /** A record written by a save is read back by a load of the same file: every
      component is fed what was stored under its key, and the extras are the other
      stored entries. A name outside the directory was never written, and is not
      found. */
  lemma SaveThenLoad(dir: CkptDir, file: string, items: map<string, Item>, components: set<string>)
    requires items != map[]
    ensures var r := LoadOutcome(SaveOutcome(dir, file, items), file, components);
      && (!InDir(file) ==> r == Failure(FileNotFound(file)))
      && (InDir(file) ==>
            && r.Success?
            && r.value.fed.Keys == items.Keys * components
            && r.value.extras.Keys == items.Keys - components
            && (forall k :: k in r.value.fed ==> r.value.fed[k] == Stored(items[k]))
            && (forall k :: k in r.value.extras ==> r.value.extras[k] == Stored(items[k])))
  {
    var d := SaveOutcome(dir, file, items);
    if InDir(file) {
      assert LoadFile(d, file) == Success(VDict(Record(items)));
    }
  }

  /** The fed entries and the extras split the record: together they are all of it,
      and no key is in both. */
  lemma LoadPartitions(dir: CkptDir, file: string, components: set<string>)
    requires LoadOutcome(dir, file, components).Success?
    ensures var l := LoadOutcome(dir, file, components).value;
      && l.fed.Keys !! l.extras.Keys
      && l.fed + l.extras == dir.files[file].entries
  {
    var l := LoadOutcome(dir, file, components).value;
    var rec := dir.files[file].entries;
    assert (l.fed + l.extras).Keys == rec.Keys;
  }
}

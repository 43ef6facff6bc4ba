/** The legacy project (`Project`, `sucrose/project/project.py`). It keeps no
    `LAST_EPOCH`: every save, load and `epoch_range` scans the checkpoint directory
    again. Its settings come from the loaded `config.json`; the record writer and
    reader it calls (`load_state_dict_impl`, `save_state_dict_impl` of
    `sucrose/project/ckpt.py`) are not part of this model, so a save hands back what
    it asks the writer to write, and a load takes the reader as a parameter. */
module LegacyProject {
  import opened Wrappers
  import opened Text
  import opened Values
  import opened Checkpoints
  import Utils
  import LegacyUtils
  import opened Runs

  /** `DEFAULT_EPOCH_PREFIX` and `DEFAUTL_CKPTS_EXT`, which the constructor falls back
      on. */
  const DefaultEpochPrefix := "e"
  const DefaultCkptsExt := ".pt"

  /** The `fields` argument of `config(fields, sep=..., default=...)`. */
  datatype Fields =
    | NoField                          // None: the whole configuration
    | FieldStr(field: string)          // a str, split on `sep`
    | FieldIterable(path: seq<string>) // any other iterable of keys
    | FieldOther                       // anything else

  /** The arguments of the call `save_state_dict_impl(dir, file, step, extra_kwds=...,
      **state_dict)`. */
  datatype SaveRequest = SaveRequest(file: string, step: Option<int>, extras: map<string, Value>, items: map<string, Value>)

  /** What `load_state_dict_impl` returns for a file name: the extra data and the
      step it read. */
  type Reader = string -> (map<string, Value>, Value)

  class Project {
    const project: string
    var configData: map<string, Value>
    const epochPrefix: string
    const ckptsExt: string
    var step: int
    var localEpoch: int

    /** The state `__init__` leaves behind, once the settings have been read. */
    constructor (project: string, configData: map<string, Value>, epochPrefix: string, ckptsExt: string)
      ensures this.project == project && this.configData == configData
      ensures this.epochPrefix == epochPrefix && this.ckptsExt == ckptsExt
      ensures step == 0 && localEpoch == 0
    {
      this.project := project;
      this.configData := configData;
      this.epochPrefix := epochPrefix;
      this.ckptsExt := ckptsExt;
      step := 0;
      localEpoch := 0;
    }

    /** `Project(work_dir, project)`, given the contents of `config.json` if it
        exists: the configuration starts empty and takes those entries, and the
        epoch prefix and the extension are read from `project/epoch_prefix` and
        `project/ckpts_ext` with defaults; each must be a string. */
    static method Open(project: string, loaded: Option<map<string, Value>>) returns (r: Result<Project, RunError>)
      ensures r.Success? ==> fresh(r.value)
      ensures var data := if loaded.Some? then loaded.value else map[];
        var prefix := Utils.Reached(data, ["project", "epoch_prefix"], VStr(DefaultEpochPrefix));
        var ext := Utils.Reached(data, ["project", "ckpts_ext"], VStr(DefaultCkptsExt));
        && (r.Success? <==> prefix.VStr? && ext.VStr?)
        && (!prefix.VStr? ==> r == Failure(NotAString("epoch_prefix")))
        && (prefix.VStr? && !ext.VStr? ==> r == Failure(NotAString("ckpts_ext")))
        && (r.Success? ==>
              && r.value.project == project && r.value.configData == data
              && VStr(r.value.epochPrefix) == prefix && VStr(r.value.ckptsExt) == ext
              && r.value.step == 0 && r.value.localEpoch == 0)
    {
      var data: map<string, Value> := map[];
      if loaded.Some? {
        data := data + loaded.value;
      }
      var prefix := Utils.LookupPath(data, ["project", "epoch_prefix"], false, VStr(DefaultEpochPrefix));
      if !prefix.VStr? {
        return Failure(NotAString("epoch_prefix"));
      }
      var ext := Utils.LookupPath(data, ["project", "ckpts_ext"], false, VStr(DefaultCkptsExt));
      if !ext.VStr? {
        return Failure(NotAString("ckpts_ext"));
      }
      var p := new Project(project, data, prefix.s, ext.s);
      return Success(p);
    }

    /** The scan pattern of line 114 is `Stem() + "([0-9]*)" + ckptsExt`. */
    function Stem(): string {
      project + "_" + epochPrefix
    }

    /** `_make_ckpt_name(epoch)`: project, "_", prefix, epoch, then the extension as
        it is (it carries its own dot). The scan reads a non-negative epoch back from
        the name, unless the extension starts with a digit. */
    function CkptName(epoch: int): (f: string)
      ensures |f| > |project| && f[..|project|] == project && f[|project|] == '_'
      ensures epoch >= 0 && (ckptsExt == [] || !IsDigit(ckptsExt[0])) ==>
        Classify(Stem(), ckptsExt, f) == Epoch(epoch)
    {
      var f := Stem() + IntToString(epoch) + ckptsExt;
      assert f[..|project|] == project;
      if epoch >= 0 && (ckptsExt == [] || !IsDigit(ckptsExt[0])) then MatchOwnName(Stem(), ckptsExt, epoch); f else f
    }

    /** The `CONFIG` property hands out the project's own dict, not a copy: what it
        returns is the configuration the project holds, and writes through it reach
        the project (see `ConfigWritesThrough`). */
    function Config(): (c: map<string, Value>)
      reads this
      ensures c == configData
    {
      configData
    }

    /** `CONFIG[key] = v`: an item assignment into the dict `CONFIG` returned, which is
        the project's own. */
    method SetConfigItem(key: string, v: Value)
      modifies this
      ensures configData == old(Config())[key := v]
      ensures step == old(step) && localEpoch == old(localEpoch)
    {
      configData := Config()[key := v];
    }

    /** `config(fields, sep=sep, default=default)`: a str or None goes to `lookup`, any
        other iterable to `lookup_path`, both copying; anything else is a TypeError.
        The `lookup` imported here is the legacy one, which splits its field, so
        None is an AttributeError. */
    method ConfigQuery(fields: Fields, sep: char, default: Value) returns (r: Result<Value, RunError>)
      ensures fields.NoField? ==> r == Failure(FieldIsNone)
      ensures fields.FieldStr? ==> r == Success(Utils.Reached(configData, Split(fields.field, sep), default))
      ensures fields.FieldIterable? ==> r == Success(Utils.Reached(configData, fields.path, default))
      ensures fields.FieldOther? ==> r == Failure(BadFields)
    {
      match fields
      case NoField =>
        r := Failure(FieldIsNone);
      case FieldStr(f) =>
        var v := LegacyUtils.Lookup(configData, f, sep, true, default);
        r := Success(v);
      case FieldIterable(path) =>
        var v := Utils.LookupPath(configData, path, true, default);
        r := Success(v);
      case FieldOther =>
        r := Failure(BadFields);
    }

    /** `step(num)` */
    method Step(num: int)
      modifies this
      ensures step == old(step) + num
      ensures localEpoch == old(localEpoch) && configData == old(configData)
    {
      step := step + num;
    }

    /** The `num_steps` setter. */
    method SetNumSteps(v: Value) returns (r: Result<(), RunError>)
      modifies this
      ensures r.Success? <==> IsInt(v)
      ensures r.Failure? ==> r.error == NotAnInt && step == old(step)
      ensures r.Success? ==> step == AsInt(v)
      ensures localEpoch == old(localEpoch) && configData == old(configData)
    {
      var s := StepValue(v);
      if s.Failure? {
        return Failure(s.error);
      }
      step := s.value;
      return Success(());
    }

    /** The `find_latest_epoch()` method: the scan over the project's own pattern. */
    method FindLatestEpoch(dir: CkptDir) returns (r: Result<nat, RunError>)
      ensures r.Failure? <==> dir.present && exists n :: n in dir.files && Classify(Stem(), ckptsExt, n) == EmptyGroup
      ensures r.Failure? ==> r.error.Scan?
      ensures r.Success? ==> r.value == Latest(dir, Stem(), ckptsExt)
    {
      var latest := Checkpoints.FindLatestEpoch(dir, Stem(), ckptsExt);
      if latest.Failure? {
        return Failure(Scan(latest.error));
      }
      return Success(latest.value);
    }

    /** `epoch_range(num)`: the epochs from the latest one on disk. */
    method EpochRange(dir: CkptDir, num: int) returns (r: Result<seq<int>, RunError>)
      ensures r.Failure? <==> dir.present && exists n :: n in dir.files && Classify(Stem(), ckptsExt, n) == EmptyGroup
      ensures r.Success? ==> r.value == PyRange(Latest(dir, Stem(), ckptsExt), num)
    {
      var start := FindLatestEpoch(dir);
      if start.Failure? {
        return Failure(start.error);
      }
      return Success(PyRange(start.value, num));
    }

    /** `load_state_dict(epoch, **state_dict)`: `target` is the epoch whose file is
        read, the given one or else the latest on disk. The step the reader returns
        is always assigned through the setter, so a record read without a step (None)
        is a TypeError. */
    method LoadStateDict(dir: CkptDir, epoch: Option<int>, reader: Reader)
      returns (target: int, r: Result<map<string, Value>, RunError>)
      modifies this
      ensures localEpoch == old(localEpoch) && configData == old(configData)
      ensures epoch.Some? ==> target == epoch.value
      ensures epoch.None? && !(r.Failure? && r.error.Scan?) ==> target == Latest(dir, Stem(), ckptsExt)
      ensures r.Failure? && r.error.Scan? ==> epoch.None? && step == old(step)
      ensures !(r.Failure? && r.error.Scan?) ==> var (extra, stepRead) := reader(CkptName(target));
        && (IsInt(stepRead) ==> r == Success(extra) && step == AsInt(stepRead))
        && (!IsInt(stepRead) ==> r == Failure(NotAnInt) && step == old(step))
    {
      if epoch.Some? {
        target := epoch.value;
      } else {
        var latest := FindLatestEpoch(dir);
        if latest.Failure? {
          return 0, Failure(latest.error);
        }
        target := latest.value;
      }
      var fileName := CkptName(target);
      var (extraData, stepRead) := reader(fileName);
      var stepSet := SetNumSteps(stepRead);
      if stepSet.Failure? {
        return target, Failure(stepSet.error);
      }
      r := Success(extraData);
    }

    /** `save_state_dict(interval, save_step=..., extra_kwds=..., **state_dict)`: the
        pending count moves as the gate says; when it fires, the epoch is the latest
        on disk plus the interval, and the writer is asked for that file with the
        step count if `save_step`, else None. Nothing else is stored. */
    method SaveStateDict(dir: CkptDir, interval: int, saveStep: bool, extras: map<string, Value>, items: map<string, Value>)
      returns (r: Result<Option<SaveRequest>, RunError>)
      modifies this
      ensures var (pending, saved) := PendingGate(old(localEpoch), interval);
        && localEpoch == pending
        && (!saved ==> r == Success(None))
        && (saved ==> (r.Failure? <==> dir.present && exists n :: n in dir.files && Classify(Stem(), ckptsExt, n) == EmptyGroup))
        && (saved && r.Success? ==>
              r.value == Some(SaveRequest(CkptName(Latest(dir, Stem(), ckptsExt) + interval), if saveStep then Some(step) else None, extras, items)))
      ensures step == old(step) && configData == old(configData)
    {
      localEpoch := localEpoch + 1;
      if localEpoch < interval {
        return Success(None);
      }
      localEpoch := 0;
      var latest := FindLatestEpoch(dir);
      if latest.Failure? {
        return Failure(latest.error);
      }
      var e := latest.value + interval;
      var fileName := CkptName(e);
      var stepSaved := if saveStep then Some(step) else None;
      return Success(Some(SaveRequest(fileName, stepSaved, extras, items)));
    }

    /** `__del__` warns exactly when saves are still pending. */
    function PendingWarning(): (warn: bool)
      reads this
      ensures warn <==> localEpoch != 0
    {
      localEpoch != 0
    }
  }

  /** Unlike the flat project's copy, a write into `CONFIG` is seen by every later
      `config()` query of the project. */
  method ConfigWritesThrough(p: Project, key: string, v: Value) returns (r: Result<Value, RunError>)
    requires '.' !in key
    modifies p
    ensures p.Config() == old(p.Config())[key := v]
    ensures r == Success(v)
  {
    p.SetConfigItem(key, v);
    assert IndexOf(key, '.') == -1;
    assert Split(key, '.') == [key];
    assert [key][1..] == [];
    r := p.ConfigQuery(FieldStr(key), '.', VNone);
    assert key in p.configData && p.configData[key] == v;
    assert Utils.Walk(VDict(p.configData), [key]) == Utils.Walk(v, []) == Some(v);
  }

  /** With nothing written in between, two saves that fire give the same request:
      the epoch is not remembered, only recomputed from the unchanged disk. */
  method SavesRepeatWithoutWrites(p: Project, dir: CkptDir, extras: map<string, Value>, items: map<string, Value>)
    returns (first: Result<Option<SaveRequest>, RunError>, second: Result<Option<SaveRequest>, RunError>)
    requires p.localEpoch >= 0
    modifies p
    ensures first.Success? <==> second.Success?
    ensures first.Success? ==> first == second && first.value.Some?
  {
    first := p.SaveStateDict(dir, 1, true, extras, items);
    second := p.SaveStateDict(dir, 1, true, extras, items);
  }
}

/** A training run (`Scenario`, `src/sucrose/project/scenario.py`). Its settings are
    read from the configuration's meta domain; it counts finished steps, the saves
    still pending (`_local_epoch`) and the epoch of the last checkpoint
    (`LAST_EPOCH`). The checkpoint directory is passed in and handed back. */
module ScenarioRun {
  import opened Wrappers
  import opened Text
  import opened Values
  import Configs
  import opened Checkpoints
  import Ckpt
  import opened Runs

  /** All five settings are found in the meta domain, and the extension is a string. */
  predicate SettingsFound(config: Configs.ConfigTree, metaDomain: string) {
    && Configs.Lookup(config, metaDomain, "ckpts_folder").Success?
    && Configs.Lookup(config, metaDomain, "logs_folder").Success?
    && Configs.Lookup(config, metaDomain, "epoch_prefix").Success?
    && Configs.Lookup(config, metaDomain, "ckpts_extension").Success?
    && Configs.Lookup(config, metaDomain, "ckpts_extension").value.VStr?
    && Configs.Lookup(config, metaDomain, "step_key").Success?
  }

  /** The settings are found, and the epoch prefix and the step key are strings too. */
  predicate SettingsRead(config: Configs.ConfigTree, metaDomain: string) {
    && SettingsFound(config, metaDomain)
    && Configs.Lookup(config, metaDomain, "epoch_prefix").value.VStr?
    && Configs.Lookup(config, metaDomain, "step_key").value.VStr?
  }

  /** The part of the scan pattern of line 97 before the digit group. */
  function ScanStem(name: string, config: Configs.ConfigTree, metaDomain: string): string
    requires SettingsRead(config, metaDomain)
  {
    Replace(name, '/', '_') + "_" + Configs.Lookup(config, metaDomain, "epoch_prefix").value.s
  }

  /** The part of the scan pattern of line 97 after the digit group. */
  function ScanTail(config: Configs.ConfigTree, metaDomain: string): string
    requires SettingsRead(config, metaDomain)
  {
    "." + LStrip(Configs.Lookup(config, metaDomain, "ckpts_extension").value.s, '.')
  }

  class Scenario {
    const name: string
    const config: Configs.ConfigTree
    const ckptsFolder: Value
    const logsFolder: Value
    const epochPrefix: string
    const ckptsExt: string
    const stepKey: string
    var lastEpoch: int
    var step: int
    var localEpoch: int

    /** The state `__init__` leaves behind, once the settings have been looked up and
        the latest epoch scanned. */
    constructor (name: string, config: Configs.ConfigTree, ckptsFolder: Value, logsFolder: Value,
                 epochPrefix: string, ckptsExt: string, stepKey: string, lastEpoch: int)
      ensures this.name == name && this.config == config
      ensures this.ckptsFolder == ckptsFolder && this.logsFolder == logsFolder
      ensures this.epochPrefix == epochPrefix && this.ckptsExt == ckptsExt && this.stepKey == stepKey
      ensures this.lastEpoch == lastEpoch && step == 0 && localEpoch == 0
    {
      this.name := name;
      this.config := config;
      this.ckptsFolder := ckptsFolder;
      this.logsFolder := logsFolder;
      this.epochPrefix := epochPrefix;
      this.ckptsExt := ckptsExt;
      this.stepKey := stepKey;
      this.lastEpoch := lastEpoch;
      step := 0;
      localEpoch := 0;
    }

    /** The pattern of line 97 is `Stem() + "([0-9]*)" + Tail()`. */
    function Stem(): string {
      Replace(name, '/', '_') + "_" + epochPrefix
    }

    function Tail(): string {
      "." + ckptsExt
    }

    /** `_make_ckpt_name(epoch)`: the name with "/" replaced by "_", then "_", the
        epoch prefix, the epoch and the extension. The scan reads a non-negative
        epoch back from its own file name. */
    function CkptName(epoch: int): (f: string)
      ensures |f| > |name| && f[|name|] == '_'
      ensures forall k :: 0 <= k < |name| ==> f[k] == (if name[k] == '/' then '_' else name[k])
      ensures '/' !in f[..|name|]
      ensures epoch >= 0 ==> Classify(Stem(), Tail(), f) == Epoch(epoch)
      ensures '/' in f <==> '/' in epochPrefix || '/' in ckptsExt
    {
      ReplaceRemoves(name, '/', '_');
      var f := Stem() + IntToString(epoch) + Tail();
      assert f[..|name|] == Replace(name, '/', '_');
      if epoch >= 0 then MatchOwnName(Stem(), Tail(), epoch); f else f
    }

    /** `Scenario(work_dir, name, meta_domain=...)` over the loaded configuration and
        the checkpoint directory. The five settings are looked up in the meta domain
        in order, and the first failing lookup's error propagates. A non-string
        extension fails its `lstrip`. `LAST_EPOCH` is the latest epoch on disk, and
        the scan's ValueError propagates. */
    static method Open(config: Configs.ConfigTree, name: string, metaDomain: string, dir: CkptDir)
      returns (r: Result<Scenario, RunError>)
      ensures !Configs.ValidTree(config) ==> r == Failure(Config(Configs.InvalidDomain))
      // the failing steps, in the order `__init__` takes them
      ensures Configs.Lookup(config, metaDomain, "ckpts_folder").Failure? ==>
        r == Failure(Config(Configs.Lookup(config, metaDomain, "ckpts_folder").error))
      ensures (Configs.Lookup(config, metaDomain, "ckpts_folder").Success?
        && Configs.Lookup(config, metaDomain, "logs_folder").Failure?) ==>
        r == Failure(Config(Configs.Lookup(config, metaDomain, "logs_folder").error))
      ensures (Configs.Lookup(config, metaDomain, "ckpts_folder").Success?
        && Configs.Lookup(config, metaDomain, "logs_folder").Success?
        && Configs.Lookup(config, metaDomain, "epoch_prefix").Failure?) ==>
        r == Failure(Config(Configs.Lookup(config, metaDomain, "epoch_prefix").error))
      ensures (Configs.Lookup(config, metaDomain, "ckpts_folder").Success?
        && Configs.Lookup(config, metaDomain, "logs_folder").Success?
        && Configs.Lookup(config, metaDomain, "epoch_prefix").Success?
        && Configs.Lookup(config, metaDomain, "ckpts_extension").Failure?) ==>
        r == Failure(Config(Configs.Lookup(config, metaDomain, "ckpts_extension").error))
      ensures (Configs.Lookup(config, metaDomain, "ckpts_folder").Success?
        && Configs.Lookup(config, metaDomain, "logs_folder").Success?
        && Configs.Lookup(config, metaDomain, "epoch_prefix").Success?
        && Configs.Lookup(config, metaDomain, "ckpts_extension").Success?
        && !Configs.Lookup(config, metaDomain, "ckpts_extension").value.VStr?) ==>
        r == Failure(NotAString("ckpts_extension"))
      ensures (Configs.Lookup(config, metaDomain, "ckpts_folder").Success?
        && Configs.Lookup(config, metaDomain, "logs_folder").Success?
        && Configs.Lookup(config, metaDomain, "epoch_prefix").Success?
        && Configs.Lookup(config, metaDomain, "ckpts_extension").Success?
        && Configs.Lookup(config, metaDomain, "ckpts_extension").value.VStr?
        && Configs.Lookup(config, metaDomain, "step_key").Failure?) ==>
        r == Failure(Config(Configs.Lookup(config, metaDomain, "step_key").error))
      ensures (SettingsFound(config, metaDomain)
        && !Configs.Lookup(config, metaDomain, "epoch_prefix").value.VStr?) ==>
        r == Failure(NotAString("epoch_prefix"))
      ensures (SettingsFound(config, metaDomain)
        && Configs.Lookup(config, metaDomain, "epoch_prefix").value.VStr?
        && !Configs.Lookup(config, metaDomain, "step_key").value.VStr?) ==>
        r == Failure(NotAString("step_key"))
      // with every setting read, only the scan can fail
      ensures SettingsRead(config, metaDomain) ==>
        (r.Failure? <==> dir.present && exists n :: (n in dir.files
           && Classify(ScanStem(name, config, metaDomain), ScanTail(config, metaDomain), n) == EmptyGroup))
      ensures SettingsRead(config, metaDomain) && r.Failure? ==> r.error.Scan?
      ensures r.Success? ==> SettingsRead(config, metaDomain)
      ensures r.Success? ==> fresh(r.value)
      ensures r.Success? ==> var s := r.value;
        && s.name == name && s.config == config
        && Configs.Lookup(config, metaDomain, "ckpts_folder") == Success(s.ckptsFolder)
        && Configs.Lookup(config, metaDomain, "logs_folder") == Success(s.logsFolder)
        && Configs.Lookup(config, metaDomain, "epoch_prefix") == Success(VStr(s.epochPrefix))
        && s.ckptsExt == LStrip(Configs.Lookup(config, metaDomain, "ckpts_extension").value.s, '.')
        && Configs.Lookup(config, metaDomain, "step_key") == Success(VStr(s.stepKey))
        && s.step == 0 && s.localEpoch == 0
        && s.lastEpoch == Latest(dir, s.Stem(), s.Tail())
    {
      var ckptsFolder := Configs.Lookup(config, metaDomain, "ckpts_folder");
      if ckptsFolder.Failure? {
        return Failure(Config(ckptsFolder.error));
      }
      var logsFolder := Configs.Lookup(config, metaDomain, "logs_folder");
      if logsFolder.Failure? {
        return Failure(Config(logsFolder.error));
      }
      var epochPrefix := Configs.Lookup(config, metaDomain, "epoch_prefix");
      if epochPrefix.Failure? {
        return Failure(Config(epochPrefix.error));
      }
      var ckptsExt := Configs.Lookup(config, metaDomain, "ckpts_extension");
      if ckptsExt.Failure? {
        return Failure(Config(ckptsExt.error));
      }
      if !ckptsExt.value.VStr? {
        return Failure(NotAString("ckpts_extension"));
      }
      var stepKey := Configs.Lookup(config, metaDomain, "step_key");
      if stepKey.Failure? {
        return Failure(Config(stepKey.error));
      }
      if !epochPrefix.value.VStr? {
        return Failure(NotAString("epoch_prefix"));
      }
      if !stepKey.value.VStr? {
        return Failure(NotAString("step_key"));
      }
      var ext := LStrip(ckptsExt.value.s, '.');
      var latest := FindLatestEpoch(dir, ScanStem(name, config, metaDomain), ScanTail(config, metaDomain));
      if latest.Failure? {
        return Failure(Scan(latest.error));
      }
      var s := new Scenario(name, config, ckptsFolder.value, logsFolder.value,
                            epochPrefix.value.s, ext, stepKey.value.s, latest.value);
      return Success(s);
    }

    /** `get_config(field, default)`: the value the nearest defining domain holds, the
        default when no domain on the chain defines the field; only the ValueError of
        an invalid configuration escapes. */
    function GetConfig(field: string, default: Value): (r: Result<Value, Configs.ConfigError>)
      ensures r.Failure? <==> !Configs.ValidTree(config)
      ensures Configs.Lookup(config, name, field).Success? ==> r == Configs.Lookup(config, name, field)
      ensures Configs.ValidTree(config) &&
        (forall k :: 0 <= k < |Configs.Chain(name)| ==> !Configs.DefinedAt(config, Configs.Chain(name)[k], field))
        ==> r == Success(default)
    {
      match Configs.Lookup(config, name, field)
      case Success(v) => Success(v)
      case Failure(e) => if e.FieldNotFound? then Success(default) else Failure(e)
    }

    /** `step(num)` */
    method Step(num: int)
      modifies this
      ensures step == old(step) + num
      ensures lastEpoch == old(lastEpoch) && localEpoch == old(localEpoch)
    {
      step := step + num;
    }

    /** The `num_steps` setter. */
    method SetNumSteps(v: Value) returns (r: Result<(), RunError>)
      modifies this
      ensures r.Success? <==> IsInt(v)
      ensures r.Failure? ==> r.error == NotAnInt && step == old(step)
      ensures r.Success? ==> step == AsInt(v)
      ensures lastEpoch == old(lastEpoch) && localEpoch == old(localEpoch)
    {
      var s := StepValue(v);
      if s.Failure? {
        return Failure(s.error);
      }
      step := s.value;
      return Success(());
    }

    /** `epoch_range(num)`: the epochs from `LAST_EPOCH` on. */
    function EpochRange(num: int): (r: seq<int>)
      reads this
      ensures r == PyRange(lastEpoch, num)
    {
      PyRange(lastEpoch, num)
    }

    /** `__del__` warns exactly when saves are still pending. */
    function PendingWarning(): (warn: bool)
      reads this
      ensures warn <==> localEpoch != 0
    {
      localEpoch != 0
    }

    /** `save_state_dict(interval, save_step=..., **state_dict)`: the counters move as
        the save gate says; when it fires, the step key is reserved (the ValueError
        comes after the counters have moved), the step count is added under it, and
        the record is written as the file for the new `LAST_EPOCH`; a file name
        holding "/" cannot be written, and that failure also comes after the
        counters have moved. */
    method SaveStateDict(dir: CkptDir, interval: int, saveStep: bool, items: map<string, Ckpt.Item>)
      returns (d: CkptDir, r: Result<(), RunError>)
      modifies this
      ensures var (c, saved) := SaveGate(Counters(old(localEpoch), old(lastEpoch)), interval);
        && localEpoch == c.pending && lastEpoch == c.lastEpoch
        && (!saved ==> d == dir && r == Success(()))
        && (saved && saveStep && stepKey in items ==> d == dir && r == Failure(ReservedKey(stepKey)))
        && (saved && !(saveStep && stepKey in items) ==>
              var file := CkptName(lastEpoch);
              var rec := if saveStep then items[stepKey := Ckpt.Plain(VInt(step))] else items;
              && d == Ckpt.SaveOutcome(dir, file, rec)
              && (!Ckpt.SaveFails(file, rec) ==> r == Success(()))
              && (Ckpt.SaveFails(file, rec) ==> r == Failure(Save(Ckpt.NoParentDir(file)))))
      ensures step == old(step)
    {
      localEpoch := localEpoch + 1;
      if localEpoch < interval {
        return dir, Success(());
      }
      localEpoch := 0;
      lastEpoch := lastEpoch + interval;
      var fileName := CkptName(lastEpoch);
      var stateDict := items;
      if saveStep {
        if stepKey in stateDict {
          return dir, Failure(ReservedKey(stepKey));
        }
        stateDict := stateDict[stepKey := Ckpt.Plain(VInt(step))];
      }
      var written;
      d, written := Ckpt.SaveStateDictImpl(dir, fileName, stateDict);
      if written.Failure? {
        return d, Failure(Save(written.error));
      }
      r := Success(());
    }

    /** `load_state_dict(epoch, load_step=..., **state_dict)`: `fed` is what each
        component received. A missing file gives `{}` and changes nothing; the step
        is restored through the setter when asked for and present, and the extras
        returned still hold the step key. */
    method LoadStateDict(dir: CkptDir, epoch: Option<int>, loadStep: bool, components: set<string>)
      returns (fed: map<string, Value>, r: Result<map<string, Value>, RunError>)
      modifies this
      ensures lastEpoch == old(lastEpoch) && localEpoch == old(localEpoch)
      ensures var file := CkptName(epoch.GetOr(old(lastEpoch)));
        var out := Ckpt.LoadOutcome(dir, file, components);
        && (out.Failure? && out.error.FileNotFound? ==> fed == map[] && r == Success(map[]) && step == old(step))
        && (out.Failure? && out.error.NotADict? ==> fed == map[] && r == Failure(Load(Ckpt.NotADict)) && step == old(step))
        && (out.Success? ==> fed == out.value.fed)
        && (out.Success? && !(loadStep && stepKey in out.value.extras) ==>
              r == Success(out.value.extras) && step == old(step))
        && (out.Success? && loadStep && stepKey in out.value.extras ==>
              var v := out.value.extras[stepKey];
              && (IsInt(v) ==> r == Success(out.value.extras) && step == AsInt(v))
              && (!IsInt(v) ==> r == Failure(NotAnInt) && step == old(step)))
    {
      var e := if epoch.Some? then epoch.value else lastEpoch;
      var fileName := CkptName(e);
      var loaded := Ckpt.LoadStateDictImpl(dir, fileName, components);
      fed := map[];
      if loaded.Failure? {
        if loaded.error.FileNotFound? {
          return fed, Success(map[]);
        }
        return fed, Failure(Load(loaded.error));
      }
      fed := loaded.value.fed;
      var extraData := loaded.value.extras;
      if loadStep && stepKey in extraData {
        var stepSet := SetNumSteps(extraData[stepKey]);
        if stepSet.Failure? {
          return fed, Failure(stepSet.error);
        }
      }
      r := Success(extraData);
    }
  }

  /** A save followed by a load of the latest epoch: the component gets back the
      state it saved, the step count is restored, and the extras hold the step. */
  method SaveThenLoad(state: Value) returns (fed: map<string, Value>, r: Result<map<string, Value>, RunError>, steps: int)
    ensures fed == map["model" := state]
    ensures r == Success(map["step" := VInt(7)])
    ensures steps == 7
  {
    var s := new Scenario("exp/a", map[], VStr("ckpts"), VStr("logs"), "e", "pt", "step", 0);
    s.Step(7);
    var empty := CkptDir(false, map[]);
    var file := s.CkptName(1);
    assert Ckpt.InDir(file);
    var items := map["model" := Ckpt.Stateful(state), "step" := Ckpt.Plain(VInt(7))];
    var dir, saved := s.SaveStateDict(empty, 1, true, map["model" := Ckpt.Stateful(state)]);
    assert s.lastEpoch == 1;
    assert dir == Ckpt.SaveOutcome(empty, file, items);
    Ckpt.SaveThenLoad(empty, s.CkptName(1), items, {"model"});
    s.Step(3);
    fed, r := s.LoadStateDict(dir, None, true, {"model"});
    var out := Ckpt.LoadOutcome(dir, s.CkptName(1), {"model"});
    assert out.value.fed.Keys == {"model"};
    assert out.value.extras.Keys == {"step"};
    assert out.value.fed == map["model" := state];
    assert out.value.extras == map["step" := VInt(7)];
    steps := s.step;
  }
}

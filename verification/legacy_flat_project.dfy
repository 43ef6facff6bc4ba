/** The legacy flat project (`Project`, `sucrose/project.py`). Like the one in
    `sucrose/project/project.py` it recomputes the epoch from disk on every save and
    load; it differs in that its settings are constructor arguments, so it cannot
    fail to start, and its `CONFIG` is a copy. The record writer and reader it calls
    are not part of this model (`sucrose/ckpt.py` defines no `*_impl` functions), so
    a save hands back the writer's arguments and a load takes the reader as a
    parameter. */
module LegacyFlatProject {
  import opened Wrappers
  import opened Text
  import opened Values
  import opened Checkpoints
  import opened Runs
  import LegacyProject

  class Project {
    const project: string
    const epochPrefix: string
    const ckptsExt: string
    var configData: map<string, Value>
    var step: int
    var localEpoch: int

    /** `Project(work_dir, project, epoch_prefix=..., ckpts_ext=...)`, given the
        contents of `config.json` if it exists: a missing extension is ".pt", the
        counters start at 0 and the configuration holds the loaded entries. */
    constructor (project: string, epochPrefix: string, ckptsExt: Option<string>, loaded: Option<map<string, Value>>)
      ensures this.project == project && this.epochPrefix == epochPrefix
      ensures this.ckptsExt == if ckptsExt.Some? then ckptsExt.value else ".pt"
      ensures configData == if loaded.Some? then loaded.value else map[]
      ensures step == 0 && localEpoch == 0
    {
      this.project := project;
      this.epochPrefix := epochPrefix;
      this.ckptsExt := if ckptsExt.Some? then ckptsExt.value else ".pt";
      step := 0;
      localEpoch := 0;
      configData := map[];
      new;
      if loaded.Some? {
        configData := configData + loaded.value;
      }
    }

    function Stem(): string {
      project + "_" + epochPrefix
    }

    /** `_make_ckpt_name(epoch)`: project, "_", prefix, epoch, extension; the scan
        reads a non-negative epoch back unless the extension starts with a digit. */
    function CkptName(epoch: int): (f: string)
      ensures |f| > |project| && f[..|project|] == project && f[|project|] == '_'
      ensures epoch >= 0 && (ckptsExt == [] || !IsDigit(ckptsExt[0])) ==>
        Classify(Stem(), ckptsExt, f) == Epoch(epoch)
    {
      var f := Stem() + IntToString(epoch) + ckptsExt;
      assert f[..|project|] == project;
      if epoch >= 0 && (ckptsExt == [] || !IsDigit(ckptsExt[0])) then MatchOwnName(Stem(), ckptsExt, epoch); f else f
    }

    /** The `CONFIG` property: a (shallow) copy of the configuration. */
    method Config() returns (c: map<string, Value>)
      ensures c.Keys == configData.Keys
      ensures forall k :: k in c ==> c[k] == configData[k]
    {
      c := map[];
      var keys := configData.Keys;
      while keys != {}
        invariant keys <= configData.Keys
        invariant c.Keys == configData.Keys - keys
        invariant forall k :: k in c ==> c[k] == configData[k]
        decreases keys
      {
        var key :| key in keys;
        c := c[key := configData[key]];
        keys := keys - {key};
      }
    }

    /** `step(num)` */
    method Step(num: int)
      modifies this
      ensures step == old(step) + num
      ensures localEpoch == old(localEpoch) && configData == old(configData)
    {
      step := step + num;
    }

    /** The `num_steps` setter. */
    method SetNumSteps(v: Value) returns (r: Result<(), RunError>)
      modifies this
      ensures r.Success? <==> IsInt(v)
      ensures r.Failure? ==> r.error == NotAnInt && step == old(step)
      ensures r.Success? ==> step == AsInt(v)
      ensures localEpoch == old(localEpoch) && configData == old(configData)
    {
      var s := StepValue(v);
      if s.Failure? {
        return Failure(s.error);
      }
      step := s.value;
      return Success(());
    }

    /** The `find_latest_epoch()` method. */
    method FindLatestEpoch(dir: CkptDir) returns (r: Result<nat, RunError>)
      ensures r.Failure? <==> dir.present && exists n :: n in dir.files && Classify(Stem(), ckptsExt, n) == EmptyGroup
      ensures r.Failure? ==> r.error.Scan?
      ensures r.Success? ==> r.value == Latest(dir, Stem(), ckptsExt)
    {
      var latest := Checkpoints.FindLatestEpoch(dir, Stem(), ckptsExt);
      if latest.Failure? {
        return Failure(Scan(latest.error));
      }
      return Success(latest.value);
    }

    /** `epoch_range(num)`: the epochs from the latest one on disk. */
    method EpochRange(dir: CkptDir, num: int) returns (r: Result<seq<int>, RunError>)
      ensures r.Failure? <==> dir.present && exists n :: n in dir.files && Classify(Stem(), ckptsExt, n) == EmptyGroup
      ensures r.Success? ==> r.value == PyRange(Latest(dir, Stem(), ckptsExt), num)
    {
      var start := FindLatestEpoch(dir);
      if start.Failure? {
        return Failure(start.error);
      }
      return Success(PyRange(start.value, num));
    }

    /** `load_state_dict(epoch, **state_dict)`: reads the given epoch's file, or the
        latest on disk, and always assigns the step read through the setter. */
    method LoadStateDict(dir: CkptDir, epoch: Option<int>, reader: LegacyProject.Reader)
      returns (target: int, r: Result<map<string, Value>, RunError>)
      modifies this
      ensures localEpoch == old(localEpoch) && configData == old(configData)
      ensures epoch.Some? ==> target == epoch.value
      ensures epoch.None? && !(r.Failure? && r.error.Scan?) ==> target == Latest(dir, Stem(), ckptsExt)
      ensures r.Failure? && r.error.Scan? ==> epoch.None? && step == old(step)
      ensures !(r.Failure? && r.error.Scan?) ==> var (extra, stepRead) := reader(CkptName(target));
        && (IsInt(stepRead) ==> r == Success(extra) && step == AsInt(stepRead))
        && (!IsInt(stepRead) ==> r == Failure(NotAnInt) && step == old(step))
    {
      if epoch.Some? {
        target := epoch.value;
      } else {
        var latest := FindLatestEpoch(dir);
        if latest.Failure? {
          return 0, Failure(latest.error);
        }
        target := latest.value;
      }
      var fileName := CkptName(target);
      var (extraData, stepRead) := reader(fileName);
      var stepSet := SetNumSteps(stepRead);
      if stepSet.Failure? {
        return target, Failure(stepSet.error);
      }
      r := Success(extraData);
    }

    /** `save_state_dict(interval, save_step=..., extra_kwds=..., **state_dict)`: the
        pending count moves as the gate says; when it fires, the writer is asked for
        the file of the latest epoch on disk plus the interval. */
    method SaveStateDict(dir: CkptDir, interval: int, saveStep: bool, extras: map<string, Value>, items: map<string, Value>)
      returns (r: Result<Option<LegacyProject.SaveRequest>, RunError>)
      modifies this
      ensures var (pending, saved) := PendingGate(old(localEpoch), interval);
        && localEpoch == pending
        && (!saved ==> r == Success(None))
        && (saved ==> (r.Failure? <==> dir.present && exists n :: n in dir.files && Classify(Stem(), ckptsExt, n) == EmptyGroup))
        && (saved && r.Success? ==>
              r.value == Some(LegacyProject.SaveRequest(CkptName(Latest(dir, Stem(), ckptsExt) + interval), if saveStep then Some(step) else None, extras, items)))
      ensures step == old(step) && configData == old(configData)
    {
      localEpoch := localEpoch + 1;
      if localEpoch < interval {
        return Success(None);
      }
      localEpoch := 0;
      var latest := FindLatestEpoch(dir);
      if latest.Failure? {
        return Failure(latest.error);
      }
      var fileName := CkptName(latest.value + interval);
      var stepSaved := if saveStep then Some(step) else None;
      return Success(Some(LegacyProject.SaveRequest(fileName, stepSaved, extras, items)));
    }

    /** `__del__` warns exactly when saves are still pending. */
    function PendingWarning(): (warn: bool)
      reads this
      ensures warn <==> localEpoch != 0
    {
      localEpoch != 0
    }
  }

  /** On a directory that does not exist yet, with interval 2: the first save is
      skipped, the second asks for the file of epoch 2, with the step count. */
  method SecondSaveTargetsEpochTwo(p: Project, state: Value)
    returns (first: Result<Option<LegacyProject.SaveRequest>, RunError>, second: Result<Option<LegacyProject.SaveRequest>, RunError>)
    requires p.localEpoch == 0
    modifies p
    ensures first == Success(None)
    ensures second == Success(Some(LegacyProject.SaveRequest(p.CkptName(2), Some(p.step), map[], map["model" := state])))
    ensures p.localEpoch == 0
  {
    var dir := CkptDir(false, map[]);
    first := p.SaveStateDict(dir, 2, true, map[], map["model" := state]);
    second := p.SaveStateDict(dir, 2, true, map[], map["model" := state]);
  }
}

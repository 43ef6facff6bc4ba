/** The legacy project header (`ProjectHeader`, `sucrose/header.py`): names, the
    step counter, the pending count and a configuration that callers add to. The
    two directories it creates on construction are not part of this model. */
module Header {
  import opened Wrappers
  import opened Text
  import opened Values
  import opened Runs
  import Checkpoints

  class ProjectHeader {
    const project: string
    const epochPrefix: string
    const ckptsExt: string
    var configData: map<string, Value>
    var step: int
    var localEpoch: int

    /** `ProjectHeader(work_dir, project, epoch_prefix=..., ckpts_ext=...)`: a missing
        extension is ".pt", the counters start at 0 and the configuration is empty. */
    constructor (project: string, epochPrefix: string, ckptsExt: Option<string>)
      ensures this.project == project && this.epochPrefix == epochPrefix
      ensures this.ckptsExt == if ckptsExt.Some? then ckptsExt.value else ".pt"
      ensures configData == map[] && step == 0 && localEpoch == 0
    {
      this.project := project;
      this.epochPrefix := epochPrefix;
      this.ckptsExt := if ckptsExt.Some? then ckptsExt.value else ".pt";
      configData := map[];
      step := 0;
      localEpoch := 0;
    }

    /** `_make_ckpt_name(epoch)`: the project name, "_", the prefix, the epoch in
        decimal and the extension, one after the other; the epoch pattern of the
        projects reads a non-negative epoch back from it, unless the extension starts
        with a digit. */
    function CkptName(epoch: int): (f: string)
      ensures |f| == |project| + 1 + |epochPrefix| + |IntToString(epoch)| + |ckptsExt|
      ensures f[..|project|] == project && f[|project|] == '_'
      ensures f[|project| + 1..|project| + 1 + |epochPrefix|] == epochPrefix
      ensures f[|f| - |ckptsExt|..] == ckptsExt
      ensures epoch >= 0 && (ckptsExt == [] || !IsDigit(ckptsExt[0])) ==>
        Checkpoints.Classify(project + "_" + epochPrefix, ckptsExt, f) == Checkpoints.Epoch(epoch)
    {
      var stem := project + "_" + epochPrefix;
      var f := stem + IntToString(epoch) + ckptsExt;
      assert f[..|project|] == project;
      assert f[|project| + 1..|project| + 1 + |epochPrefix|] == epochPrefix;
      assert f[|f| - |ckptsExt|..] == ckptsExt;
      if epoch >= 0 && (ckptsExt == [] || !IsDigit(ckptsExt[0])) then Checkpoints.MatchOwnName(stem, ckptsExt, epoch); f else f
    }

    /** `update_config(**data)`: the given entries are added, replacing the ones with
        the same key. */
    method UpdateConfig(data: map<string, Value>)
      modifies this
      ensures configData == old(configData) + data
      ensures step == old(step) && localEpoch == old(localEpoch)
    {
      configData := configData + data;
    }

    /** The `CONFIG` property: a (shallow) copy of the configuration. */
    method Config() returns (c: map<string, Value>)
      ensures c.Keys == configData.Keys
      ensures forall k :: k in c ==> c[k] == configData[k]
    {
      c := map[];
      var keys := configData.Keys;
      while keys != {}
        invariant keys <= configData.Keys
        invariant c.Keys == configData.Keys - keys
        invariant forall k :: k in c ==> c[k] == configData[k]
        decreases keys
      {
        var key :| key in keys;
        c := c[key := configData[key]];
        keys := keys - {key};
      }
    }

    /** `step(num)` */
    method Step(num: int)
      modifies this
      ensures step == old(step) + num
      ensures localEpoch == old(localEpoch) && configData == old(configData)
    {
      step := step + num;
    }

    /** The `num_steps` setter. */
    method SetNumSteps(v: Value) returns (r: Result<(), RunError>)
      modifies this
      ensures r.Success? <==> IsInt(v)
      ensures r.Failure? ==> r.error == NotAnInt && step == old(step)
      ensures r.Success? ==> step == AsInt(v)
      ensures localEpoch == old(localEpoch) && configData == old(configData)
    {
      var s := StepValue(v);
      if s.Failure? {
        return Failure(s.error);
      }
      step := s.value;
      return Success(());
    }

    /** `__del__` warns exactly when saves are still pending. */
    function PendingWarning(): (warn: bool)
      reads this
      ensures warn <==> localEpoch != 0
    {
      localEpoch != 0
    }
  }

  /** Two updates in a row: the later value wins on a shared key, and `CONFIG`
      then shows it. */
  method UpdateTwice(h: ProjectHeader, key: string, a: Value, b: Value) returns (c: map<string, Value>)
    modifies h
    ensures h.configData == old(h.configData)[key := b]
    ensures c.Keys == h.configData.Keys && c[key] == b
  {
    h.UpdateConfig(map[key := a]);
    h.UpdateConfig(map[key := b]);
    c := h.Config();
  }
}

/** A project run (`Project`, `src/sucrose/project/project.py`): the same counters
    and checkpoint lifecycle as `Scenario`, but with settings passed to the
    constructor, the constant step key, and a file name in which "/" is kept. The
    checkpoint directory is passed in and handed back. */
module ProjectRun {
  import opened Wrappers
  import opened Text
  import opened Values
  import Configs
  import opened Checkpoints
  import Ckpt
  import opened Runs

  /** `STEP_KEY` of `src/sucrose/const.py`. */
  const StepKey := "step"

  /** The tail of the scan pattern as line 77 writes it: the extension as the caller
      gave it, leading dots and all. */
  function ScanTailAsWritten(ckptExtension: string): string {
    "." + ckptExtension
  }

  /** The tail the file names actually end in: the extension without its leading
      dots, as `CKPTS_EXT` holds it. */
  function ScanTail(ckptExtension: string): (t: string)
    ensures |t| >= 1 && t[0] == '.' && t[1..] == LStrip(ckptExtension, '.')
    ensures |t| == 1 || t[1] != '.'
  {
    "." + LStrip(ckptExtension, '.')
  }

  /** With the extension given as ".pt", the pattern as written reads the project's
      own file for epoch 15 as epoch 1, and the file for epoch 5 has an empty digit
      group, so the scan raises. */
  lemma ScanAsWrittenMisreadsOwnNames()
    ensures Classify("p_e", ScanTailAsWritten(".pt"), "p_e15.pt") == Epoch(1)
    ensures Classify("p_e", ScanTailAsWritten(".pt"), "p_e5.pt") == EmptyGroup
  {
    var tail := ScanTailAsWritten(".pt");
    assert tail == "..pt";
    MatchesItself("p_e", "15.pt");
    assert "p_e15.pt" == "p_e" + "15.pt";
    var rest := "15.pt";
    assert "p_e15.pt"[3..] == rest;
    assert DigitRun(rest) == 2 by {
      assert rest[1..] == "5.pt" && rest[1..][1..] == ".pt";
    }
    assert !MatchesPrefix(tail, rest[2..]);
    assert MatchesPrefix(tail, rest[1..]);
    assert Backtrack(tail, rest, 2) == 1;
    assert rest[..1] == "1";
    assert DigitsValue("1") == 1 by {
      assert "1"[..0] == "";
    }
    MatchesItself("p_e", "5.pt");
    assert "p_e5.pt" == "p_e" + "5.pt";
    var rest5 := "5.pt";
    assert "p_e5.pt"[3..] == rest5;
    assert DigitRun(rest5) == 1 by {
      assert rest5[1..] == ".pt";
    }
    assert !MatchesPrefix(tail, rest5[1..]);
    assert MatchesPrefix(tail, rest5[0..]);
    assert Backtrack(tail, rest5, 1) == 0;
  }

  /** With the stripped extension in the pattern, every file the project names for a
      non-negative epoch is read back as that epoch, whatever leading dots the
      extension was given with. */
  lemma ScanReadsOwnNames(projectName: string, epochPrefix: string, ckptExtension: string, e: nat)
    ensures Classify(projectName + "_" + epochPrefix, ScanTail(ckptExtension),
                     projectName + "_" + epochPrefix + DecimalString(e) + ScanTail(ckptExtension)) == Epoch(e)
  {
    var tail := ScanTail(ckptExtension);
    assert tail[0] == '.';
    MatchOwnName(projectName + "_" + epochPrefix, tail, e);
  }

  class Project {
    const name: string
    const config: Configs.ConfigTree
    const epochPrefix: string
    const ckptsExt: string
    var lastEpoch: int
    var step: int
    var localEpoch: int

    /** The state `__init__` leaves behind, once the latest epoch has been scanned. */
    constructor (name: string, config: Configs.ConfigTree, epochPrefix: string, ckptsExt: string, lastEpoch: int)
      ensures this.name == name && this.config == config
      ensures this.epochPrefix == epochPrefix && this.ckptsExt == ckptsExt
      ensures this.lastEpoch == lastEpoch && step == 0 && localEpoch == 0
    {
      this.name := name;
      this.config := config;
      this.epochPrefix := epochPrefix;
      this.ckptsExt := ckptsExt;
      this.lastEpoch := lastEpoch;
      step := 0;
      localEpoch := 0;
    }

    function Stem(): string {
      name + "_" + epochPrefix
    }

    function Tail(): string {
      "." + ckptsExt
    }

    /** `_make_ckpt_name(epoch)`: the name as it is, "_", the epoch prefix, the
        epoch and the extension. The scan reads a non-negative epoch back from its own
        file name. */
    function CkptName(epoch: int): (f: string)
      ensures |f| > |name| && f[..|name|] == name && f[|name|] == '_'
      ensures epoch >= 0 ==> Classify(Stem(), Tail(), f) == Epoch(epoch)
      ensures '/' in f <==> '/' in name || '/' in epochPrefix || '/' in ckptsExt
    {
      var f := Stem() + IntToString(epoch) + Tail();
      assert f[..|name|] == name;
      if epoch >= 0 then MatchOwnName(Stem(), Tail(), epoch); f else f
    }

    /** `Project(work_dir, project_name, ckpt_extension=..., epoch_prefix=...)` over
        the loaded configuration and the checkpoint directory. The extension is kept
        without its leading dots, and `LAST_EPOCH` is the latest epoch on disk; the
        scan uses the pattern the file names are made with (`ScanTail`). */
    static method Open(config: Configs.ConfigTree, projectName: string, ckptExtension: string, epochPrefix: string, dir: CkptDir)
      returns (r: Result<Project, RunError>)
      ensures r.Success? ==> fresh(r.value)
      ensures dir.present ==>
        (r.Failure? <==>
           exists n :: n in dir.files && Classify(projectName + "_" + epochPrefix, ScanTail(ckptExtension), n) == EmptyGroup)
      ensures !dir.present ==> r.Success? && r.value.lastEpoch == 0
      ensures r.Success? ==> var p := r.value;
        && p.name == projectName && p.config == config && p.epochPrefix == epochPrefix
        && p.ckptsExt == LStrip(ckptExtension, '.')
        && p.step == 0 && p.localEpoch == 0
        && p.lastEpoch >= 0 && LatestOnDisk(dir, p.Stem(), p.Tail(), p.lastEpoch)
    {
      var ext := LStrip(ckptExtension, '.');
      var latest := FindLatestEpoch(dir, projectName + "_" + epochPrefix, ScanTail(ckptExtension));
      if latest.Failure? {
        return Failure(Scan(latest.error));
      }
      var p := new Project(projectName, config, epochPrefix, ext, latest.value);
      assert p.Stem() == projectName + "_" + epochPrefix && p.Tail() == ScanTail(ckptExtension);
      return Success(p);
    }

    /** `get_config(field, default)`: the value the nearest defining domain holds, the
        default when no domain on the chain defines the field; only the ValueError of
        an invalid configuration escapes. */
    function GetConfig(field: string, default: Value): (r: Result<Value, Configs.ConfigError>)
      ensures r.Failure? <==> !Configs.ValidTree(config)
      ensures Configs.Lookup(config, name, field).Success? ==> r == Configs.Lookup(config, name, field)
      ensures Configs.ValidTree(config) &&
        (forall k :: 0 <= k < |Configs.Chain(name)| ==> !Configs.DefinedAt(config, Configs.Chain(name)[k], field))
        ==> r == Success(default)
    {
      match Configs.Lookup(config, name, field)
      case Success(v) => Success(v)
      case Failure(e) => if e.FieldNotFound? then Success(default) else Failure(e)
    }

    /** `step(num)` */
    method Step(num: int)
      modifies this
      ensures step == old(step) + num
      ensures lastEpoch == old(lastEpoch) && localEpoch == old(localEpoch)
    {
      step := step + num;
    }

    /** The `num_steps` setter. */
    method SetNumSteps(v: Value) returns (r: Result<(), RunError>)
      modifies this
      ensures r.Success? <==> IsInt(v)
      ensures r.Failure? ==> r.error == NotAnInt && step == old(step)
      ensures r.Success? ==> step == AsInt(v)
      ensures lastEpoch == old(lastEpoch) && localEpoch == old(localEpoch)
    {
      var s := StepValue(v);
      if s.Failure? {
        return Failure(s.error);
      }
      step := s.value;
      return Success(());
    }

    /** `epoch_range(num)`: the epochs from `LAST_EPOCH` on. */
    function EpochRange(num: int): (r: seq<int>)
      reads this
      ensures r == PyRange(lastEpoch, num)
    {
      PyRange(lastEpoch, num)
    }

    /** `__del__` warns exactly when saves are still pending. */
    function PendingWarning(): (warn: bool)
      reads this
      ensures warn <==> localEpoch != 0
    {
      localEpoch != 0
    }

    /** `save_state_dict(interval, save_step=..., **state_dict)`: the counters move as
        the save gate says; when it fires, the step key is reserved (the ValueError
        comes after the counters have moved), the step count is added under it, and
        the record is written as the file for the new `LAST_EPOCH`; a file name
        holding "/" cannot be written, and that failure also comes after the
        counters have moved. */
    method SaveStateDict(dir: CkptDir, interval: int, saveStep: bool, items: map<string, Ckpt.Item>)
      returns (d: CkptDir, r: Result<(), RunError>)
      modifies this
      ensures var (c, saved) := SaveGate(Counters(old(localEpoch), old(lastEpoch)), interval);
        && localEpoch == c.pending && lastEpoch == c.lastEpoch
        && (!saved ==> d == dir && r == Success(()))
        && (saved && saveStep && StepKey in items ==> d == dir && r == Failure(ReservedKey(StepKey)))
        && (saved && !(saveStep && StepKey in items) ==>
              var file := CkptName(lastEpoch);
              var rec := if saveStep then items[StepKey := Ckpt.Plain(VInt(step))] else items;
              && d == Ckpt.SaveOutcome(dir, file, rec)
              && (!Ckpt.SaveFails(file, rec) ==> r == Success(()))
              && (Ckpt.SaveFails(file, rec) ==> r == Failure(Save(Ckpt.NoParentDir(file)))))
      ensures step == old(step)
    {
      localEpoch := localEpoch + 1;
      if localEpoch < interval {
        return dir, Success(());
      }
      localEpoch := 0;
      lastEpoch := lastEpoch + interval;
      var fileName := CkptName(lastEpoch);
      var stateDict := items;
      if saveStep {
        if StepKey in stateDict {
          return dir, Failure(ReservedKey(StepKey));
        }
        stateDict := stateDict[StepKey := Ckpt.Plain(VInt(step))];
      }
      var written;
      d, written := Ckpt.SaveStateDictImpl(dir, fileName, stateDict);
      if written.Failure? {
        return d, Failure(Save(written.error));
      }
      r := Success(());
    }

    /** `load_state_dict(epoch, load_step=..., **state_dict)`: `fed` is what each
        component received. A missing file gives `{}` and changes nothing; the step
        is restored through the setter when asked for and present, and the extras
        returned still hold the step key. */
    method LoadStateDict(dir: CkptDir, epoch: Option<int>, loadStep: bool, components: set<string>)
      returns (fed: map<string, Value>, r: Result<map<string, Value>, RunError>)
      modifies this
      ensures lastEpoch == old(lastEpoch) && localEpoch == old(localEpoch)
      ensures var file := CkptName(epoch.GetOr(old(lastEpoch)));
        var out := Ckpt.LoadOutcome(dir, file, components);
        && (out.Failure? && out.error.FileNotFound? ==> fed == map[] && r == Success(map[]) && step == old(step))
        && (out.Failure? && out.error.NotADict? ==> fed == map[] && r == Failure(Load(Ckpt.NotADict)) && step == old(step))
        && (out.Success? ==> fed == out.value.fed)
        && (out.Success? && !(loadStep && StepKey in out.value.extras) ==>
              r == Success(out.value.extras) && step == old(step))
        && (out.Success? && loadStep && StepKey in out.value.extras ==>
              var v := out.value.extras[StepKey];
              && (IsInt(v) ==> r == Success(out.value.extras) && step == AsInt(v))
              && (!IsInt(v) ==> r == Failure(NotAnInt) && step == old(step)))
    {
      var e := if epoch.Some? then epoch.value else lastEpoch;
      var fileName := CkptName(e);
      var loaded := Ckpt.LoadStateDictImpl(dir, fileName, components);
      fed := map[];
      if loaded.Failure? {
        if loaded.error.FileNotFound? {
          return fed, Success(map[]);
        }
        return fed, Failure(Load(loaded.error));
      }
      fed := loaded.value.fed;
      var extraData := loaded.value.extras;
      if loadStep && StepKey in extraData {
        var stepSet := SetNumSteps(extraData[StepKey]);
        if stepSet.Failure? {
          return fed, Failure(stepSet.error);
        }
      }
      r := Success(extraData);
    }
  }

  /** A project name holding "/" keeps it in the file name: the save of epoch 1
      fails after `LAST_EPOCH` has moved, leaving the directory made but empty. */
  method NestedNameSaveFails(state: Value) returns (d: CkptDir, r: Result<(), RunError>, epoch: int, pending: int)
    ensures d == CkptDir(true, map[])
    ensures r.Failure? && r.error.Save?
    ensures epoch == 1 && pending == 0
  {
    var p := new Project("a/b", map[], "e", "pt", 0);
    assert p.name[1] == '/';
    var items := map["model" := Ckpt.Stateful(state)];
    assert "model" in items;
    assert !Ckpt.InDir(p.CkptName(1));
    d, r := p.SaveStateDict(CkptDir(false, map[]), 1, false, items);
    epoch, pending := p.lastEpoch, p.localEpoch;
  }

  /** Three saves with interval 3 write one file, for epoch 3, on the third call;
      the first two change only the pending count. */
  method ThreeSaves(state: Value) returns (d1: CkptDir, d2: CkptDir, d3: CkptDir, epoch: int, pending: int)
    ensures d1 == CkptDir(false, map[]) && d2 == d1
    ensures d3.present && "run_e3.pt" in d3.files
    ensures d3.files["run_e3.pt"] == VDict(map["model" := state, "step" := VInt(0)])
    ensures epoch == 3 && pending == 0
  {
    var p := new Project("run", map[], "e", "pt", 0);
    var empty := CkptDir(false, map[]);
    var items := map["model" := Ckpt.Stateful(state)];
    var r;
    d1, r := p.SaveStateDict(empty, 3, true, items);
    d2, r := p.SaveStateDict(d1, 3, true, items);
    assert p.lastEpoch == 0 && p.localEpoch == 2;
    assert Ckpt.InDir(p.CkptName(3));
    d3, r := p.SaveStateDict(d2, 3, true, items);
    assert p.lastEpoch == 3 && p.step == 0;
    var saved := map["model" := Ckpt.Stateful(state), "step" := Ckpt.Plain(VInt(0))];
    assert items[StepKey := Ckpt.Plain(VInt(0))] == saved;
    var file := p.CkptName(3);
    assert d3 == Ckpt.SaveOutcome(d2, file, saved);
    assert IntToString(3) == "3";
    assert file == "run_e3.pt";
    assert Ckpt.Record(saved) == map["model" := state, "step" := VInt(0)];
    epoch, pending := p.lastEpoch, p.localEpoch;
  }
}

/** What the run classes (`Scenario`, the projects and `ProjectHeader`) have in
    common: their error cases, the `num_steps` setter's type check and the
    `range` that `epoch_range` returns. */
module Runs {
  import opened Wrappers
  import opened Values
  import Configs
  import Checkpoints
  import Ckpt

  datatype RunError =
    | Config(configError: Configs.ConfigError) // KeyError / ValueError from a configuration lookup
    | NotAString(setting: string)              // a setting that must be a string is not one
    | Scan(scanError: Checkpoints.ScanError)   // ValueError from find_latest_epoch
    | NotAnInt                                 // TypeError from the num_steps setter
    | ReservedKey(key: string)                 // ValueError: the caller used the step key
    | Load(loadError: Ckpt.LoadError)          // TypeError from load_state_dict_impl
    | Save(saveError: Ckpt.SaveError)          // the write of save_state_dict_impl fails
    | BadFields                                // TypeError: fields neither a str nor an iterable
    | FieldIsNone                              // AttributeError: the legacy lookup splits None
    | NoProject                                // RuntimeError: no project given and none started
    | NoComponent(component: string)           // AttributeError: a record entry for a None component

  /** The `num_steps` setter: `isinstance(step, int)` or TypeError. */
  function StepValue(v: Value): (r: Result<int, RunError>)
    ensures r.Success? <==> IsInt(v)
    ensures r.Failure? ==> r.error == NotAnInt
    ensures v.VInt? ==> r == Success(v.i)
  {
    if IsInt(v) then Success(AsInt(v)) else Failure(NotAnInt)
  }

  /** `range(start, start + num)` as a sequence. */
  function PyRange(start: int, num: int): (r: seq<int>)
    ensures |r| == if num > 0 then num else 0
    ensures forall i :: 0 <= i < |r| ==> r[i] == start + i
  {
    if num <= 0 then [] else PyRange(start, num - 1) + [start + num - 1]
  }
}

# sucrose bookkeeping core, modelled in Dafny

sucrose keeps the bookkeeping of experiment runs: it resolves settings in a
domain-hierarchical configuration and binds them to callables, it counts steps
and the saves still pending, it names checkpoint files and scans a checkpoint
directory for the latest epoch, and it assembles and reads back checkpoint
records. The repository has a current generation (`src/sucrose/...`) and a legacy
one (`sucrose/...`). This project models both, one module per source file:

| module | file | source |
|---|---|---|
| `Configs` | configs.dfy | `src/sucrose/config/configs.py`: `check_data`, `lookup` along the domain chain, `find_all` with nearest-wins shadowing |
| `ConfTools` | conftools.dfy | `src/sucrose/config/conftools.py`: the keyword schema of a target and the staging of `partial_config` |
| `CallableConf` | callableconf.dfy | `src/sucrose/config/callableconf.py`: the dataset keyed by last `/` segment, and the binder |
| `Utils` | utils.dfy | `src/sucrose/utils.py`: `mapping_copy`, `lookup`, `lookup_path` |
| `LegacyUtils` | legacy_utils.dfy | `sucrose/utils.py`: the legacy `lookup` |
| `Counter` | counter.dfy | `src/sucrose/counter.py`: the `Buffer` class |
| `Checkpoints` | checkpoints.dfy | what the run classes share: the checkpoint directory, the epoch pattern, `find_latest_epoch`, and the interval gate of `save_state_dict` |
| `Ckpt` | ckpt.dfy | `src/sucrose/project/ckpt.py`: `save_state_dict_impl`, `load_state_dict_impl`, `_load_pt_file` |
| `Runs` | runs.dfy | what the run classes share: their error cases, the `num_steps` type check, `range` |
| `ScenarioRun` | scenario.dfy | `src/sucrose/project/scenario.py`: the `Scenario` class |
| `ProjectRun` | project.dfy | `src/sucrose/project/project.py`: the current `Project` class |
| `LegacyProject` | legacy_project.dfy | `sucrose/project/project.py`: the legacy `Project`, which rescans the disk for every epoch |
| `LegacyFlatProject` | legacy_flat_project.dfy | `sucrose/project.py`: the legacy flat `Project` |
| `Header` | header.dfy | `sucrose/header.py`: `ProjectHeader` |
| `LegacyCkpt` | legacy_ckpt.dfy | `sucrose/ckpt.py`: the legacy record with fixed keys |
| `LegacyCallableConf` | legacy_callableconf.dfy | `sucrose/config/callableconf.py`: `enable_config` and `_ConfigWrapper` |
| `Wrappers`, `Text`, `Values` | wrappers.dfy, text.dfy, values.dfy | `Option`/`Result`, the string operations the source calls, and the value type of configurations and records |

How the model is built:

- A configuration value is `Values.Value`: None, a bool, an int, a string, a list,
  or a dict of values.
- A domain's fields are an association list, so the order in which `find_all` yields
  them is the dict's insertion order.
- The checkpoint directory is `Checkpoints.CkptDir`. It records whether the
  directory exists and the record stored in each file. It has no subdirectories.
  `os.listdir` is its key set, in no particular order. A file name holding "/"
  joins to a path in a subdirectory, which nothing creates: saving under such a
  name fails after the directory is made, and loading it finds no file
  (`Ckpt.InDir`).
- Operations that write a checkpoint hand the new directory back.
- The epoch pattern `<stem>([0-9]*)<tail>` is matched by an explicit matcher.
  The match is anchored at the start of the name only. The digit run is greedy,
  and the engine gives digits back one at a time until the tail matches.
  An unescaped `.` in the pattern matches any character except a newline; every
  other pattern character stands for itself. An empty digit group is kept apart,
  because `int("")` raises.
- Classes whose fields the source updates are Dafny classes. Their methods are
  proved against specification functions: `Checkpoints.PendingGate` for the save
  counter, `Checkpoints.LatestOnDisk` for the scan, `Ckpt.SaveOutcome` and
  `Ckpt.LoadOutcome` for records, `Counter.StepCount` for the buffer.
- The thread-local "current project" is an explicit `Option` argument.
- Exceptions are `Failure` values of a `Result`.

## Model

| member | source | states |
|---|---|---|
| Configs.CheckData | src/sucrose/config/configs.py:8-11 | succeeds exactly when no domain name starts with "/", and otherwise fails with the ValueError |
| Configs.Parent | src/sucrose/config/configs.py:28-30 | `rsplit("/", 1)[0]` is the domain itself exactly when it has no "/", and is strictly shorter otherwise, so the chain ends |
| Configs.ResolveIsNearest | src/sucrose/config/configs.py:22-35 | the recursive walk returns the value of the first domain on the chain that defines the field, or KeyError when none does |
| Configs.Lookup | src/sucrose/config/configs.py:14-35 | an invalid configuration fails first; otherwise it fails exactly when no domain on the chain defines the field, the KeyError naming the field and the last domain tried; a success is the value of the nearest defining domain |
| Configs.LookupOwnField | src/sucrose/config/configs.py:22-26 | a domain that defines the field answers with its own value, whatever its ancestors hold |
| Configs.LookupDefersToParent | src/sucrose/config/configs.py:28-35 | a domain that does not define the field gives its parent's answer, or KeyError at the end of the chain |
| Configs.ScannedExclude | src/sucrose/config/configs.py:45-52 | scanning one domain adds to a copy of the exclusion set exactly the names it yields; the caller's set is left as it was |
| Configs.ScannedSound | src/sucrose/config/configs.py:47-51 | each pair yielded from one domain has the prefix, is not excluded, and is that domain's own entry |
| Configs.ScannedDistinct | src/sucrose/config/configs.py:49-52 | one domain's scan never yields a name twice |
| Configs.ScannedComplete | src/sucrose/config/configs.py:49-52 | every field of the domain with the prefix that is not excluded is yielded |
| Configs.FindFromSound | src/sucrose/config/configs.py:44-59 | every pair `find_all` yields has the prefix, is not excluded, and carries the value `lookup` resolves for that name from the starting domain |
| Configs.FindFromDistinct | src/sucrose/config/configs.py:45-59 | `find_all` never yields a name twice along the whole chain |
| Configs.FindFromComplete | src/sucrose/config/configs.py:44-59 | every name with the prefix, not excluded, that `lookup` resolves, is yielded |
| Configs.FindFromOrdered | src/sucrose/config/configs.py:47-59 | entries of a nearer domain come before entries of a farther one |
| Configs.FindAll | src/sucrose/config/configs.py:38-59 | fails exactly on an invalid configuration; otherwise the yield is duplicate-free, sound and complete against `lookup`, and ordered nearest first |
| ConfTools.TargetSignatureAsWritten | src/sucrose/config/conftools.py:12-25 | without `__dict__` it is a TypeError; a class is read through its own `__init__`, else its own `__new__`, else a TypeError; the receiver stays in the signature |
| ConfTools.TargetSignature | src/sucrose/config/conftools.py:12-25 | the same errors, with a class constructor's receiver dropped |
| ConfTools.SchemaParallel | src/sucrose/config/conftools.py:37-38 | the name list and the has-default list have equal length |
| ConfTools.SchemaSound | src/sucrose/config/conftools.py:30-38 | every listed name is a parameter that can be passed by keyword, listed with its own has-default flag |
| ConfTools.SchemaComplete | src/sucrose/config/conftools.py:30-38 | every positional-or-keyword and keyword-only parameter is listed |
| ConfTools.SchemaVarKeyword | src/sucrose/config/conftools.py:33-35 | the var-keyword flag is set exactly when a `**kwargs` parameter is present |
| ConfTools.SchemaExcludesUnbindable | src/sucrose/config/conftools.py:31-35 | positional-only, `*args` and `**kwargs` parameters are never listed by name |
| ConfTools.GetKeywordParams | src/sucrose/config/conftools.py:12-40 | the loop builds exactly the reference schema, with parallel lists |
| ConfTools.Zip | src/sucrose/config/conftools.py:52 | `zip` pairs the lists position by position, up to the shorter one |
| ConfTools.StageFails | src/sucrose/config/conftools.py:52-57 | staging fails exactly when some name is missing from the dataset and has no default, and the ValueError names the first such name |
| ConfTools.StageKeywords | src/sucrose/config/conftools.py:52-57 | a successful staging holds exactly the schema names present in the dataset, with the dataset's values |
| ConfTools.StagePrefixFails | src/sucrose/config/conftools.py:53-57 | once a name has failed, the rest of the names cannot change the outcome |
| ConfTools.PartialConfig | src/sucrose/config/conftools.py:43-59 | the loop computes the reference binding |
| ConfTools.VarKeywordStagesAll | src/sucrose/config/conftools.py:48-50 | with `**kwargs`, the whole dataset is staged unfiltered |
| ConfTools.PartialConfigFiltered | src/sucrose/config/conftools.py:52-59 | without `**kwargs`, the binding fails exactly on a missing required name, naming it, and otherwise holds exactly the schema names present in the dataset |
| ConfTools.Invoke | src/sucrose/config/conftools.py:43-59 | calling the partial merges the call-time keywords over the staged ones, and the call-time ones win |
| ConfTools.ClassReceiverIsRequired | src/sucrose/config/conftools.py:16-57 | as written, a class with `__init__(self)` cannot be bound from an empty dataset: `self` is taken as a required keyword |
| ConfTools.ClassReceiverDropped | src/sucrose/config/conftools.py:16-57 | with the receiver dropped, the same class binds with no keywords |
| CallableConf.LastSegment | src/sucrose/config/callableconf.py:20 | the key `rsplit("/", 1)[-1]` contains no "/" and is the whole name when it has none |
| CallableConf.LastSegmentIsTail | src/sucrose/config/callableconf.py:20 | the key is a suffix of the name, preceded by "/" when the name has one |
| CallableConf.DatasetEntries | src/sucrose/config/callableconf.py:20-21 | a key is in the dataset exactly when some yielded name ends in it, and then holds the value of the last such name |
| CallableConf.DatasetOfFindAll | src/sucrose/config/callableconf.py:20-21 | every dataset entry is the resolved value of some name with the prefix that ends in its key, and every resolvable name with the prefix has its key in the dataset |
| CallableConf.ConfigFromData | src/sucrose/config/callableconf.py:15-32 | fails only on an invalid configuration; an empty dataset is still a binder; entries are sound and complete as above |
| CallableConf.ApplyBinder | src/sucrose/config/callableconf.py:29-30 | the wrapper applies `partial_config(obj, dataset)`: the whole dataset with `**kwargs`, otherwise only the schema names |
| CallableConf.ConfigFromProject | src/sucrose/config/callableconf.py:35-46 | delegates with the project's name as domain and its configuration as data |
| Utils.MappingCopy | src/sucrose/utils.py:8-18 | the copy has the same keys and equal values, nested mappings included |
| Utils.WalkAppend | src/sucrose/utils.py:55-58 | walking a path in two parts is walking the first part and then the second from where it ended |
| Utils.WalkFails | src/sucrose/utils.py:55-64 | the walk fails exactly when, at some key, the value reached so far is not a mapping or lacks that key |
| Utils.FirstFailingStep | src/sucrose/utils.py:55-64 | a failing walk has a first position where the key is missing or the value is not a mapping |
| Utils.LookupPath | src/sucrose/utils.py:48-69 | the loop returns the value reached by successive indexing, or the default as soon as a key is missing or a value is not a mapping; an empty path returns the data |
| Utils.Lookup | src/sucrose/utils.py:21-45 | no field returns the data (copied when asked); a field is split on the separator and walked like `lookup_path` |
| Utils.LookupJoined | src/sucrose/utils.py:43-45 | a path whose keys do not contain the separator gives the same result as `lookup` of the joined string |
| Utils.LookupNested | src/sucrose/utils.py:55-69 | a two-level path reaches the nested value, and a path through a non-mapping gives the default |
| LegacyUtils.Lookup | sucrose/utils.py:21-55 | the field is split on the separator and walked, the default coming back at a missing key or a non-mapping |
| LegacyUtils.AgreesWithCurrent | sucrose/utils.py:21-55 | the legacy `lookup` and the current one return the same value for every string field |
| Counter.PyMod | src/sucrose/counter.py:32 | Python's `%`: the remainder has the divisor's sign and is smaller than it in magnitude |
| Counter.StepCount | src/sucrose/counter.py:30-38 | a zero interval is ZeroDivisionError; the new buffer is `(buffer + n) % interval`; it fires exactly when `buffer + n >= interval`, and only then changes the value; the value grows by a whole number of intervals; for non-negative `buffer + n`, value plus buffer grows by exactly `n` |
| Counter.UpdateCount | src/sucrose/counter.py:40-42 | the buffer moves into the value and is zeroed, keeping value plus buffer |
| Counter.CleanCount | src/sucrose/counter.py:44-45 | the buffer is zeroed and the value kept |
| Counter.StepsOfOneInterval | src/sucrose/counter.py:30-38 | `k` steps of one whole interval each commit `k` intervals and leave the buffer empty |
| Counter.Buffer.constructor | src/sucrose/counter.py:6-8 | the state is the given value and buffer |
| Counter.Buffer.Int | src/sucrose/counter.py:13-20 | `int()` and `index()` are the value |
| Counter.Buffer.Step | src/sucrose/counter.py:30-38 | the new state and the result are those of `StepCount` |
| Counter.Buffer.Update | src/sucrose/counter.py:40-42 | the new state is that of `UpdateCount` |
| Counter.Buffer.Clean | src/sucrose/counter.py:44-45 | the new state is that of `CleanCount` |
| Counter.StepTwice | src/sucrose/counter.py:30-38 | stepping 4 then 5 with interval 3 fires both times, and after `update` the value is 9 |
| Text.RSplitRoundTrip | src/sucrose/config/configs.py:28 | the parts of `rsplit(sep, 1)` put back together with the separator give the string |
| Text.Split | src/sucrose/utils.py:43 | `split` gives at least one part, and no part contains the separator |
| Text.JoinSplit | src/sucrose/utils.py:43 | joining the parts of a split gives the string back |
| Text.Replace | src/sucrose/project/scenario.py:117 | `replace` changes exactly the occurrences of the character |
| Text.LStrip | src/sucrose/project/scenario.py:92 | `lstrip` returns a suffix that does not start with the character |
| Text.DecimalRoundTrip | src/sucrose/project/scenario.py:50 | `int()` of the decimal text of a non-negative number gives the number back |
| Checkpoints.Write | src/sucrose/project/ckpt.py:12-16 | for a name inside the directory: the directory exists afterwards, holds the record under the file name, and every other file is unchanged |
| Checkpoints.DigitRun | src/sucrose/project/scenario.py:46 | the greedy `[0-9]*` takes the longest run of digits |
| Checkpoints.Backtrack | src/sucrose/project/scenario.py:46 | the group length is the longest one, at most the digit run, after which the tail matches |
| Checkpoints.Classify | src/sucrose/project/scenario.py:46-50 | a name that does not start with the stem does not match |
| Checkpoints.MatchOwnName | src/sucrose/project/scenario.py:95-117 | a name built as stem, decimal epoch and tail is read back as that epoch, when the tail does not start with a digit |
| Checkpoints.IsLatestUnique | src/sucrose/project/scenario.py:43-54 | a listing has only one latest epoch |
| Checkpoints.IsLatestExists | src/sucrose/project/scenario.py:43-54 | every listing has a latest epoch, 0 when no name matches |
| Checkpoints.LatestOnDiskUnique | src/sucrose/project/scenario.py:39-54 | a directory has only one latest epoch, 0 when it does not exist |
| Checkpoints.Latest | src/sucrose/project/scenario.py:39-54 | the latest epoch on disk as a value |
| Checkpoints.FindLatestEpoch | src/sucrose/project/scenario.py:36-54 | it raises ValueError exactly when a matching name has an empty digit group, naming one such file, in any listing order; otherwise it returns `Latest`: 0 for a missing directory, else the largest epoch of a matching name, or 0 when none matches |
| Checkpoints.LatestOfListing | src/sucrose/project/scenario.py:36-54 | a listing with files for epochs `a <= b` and a file outside the pattern has latest epoch `b` |
| Checkpoints.SaveRunCounts | src/sucrose/project/scenario.py:242-248 | after `q * interval + r` calls, `q` files were written, `r` saves are pending, and the epoch moved by `q * interval` |
| Checkpoints.SaveRunFromZero | src/sucrose/project/scenario.py:242-248 | `k` calls write `k / interval` files and leave `k % interval` pending |
| Checkpoints.ThreeCallsOneSave | src/sucrose/project/scenario.py:242-248 | three calls with interval 3 save once, on the third call |
| Ckpt.Record | src/sucrose/project/ckpt.py:41-47 | the record has exactly the given keys; an object with `state_dict()` is stored as its state, any other value as it is |
| Ckpt.SaveOutcome | src/sucrose/project/ckpt.py:12-51 | nothing is written for an empty record; otherwise the directory is made, and the record is written under the file name when the name has no "/", with every other file unchanged |
| Ckpt.SaveStateDictImpl | src/sucrose/project/ckpt.py:12-51 | the loop builds the record and writes it as `SaveOutcome` says; it fails exactly when a non-empty record is to go under a name holding "/" |
| Ckpt.LoadFile | src/sucrose/project/ckpt.py:19-27 | a missing file, or a name holding "/", is FileNotFoundError; otherwise the stored value |
| Ckpt.LoadOutcome | src/sucrose/project/ckpt.py:54-76 | a missing file or a stored value that is not a dict fails before any component is fed; otherwise each requested key present in the record is fed, absent keys are skipped, and the extras are the record without the fed keys |
| Ckpt.LoadStateDictImpl | src/sucrose/project/ckpt.py:54-76 | popping one component at a time gives `LoadOutcome` |
| Ckpt.SaveThenLoad | src/sucrose/project/ckpt.py:12-76 | a saved record loaded with any components feeds each its stored state and returns the other entries as extras; under a name holding "/" nothing was written and the load is FileNotFoundError |
| Ckpt.LoadPartitions | src/sucrose/project/ckpt.py:72-76 | the fed entries and the extras are disjoint and together make the record |
| Runs.StepValue | src/sucrose/project/scenario.py:146-150 | the `num_steps` setter accepts exactly ints (bools included) and raises TypeError otherwise |
| Runs.PyRange | src/sucrose/project/scenario.py:152-154 | `range(start, start + num)` has `max(num, 0)` elements, counting up from `start` |
| ScenarioRun.Scenario.constructor | src/sucrose/project/scenario.py:83-100 | the settings as given, step 0, pending count 0 |
| ScenarioRun.Scenario.CkptName | src/sucrose/project/scenario.py:116-117 | the name has every "/" replaced by "_", is followed by "_", and the scan reads a non-negative epoch back from it; the file name holds "/" exactly when the prefix or the extension does |
| ScenarioRun.Scenario.Open | src/sucrose/project/scenario.py:76-100 | an invalid configuration fails; otherwise the five settings are looked up in the meta domain in order and each failing step gives its own error; once they are read, opening fails exactly when a file in the directory matches the scan pattern with an empty epoch group; on success the extension is stripped of leading dots, step and pending count start at 0, and `LAST_EPOCH` is the latest epoch on disk |
| ScenarioRun.Scenario.GetConfig | src/sucrose/project/scenario.py:124-130 | the nearest defining domain's value, or the default when no domain on the scenario's chain defines the field |
| ScenarioRun.Scenario.Step | src/sucrose/project/scenario.py:141-142 | the step count grows by `num`, nothing else changes |
| ScenarioRun.Scenario.SetNumSteps | src/sucrose/project/scenario.py:146-150 | a non-int is TypeError and changes nothing; an int is assigned |
| ScenarioRun.Scenario.EpochRange | src/sucrose/project/scenario.py:152-154 | the range from `LAST_EPOCH` of length `num` |
| ScenarioRun.Scenario.PendingWarning | src/sucrose/project/scenario.py:103-106 | the disposal warning fires exactly when saves are pending |
| ScenarioRun.Scenario.SaveStateDict | src/sucrose/project/scenario.py:242-257 | the counters move as the gate says; below the interval nothing else happens; on reaching it the file is named for the new `LAST_EPOCH`; with `save_step` a caller key equal to the step key is ValueError after the counters moved, and otherwise the step count is stored under it; a non-empty record under a file name holding "/" fails, also after the counters moved |
| ScenarioRun.Scenario.LoadStateDict | src/sucrose/project/scenario.py:192-208 | without an epoch `LAST_EPOCH` is read; a missing file gives `{}` and no change; with `load_step` and the step key present the step is set through the setter; the extras keep the step key |
| ScenarioRun.SaveThenLoad | src/sucrose/project/scenario.py:192-257 | a model saved at step 7 is loaded back into the model, and the step count becomes 7 again |
| ProjectRun.ScanTail | src/sucrose/project/project.py:74-96 | the tail the file names end in: a dot, then the extension without its leading dots |
| ProjectRun.ScanAsWrittenMisreadsOwnNames | src/sucrose/project/project.py:74-96 | with the extension ".pt", the pattern as written reads the project's own file for epoch 15 as epoch 1, and raises on the file for epoch 5 |
| ProjectRun.ScanReadsOwnNames | src/sucrose/project/project.py:74-96 | with the stripped extension in the pattern, every name the project makes for a non-negative epoch is read back as that epoch |
| ProjectRun.Project.constructor | src/sucrose/project/project.py:70-80 | the settings as given, step 0, pending count 0 |
| ProjectRun.Project.CkptName | src/sucrose/project/project.py:95-96 | the name starts with the project name unchanged, then "_", and the scan reads a non-negative epoch back from it; the file name holds "/" exactly when the project name, the prefix or the extension does |
| ProjectRun.Project.Open | src/sucrose/project/project.py:62-80 | the extension is stripped of leading dots, step and pending count start at 0, and `LAST_EPOCH` is the latest epoch on disk |
| ProjectRun.Project.GetConfig | src/sucrose/project/project.py:103-109 | the nearest defining domain's value, or the default when no domain on the project's chain defines the field |
| ProjectRun.Project.Step | src/sucrose/project/project.py:120-121 | the step count grows by `num`, nothing else changes |
| ProjectRun.Project.SetNumSteps | src/sucrose/project/project.py:125-129 | a non-int is TypeError and changes nothing; an int is assigned |
| ProjectRun.Project.EpochRange | src/sucrose/project/project.py:131-133 | the range from `LAST_EPOCH` of length `num` |
| ProjectRun.Project.PendingWarning | src/sucrose/project/project.py:82-85 | the disposal warning fires exactly when saves are pending |
| ProjectRun.Project.SaveStateDict | src/sucrose/project/project.py:172-187 | as for the scenario, with the constant step key; since the project name keeps its "/", a nested project name makes every firing save fail after the counters moved |
| ProjectRun.NestedNameSaveFails | src/sucrose/project/project.py:172-187 | for the project "a/b", a save with interval 1 moves `LAST_EPOCH` to 1 and then fails, leaving the directory made but empty |
| ProjectRun.Project.LoadStateDict | src/sucrose/project/project.py:146-162 | as for the scenario, with the constant step key |
| ProjectRun.ThreeSaves | src/sucrose/project/project.py:164-187 | three saves with interval 3 write one file, for epoch 3, holding the model and the step |
| LegacyProject.Project.constructor | sucrose/project/project.py:21-34 | the settings as given, step 0, pending count 0 |
| LegacyProject.Project.Config | sucrose/project/project.py:68-70 | `CONFIG` is the configuration the project holds, not a copy |
| LegacyProject.Project.SetConfigItem | sucrose/project/project.py:68-70 | an item written into `CONFIG` is written into the project's configuration, and nothing else changes |
| LegacyProject.ConfigWritesThrough | sucrose/project/project.py:68-85 | after writing `v` under a key through `CONFIG`, `config(key)` returns `v` |
| LegacyProject.Project.Open | sucrose/project/project.py:20-34 | the configuration holds the loaded entries; the epoch prefix and the extension are read from `project/...` with their defaults, and each must be a string, else AssertionError |
| LegacyProject.Project.CkptName | sucrose/project/project.py:49-50 | the name starts with the project name and "_", and the scan reads a non-negative epoch back from it |
| LegacyProject.Project.ConfigQuery | sucrose/project/project.py:78-85 | a str goes to `lookup`, an iterable to `lookup_path`, anything else is TypeError; None reaches the legacy `lookup`, which cannot split it |
| LegacyProject.Project.Step | sucrose/project/project.py:89-90 | the step count grows by `num`, nothing else changes |
| LegacyProject.Project.SetNumSteps | sucrose/project/project.py:94-98 | a non-int is TypeError and changes nothing; an int is assigned |
| LegacyProject.Project.FindLatestEpoch | sucrose/project/project.py:106-122 | 0 for a missing directory, else the latest matching epoch or 0; an empty digit group raises |
| LegacyProject.Project.EpochRange | sucrose/project/project.py:100-102 | the range starts at the latest epoch on disk |
| LegacyProject.Project.LoadStateDict | sucrose/project/project.py:124-135 | without an epoch the latest on disk is read; the step read is always assigned through the setter, so a record without a step is TypeError |
| LegacyProject.Project.SaveStateDict | sucrose/project/project.py:137-152 | below the interval nothing is saved; on reaching it the pending count resets and the writer is asked for the latest epoch on disk plus the interval, with the step count iff `save_step`; nothing is stored in the project |
| LegacyProject.Project.PendingWarning | sucrose/project/project.py:36-39 | the disposal warning fires exactly when saves are pending |
| LegacyProject.SavesRepeatWithoutWrites | sucrose/project/project.py:137-152 | with nothing written in between, two saves with interval 1 either both fail or both ask for the same file with the same record |
| LegacyFlatProject.Project.constructor | sucrose/project.py:18-34 | a missing extension is ".pt", step 0, pending count 0, and the configuration holds the loaded entries |
| LegacyFlatProject.Project.CkptName | sucrose/project.py:49-50 | the name starts with the project name and "_", and the scan reads a non-negative epoch back from it |
| LegacyFlatProject.Project.Config | sucrose/project.py:68-70 | `CONFIG` is a copy with the same entries |
| LegacyFlatProject.Project.Step | sucrose/project.py:74-75 | the step count grows by `num`, nothing else changes |
| LegacyFlatProject.Project.SetNumSteps | sucrose/project.py:79-83 | a non-int is TypeError and changes nothing; an int is assigned |
| LegacyFlatProject.Project.FindLatestEpoch | sucrose/project.py:91-107 | 0 for a missing directory, else the latest matching epoch or 0; an empty digit group raises |
| LegacyFlatProject.Project.EpochRange | sucrose/project.py:85-87 | the range starts at the latest epoch on disk |
| LegacyFlatProject.Project.LoadStateDict | sucrose/project.py:109-120 | without an epoch the latest on disk is read; the step read is always assigned through the setter |
| LegacyFlatProject.Project.SaveStateDict | sucrose/project.py:122-137 | below the interval nothing is saved; on reaching it the pending count resets and the writer is asked for the latest epoch on disk plus the interval, with the step count iff `save_step` |
| LegacyFlatProject.Project.PendingWarning | sucrose/project.py:36-39 | the disposal warning fires exactly when saves are pending |
| LegacyFlatProject.SecondSaveTargetsEpochTwo | sucrose/project.py:122-137 | with interval 2 on a missing directory, the first save is skipped and the second targets epoch 2 with the step count |
| Header.ProjectHeader.constructor | sucrose/header.py:14-27 | a missing extension is ".pt"; step 0, pending count 0, an empty configuration |
| Header.ProjectHeader.CkptName | sucrose/header.py:49-50 | the name is the project name, "_", the prefix, the epoch and the extension, in that order, and the scan reads a non-negative epoch back from it |
| Header.ProjectHeader.UpdateConfig | sucrose/header.py:54-55 | the given keys are merged in, overwriting old values, and other keys are unchanged |
| Header.ProjectHeader.Config | sucrose/header.py:57-59 | `CONFIG` is a copy with the same entries |
| Header.ProjectHeader.Step | sucrose/header.py:63-64 | the step count grows by `num`, nothing else changes |
| Header.ProjectHeader.SetNumSteps | sucrose/header.py:68-72 | a non-int is TypeError and changes nothing; an int is assigned |
| Header.ProjectHeader.PendingWarning | sucrose/header.py:32-35 | the disposal warning fires exactly when saves are pending |
| Header.UpdateTwice | sucrose/header.py:54-59 | of two updates to one key the later wins, and `CONFIG` then shows the later value |
| LegacyCkpt.AutoGetProject | sucrose/header.py:83-87 | the given project, else the current one, else RuntimeError |
| LegacyCkpt.SavedRecord | sucrose/ckpt.py:21-31 | the record holds the model and optimizer keys only for given components, the extra key only for non-empty extras, the step key iff `save_step`, and no other key; it is empty exactly when none of these is present |
| LegacyCkpt.SaveStateDict | sucrose/ckpt.py:13-34 | without a project it is RuntimeError; otherwise the record is built step by step, and nothing is handed over when it is empty |
| LegacyCkpt.LoadRecord | sucrose/ckpt.py:47-57 | a model or optimizer entry without that component is an AttributeError (the model feed that precedes an optimizer error is `LoadStateDict`'s `modelFed`); present entries are fed; the step is set iff `load_step` and the key is present; the extras come back, `{}` when absent |
| LegacyCkpt.LoadStateDict | sucrose/ckpt.py:37-57 | without a project it is RuntimeError; otherwise `LoadRecord` of the loaded record; the model is fed its entry whenever it is given and the entry is present, also when the optimizer's AttributeError follows |
| LegacyCkpt.ModelFedBeforeOptimFails | sucrose/ckpt.py:47-50 | a record with model and optimizer entries, loaded with a model only, restores the model and then raises AttributeError for the optimizer |
| LegacyCkpt.SaveThenLoad | sucrose/ckpt.py:13-57 | a saved record loaded with the same components restores each state, gives back the extras exactly (empty ones included), and the step iff both saved and asked for |
| LegacyCallableConf.ConfigPath | sucrose/config/callableconf.py:50-53 | one field and a separator become the pieces of the field, which join back to it; otherwise the fields are the path |
| LegacyCallableConf.BoundNames | sucrose/config/callableconf.py:60-74 | at most one name per parameter |
| LegacyCallableConf.BoundNamesSound | sucrose/config/callableconf.py:65-72 | every name returned is a parameter that is neither positional-only nor `*args`, nor `self` of a class |
| LegacyCallableConf.BoundNamesComplete | sucrose/config/callableconf.py:65-72 | every other parameter's name is returned |
| LegacyCallableConf.GetKeywordParams | sucrose/config/callableconf.py:60-74 | the loop returns exactly the reference names, in order |
| LegacyCallableConf.Filtered | sucrose/config/callableconf.py:111-116 | the kept keys are exactly those among the bound names, and the kept values are unchanged |
| LegacyCallableConf.LoadedKwargs | sucrose/config/callableconf.py:97-116 | nothing at the path is RuntimeError, a non-dict is TypeError, otherwise the entry filtered to the bound names |
| LegacyCallableConf.LoadConfig | sucrose/config/callableconf.py:97-116 | popping unbound keys one at a time gives `LoadedKwargs` of the project's configuration |
| LegacyCallableConf.ConfigWrapper.constructor | sucrose/config/callableconf.py:80-95 | the wrapper's fields as given; a cache is only set together with a project, so the wrapper's invariant holds |
| LegacyCallableConf.ConfigWrapper.New | sucrose/config/callableconf.py:80-95 | without a project nothing is loaded; with one the filtered arguments are loaded now and cached, and a loading error is raised from the constructor |
| LegacyCallableConf.ConfigWrapper.Call | sucrose/config/callableconf.py:118-136 | without a cache the arguments are loaded afresh from the given or current project and the call-time ones win; with the cache, the call-time ones are written into the cache |
| LegacyCallableConf.OverrideLeaks | sucrose/config/callableconf.py:118-136 | with a cache, an override given to one call is still applied by the next call that gives none |

## Left out

- File I/O becomes inputs and outputs: `load_config` (YAML and JSON reading),
  `torch.save`/`torch.load`, `os.path.exists`, `os.listdir` and `os.makedirs`. A
  loaded configuration is passed in. A JSON file whose top level is not a dict is
  not modelled.
- The directory properties (`CKPTS_DIR`, `LOGS_DIR`, `os.path.join`) are left out.
  Each run class is given its checkpoint directory.
- `ProjectHeader._makedir` is left out.
- `inspect.signature` is replaced by an explicit parameter list.
- Where the source calls `state_dict()` or `load_state_dict()` on an object, the
  model passes the state as a value.
- Logging, `print` and the verbose listing of `_ConfigWrapper.__call__` are not
  modelled. The `__del__` warning is modelled only as its firing condition.
- Tensorboard starters, `src/sucrose/post.py`, `example/train.py` and `setup.py`
  are not part of this model.
- The thread-local current run (`set_current`, `get_current`, `auto_get_*`) is an
  explicit `Option` argument. Registering a new project as current is not
  modelled.
- Checkpoints.Classify: only `.` is treated as a regex metacharacter in the stem
  and tail. Names, prefixes and extensions holding other metacharacters
  (`*`, `+`, `(`, `[`, `\` …) are read literally.
- Text.Split, Utils.Lookup, LegacyUtils.Lookup, LegacyCallableConf.ConfigPath:
  the separator is one character. Python's multi-character separators are not
  modelled.
- Values: Python's `bool` is a subclass of `int`, so `isinstance(True, int)`
  holds. Runs.StepValue therefore accepts a bool and stores it as 0 or 1.
- ScenarioRun.Scenario.Open: a non-string `epoch_prefix` or `step_key` fails with
  NotAString. In Python it would be formatted into the pattern or used as a key.
- ConfTools.GetKeywordParams, ConfTools.PartialConfig, CallableConf.ApplyBinder,
  ProjectRun.Project.Open: these follow the corrected halves of the two Findings
  rows, as do ConfTools.KeywordParams, ConfTools.PartialConfigOf and
  CallableConf.ConfigFromData. A class's receiver is dropped, and the scan uses the
  stripped extension.
  The behaviour as written is modelled only by ConfTools.TargetSignatureAsWritten,
  ConfTools.PartialConfigAsWritten and ProjectRun.ScanTailAsWritten. For
  ProjectRun.Project.Open the two differ only when `ckpt_extension` starts with ".".
- ScenarioRun.Scenario.Open and ProjectRun.Project.Open: `re.match` is assumed
  not to raise on the pattern.
- `src/sucrose/const.py` and `src/sucrose/config/__init__.py` are not part of this
  model. The current `STEP_KEY` is taken to be "step", the key the scenario
  docstring shows.
- `sucrose/const.py` defines no `STEP_KEY`, `DEFAULT_EPOCH_PREFIX` or
  `DEFAUTL_CKPTS_EXT`. LegacyCkpt uses "step", and LegacyProject uses "e" and ".pt",
  the defaults of the other legacy classes.
- Some legacy wiring does not resolve. Each component is modelled on its own, and
  the code it reaches for is an input:
  - `sucrose/utils.py` has no `lookup_path`; `Utils.LookupPath` stands in for it;
  - `sucrose/project/ckpt.py` is not part of this model, so `load_state_dict_impl`
    is the `Reader` argument and a save returns its arguments as a `SaveRequest`;
  - `ProjectHeader` defines none of `save_ckpts`, `load_ckpts` and
    `set_current_step`, so `sucrose/ckpt.py` returns what it would hand them;
  - `sucrose/const.py:11` binds `LOCAL_THREAD` to the class `threading.local`
    instead of an instance of it. Its `__dict__` is a read-only mapping proxy, so
    `set_current` (line 15) raises TypeError and `get_current` never finds an
    entry. In the legacy tree, `sucrose/header.py:29` and `sucrose/project.py:33`
    therefore raise in every `__init__`. Header.ProjectHeader.constructor,
    LegacyFlatProject.Project.constructor and LegacyCkpt.AutoGetProject
    (with `current.Some?`) model registration and lookup of the current run as
    working.
- `Scenario.partial` and `Project.partial` are not modelled. They pass `func`
  positionally to `config_from_data(prefix, domain, data)`, which takes no such
  argument. CallableConf.ConfigFromData is modelled on its own.
- `src` `Project` has `NAME`, while `config_from_project` reads `proj.PROJECT`.
  CallableConf.ConfigFromProject takes the project's name and configuration
  directly.
- `__getitem__` of `Scenario` and `Project` is not modelled separately. It is
  `Configs.Lookup` on the run's own domain.
- Values are immutable here, so object identity, aliasing and in-place mutation of
  returned dicts are not modelled:
  - `mapping_copy` and `.copy()` yield equal values. The difference between a
    copied `CONFIG` and a shared one is shown only by LegacyProject.SetConfigItem,
    which writes through the shared dict;
  - the `_ConfigWrapper` cache leak is modelled as the cache field being
    reassigned;
  - the in-place `STEP_KEY` insertion into the caller's `state_dict` is modelled
    as the record that is saved.
- Ckpt.InDir: a subdirectory of the checkpoint directory made by other means is
  not modelled, so a name holding "/" always fails to save. A name starting with
  "/" is joined by `os.path.join` as an absolute path, and the source writes it
  outside the checkpoint directory; the model fails it like any other name
  holding "/".
- Checkpoints.CkptDir: a directory given as input may have keys holding "/",
  which `os.listdir` never lists. No save of the model creates one, and loading
  one finds nothing. The scan still reads such keys.
- LegacyCallableConf.Target: a class's `__init__` is given as resolved through the
  class's bases. Its receiver is skipped by the name `self`, as the source does.

## Findings

| source | as written | input that shows it | evidently intended | confidence | as-written member | corrected member |
|---|---|---|---|---|---|---|
| src/sucrose/config/conftools.py:16-25 | a class is introspected through the plain function `cls.__init__`, whose signature still lists `self`; `self` is then staged as a required keyword | `class Net: def __init__(self): ...` bound from an empty dataset raises ValueError("key 'self' is missing in dataset") | the receiver is not a keyword parameter of the call and is skipped | not executed | ConfTools.ClassReceiverIsRequired (over ConfTools.PartialConfigAsWritten) | ConfTools.ClassReceiverDropped (over ConfTools.TargetSignature) |
| src/sucrose/project/project.py:77 | the scan pattern uses `ckpt_extension` unstripped, after a literal `.`, while names are made with the stripped `CKPTS_EXT` (line 96) | `Project(work_dir, "p", ckpt_extension=".pt")`: its file `p_e15.pt` is scanned as epoch 1, and `p_e5.pt` makes the scan raise ValueError on `int("")` | the pattern uses `self.CKPTS_EXT`, so every name the project makes is read back as its epoch | not executed | ProjectRun.ScanAsWrittenMisreadsOwnNames (over ProjectRun.ScanTailAsWritten) | ProjectRun.ScanReadsOwnNames (over ProjectRun.ScanTail) |

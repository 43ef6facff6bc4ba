/** The legacy checkpoint record (`sucrose/ckpt.py`): a record with fixed keys for
    the model state, the optimizer state, the extra data and the step count. The
    project methods it hands the record to (`save_ckpts`, `load_ckpts`,
    `set_current_step`) are not defined on `ProjectHeader`, so a save returns the
    epoch and record it would hand over, and a load takes the record it would get
    back and returns the step it would set. */
module LegacyCkpt {
  import opened Wrappers
  import opened Values
  import opened Runs
  import Header

  const ModelKey := "model"
  const OptimKey := "optim"
  const ExtraKey := "extra"
  /** `STEP_KEY` is not defined in `sucrose/const.py`; the name the current code
      stores the step under is taken. */
  const StepKey := "step"

  /** `auto_get_project(project)`: the given project, else the current one. */
  function AutoGetProject(project: Option<Header.ProjectHeader>, current: Option<Header.ProjectHeader>)
    : (r: Result<Header.ProjectHeader, RunError>)
    ensures r.Failure? <==> project.None? && current.None?
    ensures r.Failure? ==> r.error == NoProject
    ensures project.Some? ==> r == Success(project.value)
    ensures project.None? && current.Some? ==> r == Success(current.value)
  {
    if project.Some? then Success(project.value)
    else if current.Some? then Success(current.value)
    else Failure(NoProject)
  }

  /** The reference record of a save: the model and optimizer states only for the
      components given, the extras only when there are some, the step only with
      `save_step`. */
  function SavedRecord(model: Option<Value>, optim: Option<Value>, extras: map<string, Value>, saveStep: bool, step: int)
    : (rec: map<string, Value>)
    ensures rec.Keys <= {ModelKey, OptimKey, ExtraKey, StepKey}
    ensures ModelKey in rec <==> model.Some?
    ensures OptimKey in rec <==> optim.Some?
    ensures ExtraKey in rec <==> extras != map[]
    ensures StepKey in rec <==> saveStep
    ensures model.Some? ==> rec[ModelKey] == model.value
    ensures optim.Some? ==> rec[OptimKey] == optim.value
    ensures extras != map[] ==> rec[ExtraKey] == VDict(extras)
    ensures saveStep ==> rec[StepKey] == VInt(step)
    ensures rec == map[] <==> model.None? && optim.None? && extras == map[] && !saveStep
  {
    var withModel := if model.Some? then map[ModelKey := model.value] else map[];
    var withOptim := if optim.Some? then withModel[OptimKey := optim.value] else withModel;
    var withExtra := if extras != map[] then withOptim[ExtraKey := VDict(extras)] else withOptim;
    var rec := if saveStep then withExtra[StepKey := VInt(step)] else withExtra;
    assert model.Some? ==> ModelKey in rec;
    rec
  }

  /** What `save_state_dict` hands to the project: the epoch and the record. */
  datatype SaveCall = SaveCall(epoch: int, record: map<string, Value>)

  /** `save_state_dict(epoch, model=..., optim=..., extra_kwds=..., save_step=...,
      project=...)`: the record is assembled entry by entry, with the step count of
      the project; nothing is handed over when it stays empty. A given model or
      optimizer is represented by the state its `state_dict()` returns. */
  method SaveStateDict(epoch: int, model: Option<Value>, optim: Option<Value>, extras: map<string, Value>, saveStep: bool,
                       project: Option<Header.ProjectHeader>, current: Option<Header.ProjectHeader>)
    returns (r: Result<Option<SaveCall>, RunError>)
    ensures r.Failure? <==> project.None? && current.None?
    ensures r.Failure? ==> r.error == NoProject
    ensures r.Success? ==> var proj := AutoGetProject(project, current).value;
      var rec := SavedRecord(model, optim, extras, saveStep, proj.step);
      r.value == if rec == map[] then None else Some(SaveCall(epoch, rec))
  {
    var dataToSave: map<string, Value> := map[];
    var proj := AutoGetProject(project, current);
    if proj.Failure? {
      return Failure(proj.error);
    }
    if model.Some? {
      dataToSave := dataToSave[ModelKey := model.value];
    }
    if optim.Some? {
      dataToSave := dataToSave[OptimKey := optim.value];
    }
    if extras != map[] {
      dataToSave := dataToSave[ExtraKey := VDict(extras)];
    }
    if saveStep {
      dataToSave := dataToSave[StepKey := VInt(proj.value.step)];
    }
    if |dataToSave| > 0 {
      return Success(Some(SaveCall(epoch, dataToSave)));
    }
    return Success(None);
  }

  /** What a load does with a record: the state fed to the model and to the
      optimizer, the value handed to `set_current_step`, and the returned extras. */
  datatype Restored = Restored(modelState: Option<Value>, optimState: Option<Value>, stepSet: Option<Value>, extras: Value)

  /** The reference outcome of `load_state_dict` on a record: an entry for a
      component that was not given is an AttributeError (model first, then
      optimizer); otherwise each present entry goes to its component, the step goes
      to the project with `load_step`, and the extras come back, `{}` when absent. */
  function LoadRecord(data: map<string, Value>, hasModel: bool, hasOptim: bool, loadStep: bool): (r: Result<Restored, RunError>)
    ensures r.Failure? <==> (ModelKey in data && !hasModel) || (OptimKey in data && !hasOptim)
    ensures ModelKey in data && !hasModel ==> r == Failure(NoComponent(ModelKey))
    ensures !(ModelKey in data && !hasModel) && OptimKey in data && !hasOptim ==> r == Failure(NoComponent(OptimKey))
    ensures r.Success? ==> (r.value.modelState.Some? <==> ModelKey in data)
    ensures r.Success? && ModelKey in data ==> r.value.modelState.value == data[ModelKey]
    ensures r.Success? ==> (r.value.optimState.Some? <==> OptimKey in data)
    ensures r.Success? && OptimKey in data ==> r.value.optimState.value == data[OptimKey]
    ensures r.Success? ==> (r.value.stepSet.Some? <==> loadStep && StepKey in data)
    ensures r.Success? && r.value.stepSet.Some? ==> r.value.stepSet.value == data[StepKey]
    ensures r.Success? ==> r.value.extras == if ExtraKey in data then data[ExtraKey] else VDict(map[])
  {
    if ModelKey in data && !hasModel then Failure(NoComponent(ModelKey))
    else if OptimKey in data && !hasOptim then Failure(NoComponent(OptimKey))
    else
      Success(Restored(
        if ModelKey in data then Some(data[ModelKey]) else None,
        if OptimKey in data then Some(data[OptimKey]) else None,
        if loadStep && StepKey in data then Some(data[StepKey]) else None,
        if ExtraKey in data then data[ExtraKey] else VDict(map[])))
  }

  /** `load_state_dict(epoch, model=..., optim=..., load_step=..., project=...)`,
      given the record the project's `load_ckpts(epoch)` returns. `modelFed` is the
      state the model received: the model is fed before the optimizer entry is
      looked at, so it keeps that state even when the optimizer's AttributeError
      follows. */
  method LoadStateDict(loaded: map<string, Value>, hasModel: bool, hasOptim: bool, loadStep: bool,
                       project: Option<Header.ProjectHeader>, current: Option<Header.ProjectHeader>)
    returns (modelFed: Option<Value>, r: Result<Restored, RunError>)
    ensures project.None? && current.None? ==> r == Failure(NoProject)
    ensures project.Some? || current.Some? ==> r == LoadRecord(loaded, hasModel, hasOptim, loadStep)
    ensures modelFed.Some? <==> (project.Some? || current.Some?) && ModelKey in loaded && hasModel
    ensures modelFed.Some? ==> modelFed.value == loaded[ModelKey]
    ensures r.Success? ==> r.value.modelState == modelFed
  {
    modelFed := None;
    var proj := AutoGetProject(project, current);
    if proj.Failure? {
      return modelFed, Failure(proj.error);
    }
    var modelState: Option<Value> := None;
    var optimState: Option<Value> := None;
    var stepSet: Option<Value> := None;
    if ModelKey in loaded {
      if !hasModel {
        return modelFed, Failure(NoComponent(ModelKey));
      }
      modelState := Some(loaded[ModelKey]);
      modelFed := modelState;
    }
    if OptimKey in loaded {
      if !hasOptim {
        return modelFed, Failure(NoComponent(OptimKey));
      }
      optimState := Some(loaded[OptimKey]);
    }
    if loadStep && StepKey in loaded {
      stepSet := Some(loaded[StepKey]);
    }
    if ExtraKey in loaded {
      return modelFed, Success(Restored(modelState, optimState, stepSet, loaded[ExtraKey]));
    }
    return modelFed, Success(Restored(modelState, optimState, stepSet, VDict(map[])));
  }

  /** A record with model and optimizer states, loaded with a model but no
      optimizer: the load raises on the optimizer after the model has been
      restored. */
  method ModelFedBeforeOptimFails(p: Header.ProjectHeader, m: Value, o: Value)
    returns (modelFed: Option<Value>, r: Result<Restored, RunError>)
    ensures modelFed == Some(m)
    ensures r == Failure(NoComponent(OptimKey))
  {
    var rec := map[ModelKey := m, OptimKey := o];
    assert ModelKey in rec && OptimKey in rec && rec[ModelKey] == m;
    modelFed, r := LoadStateDict(rec, true, false, true, Some(p), None);
  }

  /** A record written by a save and read back by a load with the same components:
      each component gets its state back, the extras always come back as given (an
      empty set of extras is stored as nothing and read back as `{}`), and the step
      comes back when it was both saved and asked for. */
  lemma {:induction false} SaveThenLoad(model: Option<Value>, optim: Option<Value>, extras: map<string, Value>,
                                        saveStep: bool, step: int, loadStep: bool)
    ensures var r := LoadRecord(SavedRecord(model, optim, extras, saveStep, step), model.Some?, optim.Some?, loadStep);
      && r.Success?
      && r.value.modelState == model
      && r.value.optimState == optim
      && r.value.extras == VDict(extras)
      && r.value.stepSet == if saveStep && loadStep then Some(VInt(step)) else None
  {
    var rec := SavedRecord(model, optim, extras, saveStep, step);
    if extras == map[] {
      assert ExtraKey !in rec;
    }
  }
}

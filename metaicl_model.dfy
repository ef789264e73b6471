/**
 * `MetaICLModel`, the wrapper object around a causal language model: its
 * fields are the loaded network, its name and mode, the optimizer setup and
 * everything it has logged or written so far. Its methods change those
 * fields step by step as the Python methods do, and each is proved against
 * the pure function of the module that specifies it.
 */
module MetaICL {
  import opened Wrappers
  import opened Events
  import opened Checkpoint
  import opened ModelLoading
  import opened OptimizerSetup
  import Training
  import Description

  /** What the wrapper uses of the network `from_pretrained` returns. */
  datatype Network = Network(
    request: LoadRequest,                  // the call that produced it
    parameters: seq<Param>,                // `named_parameters()`
    stateDict: seq<(string, Tensor)>,      // `state_dict().items()`
    ampWrapped: bool,                      // went through `setup_fp16`
    training: bool)                        // after `.train()` / `.eval()`

  /** `len([param for param in self.model.parameters() if param.requires_grad])` */
  function Trainable(ps: seq<Param>): (n: nat)
    ensures n <= |ps|
  {
    if ps == [] then 0 else Trainable(ps[..|ps| - 1]) + if ps[|ps| - 1].requiresGrad then 1 else 0
  }

  class MetaICLModel {
    const localRank: int
    const fp16: bool
    const outDir: string
    const device: string
    const nGpu: nat
    var modelName: Option<string>
    var model: Option<Network>
    var mode: Option<string>
    /** `self.optimizer` and `self.scheduler`, which exist only once `setup_optimizer` has stored them. */
    var setup: Option<Setup>
    /** Everything logged, printed or saved so far. */
    var log: seq<Event>

    /**
     * The device, the GPU count and the world size are what the CUDA and
     * distributed setup found; the main process announces them.
     */
    constructor(localRank: int, fp16: bool, outDir: string, device: string, nGpu: nat, worldSize: int)
      ensures this.localRank == localRank && this.fp16 == fp16 && this.outDir == outDir
      ensures this.device == device && this.nGpu == nGpu
      ensures modelName.None? && model.None? && mode.None? && setup.None?
      ensures log == if localRank <= 0 then [SetupLogged(localRank, worldSize)] else []
    {
      this.localRank := localRank;
      this.fp16 := fp16;
      this.outDir := outDir;
      this.device := device;
      this.nGpu := nGpu;
      modelName := None;
      model := None;
      mode := None;
      setup := None;
      log := if localRank <= 0 then [SetupLogged(localRank, worldSize)] else [];
    }

    /** `__str__` */
    function Describe(): string
      reads this
    {
      Description.Describe(modelName, mode, device, nGpu, localRank)
    }

    /** `self.model.train()`, then the mode; with no model the first call raises. */
    method Train() returns (raised: Option<Exception>)
      modifies this
      ensures old(model).None? ==> raised == Some(AttributeError) && mode == old(mode) && model == old(model)
      ensures old(model).Some? ==> raised.None? && mode == Some("train") && model == Some(old(model).value.(training := true))
      ensures modelName == old(modelName) && setup == old(setup) && log == old(log)
    {
      if model.None? {
        return Some(AttributeError);
      }
      model := Some(model.value.(training := true));
      mode := Some("train");
      raised := None;
    }

    /** `self.model.eval()`, then the mode; with no model the first call raises. */
    method Eval() returns (raised: Option<Exception>)
      modifies this
      ensures old(model).None? ==> raised == Some(AttributeError) && mode == old(mode) && model == old(model)
      ensures old(model).Some? ==> raised.None? && mode == Some("eval") && model == Some(old(model).value.(training := false))
      ensures modelName == old(modelName) && setup == old(setup) && log == old(log)
    {
      if model.None? {
        return Some(AttributeError);
      }
      model := Some(model.value.(training := false));
      mode := Some("eval");
      raised := None;
    }

    /**
     * `load`: resolve the checkpoint path and ask `fromPretrained` for the
     * network. A name of no known family leaves the local `model` unbound:
     * the name is still stored, then the assignment of the model raises.
     */
    method Load(fromPretrained: LoadRequest -> Network, name: string) returns (raised: Option<Exception>)
      modifies this
      ensures FamilyOf(name).None? ==> raised == Some(UnboundLocalError) && modelName == Some(name) && model == old(model)
      ensures FamilyOf(name).Some? ==>
        && raised.None?
        && modelName == Some(CheckpointPath(name))
        && model == Some(fromPretrained(Resolve(name).value))
      ensures mode == old(mode) && setup == old(setup) && log == old(log)
    {
      var request := Resolve(name);
      match request {
        case None =>
          modelName := Some(name);
          raised := Some(UnboundLocalError);
        case Some(r) =>
          modelName := Some(r.path);
          model := Some(fromPretrained(r));
          raised := None;
      }
    }

    /**
     * `save(step)`: the main process writes the CPU state dict with its
     * `module.` prefixes stripped to `model-<step>.pt` and logs it; other
     * processes do nothing. With no model the main process raises.
     */
    method Save(step: int) returns (raised: Option<Exception>)
      modifies this`log
      ensures localRank > 0 ==> raised.None? && log == old(log)
      ensures localRank <= 0 && model.None? ==> raised == Some(AttributeError) && log == old(log)
      ensures localRank <= 0 && model.Some? ==> raised.None? && log == old(log) + SaveEvents(localRank, outDir, model.value.stateDict, step)
    {
      raised := None;
      if localRank <= 0 {
        if model.None? {
          return Some(AttributeError);
        }
        var written := CpuStateDict(model.value.stateDict);
        log := log + [CheckpointWritten(outDir, CheckpointFile(step), written)];
        log := log + [CheckpointLogged(step)];
      }
    }

    /**
     * `setup_optimizer`: group the parameters, choose the optimizer and
     * scheduler, and pass the model through `setup_fp16` where the branch
     * does so. The setup is stored only when no exception is raised.
     */
    method SetupOptimizer(optimization: string, numTrainingSteps: int, lr: real, weightDecay: real, warmupSteps: int)
      returns (raised: Option<Exception>)
      modifies this
      ensures old(model).None? ==> raised == Some(AttributeError) && model == old(model) && setup == old(setup)
      ensures old(model).Some? ==>
        var d := OptimizerSetup.SetupOptimizer(optimization, old(model).value.parameters, numTrainingSteps, lr,
                                               weightDecay, warmupSteps, fp16);
        && model == Some(if d.ampWrapped then old(model).value.(ampWrapped := true) else old(model).value)
        && (d.outcome.Ok? ==> raised.None? && setup == Some(d.outcome.value))
        && (d.outcome.Err? ==> raised == Some(d.outcome.error) && setup == old(setup))
      ensures modelName == old(modelName) && mode == old(mode) && log == old(log)
    {
      if model.None? {
        return Some(AttributeError);
      }
      var d := OptimizerSetup.SetupOptimizer(optimization, model.value.parameters, numTrainingSteps, lr,
                                             weightDecay, warmupSteps, fp16);
      if d.ampWrapped {
        model := Some(model.value.(ampWrapped := true));
      }
      match d.outcome {
        case Ok(s) =>
          setup := Some(s);
          raised := None;
        case Err(e) =>
          raised := Some(e);
      }
    }

    /** The arguments of `do_train` together with what it reads of the object. */
    function TrainConfig(numTrainingSteps: int, savePeriod: int, logPeriod: int, accumulation: int,
                         maxGradNorm: real): Training.TrainConfig
      requires model.Some?
      reads this
    {
      Training.TrainConfig(numTrainingSteps, savePeriod, logPeriod, accumulation, maxGradNorm, fp16,
                           setup.Some?, setup.Some? && setup.value.scheduler.Some?, localRank, outDir,
                           model.value.stateDict)
    }

    /**
     * One iteration of the batch loop of `do_train`, from `global_step` and
     * `train_losses` before the step is counted; returns them after it and
     * how control leaves the iteration.
     */
    method TrainBatch(numTrainingSteps: int, savePeriod: int, logPeriod: int, accumulation: int, maxGradNorm: real,
                      globalStep: int, trainLosses: seq<real>, loss: Training.BatchLoss)
      returns (step: int, losses: seq<real>, exit: Training.Exit)
      requires model.Some?
      modifies this`log
      ensures Training.Batch(TrainConfig(numTrainingSteps, savePeriod, logPeriod, accumulation, maxGradNorm),
                             Training.TrainState(globalStep, trainLosses, old(log)), loss)
              == Training.Outcome(Training.TrainState(step, losses, log), exit)
    {
      step := globalStep + 1;
      losses := trainLosses;
      if loss.NaN? {
        log := log + [NanLoss(step)];
        return step, losses, Training.Break;
      }
      losses := losses + [loss.value];
      if fp16 && setup.None? {
        return step, losses, Training.Throw(AttributeError);
      }
      log := log + [Backward(step, fp16)];
      losses, exit := UpdateStep(numTrainingSteps, savePeriod, logPeriod, accumulation, maxGradNorm, step, losses);
    }

    /** The iteration after the backward pass: clip, step the optimizer and the scheduler, and zero the gradients every `accumulation` steps. */
    method UpdateStep(numTrainingSteps: int, savePeriod: int, logPeriod: int, accumulation: int, maxGradNorm: real,
                      step: int, trainLosses: seq<real>)
      returns (losses: seq<real>, exit: Training.Exit)
      requires model.Some?
      modifies this`log
      ensures Training.Update(TrainConfig(numTrainingSteps, savePeriod, logPeriod, accumulation, maxGradNorm),
                              Training.TrainState(step, trainLosses, old(log)))
              == Training.Outcome(Training.TrainState(step, losses, log), exit)
    {
      ghost var c := TrainConfig(numTrainingSteps, savePeriod, logPeriod, accumulation, maxGradNorm);
      losses := trainLosses;
      if accumulation == 0 {
        return losses, Training.Throw(ZeroDivisionError);
      }
      if step % accumulation == 0 {
        log := log + [ClipGradNorm(maxGradNorm)];
        if setup.None? {
          return losses, Training.Throw(AttributeError);
        }
        log := log + [OptimizerStep];
        if setup.value.scheduler.Some? {
          log := log + [SchedulerStep];
        }
        log := log + [ZeroGrad];
        assert log == old(log) + Training.UpdateEvents(c);
      }
      ghost var updated := Training.TrainState(step, losses, log);
      assert Training.Update(c, Training.TrainState(step, trainLosses, old(log))) == Training.Report(c, updated);
      losses, exit := ReportStep(numTrainingSteps, savePeriod, logPeriod, accumulation, maxGradNorm, step, losses);
    }

    /** The iteration after the update: log the buffered losses every `logPeriod` steps, save every `savePeriod` steps. */
    method ReportStep(numTrainingSteps: int, savePeriod: int, logPeriod: int, accumulation: int, maxGradNorm: real,
                      step: int, trainLosses: seq<real>)
      returns (losses: seq<real>, exit: Training.Exit)
      requires model.Some?
      modifies this`log
      ensures Training.Report(TrainConfig(numTrainingSteps, savePeriod, logPeriod, accumulation, maxGradNorm),
                              Training.TrainState(step, trainLosses, old(log)))
              == Training.Outcome(Training.TrainState(step, losses, log), exit)
    {
      losses := trainLosses;
      if logPeriod == 0 {
        return losses, Training.Throw(ZeroDivisionError);
      }
      if step % logPeriod == 0 {
        log := log + [TrainLossLogged(localRank, step, losses)];
        losses := [];
      }
      if savePeriod == 0 {
        return losses, Training.Throw(ZeroDivisionError);
      }
      if step % savePeriod == 0 {
        var _ := Save(step);
      }
      exit := if step == numTrainingSteps then Training.Break else Training.Proceed;
    }

    /**
     * One pass of `do_train` over the dataloader, `for batch in dataloader`,
     * left early on a NaN loss, at the step budget or by an exception.
     */
    method TrainPass(loss: (int, int) -> Training.BatchLoss, batches: nat, epoch: int, numTrainingSteps: int,
                     savePeriod: int, logPeriod: int, accumulation: int, maxGradNorm: real,
                     globalStep: int, trainLosses: seq<real>)
      returns (step: int, losses: seq<real>, exit: Training.Exit)
      requires model.Some?
      modifies this`log
      ensures Training.PassFrom(TrainConfig(numTrainingSteps, savePeriod, logPeriod, accumulation, maxGradNorm),
                                loss, batches, epoch, 0, Training.TrainState(globalStep, trainLosses, old(log)))
              == Training.Outcome(Training.TrainState(step, losses, log), exit)
    {
      ghost var c := TrainConfig(numTrainingSteps, savePeriod, logPeriod, accumulation, maxGradNorm);
      ghost var pass := Training.PassFrom(c, loss, batches, epoch, 0, Training.TrainState(globalStep, trainLosses, log));
      step, losses, exit := globalStep, trainLosses, Training.Proceed;
      var j := 0;
      while j < batches
        invariant j <= batches
        invariant exit == Training.Proceed
        invariant Training.PassFrom(c, loss, batches, epoch, j, Training.TrainState(step, losses, log)) == pass
        decreases batches - j
      {
        step, losses, exit := TrainBatch(numTrainingSteps, savePeriod, logPeriod, accumulation, maxGradNorm,
                                         step, losses, loss(epoch, j));
        if exit != Training.Proceed {
          break;
        }
        j := j + 1;
      }
    }

    /**
     * `do_train`: `loss(epoch, j)` is the mean loss of the `j`-th of the
     * `batches` batches the dataloader yields in pass `epoch`. Returns the
     * exception that escapes, if any; everything else it does is in `log`.
     */
    method DoTrain(loss: (int, int) -> Training.BatchLoss, batches: nat, examples: nat, numTrainingSteps: int,
                   savePeriod: int, logPeriod: int, accumulation: int, maxGradNorm: real)
      returns (raised: Option<Exception>)
      modifies this`log
      ensures old(model).None? ==> raised == Some(AttributeError) && log == old(log)
      ensures old(model).Some? ==>
        var r := Training.Train(TrainConfig(numTrainingSteps, savePeriod, logPeriod, accumulation, maxGradNorm),
                                loss, batches, Trainable(model.value.parameters), examples, nGpu, old(log));
        log == r.st.log && raised == r.raised
    {
      if model.None? {
        return Some(AttributeError);
      }
      ghost var c := TrainConfig(numTrainingSteps, savePeriod, logPeriod, accumulation, maxGradNorm);
      ghost var start := Training.Start(c, Trainable(model.value.parameters), examples, nGpu, log);
      log := log + [TrainingStarted(Trainable(model.value.parameters), examples, numTrainingSteps, nGpu)];
      var globalStep := 0;
      var trainLosses: seq<real> := [];
      var epoch := 0;
      while epoch < numTrainingSteps
        invariant Training.RunFrom(c, loss, batches, epoch, Training.TrainState(globalStep, trainLosses, log))
                  == Training.RunFrom(c, loss, batches, 0, start)
        decreases numTrainingSteps - epoch
      {
        var exit;
        globalStep, trainLosses, exit := TrainPass(loss, batches, epoch, numTrainingSteps, savePeriod, logPeriod,
                                                   accumulation, maxGradNorm, globalStep, trainLosses);
        if exit.Throw? {
          return Some(exit.error);
        }
        if globalStep == numTrainingSteps {
          break;
        }
        epoch := epoch + 1;
      }
      log := log + [TrainingFinished];
      raised := None;
    }
  }
}

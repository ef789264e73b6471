/**
 * The observable effects of a `MetaICLModel`: what it logs, prints, writes
 * with `torch.save` and asks of the optimizer, scheduler and autograd, in the
 * order it does so, plus the Python exceptions it can raise.
 */
module Events {
  /**
   * A tensor, by identity. Optimizer steps update tensors in place, so a
   * handle taken from `named_parameters()` or `state_dict()` stays valid.
   */
  type Tensor = nat

  /** The Python exceptions the modelled code raises itself. */
  datatype Exception =
    | AttributeError      // a field used before it was set (`self.model` is None, no `self.optimizer`)
    | UnboundLocalError   // `load` with a model name of no known family
    | NotImplementedError // an unknown optimization strategy
    | ZeroDivisionError   // `global_step % period` with a zero period

  datatype Event =
    | SetupLogged(localRank: int, worldSize: int)
    | TrainingStarted(trainable: nat, examples: nat, steps: int, gpus: nat)
    | NanLoss(step: int)            // the "Stop training" print; it shows the loss, and the step is only this model's annotation
    | Backward(step: int, scaled: bool)
    | ClipGradNorm(maxNorm: real)
    | OptimizerStep
    | SchedulerStep
    | ZeroGrad
    | TrainLossLogged(localRank: int, step: int, losses: seq<real>)
    | CheckpointWritten(outDir: string, fileName: string, stateDict: map<string, Tensor>)
    | CheckpointLogged(step: int)
    | TrainingFinished
}

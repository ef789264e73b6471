/**
 * The step cadence of `do_train`: per batch, count the step, stop the pass on
 * a NaN loss, back-propagate, step the optimizer every
 * `gradient_accumulation_steps`, log every `log_period` and save every
 * `save_period` steps, until `num_training_steps` steps are counted.
 */
module Training {
  import opened Wrappers
  import opened Events
  import opened Checkpoint

  /** The mean loss of one batch as `run_model(...).mean()` returns it. */
  datatype BatchLoss = Finite(value: real) | NaN

  /** Everything `do_train` reads besides the losses. */
  datatype TrainConfig = TrainConfig(
    steps: int,              // num_training_steps
    savePeriod: int,
    logPeriod: int,
    accumulation: int,       // gradient_accumulation_steps
    maxGradNorm: real,
    fp16: bool,
    optimizerSet: bool,      // `setup_optimizer` has stored an optimizer
    hasScheduler: bool,      // ... and a scheduler that is not None
    localRank: int,
    outDir: string,
    stateDict: seq<(string, Tensor)>)

  /** `global_step`, `train_losses`, and everything observed so far. */
  datatype TrainState = TrainState(step: int, window: seq<real>, log: seq<Event>)

  /** How control leaves a batch: on to the next one, out of the pass over the dataloader, or by an exception. */
  datatype Exit = Proceed | Break | Throw(error: Exception)

  datatype Outcome = Outcome(st: TrainState, exit: Exit)

  /** The optimizer update done every `gradient_accumulation_steps` steps. */
  function UpdateEvents(c: TrainConfig): seq<Event> {
    [ClipGradNorm(c.maxGradNorm), OptimizerStep] + (if c.hasScheduler then [SchedulerStep] else []) + [ZeroGrad]
  }

  /** One iteration of the batch loop, from the state before `global_step += 1`. */
  function Batch(c: TrainConfig, st: TrainState, loss: BatchLoss): Outcome {
    var s := st.step + 1;
    if loss.NaN? then Outcome(TrainState(s, st.window, st.log + [NanLoss(s)]), Break)
    else
      var window := st.window + [loss.value];
      if c.fp16 && !c.optimizerSet then Outcome(TrainState(s, window, st.log), Throw(AttributeError))
      else Update(c, TrainState(s, window, st.log + [Backward(s, c.fp16)]))
  }

  /** The rest of the iteration after the backward pass of step `st.step`: the update every `accumulation` steps. */
  function Update(c: TrainConfig, st: TrainState): Outcome {
    if c.accumulation == 0 then Outcome(st, Throw(ZeroDivisionError))
    else if st.step % c.accumulation == 0 && !c.optimizerSet then
      Outcome(st.(log := st.log + [ClipGradNorm(c.maxGradNorm)]), Throw(AttributeError))
    else Report(c, if st.step % c.accumulation == 0 then st.(log := st.log + UpdateEvents(c)) else st)
  }

  /** The rest of the iteration after the update: log every `logPeriod`, save every `savePeriod` steps, stop at the budget. */
  function Report(c: TrainConfig, st: TrainState): Outcome {
    var s := st.step;
    if c.logPeriod == 0 then Outcome(st, Throw(ZeroDivisionError))
    else
      var logged := if s % c.logPeriod == 0 then TrainState(s, [], st.log + [TrainLossLogged(c.localRank, s, st.window)]) else st;
      if c.savePeriod == 0 then Outcome(logged, Throw(ZeroDivisionError))
      else
        var saved := if s % c.savePeriod == 0 then logged.(log := logged.log + SaveEvents(c.localRank, c.outDir, c.stateDict, s)) else logged;
        Outcome(saved, if s == c.steps then Break else Proceed)
  }

  /** The rest of one pass over the dataloader, from batch `j` of `batches`. */
  function PassFrom(c: TrainConfig, loss: (int, int) -> BatchLoss, batches: nat, epoch: int, j: nat, st: TrainState): Outcome
    decreases batches - j
  {
    if j >= batches then Outcome(st, Proceed)
    else
      var o := Batch(c, st, loss(epoch, j));
      if o.exit == Proceed then PassFrom(c, loss, batches, epoch, j + 1, o.st) else o
  }

  /** How training ends: the final state, and the exception if one escaped. */
  datatype RunEnd = RunEnd(st: TrainState, raised: Option<Exception>)

  /** The rest of the epoch loop, from `epoch`. */
  function RunFrom(c: TrainConfig, loss: (int, int) -> BatchLoss, batches: nat, epoch: int, st: TrainState): RunEnd
    decreases c.steps - epoch
  {
    if epoch >= c.steps then RunEnd(st, None)
    else
      var o := PassFrom(c, loss, batches, epoch, 0, st);
      if o.exit.Throw? then RunEnd(o.st, Some(o.exit.error))
      else if o.st.step == c.steps then RunEnd(o.st, None)
      else RunFrom(c, loss, batches, epoch + 1, o.st)
  }

  /** The state `do_train` starts from, after announcing the run. */
  function Start(c: TrainConfig, trainable: nat, examples: nat, gpus: nat, log: seq<Event>): TrainState {
    TrainState(0, [], log + [TrainingStarted(trainable, examples, c.steps, gpus)])
  }

  /** A whole `do_train` call, with `batches` batches per pass and `loss(epoch, batch)` their losses. */
  function Train(c: TrainConfig, loss: (int, int) -> BatchLoss, batches: nat, trainable: nat, examples: nat, gpus: nat,
                 log: seq<Event>): RunEnd
  {
    var r := RunFrom(c, loss, batches, 0, Start(c, trainable, examples, gpus, log));
    if r.raised.None? then RunEnd(r.st.(log := r.st.log + [TrainingFinished]), None) else r
  }
}

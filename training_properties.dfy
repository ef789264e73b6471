/**
 * What the `do_train` cadence guarantees: the step budget is reached even
 * past NaN losses, the optimizer steps once per `gradient_accumulation_steps`
 * steps, every logged window and every checkpoint falls on its period.
 */
module TrainingProperties {
  import opened Wrappers
  import opened Events
  import opened Checkpoint
  import opened Training

  // Lifting a property of one batch to a pass and to the whole run.

  lemma {:induction false} PassKeeps(c: TrainConfig, loss: (int, int) -> BatchLoss, batches: nat, epoch: int, j: nat,
                                     st: TrainState, inv: TrainState -> bool)
    requires inv(st)
    requires forall s: TrainState, k: int :: inv(s) && j <= k < batches ==> inv(Batch(c, s, loss(epoch, k)).st)
    ensures inv(PassFrom(c, loss, batches, epoch, j, st).st)
    decreases batches - j
  {
    if j < batches {
      var o := Batch(c, st, loss(epoch, j));
      if o.exit == Proceed {
        PassKeeps(c, loss, batches, epoch, j + 1, o.st, inv);
      }
    }
  }

  lemma {:induction false} RunKeeps(c: TrainConfig, loss: (int, int) -> BatchLoss, batches: nat, epoch: int,
                                    st: TrainState, inv: TrainState -> bool)
    requires inv(st)
    requires forall s: TrainState, e: int, k: int :: inv(s) && epoch <= e && 0 <= k < batches ==> inv(Batch(c, s, loss(e, k)).st)
    ensures inv(RunFrom(c, loss, batches, epoch, st).st)
    decreases c.steps - epoch
  {
    if epoch < c.steps {
      PassKeeps(c, loss, batches, epoch, 0, st, inv);
      var o := PassFrom(c, loss, batches, epoch, 0, st);
      if !o.exit.Throw? && o.st.step != c.steps {
        RunKeeps(c, loss, batches, epoch + 1, o.st, inv);
      }
    }
  }

  // The step budget.

  /** Within a pass started below the budget, the step grows, never passes the budget, and a normal end stays below it. */
  lemma {:induction false} PassSteps(c: TrainConfig, loss: (int, int) -> BatchLoss, batches: nat, epoch: int, j: nat, st: TrainState)
    requires st.step < c.steps
    ensures var o := PassFrom(c, loss, batches, epoch, j, st);
      && st.step <= o.st.step <= c.steps
      && (o.exit == Proceed ==> o.st.step < c.steps)
      && (j < batches ==> st.step < o.st.step)
    decreases batches - j
  {
    if j < batches {
      var o := Batch(c, st, loss(epoch, j));
      if o.exit == Proceed {
        PassSteps(c, loss, batches, epoch, j + 1, o.st);
      }
    }
  }

  lemma {:induction false} RunSteps(c: TrainConfig, loss: (int, int) -> BatchLoss, batches: nat, epoch: int, st: TrainState)
    requires epoch < c.steps ==> st.step < c.steps
    ensures var r := RunFrom(c, loss, batches, epoch, st);
      r.st.step <= (if c.steps > st.step then c.steps else st.step)
    decreases c.steps - epoch
  {
    if epoch < c.steps {
      PassSteps(c, loss, batches, epoch, 0, st);
      var o := PassFrom(c, loss, batches, epoch, 0, st);
      if !o.exit.Throw? && o.st.step != c.steps {
        RunSteps(c, loss, batches, epoch + 1, o.st);
      }
    }
  }

  /** `global_step` never exceeds `num_training_steps` (nor drops below zero). */
  lemma StepsNeverExceedBudget(c: TrainConfig, loss: (int, int) -> BatchLoss, batches: nat, trainable: nat, examples: nat,
                               gpus: nat, log: seq<Event>)
    ensures var r := Train(c, loss, batches, trainable, examples, gpus, log);
      0 <= r.st.step <= (if c.steps > 0 then c.steps else 0)
  {
    var st := Start(c, trainable, examples, gpus, log);
    RunSteps(c, loss, batches, 0, st);
    RunKeeps(c, loss, batches, 0, st, (s: TrainState) => s.step >= 0);
  }

  lemma {:induction false} RunReaches(c: TrainConfig, loss: (int, int) -> BatchLoss, batches: nat, epoch: int, st: TrainState)
    requires batches > 0
    requires epoch <= st.step <= c.steps
    requires st.step < c.steps || epoch >= c.steps
    ensures var r := RunFrom(c, loss, batches, epoch, st);
      r.raised.None? ==> r.st.step == c.steps
    decreases c.steps - epoch
  {
    if epoch < c.steps {
      PassSteps(c, loss, batches, epoch, 0, st);
      var o := PassFrom(c, loss, batches, epoch, 0, st);
      if !o.exit.Throw? && o.st.step != c.steps {
        RunReaches(c, loss, batches, epoch + 1, o.st);
      }
    }
  }

  /** The periods are usable and `setup_optimizer` has run: nothing in the batch loop raises. */
  predicate Configured(c: TrainConfig) {
    c.accumulation != 0 && c.logPeriod != 0 && c.savePeriod != 0 && c.optimizerSet
  }

  lemma {:induction false} PassNoThrow(c: TrainConfig, loss: (int, int) -> BatchLoss, batches: nat, epoch: int, j: nat, st: TrainState)
    requires Configured(c)
    ensures !PassFrom(c, loss, batches, epoch, j, st).exit.Throw?
    decreases batches - j
  {
    if j < batches {
      var o := Batch(c, st, loss(epoch, j));
      if o.exit == Proceed {
        PassNoThrow(c, loss, batches, epoch, j + 1, o.st);
      }
    }
  }

  lemma {:induction false} RunNoThrow(c: TrainConfig, loss: (int, int) -> BatchLoss, batches: nat, epoch: int, st: TrainState)
    requires Configured(c)
    ensures RunFrom(c, loss, batches, epoch, st).raised.None?
    decreases c.steps - epoch
  {
    if epoch < c.steps {
      PassNoThrow(c, loss, batches, epoch, 0, st);
      var o := PassFrom(c, loss, batches, epoch, 0, st);
      if o.st.step != c.steps {
        RunNoThrow(c, loss, batches, epoch + 1, o.st);
      }
    }
  }

  /**
   * A NaN loss does not end training: it only ends the current pass, and the
   * next epoch carries on. With a non-empty dataloader and a usable
   * configuration, every run counts exactly `num_training_steps` steps and
   * finishes, whatever the losses.
   */
  lemma TrainingReachesBudget(c: TrainConfig, loss: (int, int) -> BatchLoss, batches: nat, trainable: nat, examples: nat,
                              gpus: nat, log: seq<Event>)
    requires batches > 0 && c.steps >= 0 && Configured(c)
    ensures var r := Train(c, loss, batches, trainable, examples, gpus, log);
      && r.raised.None?
      && r.st.step == c.steps
      && r.st.log[|r.st.log| - 1] == TrainingFinished
  {
    var st := Start(c, trainable, examples, gpus, log);
    RunNoThrow(c, loss, batches, 0, st);
    RunReaches(c, loss, batches, 0, st);
  }

  // Counting optimizer steps.

  function OptimizerSteps(log: seq<Event>): nat
    decreases |log|
  {
    if log == [] then 0 else (if log[0] == OptimizerStep then 1 else 0) + OptimizerSteps(log[1..])
  }

  lemma {:induction false} OptimizerStepsAppend(a: seq<Event>, b: seq<Event>)
    ensures OptimizerSteps(a + b) == OptimizerSteps(a) + OptimizerSteps(b)
    decreases |a|
  {
    if a == [] {
      assert a + b == b;
    } else {
      OptimizerStepsAppend(a[1..], b);
      assert (a + b)[1..] == a[1..] + b;
    }
  }

  lemma {:induction false} MulMono(p: int, d: int)
    requires p > 0 && d >= 1
    ensures p * d >= p
    decreases d
  {
    if d > 1 {
      MulMono(p, d - 1);
      assert p * d == p * (d - 1) + p;
    }
  }

  /** Integer division is determined by the quotient-remainder decomposition. */
  lemma DivModUnique(s: int, p: int, q: int, r: int)
    requires p > 0 && s == p * q + r && 0 <= r < p
    ensures s / p == q && s % p == r
  {
    var q0, r0 := s / p, s % p;
    var d := q - q0;
    assert p * q == p * q0 + p * d;
    if d >= 1 {
      MulMono(p, d);
    } else if d <= -1 {
      MulMono(p, -d);
    }
  }

  /** How `s / p` and `s % p` move from step `s - 1` to step `s`. */
  lemma ModStep(s: int, p: int)
    requires p > 0 && s >= 1
    ensures s % p == 0 ==> (s - 1) % p == p - 1 && s / p == (s - 1) / p + 1
    ensures s % p != 0 ==> s % p == (s - 1) % p + 1 && s / p == (s - 1) / p
  {
    var q := (s - 1) / p;
    var r := (s - 1) % p;
    assert s - 1 == p * q + r && 0 <= r < p;
    if r == p - 1 {
      DivModUnique(s, p, q + 1, 0);
    } else {
      DivModUnique(s, p, q, r + 1);
    }
  }

  /** The events a NaN-free batch appends after the optimizer update: the log line and the checkpoint, when due. */
  function LogTail(c: TrainConfig, s: int, window: seq<real>): seq<Event>
    requires c.logPeriod != 0 && c.savePeriod != 0
  {
    (if s % c.logPeriod == 0 then [TrainLossLogged(c.localRank, s, window)] else [])
      + (if s % c.savePeriod == 0 then SaveEvents(c.localRank, c.outDir, c.stateDict, s) else [])
  }

  /** The log a NaN-free batch leaves in a usable configuration. */
  lemma BatchFiniteLog(c: TrainConfig, st: TrainState, v: real)
    requires Configured(c)
    ensures var s := st.step + 1;
      var o := Batch(c, st, Finite(v)).st;
      o.step == s &&
      o.log == st.log + [Backward(s, c.fp16)] + (if s % c.accumulation == 0 then UpdateEvents(c) else [])
        + LogTail(c, s, st.window + [v])
  {
  }

  lemma {:induction false} NoOptimizerStep(log: seq<Event>)
    requires OptimizerStep !in log
    ensures OptimizerSteps(log) == 0
    decreases |log|
  {
    if log != [] {
      assert log[0] in log;
      assert forall e :: e in log[1..] ==> e in log;
      NoOptimizerStep(log[1..]);
    }
  }

  lemma OptimizerStepsOfUpdate(c: TrainConfig)
    ensures OptimizerSteps(UpdateEvents(c)) == 1
  {
    var u := UpdateEvents(c);
    var rest := (if c.hasScheduler then [SchedulerStep] else []) + [ZeroGrad];
    assert u[1..] == [OptimizerStep] + rest;
    assert u[1..][1..] == rest;
    NoOptimizerStep(rest);
  }

  lemma OptimizerStepsOfTail(c: TrainConfig, s: int, window: seq<real>)
    requires c.logPeriod != 0 && c.savePeriod != 0
    ensures OptimizerSteps(LogTail(c, s, window)) == 0
  {
    NoOptimizerStep(LogTail(c, s, window));
  }

  /** One NaN-free, usable batch performs one optimizer step exactly when the new step is a multiple of the period. */
  lemma BatchCountsOptimizerSteps(c: TrainConfig, st: TrainState, v: real, base: int)
    requires Configured(c) && c.accumulation > 0 && st.step >= 0
    requires OptimizerSteps(st.log) == base + st.step / c.accumulation
    ensures var o := Batch(c, st, Finite(v)).st;
      o.step >= 0 && OptimizerSteps(o.log) == base + o.step / c.accumulation
  {
    var s := st.step + 1;
    BatchFiniteLog(c, st, v);
    ModStep(s, c.accumulation);
    var update := if s % c.accumulation == 0 then UpdateEvents(c) else [];
    var tail := LogTail(c, s, st.window + [v]);
    OptimizerStepsAppend(st.log, [Backward(s, c.fp16)]);
    OptimizerStepsAppend(st.log + [Backward(s, c.fp16)], update);
    OptimizerStepsAppend(st.log + [Backward(s, c.fp16)] + update, tail);
    OptimizerStepsOfUpdate(c);
    OptimizerStepsOfTail(c, s, st.window + [v]);
    NoOptimizerStep([Backward(s, c.fp16)]);
  }

  /**
   * Over a run with no NaN loss, the optimizer steps `global_step / g` times
   * for a positive accumulation period `g`: once at every multiple of `g`.
   */
  lemma OptimizerStepsPerAccumulation(c: TrainConfig, loss: (int, int) -> BatchLoss, batches: nat, trainable: nat, examples: nat,
                                      gpus: nat, log: seq<Event>)
    requires Configured(c) && c.accumulation > 0
    requires forall e, j :: loss(e, j).Finite?
    ensures var r := Train(c, loss, batches, trainable, examples, gpus, log);
      OptimizerSteps(r.st.log) == OptimizerSteps(log) + r.st.step / c.accumulation
  {
    var st := Start(c, trainable, examples, gpus, log);
    var base := OptimizerSteps(log);
    OptimizerStepsAppend(log, [TrainingStarted(trainable, examples, c.steps, gpus)]);
    var inv := (s: TrainState) => s.step >= 0 && OptimizerSteps(s.log) == base + s.step / c.accumulation;
    forall s: TrainState, e: int, k: int | inv(s) && 0 <= e && 0 <= k < batches
      ensures inv(Batch(c, s, loss(e, k)).st)
    {
      BatchCountsOptimizerSteps(c, s, loss(e, k).value, base);
    }
    RunKeeps(c, loss, batches, 0, st, inv);
    RunNoThrow(c, loss, batches, 0, st);
    var r := RunFrom(c, loss, batches, 0, st);
    OptimizerStepsAppend(r.st.log, [TrainingFinished]);
  }

  /** Ten NaN-free steps with accumulation 2 step the optimizer five times. */
  lemma TenStepsTwoAccumulationFiveUpdates(c: TrainConfig, loss: (int, int) -> BatchLoss, batches: nat, log: seq<Event>)
    requires c.steps == 10 && c.accumulation == 2 && c.logPeriod != 0 && c.savePeriod != 0 && c.optimizerSet
    requires batches > 0 && forall e, j :: loss(e, j).Finite?
    ensures OptimizerSteps(Train(c, loss, batches, 0, 0, 0, log).st.log) == OptimizerSteps(log) + 5
  {
    TrainingReachesBudget(c, loss, batches, 0, 0, 0, log);
    OptimizerStepsPerAccumulation(c, loss, batches, 0, 0, 0, log);
  }

  // A NaN loss ends only the current pass.

  /** Each batch counts one step; in a usable configuration it breaks the pass exactly on a NaN loss or at the budget. */
  lemma BatchExit(c: TrainConfig, st: TrainState, loss: BatchLoss)
    requires Configured(c)
    ensures var o := Batch(c, st, loss);
      && o.st.step == st.step + 1
      && o.exit == (if loss.NaN? || st.step + 1 == c.steps then Break else Proceed)
      && (loss.NaN? ==> o.st.log == st.log + [NanLoss(st.step + 1)] && o.st.window == st.window)
  {
  }

  /** A batch only appends to the log. */
  lemma BatchExtendsLog(c: TrainConfig, st: TrainState, loss: BatchLoss)
    ensures var o := Batch(c, st, loss); |st.log| <= |o.st.log| && o.st.log[..|st.log|] == st.log
  {
  }

  /** A run only appends to the log it starts from. */
  lemma RunExtendsLog(c: TrainConfig, loss: (int, int) -> BatchLoss, batches: nat, epoch: int, st: TrainState)
    ensures var r := RunFrom(c, loss, batches, epoch, st); |st.log| <= |r.st.log| && r.st.log[..|st.log|] == st.log
  {
    var prefix := st.log;
    var inv := (s: TrainState) => |prefix| <= |s.log| && s.log[..|prefix|] == prefix;
    forall s: TrainState, e: int, k: int | inv(s) && epoch <= e && 0 <= k < batches
      ensures inv(Batch(c, s, loss(e, k)).st)
    {
      BatchExtendsLog(c, s, loss(e, k));
    }
    RunKeeps(c, loss, batches, epoch, st, inv);
  }

  /** The losses of the example below: NaN at the third batch of the first pass, 1.0 elsewhere. */
  function NanAtThirdBatch(): (int, int) -> BatchLoss {
    (e: int, j: int) => if e == 0 && j == 2 then NaN else Finite(1.0)
  }

  lemma FirstPassStopsAtNan(c: TrainConfig, st0: TrainState)
    requires c.steps == 100 && Configured(c) && st0.step == 0
    ensures var o := PassFrom(c, NanAtThirdBatch(), 10, 0, 0, st0);
      o.exit == Break && o.st.step == 3 && o.st.log[|o.st.log| - 1] == NanLoss(3)
  {
    var loss := NanAtThirdBatch();
    assert loss(0, 0) == Finite(1.0) && loss(0, 1) == Finite(1.0) && loss(0, 2) == NaN;
    BatchExit(c, st0, loss(0, 0));
    var st1 := Batch(c, st0, loss(0, 0)).st;
    BatchExit(c, st1, loss(0, 1));
    var st2 := Batch(c, st1, loss(0, 1)).st;
    BatchExit(c, st2, loss(0, 2));
    assert PassFrom(c, loss, 10, 0, 2, st2) == Batch(c, st2, loss(0, 2));
    assert PassFrom(c, loss, 10, 0, 1, st1) == PassFrom(c, loss, 10, 0, 2, st2);
  }

  /**
   * With a NaN at the third batch of the first pass and a budget of 100
   * steps over 10 batches per pass, the NaN is reported at step 3 and
   * training still counts all 100 steps.
   */
  lemma NanAtStepThreeStillRunsAllSteps(c: TrainConfig, log: seq<Event>)
    requires c.steps == 100 && Configured(c)
    ensures var r := Train(c, NanAtThirdBatch(), 10, 0, 0, 0, log);
      r.raised.None? && r.st.step == 100 && NanLoss(3) in r.st.log
  {
    var loss := NanAtThirdBatch();
    TrainingReachesBudget(c, loss, 10, 0, 0, 0, log);
    var st0 := Start(c, 0, 0, 0, log);
    FirstPassStopsAtNan(c, st0);
    var o := PassFrom(c, loss, 10, 0, 0, st0);
    RunExtendsLog(c, loss, 10, 1, o.st);
    var r := RunFrom(c, loss, 10, 0, st0);
    assert r == RunFrom(c, loss, 10, 1, o.st);
    assert r.st.log[|o.st.log| - 1] == NanLoss(3);
  }

  // Where logs and checkpoints fall.

  /** An event `do_train` appends is consistent with the configuration that produced it. */
  ghost predicate Placed(c: TrainConfig, ev: Event) {
    match ev
    case TrainLossLogged(rank, s, window) =>
      rank == c.localRank && c.logPeriod != 0 && s % c.logPeriod == 0 && s >= 1 && |window| >= 1
    case CheckpointLogged(s) =>
      c.localRank <= 0 && c.savePeriod != 0 && s % c.savePeriod == 0 && s >= 1
    case CheckpointWritten(dir, file, dict) =>
      && c.localRank <= 0 && dir == c.outDir && dict == CpuStateDict(c.stateDict)
      && c.savePeriod != 0 && exists s :: s >= 1 && s % c.savePeriod == 0 && file == CheckpointFile(s)
    case OptimizerStep => c.optimizerSet
    case SchedulerStep => c.hasScheduler
    case _ => true
  }

  ghost predicate PlacedFrom(c: TrainConfig, log: seq<Event>, b: nat) {
    b <= |log| && forall i :: b <= i < |log| ==> Placed(c, log[i])
  }

  lemma PlacedAppend(c: TrainConfig, log: seq<Event>, more: seq<Event>, b: nat)
    requires PlacedFrom(c, log, b)
    requires forall ev :: ev in more ==> Placed(c, ev)
    ensures PlacedFrom(c, log + more, b)
  {
    forall i | b <= i < |log + more| ensures Placed(c, (log + more)[i]) {
      if i >= |log| {
        assert (log + more)[i] == more[i - |log|];
      }
    }
  }

  lemma ReportPlaced(c: TrainConfig, st: TrainState, b: nat)
    requires st.step >= 1 && |st.window| >= 1 && PlacedFrom(c, st.log, b)
    ensures var o := Report(c, st).st; o.step == st.step && PlacedFrom(c, o.log, b)
  {
    var s := st.step;
    if c.logPeriod != 0 {
      var line := if s % c.logPeriod == 0 then [TrainLossLogged(c.localRank, s, st.window)] else [];
      PlacedAppend(c, st.log, line, b);
      if c.savePeriod != 0 {
        var saves := if s % c.savePeriod == 0 then SaveEvents(c.localRank, c.outDir, c.stateDict, s) else [];
        PlacedAppend(c, st.log + line, saves, b);
        assert Report(c, st).st.log == st.log + line + saves;
      }
    }
  }

  lemma UpdatePlaced(c: TrainConfig, st: TrainState, b: nat)
    requires st.step >= 1 && |st.window| >= 1 && PlacedFrom(c, st.log, b)
    ensures var o := Update(c, st).st; o.step == st.step && PlacedFrom(c, o.log, b)
  {
    if c.accumulation != 0 {
      if st.step % c.accumulation == 0 && !c.optimizerSet {
        PlacedAppend(c, st.log, [ClipGradNorm(c.maxGradNorm)], b);
      } else if st.step % c.accumulation == 0 {
        PlacedAppend(c, st.log, UpdateEvents(c), b);
        ReportPlaced(c, st.(log := st.log + UpdateEvents(c)), b);
      } else {
        ReportPlaced(c, st, b);
      }
    }
  }

  lemma BatchPlaced(c: TrainConfig, st: TrainState, loss: BatchLoss, b: nat)
    requires st.step >= 0 && PlacedFrom(c, st.log, b)
    ensures var o := Batch(c, st, loss).st; o.step >= 0 && PlacedFrom(c, o.log, b)
  {
    var s := st.step + 1;
    if loss.NaN? {
      PlacedAppend(c, st.log, [NanLoss(s)], b);
    } else if !(c.fp16 && !c.optimizerSet) {
      PlacedAppend(c, st.log, [Backward(s, c.fp16)], b);
      UpdatePlaced(c, TrainState(s, st.window + [loss.value], st.log + [Backward(s, c.fp16)]), b);
    }
  }

  /**
   * Every event one `do_train` call logs fits its configuration: loss lines
   * carry the process rank, a non-empty window and a multiple of
   * `log_period`; checkpoints are written only on the main process, at
   * multiples of `save_period`, holding the normalised state dict; the
   * optimizer and the scheduler step only when set up.
   */
  lemma EventsFallOnTheirPeriods(c: TrainConfig, loss: (int, int) -> BatchLoss, batches: nat, trainable: nat, examples: nat,
                                 gpus: nat, log: seq<Event>)
    ensures var r := Train(c, loss, batches, trainable, examples, gpus, log);
      forall i :: |log| <= i < |r.st.log| ==> Placed(c, r.st.log[i])
  {
    var st := Start(c, trainable, examples, gpus, log);
    var b := |log|;
    PlacedAppend(c, log, [TrainingStarted(trainable, examples, c.steps, gpus)], b);
    var inv := (s: TrainState) => s.step >= 0 && PlacedFrom(c, s.log, b);
    forall s: TrainState, e: int, k: int | inv(s) && 0 <= e && 0 <= k < batches
      ensures inv(Batch(c, s, loss(e, k)).st)
    {
      BatchPlaced(c, s, loss(e, k), b);
    }
    RunKeeps(c, loss, batches, 0, st, inv);
    var r := RunFrom(c, loss, batches, 0, st);
    PlacedAppend(c, r.st.log, [TrainingFinished], b);
  }

  /** On a process other than the main one, `do_train` writes no checkpoint. */
  lemma NoCheckpointOffMainProcess(c: TrainConfig, loss: (int, int) -> BatchLoss, batches: nat, trainable: nat, examples: nat,
                                   gpus: nat, log: seq<Event>)
    requires c.localRank > 0
    ensures var r := Train(c, loss, batches, trainable, examples, gpus, log);
      forall i :: |log| <= i < |r.st.log| ==> !r.st.log[i].CheckpointWritten? && !r.st.log[i].CheckpointLogged?
  {
    EventsFallOnTheirPeriods(c, loss, batches, trainable, examples, gpus, log);
  }

  // The logged windows.

  /** In a NaN-free run the buffer holds the losses since the last multiple of the period, and every logged window has exactly `log_period` losses. */
  predicate WindowsFull(c: TrainConfig, st: TrainState, b: nat)
    requires c.logPeriod > 0
  {
    && st.step >= 0
    && |st.window| == st.step % c.logPeriod
    && b <= |st.log|
    && forall i :: b <= i < |st.log| && st.log[i].TrainLossLogged? ==> |st.log[i].losses| == c.logPeriod
  }

  lemma BatchWindowsFull(c: TrainConfig, st: TrainState, v: real, b: nat)
    requires Configured(c) && c.logPeriod > 0 && WindowsFull(c, st, b)
    ensures WindowsFull(c, Batch(c, st, Finite(v)).st, b)
  {
    var s := st.step + 1;
    BatchFiniteLog(c, st, v);
    ModStep(s, c.logPeriod);
    var o := Batch(c, st, Finite(v)).st;
    var before := st.log + [Backward(s, c.fp16)] + (if s % c.accumulation == 0 then UpdateEvents(c) else []);
    var tail := LogTail(c, s, st.window + [v]);
    assert o.log == before + tail;
    forall i | b <= i < |o.log| && o.log[i].TrainLossLogged?
      ensures |o.log[i].losses| == c.logPeriod
    {
      if i < |st.log| {
        assert o.log[i] == st.log[i];
      } else if i >= |before| {
        assert o.log[i] in tail;
      }
    }
  }

  /**
   * With a positive `log_period` and no NaN loss, each logged window holds
   * exactly `log_period` losses: the buffer is emptied at every log.
   */
  lemma NanFreeWindowsHoldOnePeriod(c: TrainConfig, loss: (int, int) -> BatchLoss, batches: nat, trainable: nat, examples: nat,
                                    gpus: nat, log: seq<Event>)
    requires Configured(c) && c.logPeriod > 0
    requires forall e, j :: loss(e, j).Finite?
    ensures var r := Train(c, loss, batches, trainable, examples, gpus, log);
      forall i :: |log| <= i < |r.st.log| && r.st.log[i].TrainLossLogged? ==> |r.st.log[i].losses| == c.logPeriod
  {
    var st := Start(c, trainable, examples, gpus, log);
    var b := |log|;
    var inv := (s: TrainState) => WindowsFull(c, s, b);
    forall s: TrainState, e: int, k: int | inv(s) && 0 <= e && 0 <= k < batches
      ensures inv(Batch(c, s, loss(e, k)).st)
    {
      BatchWindowsFull(c, s, loss(e, k).value, b);
    }
    RunKeeps(c, loss, batches, 0, st, inv);
    RunNoThrow(c, loss, batches, 0, st);
  }

  /** A NaN-free batch in a usable configuration empties the buffer at a log step and extends it otherwise. */
  lemma BatchFiniteWindow(c: TrainConfig, st: TrainState, v: real)
    requires Configured(c)
    ensures var s := st.step + 1;
      Batch(c, st, Finite(v)).st.window == if s % c.logPeriod == 0 then [] else st.window + [v]
  {
  }

  /** The losses of the example below: NaN at the second batch of the first pass, 1.0 elsewhere. */
  function NanAtSecondBatch(): (int, int) -> BatchLoss {
    (e: int, j: int) => if e == 0 && j == 1 then NaN else Finite(1.0)
  }

  /** The first pass of the example: step 1 buffers its loss, step 2 is NaN and ends the pass. */
  lemma NanAtSecondBatchFirstPass(c: TrainConfig, st0: TrainState)
    requires c.steps == 4 && c.logPeriod == 2 && Configured(c) && st0.step == 0 && st0.window == []
    ensures var o := PassFrom(c, NanAtSecondBatch(), 4, 0, 0, st0);
      o.exit == Break && o.st.step == 2 && o.st.window == [1.0]
  {
    var loss := NanAtSecondBatch();
    assert loss(0, 0) == Finite(1.0) && loss(0, 1) == NaN;
    BatchExit(c, st0, loss(0, 0));
    BatchFiniteWindow(c, st0, 1.0);
    var st1 := Batch(c, st0, loss(0, 0)).st;
    BatchExit(c, st1, loss(0, 1));
    assert PassFrom(c, loss, 4, 0, 0, st0) == Batch(c, st1, loss(0, 1));
  }

  /** The second pass of the example: step 3 adds to the buffer, step 4 logs all three losses and reaches the budget. */
  lemma NanAtSecondBatchSecondPass(c: TrainConfig, st2: TrainState)
    requires c.steps == 4 && c.logPeriod == 2 && Configured(c) && st2.step == 2 && st2.window == [1.0]
    ensures var o := PassFrom(c, NanAtSecondBatch(), 4, 1, 0, st2);
      o.exit == Break && o.st.step == 4 && TrainLossLogged(c.localRank, 4, [1.0, 1.0, 1.0]) in o.st.log
  {
    var loss := NanAtSecondBatch();
    assert loss(1, 0) == Finite(1.0) && loss(1, 1) == Finite(1.0);
    BatchExit(c, st2, loss(1, 0));
    BatchFiniteWindow(c, st2, 1.0);
    var st3 := Batch(c, st2, loss(1, 0)).st;
    assert st3.step == 3 && st3.window == [1.0, 1.0];
    BatchExit(c, st3, loss(1, 1));
    BatchFiniteLog(c, st3, 1.0);
    var st4 := Batch(c, st3, loss(1, 1)).st;
    assert PassFrom(c, loss, 4, 1, 0, st2) == Outcome(st4, Break);
    var w := st3.window + [1.0];
    assert w == [1.0, 1.0, 1.0];
    var tail := LogTail(c, st3.step + 1, w);
    assert tail[0] == TrainLossLogged(c.localRank, 4, [1.0, 1.0, 1.0]);
    var s := st3.step + 1;
    var head := st3.log + [Backward(s, c.fp16)] + (if s % c.accumulation == 0 then UpdateEvents(c) else []);
    assert st4.log == head + tail;
    assert st4.log[|head|] == tail[0];
  }

  /**
   * A NaN leaves the buffer as it was, so the next logged window can span
   * more than `log_period` losses: with a period of 2, a NaN at step 2 and
   * a budget of 4, step 4 logs the losses of steps 1, 3 and 4.
   */
  lemma NanLengthensNextWindow(c: TrainConfig, log: seq<Event>)
    requires c.steps == 4 && c.logPeriod == 2 && Configured(c)
    ensures TrainLossLogged(c.localRank, 4, [1.0, 1.0, 1.0]) in Train(c, NanAtSecondBatch(), 4, 0, 0, 0, log).st.log
  {
    var loss := NanAtSecondBatch();
    var st0 := Start(c, 0, 0, 0, log);
    NanAtSecondBatchFirstPass(c, st0);
    var st2 := PassFrom(c, loss, 4, 0, 0, st0).st;
    NanAtSecondBatchSecondPass(c, st2);
    var st4 := PassFrom(c, loss, 4, 1, 0, st2).st;
    assert RunFrom(c, loss, 4, 0, st0) == RunFrom(c, loss, 4, 1, st2) == RunEnd(st4, None);
  }
}

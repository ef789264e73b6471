/**
 * `setup_optimizer`: the two weight-decay groups of the network's named
 * parameters and the optimizer and learning-rate schedule chosen by name.
 */
module OptimizerSetup {
  import opened Wrappers
  import opened Strings
  import opened Events

  /** An entry of `named_parameters()`. */
  datatype Param = Param(name: string, tensor: Tensor, requiresGrad: bool)

  /** Name fragments that exempt a parameter from weight decay. */
  const NoDecay: seq<string> := ["bias", "LayerNorm.weight"]

  /** `any(nd in n for nd in no_decay)` */
  predicate Exempt(name: string) {
    exists k :: 0 <= k < |NoDecay| && Contains(name, NoDecay[k])
  }

  /** The tensors of the parameters that are not exempt, in order. */
  function Decayed(ps: seq<Param>): seq<Tensor>
    decreases |ps|
  {
    if ps == [] then []
    else Decayed(ps[..|ps| - 1]) + (if Exempt(ps[|ps| - 1].name) then [] else [ps[|ps| - 1].tensor])
  }

  /** The tensors of the exempt parameters, in order. */
  function Exempted(ps: seq<Param>): seq<Tensor>
    decreases |ps|
  {
    if ps == [] then []
    else Exempted(ps[..|ps| - 1]) + (if Exempt(ps[|ps| - 1].name) then [ps[|ps| - 1].tensor] else [])
  }

  function Tensors(ps: seq<Param>): (ts: seq<Tensor>)
    ensures |ts| == |ps| && forall i :: 0 <= i < |ps| ==> ts[i] == ps[i].tensor
  {
    seq(|ps|, i requires 0 <= i < |ps| => ps[i].tensor)
  }

  /** Where the last parameter goes. */
  lemma LastParam(ps: seq<Param>)
    requires ps != []
    ensures var init, t := ps[..|ps| - 1], ps[|ps| - 1].tensor;
      && Tensors(ps) == Tensors(init) + [t]
      && Decayed(ps) == Decayed(init) + (if Exempt(ps[|ps| - 1].name) then [] else [t])
      && Exempted(ps) == Exempted(init) + (if Exempt(ps[|ps| - 1].name) then [t] else [])
  {
  }

  /** Every parameter lands in exactly one of the two groups: together they are the parameters, counted with multiplicity. */
  lemma {:induction false} GroupsPartition(ps: seq<Param>)
    ensures multiset(Decayed(ps)) + multiset(Exempted(ps)) == multiset(Tensors(ps))
    decreases |ps|
  {
    if ps != [] {
      var init := ps[..|ps| - 1];
      GroupsPartition(init);
      LastParam(ps);
    }
  }

  /**
   * The decayed group holds the tensor of every parameter that is not exempt
   * and only such tensors; the exempt group likewise for exempt ones.
   */
  lemma {:induction false} GroupsByName(ps: seq<Param>)
    ensures forall i :: 0 <= i < |ps| && !Exempt(ps[i].name) ==> ps[i].tensor in Decayed(ps)
    ensures forall i :: 0 <= i < |ps| && Exempt(ps[i].name) ==> ps[i].tensor in Exempted(ps)
    ensures forall t :: t in Decayed(ps) ==> exists i :: 0 <= i < |ps| && ps[i].tensor == t && !Exempt(ps[i].name)
    ensures forall t :: t in Exempted(ps) ==> exists i :: 0 <= i < |ps| && ps[i].tensor == t && Exempt(ps[i].name)
    decreases |ps|
  {
    if ps != [] {
      var init := ps[..|ps| - 1];
      GroupsByName(init);
      assert forall i :: 0 <= i < |init| ==> init[i] == ps[i];
    }
  }

  datatype ParamGroup = ParamGroup(params: seq<Tensor>, weightDecay: real)

  /** `optimizer_grouped_parameters`: the decayed group first, then the exempt one with no decay. */
  function Groups(ps: seq<Param>, weightDecay: real): seq<ParamGroup> {
    [ParamGroup(Decayed(ps), weightDecay), ParamGroup(Exempted(ps), 0.0)]
  }

  datatype Optimizer =
    | Adafactor(groups: seq<ParamGroup>, lr: real, relativeStep: bool, warmupInit: bool, weightDecay: real)
    | AdamW(groups: seq<ParamGroup>, lr: real, eps: real, weightDecay: real)
    | Adam8bit(groups: seq<ParamGroup>, lr: real, betas: (real, real))

  /** `get_linear_schedule_with_warmup(optimizer, num_warmup_steps, num_training_steps)` */
  datatype Scheduler = LinearWarmup(warmupSteps: int, trainingSteps: int)

  /** The values `setup_optimizer` stores in `self.optimizer` and `self.scheduler`. */
  datatype Setup = Setup(optimizer: Optimizer, scheduler: Option<Scheduler>)

  /**
   * The outcome of the dispatch: whether the model (and the optimizer) went
   * through `setup_fp16`, and the setup or the exception raised after it.
   */
  datatype Dispatch = Dispatch(ampWrapped: bool, outcome: Result<Setup, Exception>)

  function SetupOptimizer(optimization: string, ps: seq<Param>, numTrainingSteps: int, lr: real,
                          weightDecay: real, warmupSteps: int, fp16: bool): Dispatch
  {
    var groups := Groups(ps, weightDecay);
    if optimization == "adafactor" then
      Dispatch(false, Ok(Setup(Adafactor(groups, lr, false, false, weightDecay), None)))
    else if StartsWith(optimization, "adamw") then
      var optimizer := AdamW(groups, lr, 0.00000001, weightDecay);
      Dispatch(fp16,
        if optimization == "adamw" then Ok(Setup(optimizer, Some(LinearWarmup(warmupSteps, numTrainingSteps))))
        else Err(NotImplementedError))
    else if optimization == "8bit-adam" then
      var optimizer := Adam8bit(groups, lr, (0.9, 0.995));
      Dispatch(fp16, Ok(Setup(optimizer, Some(LinearWarmup(warmupSteps, numTrainingSteps)))))
    else
      Dispatch(false, Err(NotImplementedError))
  }

  /** Exactly three strategy names are accepted; any other raises `NotImplementedError`. */
  lemma DispatchSucceedsIff(optimization: string, ps: seq<Param>, numTrainingSteps: int, lr: real,
                            weightDecay: real, warmupSteps: int, fp16: bool)
    ensures var d := SetupOptimizer(optimization, ps, numTrainingSteps, lr, weightDecay, warmupSteps, fp16);
      d.outcome.Ok? <==> optimization in {"adafactor", "adamw", "8bit-adam"}
    ensures var d := SetupOptimizer(optimization, ps, numTrainingSteps, lr, weightDecay, warmupSteps, fp16);
      d.outcome.Err? ==> d.outcome.error == NotImplementedError
  {
    assert StartsWith("adamw", "adamw");
    assert !StartsWith("8bit-adam", "adamw") by { assert "8bit-adam"[0] != "adamw"[0]; }
  }

  /**
   * Adafactor runs without a schedule; the other two get a linear warmup over
   * the given steps. All three use the requested learning rate and the two groups.
   */
  lemma SchedulerOnlyWithoutAdafactor(optimization: string, ps: seq<Param>, numTrainingSteps: int, lr: real,
                                      weightDecay: real, warmupSteps: int, fp16: bool)
    requires SetupOptimizer(optimization, ps, numTrainingSteps, lr, weightDecay, warmupSteps, fp16).outcome.Ok?
    ensures var s := SetupOptimizer(optimization, ps, numTrainingSteps, lr, weightDecay, warmupSteps, fp16).outcome.value;
      && (s.scheduler.None? <==> optimization == "adafactor")
      && (s.scheduler.Some? ==> s.scheduler.value == LinearWarmup(warmupSteps, numTrainingSteps))
      && s.optimizer.lr == lr
      && s.optimizer.groups == Groups(ps, weightDecay)
  {
  }

  /**
   * The model goes through `setup_fp16` exactly when fp16 is on and the name
   * starts with `adamw` or is `8bit-adam`: also for the `adamw…` names that
   * then raise `NotImplementedError`.
   */
  lemma AmpWrapIff(optimization: string, ps: seq<Param>, numTrainingSteps: int, lr: real,
                   weightDecay: real, warmupSteps: int, fp16: bool)
    ensures var d := SetupOptimizer(optimization, ps, numTrainingSteps, lr, weightDecay, warmupSteps, fp16);
      d.ampWrapped <==> fp16 && (StartsWith(optimization, "adamw") || optimization == "8bit-adam")
    ensures var d := SetupOptimizer(optimization, ps, numTrainingSteps, lr, weightDecay, warmupSteps, fp16);
      d.ampWrapped && d.outcome.Err? ==> StartsWith(optimization, "adamw") && optimization != "adamw"
  {
    assert !StartsWith("adafactor", "adamw") by { assert "adafactor"[3] != "adamw"[3]; }
  }
}

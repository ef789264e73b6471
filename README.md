# MetaICL model wrapper in Dafny

This project models `MetaICLModel`, the object in MetaICL that wraps a causal
language model for meta-training and in-context prediction
(`MetaICL/metaicl/model.py`). The model covers the following parts:

- **Choosing the prediction** (`do_predict`). The per-token losses of
  inference are summed per answer option through the example's index lists.
  Then the option that sorts first is chosen: the lowest score, or the highest
  when both `require_loss` and `do_probs` are set. Without `require_loss`,
  the lowest is chosen even for probabilities. It is reported bare or paired with its
  score, and prefixed by the `label_id` entry when one is asked for. Bad
  subscripts raise IndexError, and a length mismatch raises AssertionError.
- **The training cadence** (`do_train`). Each batch counts a step. A NaN loss
  ends the current pass over the dataloader. Otherwise the loss is buffered
  and back-propagated. The optimizer steps every
  `gradient_accumulation_steps` steps. The buffered losses are logged every
  `log_period` steps, and a checkpoint is saved every `save_period` steps.
  Training stops once `num_training_steps` steps are counted.
- **Saving** (`save`). The `module.` prefix that parallel wrappers add to
  state-dict keys is removed, the file is named `model-<step>.pt`, and only
  the main process writes it.
- **Optimizer setup** (`setup_optimizer`). Parameters are split into a
  weight-decay group and a no-decay group. The optimizer and schedule are
  chosen by strategy name, and the `setup_fp16` wrapping is applied where the
  branch calls it.
- **Loading** (`load`). A model family is recognised from the configured name,
  that name is mapped to a checkpoint path, and `from_pretrained` is called
  with that path.
- **Text rendering** (`__str__`). It produces a framed banner naming the
  model, its mode, the device, the GPU count and `local_rank`.

The modules are:

- `Wrappers`: Option and Result.
- `Strings`:
  - Python's `in`, `startswith`, `strip()` and `%d`
- `Events`: the observable effects and the exceptions.
- `Prediction`: `DoPredict`, the loop of `do_predict`, is a method proved
  equal to the function `Predict`.
- `Checkpoint`
- `OptimizerSetup`
- `ModelLoading`
- `Description`
- `Training`: the cadence as pure functions, batch by batch.
- `TrainingProperties`: what the cadence guarantees.
- `MetaICL`: the class `MetaICLModel`.
  - Its fields are the ones the Python object updates.
  - Its methods change them step by step.
  - The constructor, `Train`, `Eval` and `Load` state their new fields
    directly.
  - `Save` and `SetupOptimizer` state them through `Checkpoint.SaveEvents`
    and `OptimizerSetup.SetupOptimizer`.
  - The training methods are each proved equal to the `Training` function
    that specifies them.

Side effects are recorded in the `log` field, as a sequence of `Event`s:

- logger lines
- prints
- `torch.save` calls
- optimizer, scheduler and autograd calls

This is what the training properties are stated over.

## Model

| member | source | states |
|---|---|---|
| Prediction.SortByScore | MetaICL/metaicl/model.py:286 | defines `sorted(enumerate(scores), key=..., reverse=...)` as an insertion sort: each pair, from the last to the first, goes in front of the first pair that does not sort strictly before it, so equal scores keep their position order; its properties are the sort lemmas below |
| Prediction.LabelEntry | MetaICL/metaicl/model.py:281-284 | defines the `label_id` entry: the stripped option and the summed loss, each at the Python subscript of its own list, or None when either subscript raises |
| Prediction.ChoiceEntry | MetaICL/metaicl/model.py:285-298 | defines the chosen entry: the head of the ascending sort (descending only with `require_loss` and `do_probs`), bare or with its score, or None when there are no scores or the position has no option |
| Prediction.PredictEach | MetaICL/metaicl/model.py:276-298 | defines the loop over `data.metadata`: each example's entries joined in metadata order, or the first IndexError an example raises |
| Prediction.Predict | MetaICL/metaicl/model.py:271-300 | defines `do_predict`'s result: AssertionError when the loss count differs from `len(data)`, else the examples' entries joined in metadata order, or IndexError when an example raises |
| Prediction.PyIndex | MetaICL/metaicl/model.py:282-283 | a Python subscript of a length-n list is accepted exactly when -n <= i < n, and then it denotes position i or n + i |
| Prediction.Gather | MetaICL/metaicl/model.py:279 | `losses[indices]` succeeds exactly when every index is accepted; the result has one entry per index, holding the loss at that index |
| Prediction.Sum | MetaICL/metaicl/model.py:279 | defines `np.sum` of the gathered losses: 0.0 for none, else the sum of the others plus the last |
| Prediction.OptionScores | MetaICL/metaicl/model.py:279 | `curr_label_losses` exists exactly when every option's indices are accepted; it then holds one score per option, equal to the sum of that option's losses |
| Prediction.SortedHead | MetaICL/metaicl/model.py:286 | defines `sorted(enumerate(scores), ...)[0]` as the head of `SortByScore` over the enumerated scores; `SortedHeadIsFirstBest` states what it is |
| Prediction.InsertKeepsElements | MetaICL/metaicl/model.py:286 | inserting into the sorted list neither loses nor adds a pair |
| Prediction.InsertKeepsOrder | MetaICL/metaicl/model.py:286 | inserting a pair with a lower position than all others into a stably sorted list keeps it stably sorted |
| Prediction.SortKeepsElements | MetaICL/metaicl/model.py:286 | `sorted(enumerate(...))` is a permutation of its input |
| Prediction.SortIsStable | MetaICL/metaicl/model.py:286 | the sort orders by score, ascending or descending, and keeps equal scores in position order, as Python's stable sort does with and without `reverse` |
| Prediction.FirstBestUnique | MetaICL/metaicl/model.py:286 | at most one position is the first best one, so the chosen option is determined |
| Prediction.SortedHeadIsFirstBest | MetaICL/metaicl/model.py:294-297 | `sorted(...)[0]` is the first position with the lowest score (highest when descending), paired with that score |
| Prediction.PredictExample | MetaICL/metaicl/model.py:279-298 | one example raises only IndexError; otherwise it appends two entries with `label_id` and one without |
| Prediction.LabelEntryIsOptionLoss | MetaICL/metaicl/model.py:281-284 | with `label_id`, the first entry is the stripped option at that subscript, paired with the summed loss of the same subscript |
| Prediction.BareChoiceIsFirstMinimum | MetaICL/metaicl/model.py:285-288 | without `require_loss`, the entry is the stripped option with the lowest summed score, the first one on ties, even when `do_probs` is set |
| Prediction.ScoredChoiceIsFirstBest | MetaICL/metaicl/model.py:289-298 | with `require_loss`, the entry pairs the stripped option with its score: the first lowest, or the first highest when `do_probs` |
| Prediction.ExampleSucceeds | MetaICL/metaicl/model.py:279-298 | a non-empty example whose options and index lists match, with in-range indices and an in-range `label_id`, never raises |
| Prediction.ExampleOkIsWellIndexed | MetaICL/metaicl/model.py:279-294 | conversely, an example that does not raise has at least one option, at least one index list, and only indices Python accepts |
| Prediction.CollectOkIff | MetaICL/metaicl/model.py:277-298 | the appending loop finishes exactly when no example raises; otherwise the error is the one an example raised |
| Prediction.CollectSingles | MetaICL/metaicl/model.py:276-298 | one entry per example gives the entries in example order |
| Prediction.CollectPairs | MetaICL/metaicl/model.py:276-298 | two entries per example put example i at positions 2i and 2i + 1 |
| Prediction.PredictEachOkIff | MetaICL/metaicl/model.py:277-298 | the list is returned exactly when every example succeeds; otherwise the call raises IndexError |
| Prediction.PredictEachLayout | MetaICL/metaicl/model.py:276-300 | a returned list holds each example's entries in metadata order, at the positions given by one or two entries per example |
| Prediction.PredictEachFails | MetaICL/metaicl/model.py:277-298 | any failing example makes the whole call raise IndexError |
| Prediction.PredictEachExtend | MetaICL/metaicl/model.py:277-298 | one more successful example appends exactly its entries |
| Prediction.PredictExampleOk | MetaICL/metaicl/model.py:279-298 | an example whose scores, label entry and choice exist yields exactly those entries |
| Prediction.PredictLength | MetaICL/metaicl/model.py:271-300 | a returned list has `len(metadata)` entries, times two with `label_id` |
| Prediction.PredictOne | MetaICL/metaicl/model.py:279-298 | the loop body appends the example's entries to the list built so far, or stops with its IndexError |
| Prediction.DoPredict | MetaICL/metaicl/model.py:271-300 | returns the specified prediction list, or AssertionError when the loss count differs from `len(data)`; a result has one or two entries per example |
| Strings.StartsWith | MetaICL/metaicl/model.py:121 | defines `s.startswith(p)`: p is no longer than s and equals s's prefix of its length |
| Strings.Contains | MetaICL/metaicl/model.py:80-100 | defines `p in s` for strings: p occurs in s at some position |
| Strings.IsSpace | MetaICL/metaicl/model.py:284 | defines the characters `str.strip()` removes: Python's `isspace` set |
| Strings.IntToDecimal | MetaICL/metaicl/model.py:57 | defines `%d` of an integer: a minus sign for negatives, then the decimal digits of the magnitude |
| Strings.Strip | MetaICL/metaicl/model.py:284 | defines `str.strip()` as removing the trailing and then the leading run of Python whitespace |
| Strings.ConcatContains | MetaICL/metaicl/model.py:80 | `p in s` holds whenever s is built around p |
| Strings.ContainedCharIn | MetaICL/metaicl/model.py:80 | every character of a contained string occurs in the containing one, which refutes `in` |
| Strings.StripIsTrimmedSlice | MetaICL/metaicl/model.py:284 | `strip()` returns the slice left after removing whitespace runs at both ends, and the result neither starts nor ends with whitespace |
| Strings.StripFixesTrimmed | MetaICL/metaicl/model.py:288 | a string with no whitespace at either end is returned unchanged |
| Strings.StripIdempotent | MetaICL/metaicl/model.py:298 | stripping twice is stripping once |
| Strings.NatToDecimal | MetaICL/metaicl/model.py:57 | `%d` of a natural number is a run of digits with no leading zero |
| Strings.IntDecimalRoundTrip | MetaICL/metaicl/model.py:57 | `%d` output, sign included, reads back as the same integer |
| Checkpoint.NormalizeKey | MetaICL/metaicl/model.py:121 | a key starting with `module.` loses exactly that prefix, and any other key is kept |
| Checkpoint.NormalizeUnwraps | MetaICL/metaicl/model.py:121 | removing the prefix undoes adding it |
| Checkpoint.CpuStateDict | MetaICL/metaicl/model.py:121-122 | defines the dict comprehension: the items in order, each stored under its normalised key, a later item overwriting an earlier one |
| Checkpoint.SaveEvents | MetaICL/metaicl/model.py:119-124 | defines `save`'s effects: on the main process the write of the normalised dict to `model-<step>.pt` in the output directory, then the log line; nothing on other ranks |
| Checkpoint.SavedKeys | MetaICL/metaicl/model.py:121-122 | the saved keys are exactly the normalised keys of the state dict |
| Checkpoint.LastWriterWins | MetaICL/metaicl/model.py:121-122 | an item whose normalised key no later item shares is saved with its own tensor |
| Checkpoint.NoCollisionKeepsAll | MetaICL/metaicl/model.py:121-122 | with no two keys normalising alike, every tensor is saved under its normalised key |
| Checkpoint.WrappedSavesAlike | MetaICL/metaicl/model.py:121-122 | a module saved through a parallel wrapper gives the same checkpoint as the bare module, provided none of the bare module's own keys starts with `module.` (a bare key `module.x` saves differently) |
| Checkpoint.CheckpointFile | MetaICL/metaicl/model.py:123 | the file name starts with `model-` and is longer than the fixed parts |
| Checkpoint.CheckpointFileNamesStep | MetaICL/metaicl/model.py:123 | the step reads back from the file name, which ends in `.pt`, so distinct steps write distinct files |
| OptimizerSetup.Exempt | MetaICL/metaicl/model.py:127-130 | defines `any(nd in n for nd in no_decay)` with `no_decay = ['bias', 'LayerNorm.weight']` |
| OptimizerSetup.Decayed | MetaICL/metaicl/model.py:129 | defines the first comprehension: the tensors of the non-exempt parameters, in order |
| OptimizerSetup.Exempted | MetaICL/metaicl/model.py:130 | defines the second comprehension: the tensors of the exempt parameters, in order |
| OptimizerSetup.Groups | MetaICL/metaicl/model.py:127-131 | defines the two parameter groups: the decay group with the given weight decay, then the no-decay group with 0.0 |
| OptimizerSetup.SetupOptimizer | MetaICL/metaicl/model.py:126-163 | defines the dispatch on the strategy name: the optimizer, the optional scheduler and whether `setup_fp16` runs, or NotImplementedError |
| OptimizerSetup.GroupsPartition | MetaICL/metaicl/model.py:128-131 | the two groups together hold every parameter exactly once |
| OptimizerSetup.GroupsByName | MetaICL/metaicl/model.py:127-131 | a parameter whose name contains `bias` or `LayerNorm.weight` is in the no-decay group; every other parameter is in the decay group, and nothing else is in either |
| OptimizerSetup.DispatchSucceedsIff | MetaICL/metaicl/model.py:133-163 | exactly `adafactor`, `adamw` and `8bit-adam` succeed; every other name raises NotImplementedError |
| OptimizerSetup.SchedulerOnlyWithoutAdafactor | MetaICL/metaicl/model.py:133-161 | only Adafactor has no schedule; the others get a linear warmup over the given steps; all use the given learning rate and the two groups |
| OptimizerSetup.AmpWrapIff | MetaICL/metaicl/model.py:140-158 | `setup_fp16` runs exactly when fp16 is on and the name starts with `adamw` or is `8bit-adam`, including for the `adamw…` names that then raise |
| ModelLoading.FamilyOf | MetaICL/metaicl/model.py:80-100 | defines the family tests in source order: llama, falcon, mosaic, gpt, or none |
| ModelLoading.CheckpointPath | MetaICL/metaicl/model.py:79-116 | defines the `model_name` left after the branch, which `self.model_name` stores: a size tag or an exact gpt name picks a literal path, otherwise the name itself (gpt-j for other gpt names) |
| ModelLoading.Resolve | MetaICL/metaicl/model.py:77-117 | a load call happens exactly when a family matches. It uses the resolved path and the Llama class exactly for llama names, and `trust_remote_code` exactly for falcon and mosaic names |
| ModelLoading.PathFacts | MetaICL/metaicl/model.py:81-112 | each literal checkpoint path is recognised as its own family and carries no size tag of its branch, except the 13B llama path |
| ModelLoading.ResolvedPathStaysInFamily | MetaICL/metaicl/model.py:80-115 | the resolved path falls in the same family branch as the configured name |
| ModelLoading.ReResolutionStable | MetaICL/metaicl/model.py:80-98 | `load` resolves `args.model_name`, never the stored name. For llama, falcon and mosaic names, the stored `self.model_name` given back as `args.model_name` loads the same checkpoint; an unrecognised name is stored unchanged and raises UnboundLocalError again |
| ModelLoading.GptReResolutionFallsToGptJ | MetaICL/metaicl/model.py:100-112 | a stored gpt `self.model_name` given back as `args.model_name` always loads the gpt-j checkpoint, because only three exact names are mapped, so it cannot be reused to reload the same gpt model |
| Description.Banner | MetaICL/metaicl/model.py:58 | the banner is 50 `=` characters |
| Description.Status | MetaICL/metaicl/model.py:49-56 | defines the text after the header: "No model loaded yet", or the model name followed by ` (<mode> mode)` or by the unclosed hint to set a mode |
| Description.DeviceLine | MetaICL/metaicl/model.py:57 | defines the second line: `\nusing device <device>, <n_gpu> gpus, local_rank=<local_rank>` with both numbers printed by `%d` |
| Description.Describe | MetaICL/metaicl/model.py:47-58 | the text opens with the banner and a newline and closes with a newline and the banner |
| Description.DescribeShowsStatus | MetaICL/metaicl/model.py:48-56 | the header follows the top banner, and the status text follows the header |
| Description.DescribeNamesModel | MetaICL/metaicl/model.py:49-52 | the status starts with the model name, or says that no model is loaded |
| Description.DescribeNamesMode | MetaICL/metaicl/model.py:53-56 | the name is followed by ` (<mode> mode)`, or by the unclosed hint to set a mode |
| Description.DescribeEndsWithRank | MetaICL/metaicl/model.py:57-58 | the text ends with the local rank printed with `%d`, a newline and the banner |
| Training.Start | MetaICL/metaicl/model.py:180-188 | defines the state `do_train` starts from: the announcement line appended, step 0 and an empty loss buffer |
| Training.UpdateEvents | MetaICL/metaicl/model.py:219-224 | defines the accumulation block's effects in order: clip with `max_grad_norm`, optimizer step, scheduler step only when there is a scheduler, `zero_grad` |
| Training.Batch | MetaICL/metaicl/model.py:192-216 | defines one iteration up to the backward pass: count the step, break on NaN after reporting it, else buffer the loss and back-propagate (scaled under fp16, which raises AttributeError when no optimizer is set up), then continue with `Training.Update` |
| Training.Update | MetaICL/metaicl/model.py:218-224 | defines the accumulation block: clip, optimizer step, scheduler step when there is one and `zero_grad` at multiples of the accumulation; ZeroDivisionError for accumulation 0; with no optimizer set up, AttributeError at a multiple of the accumulation, after the clip, while other steps go on |
| Training.Report | MetaICL/metaicl/model.py:226-234 | defines the loss line and buffer reset at multiples of `log_period`, the save at multiples of `save_period` (ZeroDivisionError for a zero period) and the break at the budget |
| Training.PassFrom | MetaICL/metaicl/model.py:191-234 | defines the batch loop of one epoch: batches in order until the loader is exhausted, a break, or an exception |
| Training.RunFrom | MetaICL/metaicl/model.py:190-237 | defines the epoch loop: `num_training_steps` epochs at most, left when the budget is reached or an exception escapes |
| Training.Train | MetaICL/metaicl/model.py:177-239 | defines `do_train`: the announcement line, the epoch loop from step 0 with an empty buffer, and "Finish training" when nothing raised |
| TrainingProperties.BatchExit | MetaICL/metaicl/model.py:192-234 | each batch counts one step; the pass ends exactly on a NaN loss or at the budget; a NaN logs the step and leaves the loss buffer as it was |
| TrainingProperties.BatchFiniteLog | MetaICL/metaicl/model.py:209-231 | a finite batch logs the backward pass, then the optimizer update at multiples of the accumulation, then the loss line and the checkpoint when due |
| TrainingProperties.BatchFiniteWindow | MetaICL/metaicl/model.py:209-228 | a finite batch empties the loss buffer at a log step and appends its loss otherwise |
| TrainingProperties.BatchExtendsLog | MetaICL/metaicl/model.py:192-234 | a batch only appends to what was logged |
| TrainingProperties.RunExtendsLog | MetaICL/metaicl/model.py:190-237 | training only appends to what was logged |
| TrainingProperties.PassSteps | MetaICL/metaicl/model.py:191-234 | in a pass started below the budget, the step grows and never passes the budget, and a pass that runs out of batches ends below it |
| TrainingProperties.RunSteps | MetaICL/metaicl/model.py:190-237 | the epoch loop never counts past the budget |
| TrainingProperties.StepsNeverExceedBudget | MetaICL/metaicl/model.py:185-237 | `global_step` stays between 0 and `num_training_steps` |
| TrainingProperties.RunReaches | MetaICL/metaicl/model.py:190-237 | with a non-empty dataloader, a run that raises nothing ends exactly at the budget |
| TrainingProperties.PassNoThrow | MetaICL/metaicl/model.py:191-234 | with non-zero periods and an optimizer set up, no pass raises |
| TrainingProperties.RunNoThrow | MetaICL/metaicl/model.py:190-237 | under the same conditions, no run raises |
| TrainingProperties.TrainingReachesBudget | MetaICL/metaicl/model.py:177-239 | whatever the losses, NaN included, a configured run over a non-empty dataloader counts exactly `num_training_steps` steps and logs that training finished |
| TrainingProperties.OptimizerStepsAppend | MetaICL/metaicl/model.py:221 | optimizer steps in a concatenated log add up |
| TrainingProperties.OptimizerStepsOfUpdate | MetaICL/metaicl/model.py:218-224 | one accumulation boundary steps the optimizer once |
| TrainingProperties.BatchCountsOptimizerSteps | MetaICL/metaicl/model.py:218-224 | one finite batch keeps the optimizer-step count at `global_step // accumulation` |
| TrainingProperties.OptimizerStepsPerAccumulation | MetaICL/metaicl/model.py:190-237 | over a NaN-free run, the optimizer steps `global_step // gradient_accumulation_steps` times |
| TrainingProperties.TenStepsTwoAccumulationFiveUpdates | MetaICL/metaicl/model.py:218-224 | ten NaN-free steps with accumulation 2 step the optimizer five times |
| TrainingProperties.FirstPassStopsAtNan | MetaICL/metaicl/model.py:205-208 | a NaN at the third batch ends the first pass at step 3, and the last event is the NaN report (tagged with that step) |
| TrainingProperties.NanAtStepThreeStillRunsAllSteps | MetaICL/metaicl/model.py:190-237 | with that NaN, the run still counts all 100 steps without raising |
| TrainingProperties.ReportPlaced | MetaICL/metaicl/model.py:226-234 | the loss line and the checkpoint a batch appends fall on their periods |
| TrainingProperties.UpdatePlaced | MetaICL/metaicl/model.py:218-234 | the optimizer and scheduler steps of a batch happen only when they are set up |
| TrainingProperties.BatchPlaced | MetaICL/metaicl/model.py:192-234 | every event a batch appends fits its configuration |
| TrainingProperties.EventsFallOnTheirPeriods | MetaICL/metaicl/model.py:190-239 | loss lines carry the rank, a non-empty buffer and a multiple of `log_period`; checkpoints are written only on the main process, at multiples of `save_period`, with the normalised state dict; optimizer and scheduler steps happen only when set up |
| TrainingProperties.NoCheckpointOffMainProcess | MetaICL/metaicl/model.py:230-231 | a process with positive local rank writes no checkpoint during training |
| TrainingProperties.BatchWindowsFull | MetaICL/metaicl/model.py:209-228 | a finite batch keeps the buffer at `global_step % log_period` losses, with every logged window full |
| TrainingProperties.NanFreeWindowsHoldOnePeriod | MetaICL/metaicl/model.py:226-228 | in a NaN-free run, every logged window holds exactly `log_period` losses |
| TrainingProperties.NanAtSecondBatchFirstPass | MetaICL/metaicl/model.py:205-209 | a NaN at step 2 ends the pass with step 1's loss still buffered |
| TrainingProperties.NanAtSecondBatchSecondPass | MetaICL/metaicl/model.py:209-228 | the next pass logs three losses at step 4 |
| TrainingProperties.NanLengthensNextWindow | MetaICL/metaicl/model.py:205-228 | after a NaN, a logged window can hold more than `log_period` losses (three with a period of 2) |
| MetaICL.Trainable | MetaICL/metaicl/model.py:180 | the trainable-parameter count is at most the parameter count |
| MetaICL.MetaICLModel.constructor | MetaICL/metaicl/model.py:15-45 | the arguments are stored; no model, name or mode yet; only the main process announces the rank and world size |
| MetaICL.MetaICLModel.Describe | MetaICL/metaicl/model.py:47-58 | `__str__` reads the object's stored name, mode, device, GPU count and local rank and renders them through `Description.Describe` |
| MetaICL.MetaICLModel.Train | MetaICL/metaicl/model.py:63-65 | puts a loaded model in training mode and records the mode; without a model, raises AttributeError and changes nothing |
| MetaICL.MetaICLModel.Eval | MetaICL/metaicl/model.py:67-69 | puts a loaded model in evaluation mode and records the mode; without a model, raises AttributeError and changes nothing |
| MetaICL.MetaICLModel.Load | MetaICL/metaicl/model.py:77-117 | stores the resolved path and the network `from_pretrained` returns for it; an unknown family stores the raw name and raises UnboundLocalError, keeping the old model |
| MetaICL.MetaICLModel.Save | MetaICL/metaicl/model.py:119-124 | the main process logs the checkpoint write and the log line; other processes do nothing; a missing model raises AttributeError on the main process |
| MetaICL.MetaICLModel.SetupOptimizer | MetaICL/metaicl/model.py:126-166 | stores the optimizer and scheduler the dispatch chooses, amp-wraps the model where it says, and keeps the old setup when the call raises |
| MetaICL.MetaICLModel.TrainBatch | MetaICL/metaicl/model.py:192-234 | one loop iteration moves the step, the buffer and the log exactly as `Training.Batch` specifies |
| MetaICL.MetaICLModel.UpdateStep | MetaICL/metaicl/model.py:218-224 | the optimizer update and the rest of the iteration follow `Training.Update` |
| MetaICL.MetaICLModel.ReportStep | MetaICL/metaicl/model.py:226-234 | logging, saving through `save`, and the budget check follow `Training.Report` |
| MetaICL.MetaICLModel.TrainPass | MetaICL/metaicl/model.py:191-234 | the batch loop over one pass ends in the state and exit `Training.PassFrom` specifies |
| MetaICL.MetaICLModel.DoTrain | MetaICL/metaicl/model.py:177-239 | the log and the escaping exception are exactly those of the specified training run, so every `TrainingProperties` lemma holds of the method |

## Left out

- `do_inference`, `run_model` and the softmax of `do_probs` are not modelled. The losses `do_inference` returns are an input of `DoPredict`.
- `do_predict`'s `losses` and `calibration` arguments are not modelled. The code overwrites `losses` and ignores `calibration`.
- `do_predict`'s `verbose` and `batch_size` are only forwarded to `do_inference`, which is not modelled.
- Losses and scores are mathematical reals. Floating-point rounding, NaN and infinity are not modelled in prediction; sorting NaNs in Python has no meaningful order.
- Prediction.PredictEachOkIff: every IndexError is one error value, without the message or the element that raised it.
- The buffered training losses are logged as the window itself. The `np.mean` and the `%.2f` rendering are not modelled, because they are floating point.
- The dataloader is modelled as a fixed number of batches per pass and a function from (epoch, batch) to that batch's mean loss. Batch tensors, moves to the device and label handling are not modelled.
- Parameters and state-dict values are tensor handles. `optimizer.step()` is an event and does not change their values.
- `setup_fp16` (apex) is recorded as a flag on the network.
- The `ImportError` of a missing `bitsandbytes` package is not modelled.
- `amp.scale_loss` is recorded as a scaled backward event.
- `from_pretrained` is a parameter of `Load`, because it loads weights from disk or the network.
- `os.path.join` is modelled as the output directory and the file name side by side.
- `torch.save` becomes a `CheckpointWritten` event.
- CUDA detection, `torch.distributed` initialisation and the `WORLD_SIZE`/`SLURM_NTASKS` lookup are not modelled. The constructor takes the device, the GPU count and the world size as parameters.
- The default logger is not modelled: logging is an event in `log`.
- The NaN print shows the loss value. The `NanLoss` event carries the step instead, which the print does not show.
- `is_none`, `cuda`, `to_device` and `parallel` are not modelled, because they only move or wrap the network. `parallel`'s effect on saving is stated by `Checkpoint.WrappedSavesAlike`.
- The `stop_training` and `best_accuracy` variables of `do_train` are not modelled, because nothing reads them.
- The `args` object is reduced to the model name that `Load` receives.
- The source's own message, "Stop training because loss=...", reads as if a NaN loss ends training. The code's `break` only leaves the batch loop. The epoch loop goes on, and `global_step` still reaches `num_training_steps`. The model follows the code: see `TrainingProperties.TrainingReachesBudget` and `TrainingProperties.NanAtStepThreeStillRunsAllSteps`.
- MetaICL.Trainable: only the bound `n <= |ps|` is stated. Its use in `do_train` is only the announcement line.

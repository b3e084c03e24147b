# Training monitors and the multi-label evaluation head of lvamodel

This project models, in Dafny, the control logic of three training monitors of the lvamodel
audio-visual contrastive learning code and the buffer life-cycle of its multi-label
evaluation head:

- `cvap/monitor/cvap_dp.py` (module `CvapDp`): the data-parallel image-audio monitor.
  It clamps the log rate to the loader length. It ramps the learning rates up during warmup.
  It logs, evaluates and writes checkpoints on integer cadences, and it steps the scheduler per
  batch or per epoch. It also freezes every parameter that is not tunable and splits the
  tunable ones by rank into two optimizer groups.
- `cvap/monitor/clap_dp.py` (module `ClapDp`): the data-parallel audio-text monitor. It is the
  same loop with a warmup rule of its own, an epoch loss meter, a loss gate on evaluation
  and milestone defaults for its step scheduler.
- `cvap/cvap.py` (module `Cvap`): the single-process image-audio monitor. It has a fixed
  tunable-name set (audio and loss heads), per-head freezing, a gradient-clipping gate and an
  epoch loop capped at four epochs.
- `cvap/module/decoder/loss_more.py` (module `LossMore`): the binary cross-entropy head. In
  evaluation, it accumulates features, predictions, labels and names in four buffers. Its report
  substitutes 0 for undefined per-label metrics and raises an error flag. The report then
  deletes the buffers. A combined head adds a cross-entropy head beside it.

Shared pieces:
- `Common`: a shape-only tensor, the runtime (rank, world size, GPUs, distributed or not) and
  the sample bound.
- `Trace`: the log lines, warmup lines, clip, evaluation and checkpoint events a monitor
  emits, with counting lemmas.
- `Multiples`: divisibility, used in place of `%` with a variable divisor.
- `Checkpoints`: the 8-digit zero-padded checkpoint name.
- `ParamSelect`: freezing by name and grouping by rank.
- `Inference`: the sample-bounded inference pass.

Each monitor is a class whose fields are the counters the source updates in place. Its
`State()` collects them. Every state-changing method ensures that the new `State()` is a
specification function (`StepNext`, `Steps`, `EpochRun`, `Epochs`) of the old one. Lemmas
about those functions then state the cadences the source promises: how many log lines,
evaluations, checkpoints, clips and scheduler steps a run produces. What a step computes
from tensors (the loss, gradients, new weights) is an input of the step. The metric library's
per-label results are inputs of the report.

Where the code and its documented intent differ, the model follows the code. The warmup of
`cvap_dp.py` is described as reaching the base rate at step `warmup_steps`. The code sets the
rates only on multiples of `max(warmup_steps // 20, 1)`. So the last ramp value is the base
rate only when `warmup_steps` is such a multiple. `CvapDp.WarmupReachesBase` states this
(for `warmup_steps = 45` the ramp never reaches it).

## Model

| member | source | states |
|---|---|---|
| Common.Unsqueeze1 | cvap/monitor/cvap_dp.py:112 | a length-1 axis is inserted at position 1; the batch axis and every other axis are kept |
| Common.Interpolate | cvap/monitor/cvap_dp.py:113-119 | bilinear resizing keeps batch and channel axes and sets both spatial sizes to the resolution |
| Common.TrainChunks | cvap/monitor/cvap_dp.py:160 | without a process group each batch counts once |
| Common.EvalChunks | cvap/monitor/cvap_dp.py:241-245 | without a process group each inference batch counts once |
| Checkpoints.DecimalValue | cvap/monitor/cvap_dp.py:269 | reading back the decimal digits of a step gives the step |
| Checkpoints.Pad8RoundTrip | cvap/monitor/cvap_dp.py:269 | the padded step has at least 8 digits, exactly 8 below 10^8, and reads back as the step |
| Checkpoints.CheckpointPathInjective | cvap/monitor/cvap_dp.py:269 | two different steps never share a checkpoint path |
| ParamSelect.StripModulePrefix | cvap/monitor/cvap_dp.py:288 | a leading `module.` is removed, any other name is kept |
| ParamSelect.Values | cvap/monitor/cvap_dp.py:280-282 | the optimizer's parameter list is the tunable values in order |
| ParamSelect.FreezeUntunable | cvap/monitor/cvap_dp.py:286-290 | a parameter keeps its flag when its key is tunable and is frozen otherwise; names and values are unchanged |
| ParamSelect.FreezeSelectsTunable | cvap/monitor/cvap_dp.py:286-290 | afterwards the trainable keys are the previously trainable tunable ones, and exactly the tunable set when all were trainable and all tunable keys exist |
| ParamSelect.Matrices | cvap/monitor/cvap_dp.py:293 | the first group holds only parameters of rank above 1, drawn from the list |
| ParamSelect.NonMatrices | cvap/monitor/cvap_dp.py:294 | the second group holds only parameters of rank below 2, drawn from the list |
| ParamSelect.MatricesKeepOrder | cvap/monitor/cvap_dp.py:293 | the first group keeps the tunable list's order: grouping a concatenation concatenates the parts' groups |
| ParamSelect.NonMatricesKeepOrder | cvap/monitor/cvap_dp.py:294 | the second group keeps the tunable list's order in the same sense |
| ParamSelect.GroupsPartition | cvap/monitor/cvap_dp.py:292-295 | the two groups together are a permutation of the tunable list |
| Inference.ProgressRate | cvap/monitor/cvap_dp.py:246 | the progress rate is the larger of 10 and a tenth of the batches |
| Inference.ProgressLines | cvap/monitor/cvap_dp.py:258-263 | progress lines come only on rank 0, after batches whose count is a multiple of the rate |
| Inference.BoundedPass | cvap/monitor/cvap_dp.py:248-256 | batches are consumed until the samples seen reach the bound, none after it is reached, and the pass ends early only at the bound |
| Inference.SeenMonotone | cvap/monitor/cvap_dp.py:256 | the samples seen never decrease as batches are consumed |
| CvapDp.MakeBatch | cvap/monitor/cvap_dp.py:110-123 | the audio gets a channel axis; images are resized only when not 2-d and not at the resolution; ids pass through |
| CvapDp.BatchSizes | cvap/monitor/cvap_dp.py:252-256 | each inference batch counts its image rows |
| CvapDp.ClampPeepRate | cvap/monitor/cvap_dp.py:70-72 | the log rate becomes the smaller of the configured rate and the number of batches |
| CvapDp.WarmupStepRate | cvap/monitor/cvap_dp.py:161 | the warmup rate is at least 1 and is `warmup_steps // 20` or 1 |
| CvapDp.Scaled | cvap/monitor/cvap_dp.py:175-176 | each group's rate is the ratio times its initial rate |
| CvapDp.ScaleRates | cvap/monitor/cvap_dp.py:175-177 | the loop over the groups computes the scaled rates |
| CvapDp.StepNext | cvap/monitor/cvap_dp.py:204-206 | a step adds 1 step, its loss, and its image rows times the world size, and appends the step's events |
| CvapDp.Steps | cvap/monitor/cvap_dp.py:162-234 | an epoch's steps add their number of steps and their summed loss |
| CvapDp.Epochs | cvap/monitor/cvap_dp.py:103-108 | a run adds one loader length of steps per epoch |
| CvapDp.Monitor.constructor | cvap/monitor/cvap_dp.py:23-38 | the log rate is clamped; the model trains unless evaluating or computing norms; in training the optimizer is built |
| CvapDp.Monitor.BuildData | cvap/monitor/cvap_dp.py:64-72 | the log rate is clamped to the loader length |
| CvapDp.Monitor.BuildOptimizer | cvap/monitor/cvap_dp.py:277-295 | in training, untunable parameters are frozen and the groups split the tunable ones by rank; otherwise nothing changes |
| CvapDp.Monitor.Infer | cvap/monitor/cvap_dp.py:240-266 | the pass stops at the sample bound, counting batches times the GPUs under a process group |
| CvapDp.Monitor.Save | cvap/monitor/cvap_dp.py:268-275 | the path is the zero-padded step under alias root and model name; a checkpoint event is recorded |
| CvapDp.Monitor.Warmup | cvap/monitor/cvap_dp.py:169-180 | the warmup line is emitted exactly when warmup fires; force-eval is set only then, when the rates equal the base rates |
| CvapDp.Monitor.Tally | cvap/monitor/cvap_dp.py:204-206 | the counters advance by one step, the loss and the rows times the world size |
| CvapDp.Monitor.LogLine | cvap/monitor/cvap_dp.py:207-218 | a log line with the mean loss is emitted iff force-eval or rank 0 on a multiple of the log rate |
| CvapDp.Monitor.EvalSave | cvap/monitor/cvap_dp.py:219-233 | evaluation runs iff due and an eval loader exists, training mode is restored, and rank 0 saves iff due |
| CvapDp.Monitor.Evaluate | cvap/monitor/cvap_dp.py:222-229 | the evaluation pass stops at the configured bound and training mode is restored |
| CvapDp.Monitor.Schedule | cvap/monitor/cvap_dp.py:189-194 | the scheduler steps after a batch iff batch scheduling is on, LARS is off and warmup is not active |
| CvapDp.Monitor.Advance | cvap/monitor/cvap_dp.py:204-233 | counters advance, then the log, evaluation and checkpoint events follow |
| CvapDp.Monitor.Step | cvap/monitor/cvap_dp.py:162-234 | one loop iteration moves the state to `StepNext` of the old state |
| CvapDp.Monitor.RunSteps | cvap/monitor/cvap_dp.py:162-234 | the batch loop moves the state to `Steps` of the old state |
| CvapDp.Monitor.EndEpoch | cvap/monitor/cvap_dp.py:236-237 | the scheduler steps once at the epoch end unless LARS or batch scheduling |
| CvapDp.Monitor.Epoch | cvap/monitor/cvap_dp.py:156-238 | an epoch moves the state to `EpochRun` of the old state |
| CvapDp.Monitor.Learn | cvap/monitor/cvap_dp.py:86-108 | norms only: nothing; evaluation: one bounded pass; training: counters reset, then every epoch runs |
| CvapDp.Monitor.Train | cvap/monitor/cvap_dp.py:95-108 | training resets the counters and runs every configured epoch |
| CvapDp.EmittedCounts | cvap/monitor/cvap_dp.py:171-233 | a step emits one warmup, log, evaluation and checkpoint event exactly when each condition holds |
| CvapDp.QuietEmitted | cvap/monitor/cvap_dp.py:207-233 | without force-eval, logging and evaluate/save depend only on the step's multiples |
| CvapDp.QuietStepLog | cvap/monitor/cvap_dp.py:207 | a step without force-eval adds a log line iff rank 0 and the new step is a multiple of the log rate |
| CvapDp.QuietStepSave | cvap/monitor/cvap_dp.py:219-233 | a step without force-eval adds a checkpoint iff rank 0 and the new step is a multiple of the save rate |
| CvapDp.QuietStepEval | cvap/monitor/cvap_dp.py:219-229 | a step without force-eval adds an evaluation iff an eval loader exists and the step is a save multiple |
| CvapDp.QuietLogCount | cvap/monitor/cvap_dp.py:204-218 | without force-eval, rank 0 logs once per multiple of the log rate passed |
| CvapDp.QuietSaveCount | cvap/monitor/cvap_dp.py:219-233 | without force-eval or epoch saves, rank 0 saves once per multiple of the save rate passed |
| CvapDp.QuietEvalCount | cvap/monitor/cvap_dp.py:219-229 | without force-eval or epoch saves, evaluation runs once per multiple of the save rate when an eval loader exists |
| CvapDp.TenBatchEpoch | cvap/monitor/cvap_dp.py:204-233 | ten quiet steps with rates 5 and 10 give two log lines and one checkpoint |
| CvapDp.WarmupRatioBounded | cvap/monitor/cvap_dp.py:171-174 | when warmup fires the ratio lies in [0, 1] |
| CvapDp.RatioAtMostOne | cvap/monitor/cvap_dp.py:174 | the ratio of a step within the warmup lies in [0, 1] |
| CvapDp.WarmupRatioMonotone | cvap/monitor/cvap_dp.py:174 | the ratio never decreases with the step |
| CvapDp.RatioOne | cvap/monitor/cvap_dp.py:174 | the ratio at the last warmup step is 1 |
| CvapDp.WarmupReachesBase | cvap/monitor/cvap_dp.py:161-176 | warmup fires at its last step iff that step is a multiple of the rate, never after it; 45 steps miss the base rate |
| CvapDp.WarmupLrsScaled | cvap/monitor/cvap_dp.py:173-180 | when warmup fires, the step's first event lists the initial rates scaled by the ratio |
| CvapDp.EpochSchedulerSteps | cvap/monitor/cvap_dp.py:236-237 | with epoch scheduling and no LARS, a run steps the scheduler once per epoch |
| CvapDp.StepsKeepScheduler | cvap/monitor/cvap_dp.py:189-191 | without batch scheduling the batch loop never steps the scheduler |
| ClapDp.MakeBatch | cvap/monitor/clap_dp.py:104-114 | the audio gets a channel axis; text and names pass through |
| ClapDp.BatchSizes | cvap/monitor/clap_dp.py:215-219 | each inference batch counts its audio rows |
| ClapDp.Milestones | cvap/monitor/clap_dp.py:271-272 | the milestones are the configured steps, or the epoch count when none is configured |
| ClapDp.WarmupStepRate | cvap/monitor/clap_dp.py:137 | the rate is `warmup_steps // 20` (it may be 0) |
| ClapDp.WarmupLrBounded | cvap/monitor/clap_dp.py:144-148 | a firing warmup needs at least 20 warmup steps and echoes one rate, the ratio times the base rate, in [0, lr] |
| ClapDp.StepNext | cvap/monitor/clap_dp.py:165-168 | a step adds 1 step, its loss and rows times the world size, feeds the meter, and leaves the scheduler alone |
| ClapDp.Fed | cvap/monitor/clap_dp.py:168 | the meter receives each step's loss with its audio rows |
| ClapDp.Steps | cvap/monitor/clap_dp.py:138-196 | an epoch's steps add their count, feed the meter in order and add their loss |
| ClapDp.Epochs | cvap/monitor/clap_dp.py:97-102 | a run adds one loader length of steps per epoch |
| ClapDp.Monitor.constructor | cvap/monitor/clap_dp.py:21-36 | the model trains unless evaluating or computing norms; in training the optimizer and scheduler are built |
| ClapDp.Monitor.BuildOptimizer | cvap/monitor/clap_dp.py:240-275 | in training, untunable parameters are frozen, groups split by rank, and milestones default to the epoch count unless LARS |
| ClapDp.Monitor.Infer | cvap/monitor/clap_dp.py:203-229 | the pass stops at the sample bound, counting batches times the GPUs under a process group |
| ClapDp.Monitor.Save | cvap/monitor/clap_dp.py:231-238 | the path is the zero-padded step under alias root and model name; a checkpoint event is recorded |
| ClapDp.Monitor.Warmup | cvap/monitor/clap_dp.py:144-148 | the warmup line with the new rate is emitted exactly when warmup fires |
| ClapDp.Monitor.Tally | cvap/monitor/clap_dp.py:165-168 | the counters advance and the meter is fed the loss and the rows |
| ClapDp.Monitor.LogLine | cvap/monitor/clap_dp.py:169-180 | a log line with the mean loss is emitted iff rank 0 on a multiple of the unclamped log rate |
| ClapDp.Monitor.EvalSave | cvap/monitor/clap_dp.py:181-195 | evaluation runs iff due, an eval loader exists and the loss is below 5; rank 0 saves iff due |
| ClapDp.Monitor.Evaluate | cvap/monitor/clap_dp.py:185-191 | the evaluation pass stops at the configured bound and training mode is restored |
| ClapDp.Monitor.Step | cvap/monitor/clap_dp.py:138-196 | one loop iteration moves the state to `StepNext` of the old state |
| ClapDp.Monitor.RunSteps | cvap/monitor/clap_dp.py:138-196 | the batch loop moves the state to `Steps` of the old state |
| ClapDp.Monitor.EndEpoch | cvap/monitor/clap_dp.py:198-200 | the scheduler steps unless LARS, and the meter is reset |
| ClapDp.Monitor.Epoch | cvap/monitor/clap_dp.py:132-201 | an epoch moves the state to `EpochRun` of the old state |
| ClapDp.Monitor.Learn | cvap/monitor/clap_dp.py:79-102 | norms only: nothing; evaluation: one bounded pass; training: counters and meter reset, then every epoch runs |
| ClapDp.Monitor.Train | cvap/monitor/clap_dp.py:88-102 | training resets the counters and runs every configured epoch |
| ClapDp.EmittedCounts | cvap/monitor/clap_dp.py:144-195 | a step emits one warmup, log, evaluation and checkpoint event exactly when each condition holds |
| ClapDp.StepLog | cvap/monitor/clap_dp.py:169 | a step adds a log line iff rank 0 and the new step is a multiple of the log rate |
| ClapDp.StepSave | cvap/monitor/clap_dp.py:181-195 | a step adds a checkpoint iff rank 0 and evaluate/save is due |
| ClapDp.StepEval | cvap/monitor/clap_dp.py:181-191 | a step adds an evaluation iff due, an eval loader exists and its loss is below 5 |
| ClapDp.DueSteps | cvap/monitor/clap_dp.py:181-183 | the number of due steps in a window is at most its length |
| ClapDp.CalmDue | cvap/monitor/clap_dp.py:181-185 | the due steps whose loss passes the gate are at most the due steps |
| ClapDp.CalmDueBounds | cvap/monitor/clap_dp.py:185 | all losses below 5 evaluate every due step; none below 5 evaluate none |
| ClapDp.DueAtSaveRate | cvap/monitor/clap_dp.py:181-183 | without epoch saves, the due steps are the multiples of the save rate |
| ClapDp.LogCount | cvap/monitor/clap_dp.py:165-180 | rank 0 logs once per multiple of the log rate passed |
| ClapDp.SaveCount | cvap/monitor/clap_dp.py:181-195 | rank 0 saves once per due step |
| ClapDp.EvalCount | cvap/monitor/clap_dp.py:181-191 | evaluation runs once per due step whose loss is below 5, when an eval loader exists |
| ClapDp.TenBatchEpoch | cvap/monitor/clap_dp.py:165-195 | ten calm steps with rates 5 and 10 give two log lines, one evaluation and one checkpoint |
| ClapDp.EpochSchedulerSteps | cvap/monitor/clap_dp.py:198-199 | a run steps the scheduler once per epoch unless LARS |
| Cvap.MakeBatch | cvap/cvap.py:54-58 | images unchanged; the audio gets a channel axis |
| Cvap.Qualified | cvap/cvap.py:140-142 | every state-dict entry is renamed `head.key` with its value kept |
| Cvap.QualifiedKeys | cvap/cvap.py:140-143 | two qualified names are equal iff the heads and the keys are |
| Cvap.QualifiedMember | cvap/cvap.py:140-143 | `h.k` is among a head's qualified names iff `h` is that head and `k` is one of its keys |
| Cvap.NamesConcat | cvap/cvap.py:141-143 | the names of two merged lists are the union of their names |
| Cvap.TunableSelection | cvap/cvap.py:110-145 | no image-head name is tunable; an audio or loss name is tunable iff training and the key is in that head; evaluation makes nothing tunable |
| Cvap.EpochCap | cvap/cvap.py:49-52 | the loop runs the smaller of the epochs and 4 |
| Cvap.StepNext | cvap/cvap.py:76-78 | a step adds 1 step, its loss and its image rows |
| Cvap.Steps | cvap/cvap.py:61-86 | an epoch adds its number of steps |
| Cvap.Monitor.constructor | cvap/cvap.py:22-28 | the tunable set is the audio and loss heads' names and each head is frozen outside it |
| Cvap.Monitor.BuildOptimizer | cvap/cvap.py:147-161 | each head freezes the parameters whose qualified name is not tunable; the optimizer gets the tunable values |
| Cvap.Monitor.Save | cvap/cvap.py:96-98 | the path is the zero-padded step under model root and model name; a checkpoint event is recorded |
| Cvap.Monitor.Step | cvap/cvap.py:62-86 | one loop iteration moves the state to `StepNext` of the old state |
| Cvap.Monitor.Report | cvap/cvap.py:79-86 | a log line iff the step is a multiple of the log rate, then a checkpoint iff a multiple of the save rate |
| Cvap.Monitor.Epoch | cvap/cvap.py:60-86 | the batch loop moves the state to `Steps` of the old state |
| Cvap.Monitor.Learn | cvap/cvap.py:39-52 | counters reset, then the first min(epochs, 4) epochs run |
| Cvap.EmittedCounts | cvap/cvap.py:70-86 | a step emits a clip iff the max norm is positive, a log line and a checkpoint on their multiples |
| Cvap.StepClip | cvap/cvap.py:70-73 | each step clips iff the max norm is positive |
| Cvap.StepLog | cvap/cvap.py:79 | a step logs iff the new step is a multiple of the log rate, on any rank |
| Cvap.StepSave | cvap/cvap.py:85-86 | a step saves iff the new step is a multiple of the save rate |
| Cvap.ClipCount | cvap/cvap.py:61-73 | an epoch clips once per step when the max norm is positive, never otherwise |
| Cvap.LogCount | cvap/cvap.py:76-84 | an epoch logs once per multiple of the log rate passed |
| Cvap.SaveCount | cvap/cvap.py:85-86 | an epoch saves once per multiple of the save rate passed |
| Cvap.EpochsCounts | cvap/cvap.py:49-73 | a run adds all its steps and clips once per step when the max norm is positive |
| Cvap.TrainingFreezesImageHead | cvap/cvap.py:153-158 | in training every image-head parameter is frozen, and an audio parameter stays trainable iff it was and its key is in the audio head |
| LossMore.Base | cvap/module/decoder/loss_more.py:43-45 | existing aligned buffers are kept; if any buffer is missing, all four start empty |
| LossMore.Cat | cvap/module/decoder/loss_more.py:58-59 | concatenation is defined iff there is a tensor and all agree beyond the batch axis; its rows are the sum of rows |
| LossMore.Predict | cvap/module/decoder/loss_more.py:47-50 | the predictions replace the feature axis by one entry per label |
| LossMore.Fed | cvap/module/decoder/loss_more.py:42-55 | infer leaves all four buffers present, appends one entry to each tensor buffer keeping them aligned, and extends the names only when given |
| LossMore.FedPredicted | cvap/module/decoder/loss_more.py:46-51 | every stored prediction stays beside the features it was computed from |
| LossMore.OrZero | cvap/module/decoder/loss_more.py:71-79 | an undefined metric becomes 0, a defined one is kept |
| LossMore.Tabulate | cvap/module/decoder/loss_more.py:67-85 | one entry per label; undefined AP or AUC become 0; precision and recall are read at the curve's middle; the error flag is set iff some label needed a substitution |
| LossMore.PredictRows | cvap/module/decoder/loss_more.py:58-60 | predictions with a label axis have as many rows as the features they came from |
| LossMore.LabelAxis | cvap/module/decoder/loss_more.py:58-60 | when the predictions concatenate with a label axis, every stored feature batch has one |
| LossMore.BceHead.constructor | cvap/module/decoder/loss_more.py:23-34 | a new head has no buffers |
| LossMore.BceHead.Infer | cvap/module/decoder/loss_more.py:42-55 | the buffers become `Fed` of the old buffers, with the batch's own predictions |
| LossMore.BceHead.ForwardEval | cvap/module/decoder/loss_more.py:99-105 | only an undistributed process or rank 0 stores the batch; other ranks change nothing |
| LossMore.BceHead.Report | cvap/module/decoder/loss_more.py:57-97 | without buffers the report fails; with them it fails only on bad shapes, leaving them; otherwise it reports the averages, the sample count and a table that is `Tabulated` over the labels (an undefined AP or AUC becomes 0, precision and recall are read at the curve's middle, the error flag is set iff some label needed a substitution), and deletes all four buffers |
| LossMore.CombinedHead.constructor | cvap/module/decoder/loss_more.py:114-120 | the binary head starts without buffers and the cross-entropy head has had no calls |
| LossMore.CombinedHead.ForwardEval | cvap/module/decoder/loss_more.py:128-136 | on an undistributed process or rank 0, the cross-entropy head gets the batch iff mirror features come with it and the binary head always stores it |
| LossMore.CombinedHead.Report | cvap/module/decoder/loss_more.py:121-126 | the cross-entropy part is included only when that head holds both buffers; the binary report is always included, with its sample count and its `Tabulated` table; either failure fails the whole |

## Left out

- Tensor arithmetic, autocast, gradient scaling, backward passes, optimizer updates and scheduler internals: a step's loss is an input, and the scheduler is seen only through how often it is stepped.
- Distributed data parallelism, `sampler.set_epoch` and device placement: only the rank, world size, GPU count and whether a process group exists are modelled.
- Data and file I/O (loader construction, the existence test for the evaluation data, `torch.save`, `torch.load`, `clip.load`, head construction): the loader lengths, whether an evaluation loader exists and the parameter lists are inputs.
- Wall-clock timing and throughput (`timeit`, samples per second), and the formatting of floats in printed lines.
- `eval_norms`: the mean and standard deviation statistics are floating-point tensor code. Only its effect of skipping training is modelled.
- The learning rates printed in log lines and the per-group rates of the optimizer: events record the step, the mean loss and the warmup rates only.
- LARS and `adjust_learning_rate`, whose code is not part of this model.
- `force_eval` is a comparison of float lists; each step takes it as an input flag.
- The metric library (`average_precision_score`, `roc_auc_score`, `precision_recall_curve`) and `np.mean`: the averages and per-label results are inputs, and the mean columns of the report text are not modelled.
- The training branches of both heads' `forward` (sigmoid and cross-entropy loss values).
- The cross-entropy head behind `BCEAndCELossHead`, whose code is not part of this model. It is seen through the calls made to its `infer`, and through its buffer test and report outcome, which are inputs.
- The `AverageMeter` class is not part of this model. The epoch meter is the list of (loss, rows) it was fed since its last reset, and the epoch-loss column of the log line is not modelled.
- CvapDp.Monitor.Step: requires `saveRate`, the loader length and, on rank 0, the clamped log rate to be positive (`Ready`). In the source, a zero save rate or log rate raises `ZeroDivisionError`. A zero loader length means there are no steps at all. So an empty loader is excluded even though nothing would fail.
- CvapDp.Monitor.Step: requires the warmup ratio to be defined. With warmup on, LARS off and `warmup_steps = 0`, the source divides by zero at step 0.
- ClapDp.Monitor.Step: requires `warmup_steps >= 20` whenever warmup is on within the warmup window (`WarmupDefined`). Otherwise `warmup_steps // 20` is 0 and the modulo raises. It also requires positive save and log rates, and a positive loader length with epoch saves.
- Cvap.Monitor.constructor: requires training mode. In evaluation mode `build_model` never builds the loss head, so the device move at the end of `build_model` fails. For the same reason the evaluation branch of `learn`, whose `infer` does nothing, is not modelled.
- Cvap.Monitor.Save: the checkpoint holds three state dicts while evaluation-mode loading unpacks two. Loading is file I/O and is not modelled.
- Cvap.Monitor.Step: requires positive log and save rates (`Ready`), and so do `Cvap.Monitor.Report`, `Cvap.Monitor.Epoch` and `Cvap.Monitor.Learn`. In the source a zero `peep_rate` or `save_rate` raises `ZeroDivisionError` at the modulo tests (cvap/cvap.py:79, cvap/cvap.py:85); that failure is not modelled.
- CvapDp.MakeBatch: requires the images to be 4-d whenever they are resized (`WellFormed`). The bilinear resize in the source raises on any other rank, such as a 3-d `(c, h, w)` batch whose last size is not the resolution; that failure is not modelled.
- LossMore.BceHead.Infer: requires the features' last size to be `embedDim`. With another size the source has already appended the features to `audios` when the linear layer raises, which leaves the buffers misaligned; the model does not cover that state, and `Valid` excludes it.
- Cvap.Monitor.Step: the clip event is tagged with the step number after the increment, although clipping happens before it. The tag only identifies the step.
- ClapDp.Monitor.Warmup: the source assigns the rate to every parameter group; the model records the single echoed rate, not the groups.
- LossMore.BceHead.Report: the metric library's input checks are modelled as the labels concatenating to the predictions' shape. The report's ids are not used by the report and are only kept and deleted.
- `copy_state_dict` and the loss-head constructor's layers: tensor state.

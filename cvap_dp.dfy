/**
 * The data-parallel training monitor for the contrastive image-audio model
 * (`cvap/monitor/cvap_dp.py`): it owns the data loaders, freezes the
 * parameters the model does not declare tunable, and drives training step
 * by step: warmup of the learning rates, periodic logging, evaluation and
 * checkpointing, and the learning-rate scheduler.
 *
 * What a step computes from tensors (the loss, the gradients, the new
 * weights) is an input: a step is given its raw batch, the loss value the
 * model returned, and whether the optimizer's rates compare equal to the
 * scheduler's base rates where the step makes that comparison.
 */
module CvapDp {
  import opened Common
  import opened Trace
  import opened Multiples
  import Checkpoints
  import opened ParamSelect
  import Inference

  /** The configuration entries the monitor reads. */
  datatype Config = Config(
    eval: bool,               // run an evaluation pass instead of training
    evalNorms: bool,          // only compute the audio statistics
    peepRate: nat,            // log every `peepRate` steps (as configured)
    saveRate: nat,            // evaluate and save every `saveRate` steps
    saveEpoch: bool,          // also evaluate and save at every epoch boundary
    resolution: nat,          // image side length the model expects
    evalSamples: Samples,     // sample bound of every inference pass
    epochs: nat,
    useLars: bool,
    warmup: bool,
    warmupSteps: nat,
    batchSch: bool,           // step the scheduler after every batch (else every epoch)
    restartSchedule: bool,    // the scheduler is a cosine schedule with warm restarts
    aliasRoot: string,
    modelName: string)

  /** A batch as the loader yields it: images, audios, sample ids. */
  datatype RawBatch = RawBatch(images: Tensor, audios: Tensor, ids: seq<string>)

  /** The images are resized unless they are 2-d or already at the resolution. */
  predicate NeedsResize(images: Tensor, res: nat)
    requires |images.shape| >= 1
  {
    Rank(images) != 2 && LastDim(images) != res
  }

  /**
   * The shapes `make_batch` accepts: both tensors have a batch axis (the
   * audio gets a channel axis inserted after it, the image's last axis is
   * read), and an image that must be resized is an (N, C, H, W) tensor.
   */
  predicate WellFormed(b: RawBatch, res: nat)
  {
    && |b.images.shape| >= 1
    && |b.audios.shape| >= 1
    && (NeedsResize(b.images, res) ==> |b.images.shape| == 4)
  }

  /**
   * `make_batch`: the audio gets a channel axis of length 1 after the batch
   * axis, the images are resized to `res` x `res` when needed, the ids pass
   * through, and the batch size is unchanged.
   */
  function MakeBatch(b: RawBatch, res: nat): (r: RawBatch)
    requires WellFormed(b, res)
    ensures |r.audios.shape| == |b.audios.shape| + 1
    ensures r.audios.shape[0] == b.audios.shape[0] && r.audios.shape[1] == 1
    ensures forall i | 1 <= i < |b.audios.shape| :: r.audios.shape[i + 1] == b.audios.shape[i]
    ensures NeedsResize(b.images, res) ==> r.images.shape == b.images.shape[..2] + [res, res]
    ensures !NeedsResize(b.images, res) ==> r.images == b.images
    ensures |r.images.shape| >= 1 && Rows(r.images) == Rows(b.images)
    ensures r.ids == b.ids
  {
    var images := if NeedsResize(b.images, res) then Interpolate(b.images, res) else b.images;
    RawBatch(images, Unsqueeze1(b.audios), b.ids)
  }

  /** The batch sizes an inference pass over `loader` counts. */
  function BatchSizes(loader: seq<RawBatch>, res: nat): (sizes: seq<nat>)
    requires forall i | 0 <= i < |loader| :: WellFormed(loader[i], res)
    ensures |sizes| == |loader|
    ensures forall i | 0 <= i < |loader| :: WellFormed(loader[i], res) && sizes[i] == Rows(loader[i].images)
  {
    seq(|loader|, i requires 0 <= i < |loader| && WellFormed(loader[i], res) =>
      Rows(MakeBatch(loader[i], res).images))
  }

  /**
   * `build_data`: the peep rate is lowered to the number of batches when
   * the loader is shorter; the result is the smaller of the two.
   */
  function ClampPeepRate(configured: nat, nstep: nat): (r: nat)
    ensures r <= configured && r <= nstep
    ensures r == configured || r == nstep
  {
    if nstep < configured then nstep else configured
  }

  /** One training step's inputs. */
  datatype StepIn = StepIn(batch: RawBatch, loss: real, lrAtBase: bool)

  /** What stays fixed while the monitor trains. */
  datatype Setup = Setup(
    cfg: Config, rt: Runtime, peepRate: nat, dataLen: nat, hasEval: bool, initialLrs: seq<real>)

  /** The counters and the output a training run accumulates. */
  datatype RunState = RunState(
    totalStep: nat, totalInst: nat, totalLoss: real, schedulerSteps: nat, events: seq<Event>)

  /** `max(warmup_steps // 20, 1)`: warmup rates are set every this many steps. */
  function WarmupStepRate(warmupSteps: nat): (r: nat)
    ensures r >= 1 && r >= warmupSteps / 20
    ensures r == 1 || r == warmupSteps / 20
  {
    if warmupSteps / 20 > 1 then warmupSteps / 20 else 1
  }

  /** The step is still in warmup (which LARS switches off). */
  predicate WarmupOn(cfg: Config, step: nat)
  {
    !cfg.useLars && cfg.warmup && step <= cfg.warmupSteps
  }

  /** The step sets new warmup rates. */
  predicate WarmupFires(cfg: Config, step: nat)
  {
    WarmupOn(cfg, step) && Multiple(step, WarmupStepRate(cfg.warmupSteps))
  }

  /** The warmup ratio `step / warmup_steps` can be computed where it is used. */
  predicate RatioDefined(cfg: Config, step: nat)
  {
    WarmupFires(cfg, step) ==> cfg.warmupSteps > 0
  }

  /** `total_loss / total_step`: the running mean the log line reports. */
  function MeanLoss(total: real, steps: nat): real
    requires steps > 0
  {
    total / steps as real
  }

  function WarmupRatio(step: nat, warmupSteps: nat): real
    requires warmupSteps > 0
  {
    step as real / warmupSteps as real
  }

  /** Every group's rate set to `ratio` times its initial rate. */
  function Scaled(ratio: real, initialLrs: seq<real>): (lrs: seq<real>)
    ensures |lrs| == |initialLrs|
    ensures forall i | 0 <= i < |lrs| :: lrs[i] == ratio * initialLrs[i]
  {
    if initialLrs == [] then []
    else
      var k := |initialLrs| - 1;
      Scaled(ratio, initialLrs[..k]) + [ratio * initialLrs[k]]
  }

  /** `param_group['lr'] = ratio * param_group["initial_lr"]` for every group, in order. */
  method ScaleRates(ratio: real, initialLrs: seq<real>) returns (lrs: seq<real>)
    ensures lrs == Scaled(ratio, initialLrs)
  {
    lrs := initialLrs;
    for g := 0 to |lrs|
      invariant |lrs| == |initialLrs|
      invariant forall j | 0 <= j < g :: lrs[j] == ratio * initialLrs[j]
      invariant forall j | g <= j < |lrs| :: lrs[j] == initialLrs[j]
    {
      lrs := lrs[g := ratio * initialLrs[g]];
    }
    assert forall j | 0 <= j < |lrs| :: lrs[j] == Scaled(ratio, initialLrs)[j];
  }

  /** The rates a step's warmup sets, none when it sets none. */
  function WarmupLrs(cfg: Config, step: nat, initialLrs: seq<real>): seq<real>
    requires RatioDefined(cfg, step)
  {
    if WarmupFires(cfg, step) then Scaled(WarmupRatio(step, cfg.warmupSteps), initialLrs) else []
  }

  /** The scheduler is stepped after this batch. */
  predicate BatchScheduled(cfg: Config, step: nat)
  {
    !cfg.useLars && cfg.batchSch && !WarmupOn(cfg, step)
  }

  /**
   * `force_eval`: set by the rate comparison of the warmup branch, or of
   * the scheduler branch when the schedule restarts; the two branches
   * exclude each other.
   */
  predicate ForceEval(cfg: Config, step: nat, lrAtBase: bool)
  {
    if WarmupFires(cfg, step) then lrAtBase
    else BatchScheduled(cfg, step) && cfg.restartSchedule && lrAtBase
  }

  /** The rates the monitor divides by are positive. */
  predicate Ready(su: Setup)
  {
    su.cfg.saveRate >= 1 && su.dataLen >= 1 && (su.rt.rank == 0 ==> su.peepRate >= 1)
  }

  predicate ShouldLog(su: Setup, force: bool, step: nat)
    requires Ready(su)
  {
    force || (su.rt.rank == 0 && Multiple(step, su.peepRate))
  }

  predicate ShouldEvalSave(su: Setup, force: bool, step: nat)
    requires Ready(su)
  {
    force || Multiple(step, su.cfg.saveRate) || (su.cfg.saveEpoch && Multiple(step, su.dataLen))
  }

  predicate StepDefined(su: Setup, s: RunState, input: StepIn)
  {
    Ready(su) && RatioDefined(su.cfg, s.totalStep) && WellFormed(input.batch, su.cfg.resolution)
  }

  /**
   * The lines and checkpoints of the step that leaves the counter at
   * `step + 1` and the summed loss at `loss`, in the order they are emitted.
   */
  function Emitted(su: Setup, step: nat, loss: real, iepoch: nat, lrAtBase: bool): seq<Event>
    requires Ready(su) && RatioDefined(su.cfg, step)
  {
    var force := ForceEval(su.cfg, step, lrAtBase);
    var n := step + 1;
    var fire := ShouldEvalSave(su, force, n);
    StepEvents(
      WarmupFires(su.cfg, step), WarmupLr(WarmupLrs(su.cfg, step, su.initialLrs)),
      ShouldLog(su, force, n), Log(iepoch, n, MeanLoss(loss, n)),
      fire && su.hasEval, Evaluated(n),
      fire && su.rt.rank == 0, Saved(n))
  }

  /** One iteration of the `epoch` loop. */
  function StepNext(su: Setup, s: RunState, iepoch: nat, input: StepIn): (r: RunState)
    requires StepDefined(su, s, input)
    ensures r.totalStep == s.totalStep + 1
    ensures r.totalInst == s.totalInst + Rows(input.batch.images) * TrainChunks(su.rt)
    ensures r.totalLoss == s.totalLoss + input.loss
    ensures r.events == s.events + Emitted(su, s.totalStep, r.totalLoss, iepoch, input.lrAtBase)
  {
    var loss := s.totalLoss + input.loss;
    RunState(
      s.totalStep + 1,
      s.totalInst + Rows(input.batch.images) * TrainChunks(su.rt),
      loss,
      s.schedulerSteps + (if BatchScheduled(su.cfg, s.totalStep) then 1 else 0),
      s.events + Emitted(su, s.totalStep, loss, iepoch, input.lrAtBase))
  }

  /** The events of a step, with the forced-evaluation flag and the new step count named. */
  lemma EmittedWith(su: Setup, step: nat, n: nat, loss: real, iepoch: nat, lrAtBase: bool, force: bool)
    requires Ready(su) && RatioDefined(su.cfg, step)
    requires force == ForceEval(su.cfg, step, lrAtBase) && n == step + 1
    ensures Emitted(su, step, loss, iepoch, lrAtBase) ==
      StepEvents(
        WarmupFires(su.cfg, step), WarmupLr(WarmupLrs(su.cfg, step, su.initialLrs)),
        ShouldLog(su, force, n), Log(iepoch, n, MeanLoss(loss, n)),
        ShouldEvalSave(su, force, n) && su.hasEval, Evaluated(n),
        ShouldEvalSave(su, force, n) && su.rt.rank == 0, Saved(n))
  {
  }

  /** A state that agrees with the step specification field by field is its result. */
  lemma StepNextFields(su: Setup, s: RunState, iepoch: nat, input: StepIn, r: RunState)
    requires StepDefined(su, s, input)
    requires r.totalStep == s.totalStep + 1 && r.totalLoss == s.totalLoss + input.loss
    requires r.totalInst == s.totalInst + Rows(input.batch.images) * TrainChunks(su.rt)
    requires r.schedulerSteps == s.schedulerSteps + (if BatchScheduled(su.cfg, s.totalStep) then 1 else 0)
    requires r.events == s.events + Emitted(su, s.totalStep, r.totalLoss, iepoch, input.lrAtBase)
    ensures r == StepNext(su, s, iepoch, input)
  {
  }

  predicate StepsDefined(su: Setup, s: RunState, ins: seq<StepIn>)
  {
    && (ins != [] ==> Ready(su) && RatioDefined(su.cfg, s.totalStep))
    && forall i | 0 <= i < |ins| :: WellFormed(ins[i].batch, su.cfg.resolution)
  }

  /** The steps of one epoch, in order. */
  function Steps(su: Setup, s: RunState, iepoch: nat, ins: seq<StepIn>): (r: RunState)
    requires StepsDefined(su, s, ins)
    ensures r.totalStep == s.totalStep + |ins|
    ensures r.totalLoss == s.totalLoss + SumLoss(ins)
    decreases |ins|
  {
    if ins == [] then s
    else
      var k := |ins| - 1;
      StepNext(su, Steps(su, s, iepoch, ins[..k]), iepoch, ins[k])
  }

  function SumLoss(ins: seq<StepIn>): real
  {
    if ins == [] then 0.0 else SumLoss(ins[..|ins| - 1]) + ins[|ins| - 1].loss
  }

  /** After the batches: one scheduler step per epoch unless it steps per batch or LARS is used. */
  function EpochEnd(su: Setup, s: RunState): RunState
  {
    s.(schedulerSteps := s.schedulerSteps + (if !su.cfg.useLars && !su.cfg.batchSch then 1 else 0))
  }

  function EpochRun(su: Setup, s: RunState, iepoch: nat, ins: seq<StepIn>): RunState
    requires StepsDefined(su, s, ins)
  {
    EpochEnd(su, Steps(su, s, iepoch, ins))
  }

  /** `learn` starts from zeroed counters. */
  function Reset(s: RunState): RunState
  {
    s.(totalStep := 0, totalInst := 0, totalLoss := 0.0)
  }

  ghost predicate EpochsDefined(su: Setup, s: RunState, run: seq<seq<StepIn>>)
  {
    && (forall e | 0 <= e < |run| :: |run[e]| == su.dataLen)
    && (forall e, i | 0 <= e < |run| && 0 <= i < |run[e]| :: WellFormed(run[e][i].batch, su.cfg.resolution))
    && (su.dataLen == 0 || run == [] || (Ready(su) && RatioDefined(su.cfg, s.totalStep)))
  }

  /** The epochs of a training run, epoch `e` fed `run[e]`. */
  function Epochs(su: Setup, s: RunState, run: seq<seq<StepIn>>): (r: RunState)
    requires EpochsDefined(su, s, run)
    ensures r.totalStep == s.totalStep + |run| * su.dataLen
    decreases |run|
  {
    if run == [] then s
    else
      var k := |run| - 1;
      assert EpochsDefined(su, s, run[..k]);
      var mid := Epochs(su, s, run[..k]);
      MulNext(k, su.dataLen);
      EpochRun(su, mid, k, run[k])
  }

  /** A warmup ratio that can be computed at one step can be computed at every later step. */
  lemma RatioDefinedLater(cfg: Config, a: nat, b: nat)
    requires RatioDefined(cfg, a) && a <= b
    ensures RatioDefined(cfg, b)
  {
  }

  /**
   * Epoch `e` of a run starts where the epochs before it left the state,
   * its steps can be taken from there, and it extends the run by one epoch.
   */
  lemma EpochStart(su: Setup, s: RunState, run: seq<seq<StepIn>>, e: nat)
    requires EpochsDefined(su, s, run) && e < |run|
    ensures EpochsDefined(su, s, run[..e]) && EpochsDefined(su, s, run[..e + 1])
    ensures StepsDefined(su, Epochs(su, s, run[..e]), run[e])
    ensures Epochs(su, s, run[..e + 1]) == EpochRun(su, Epochs(su, s, run[..e]), e, run[e])
  {
    assert EpochsDefined(su, s, run[..e]);
    assert EpochsDefined(su, s, run[..e + 1]);
    assert run[..e + 1][..e] == run[..e];
    var mid := Epochs(su, s, run[..e]);
    if su.dataLen > 0 {
      MulSign(su.dataLen, e);
      RatioDefinedLater(su.cfg, s.totalStep, mid.totalStep);
    }
  }

  /** Steps whose rate comparisons all fail: no evaluation is forced. */
  predicate Quiet(ins: seq<StepIn>)
  {
    forall i | 0 <= i < |ins| :: !ins[i].lrAtBase
  }

  class Monitor {
    const cfg: Config
    const rt: Runtime
    const dataLen: nat                        // `len(self.dataloader)`
    const evalLoader: Option<seq<RawBatch>>   // `self.evalloader`
    const initialLrs: seq<real>               // each parameter group's `initial_lr`
    var peepRate: nat                         // `cfg.running.peep_rate`, clamped by `build_data`
    var training: bool                        // `self.model.training`
    var params: seq<NamedParam>               // `self.model.named_parameters()`
    var groups: seq<seq<Tensor>>              // the optimizer's parameter groups
    var totalStep: nat
    var totalInst: nat
    var totalLoss: real
    var schedulerSteps: nat                   // calls of `scheduler.step()`
    var events: seq<Event>

    function Settings(): Setup
      reads this`peepRate
    {
      Setup(cfg, rt, peepRate, dataLen, evalLoader.Some?, initialLrs)
    }

    function State(): RunState
      reads this`totalStep, this`totalInst, this`totalLoss, this`schedulerSteps, this`events
    {
      RunState(totalStep, totalInst, totalLoss, schedulerSteps, events)
    }

    ghost predicate Valid()
    {
      evalLoader.Some? ==>
        forall i | 0 <= i < |evalLoader.value| :: WellFormed(evalLoader.value[i], cfg.resolution)
    }

    /**
     * The optimizer built from the parameters `named` and the tunable
     * dictionary: every parameter whose key (without the DDP wrapper's
     * "module." prefix) is not tunable is frozen, and the tunable tensors
     * are split into the matrix group and the vector group.
     */
    ghost predicate OptimizerBuilt(named: seq<NamedParam>, tunable: seq<Tunable>)
      reads this`params, this`groups
    {
      && FrozenUntunable(named, params, Names(tunable), DdpRule(rt.distributed))
      && groups == [Matrices(Values(tunable)), NonMatrices(Values(tunable))]
    }

    /**
     * `__init__`: data first; unless only the audio statistics are wanted,
     * the model is put in training mode exactly when not evaluating and the
     * optimizer is built from the model's tunable dictionary.
     */
    constructor (cfg: Config, rt: Runtime, dataLen: nat, evalLoader: Option<seq<RawBatch>>,
                 initialLrs: seq<real>, named: seq<NamedParam>, tunable: seq<Tunable>)
      requires evalLoader.Some? ==>
        forall i | 0 <= i < |evalLoader.value| :: WellFormed(evalLoader.value[i], cfg.resolution)
      ensures Valid()
      ensures this.cfg == cfg && this.rt == rt && this.dataLen == dataLen
      ensures this.evalLoader == evalLoader && this.initialLrs == initialLrs
      ensures peepRate == ClampPeepRate(cfg.peepRate, dataLen)
      ensures training == (!cfg.evalNorms && !cfg.eval)
      ensures !training ==> params == named && groups == []
      ensures training ==> OptimizerBuilt(named, tunable)
      ensures State() == RunState(0, 0, 0.0, 0, [])
    {
      this.cfg := cfg;
      this.rt := rt;
      this.dataLen := dataLen;
      this.evalLoader := evalLoader;
      this.initialLrs := initialLrs;
      peepRate := cfg.peepRate;
      // `self.model.train(not cfg.eval)`, on the model built after the data
      training := !cfg.evalNorms && !cfg.eval;
      params := named;
      groups := [];
      totalStep, totalInst, totalLoss, schedulerSteps, events := 0, 0, 0.0, 0, [];
      new;
      BuildData();
      if !cfg.evalNorms {
        BuildOptimizer(tunable);
      }
    }

    /** `build_data`: the peep rate never exceeds the number of batches. */
    method BuildData()
      modifies this`peepRate
      ensures peepRate == ClampPeepRate(old(peepRate), dataLen)
    {
      if dataLen < peepRate {
        peepRate := dataLen;
      }
    }

    /**
     * `build_optimizer`: nothing happens outside training; otherwise every
     * parameter whose name (without the DDP wrapper's "module." prefix) is
     * not tunable is frozen, and the tunable tensors are split into the
     * matrix group and the vector group.
     */
    method BuildOptimizer(tunable: seq<Tunable>)
      modifies this`params, this`groups
      ensures !training ==> params == old(params) && groups == old(groups)
      ensures training ==> OptimizerBuilt(old(params), tunable)
    {
      if !training {
        return;
      }
      params := FreezeUntunable(params, Names(tunable), DdpRule(rt.distributed));
      var values := Values(tunable);
      groups := [Matrices(values), NonMatrices(values)];
    }

    /** `infer`: a sample-bounded pass over `loader`, counting `num_gpus` chunks per batch under DDP. */
    method Infer(loader: seq<RawBatch>, samples: Samples) returns (p: Inference.Pass)
      requires forall i | 0 <= i < |loader| :: WellFormed(loader[i], cfg.resolution)
      ensures Inference.StopsAtBound(BatchSizes(loader, cfg.resolution), EvalChunks(rt), samples, rt.rank, p)
    {
      p := Inference.BoundedPass(BatchSizes(loader, cfg.resolution), samples, EvalChunks(rt), rt.rank);
    }

    /**
     * `save`: the checkpoint of the current step is written under the alias
     * root, in the model's directory, named after the zero-padded step.
     */
    method Save() returns (path: string)
      modifies this`events
      ensures path == Checkpoints.CheckpointPath(cfg.aliasRoot, cfg.modelName, totalStep)
      ensures events == old(events) + [Saved(totalStep)]
    {
      path := cfg.aliasRoot + "/" + cfg.modelName + "/" + Checkpoints.Pad8(totalStep) + ".pth";
      events := events + [Saved(totalStep)];
    }

    /**
     * The warmup block of a step: at every warmup step rate, while the step
     * counter is within the warmup, every group's rate becomes the warmup
     * ratio times its initial rate, the new rates are logged, and
     * evaluation is forced when they equal the base rates.
     */
    method Warmup(lrAtBase: bool) returns (force: bool)
      requires RatioDefined(cfg, totalStep)
      modifies this`events
      ensures force == (WarmupFires(cfg, totalStep) && lrAtBase)
      ensures events == old(events) + When(WarmupFires(cfg, totalStep), WarmupLr(WarmupLrs(cfg, totalStep, initialLrs)))
    {
      force := false;
      var warmup := !cfg.useLars && cfg.warmup && totalStep <= cfg.warmupSteps;
      MultipleMod(totalStep, WarmupStepRate(cfg.warmupSteps));
      if warmup && totalStep % WarmupStepRate(cfg.warmupSteps) == 0 {
        var ratio := totalStep as real / cfg.warmupSteps as real;
        var lrs := ScaleRates(ratio, initialLrs);
        events := events + [WarmupLr(lrs)];
        force := lrAtBase;
      }
    }

    /**
     * The second half of a step: the counters move (one step, the loss,
     * the batch size times the world size), then the log line, then
     * evaluation and checkpointing when forced, at the save rate, or (if
     * asked for) at an epoch boundary.
     */
    method Advance(iepoch: nat, input: StepIn, force: bool)
      requires Valid() && training && Ready(Settings()) && WellFormed(input.batch, cfg.resolution)
      modifies this`totalStep, this`totalInst, this`totalLoss, this`events, this`training
      ensures training
      ensures totalStep == old(totalStep) + 1 && totalLoss == old(totalLoss) + input.loss
      ensures totalInst == old(totalInst) + Rows(input.batch.images) * TrainChunks(rt)
      ensures events == old(events)
        + When(ShouldLog(Settings(), force, totalStep), Log(iepoch, totalStep, MeanLoss(totalLoss, totalStep)))
        + When(ShouldEvalSave(Settings(), force, totalStep) && evalLoader.Some?, Evaluated(totalStep))
        + When(ShouldEvalSave(Settings(), force, totalStep) && rt.rank == 0, Saved(totalStep))
    {
      Tally(input);
      LogLine(iepoch, force);
      EvalSave(force);
    }

    /** The counters after a batch: one more step, its loss, and its samples over all processes. */
    method Tally(input: StepIn)
      requires WellFormed(input.batch, cfg.resolution)
      modifies this`totalStep, this`totalInst, this`totalLoss
      ensures totalStep == old(totalStep) + 1 && totalLoss == old(totalLoss) + input.loss
      ensures totalInst == old(totalInst) + Rows(input.batch.images) * TrainChunks(rt)
    {
      var b := MakeBatch(input.batch, cfg.resolution);
      totalStep := totalStep + 1;
      totalLoss := totalLoss + input.loss;
      totalInst := totalInst + Rows(b.images) * TrainChunks(rt);
    }

    /** The log line: when forced, or on rank 0 at every multiple of the peep rate. */
    method LogLine(iepoch: nat, force: bool)
      requires Ready(Settings()) && totalStep >= 1
      modifies this`events
      ensures events == old(events)
        + When(ShouldLog(Settings(), force, totalStep), Log(iepoch, totalStep, MeanLoss(totalLoss, totalStep)))
    {
      if rt.rank == 0 {
        MultipleMod(totalStep, peepRate);
      }
      if force || (rt.rank == 0 && totalStep % peepRate == 0) {
        events := events + [Log(iepoch, totalStep, totalLoss / totalStep as real)];
      }
    }

    /**
     * Evaluation and checkpointing, when forced, at every multiple of the
     * save rate, or (if asked for) at every epoch boundary: every rank with
     * an evaluation loader evaluates, rank 0 saves.
     */
    method EvalSave(force: bool)
      requires Valid() && training && Ready(Settings())
      modifies this`events, this`training
      ensures training
      ensures events == old(events)
        + When(ShouldEvalSave(Settings(), force, totalStep) && evalLoader.Some?, Evaluated(totalStep))
        + When(ShouldEvalSave(Settings(), force, totalStep) && rt.rank == 0, Saved(totalStep))
    {
      MultipleMod(totalStep, cfg.saveRate);
      MultipleMod(totalStep, dataLen);
      var fire := force || totalStep % cfg.saveRate == 0 || (cfg.saveEpoch && totalStep % dataLen == 0);
      if fire && evalLoader.Some? {
        var pass := Evaluate();
      }
      if fire && rt.rank == 0 {
        var path := Save();
      }
    }

    /**
     * The evaluation inside training: a sample-bounded pass over the
     * evaluation loader in evaluation mode, after which training resumes.
     */
    method Evaluate() returns (pass: Inference.Pass)
      requires Valid() && training && evalLoader.Some?
      modifies this`events, this`training
      ensures training
      ensures Inference.StopsAtBound(BatchSizes(evalLoader.value, cfg.resolution), EvalChunks(rt), cfg.evalSamples, rt.rank, pass)
      ensures events == old(events) + [Evaluated(totalStep)]
    {
      training := false;
      pass := Infer(evalLoader.value, cfg.evalSamples);
      training := true;
      events := events + [Evaluated(totalStep)];
    }

    /**
     * The per-batch scheduler step, taken once the warmup is over (and
     * never under LARS); a restarting schedule forces evaluation when its
     * rates are back at the base rates.
     */
    method Schedule(lrAtBase: bool, force: bool) returns (forced: bool)
      modifies this`schedulerSteps
      ensures schedulerSteps == old(schedulerSteps) + (if BatchScheduled(cfg, totalStep) then 1 else 0)
      ensures forced == (if BatchScheduled(cfg, totalStep) && cfg.restartSchedule then lrAtBase else force)
    {
      forced := force;
      var warmup := !cfg.useLars && cfg.warmup && totalStep <= cfg.warmupSteps;
      if !cfg.useLars && cfg.batchSch && !warmup {
        schedulerSteps := schedulerSteps + 1;
        if cfg.restartSchedule {
          forced := lrAtBase;
        }
      }
    }

    /** One iteration of the `epoch` loop. */
    method Step(iepoch: nat, input: StepIn)
      requires Valid() && training && StepDefined(Settings(), State(), input)
      modifies this`totalStep, this`totalInst, this`totalLoss, this`schedulerSteps, this`events, this`training
      ensures training
      ensures State() == StepNext(Settings(), old(State()), iepoch, input)
    {
      ghost var s0 := State();
      var force := Warmup(input.lrAtBase);
      // forward, backward and the optimizer update are not modelled
      force := Schedule(input.lrAtBase, force);
      assert force == ForceEval(cfg, s0.totalStep, input.lrAtBase);
      Advance(iepoch, input, force);
      ghost var su := Settings();
      StepEventsAppend(s0.events,
        WarmupFires(cfg, s0.totalStep), WarmupLr(WarmupLrs(cfg, s0.totalStep, initialLrs)),
        ShouldLog(su, force, totalStep), Log(iepoch, totalStep, MeanLoss(totalLoss, totalStep)),
        ShouldEvalSave(su, force, totalStep) && su.hasEval, Evaluated(totalStep),
        ShouldEvalSave(su, force, totalStep) && rt.rank == 0, Saved(totalStep));
      EmittedWith(su, s0.totalStep, totalStep, totalLoss, iepoch, input.lrAtBase, force);
      StepNextFields(su, s0, iepoch, input, State());
    }

    /** `epoch`: the steps over one pass of the loader, then the per-epoch scheduler step. */
    method Epoch(iepoch: nat, ins: seq<StepIn>)
      requires Valid() && training && StepsDefined(Settings(), State(), ins)
      modifies this`totalStep, this`totalInst, this`totalLoss, this`schedulerSteps, this`events, this`training
      ensures training
      ensures State() == EpochRun(Settings(), old(State()), iepoch, ins)
    {
      RunSteps(iepoch, ins);
      EndEpoch();
    }

    /** The batch loop of `epoch`. */
    method RunSteps(iepoch: nat, ins: seq<StepIn>)
      requires Valid() && training && StepsDefined(Settings(), State(), ins)
      modifies this`totalStep, this`totalInst, this`totalLoss, this`schedulerSteps, this`events, this`training
      ensures training
      ensures State() == Steps(Settings(), old(State()), iepoch, ins)
    {
      ghost var s0 := State();
      assert ins[..0] == [];
      for i := 0 to |ins|
        invariant training
        invariant StepsDefined(Settings(), s0, ins[..i])
        invariant State() == Steps(Settings(), s0, iepoch, ins[..i])
      {
        StepStart(Settings(), s0, iepoch, ins, i);
        Step(iepoch, ins[i]);
      }
      assert ins[..|ins|] == ins;
    }

    /** After the batches, the scheduler steps once unless it steps per batch or LARS is used. */
    method EndEpoch()
      modifies this`schedulerSteps
      ensures State() == EpochEnd(Settings(), old(State()))
    {
      if !cfg.useLars && !cfg.batchSch {
        schedulerSteps := schedulerSteps + 1;
      }
    }

    /**
     * `learn`: nothing when only statistics are computed; one inference
     * pass over the main loader in evaluation mode; otherwise the counters
     * are reset and `epochs` epochs are run.
     */
    method Learn(run: seq<seq<StepIn>>, loader: seq<RawBatch>) returns (pass: Option<Inference.Pass>)
      requires Valid()
      requires !cfg.evalNorms && !training ==>
        forall i | 0 <= i < |loader| :: WellFormed(loader[i], cfg.resolution)
      requires !cfg.evalNorms && training ==>
        |run| == cfg.epochs && EpochsDefined(Settings(), Reset(State()), run)
      modifies this`totalStep, this`totalInst, this`totalLoss, this`schedulerSteps, this`events, this`training
      ensures cfg.evalNorms ==> pass == None && State() == old(State()) && training == old(training)
      ensures !cfg.evalNorms && !old(training) ==>
        && pass.Some?
        && Inference.StopsAtBound(BatchSizes(loader, cfg.resolution), EvalChunks(rt), cfg.evalSamples, rt.rank, pass.value)
        && State() == old(State()) && !training
      ensures !cfg.evalNorms && old(training) ==>
        pass == None && training && State() == Epochs(Settings(), Reset(old(State())), run)
    {
      if cfg.evalNorms {
        return None;
      }
      if !training {
        var p := Infer(loader, cfg.evalSamples);
        return Some(p);
      }
      Train(run);
      pass := None;
    }

    /** The training branch of `learn`: counters reset, then `epochs` epochs. */
    method Train(run: seq<seq<StepIn>>)
      requires Valid() && training && EpochsDefined(Settings(), Reset(State()), run)
      modifies this`totalStep, this`totalInst, this`totalLoss, this`schedulerSteps, this`events, this`training
      ensures training && State() == Epochs(Settings(), Reset(old(State())), run)
    {
      totalLoss, totalStep, totalInst := 0.0, 0, 0;
      ghost var s0 := State();
      assert run[..0] == [];
      for e := 0 to |run|
        invariant training
        invariant EpochsDefined(Settings(), s0, run[..e])
        invariant State() == Epochs(Settings(), s0, run[..e])
      {
        EpochStart(Settings(), s0, run, e);
        Epoch(e, run[e]);
      }
      assert run[..|run|] == run;
    }
  }

  // ----- properties of the step specification -----

  /** The optional events of one step, each counted exactly when its condition holds. */
  lemma EmittedCounts(su: Setup, step: nat, loss: real, iepoch: nat, lrAtBase: bool)
    requires Ready(su) && RatioDefined(su.cfg, step)
    ensures var es := Emitted(su, step, loss, iepoch, lrAtBase);
      var force := ForceEval(su.cfg, step, lrAtBase);
      var fire := ShouldEvalSave(su, force, step + 1);
      && Count(es, WarmupKind) == (if WarmupFires(su.cfg, step) then 1 else 0)
      && Count(es, LogKind) == (if ShouldLog(su, force, step + 1) then 1 else 0)
      && Count(es, EvalKind) == (if fire && su.hasEval then 1 else 0)
      && Count(es, SaveKind) == (if fire && su.rt.rank == 0 then 1 else 0)
  {
    var force := ForceEval(su.cfg, step, lrAtBase);
    var n := step + 1;
    var fire := ShouldEvalSave(su, force, n);
    CountStepEvents(
      WarmupFires(su.cfg, step), WarmupLr(WarmupLrs(su.cfg, step, su.initialLrs)),
      ShouldLog(su, force, n), Log(iepoch, n, MeanLoss(loss, n)),
      fire && su.hasEval, Evaluated(n),
      fire && su.rt.rank == 0, Saved(n));
  }

  /** A step whose rate comparison fails logs, evaluates and saves only on schedule. */
  lemma QuietEmitted(su: Setup, step: nat, loss: real, iepoch: nat)
    requires Ready(su) && RatioDefined(su.cfg, step)
    ensures var es := Emitted(su, step, loss, iepoch, false);
      var due := Multiple(step + 1, su.cfg.saveRate) || (su.cfg.saveEpoch && Multiple(step + 1, su.dataLen));
      && Count(es, LogKind) == (if su.rt.rank == 0 && Multiple(step + 1, su.peepRate) then 1 else 0)
      && Count(es, EvalKind) == (if su.hasEval && due then 1 else 0)
      && Count(es, SaveKind) == (if su.rt.rank == 0 && due then 1 else 0)
  {
    assert !ForceEval(su.cfg, step, false);
    EmittedCounts(su, step, loss, iepoch, false);
  }

  /** A step whose rate comparison fails adds a log line exactly at a multiple of the peep rate on rank 0. */
  lemma QuietStepLog(su: Setup, s: RunState, iepoch: nat, input: StepIn)
    requires StepDefined(su, s, input) && !input.lrAtBase
    ensures Count(StepNext(su, s, iepoch, input).events, LogKind) ==
      Count(s.events, LogKind) + (if su.rt.rank == 0 && Multiple(s.totalStep + 1, su.peepRate) then 1 else 0)
  {
    var r := StepNext(su, s, iepoch, input);
    var es := Emitted(su, s.totalStep, r.totalLoss, iepoch, false);
    assert r.events == s.events + es;
    QuietEmitted(su, s.totalStep, r.totalLoss, iepoch);
    assert Count(es, LogKind) == (if su.rt.rank == 0 && Multiple(s.totalStep + 1, su.peepRate) then 1 else 0);
    CountConcat(s.events, es, LogKind);
  }

  /** A step whose rate comparison fails saves exactly at a multiple of the save rate on rank 0. */
  lemma QuietStepSave(su: Setup, s: RunState, iepoch: nat, input: StepIn)
    requires StepDefined(su, s, input) && !input.lrAtBase && !su.cfg.saveEpoch
    ensures Count(StepNext(su, s, iepoch, input).events, SaveKind) ==
      Count(s.events, SaveKind) + (if su.rt.rank == 0 && Multiple(s.totalStep + 1, su.cfg.saveRate) then 1 else 0)
  {
    var r := StepNext(su, s, iepoch, input);
    var es := Emitted(su, s.totalStep, r.totalLoss, iepoch, false);
    assert r.events == s.events + es;
    QuietEmitted(su, s.totalStep, r.totalLoss, iepoch);
    assert Count(es, SaveKind) == (if su.rt.rank == 0 && Multiple(s.totalStep + 1, su.cfg.saveRate) then 1 else 0);
    CountConcat(s.events, es, SaveKind);
  }

  /** A step whose rate comparison fails evaluates exactly at a multiple of the save rate when there is an evaluation loader. */
  lemma QuietStepEval(su: Setup, s: RunState, iepoch: nat, input: StepIn)
    requires StepDefined(su, s, input) && !input.lrAtBase && !su.cfg.saveEpoch
    ensures Count(StepNext(su, s, iepoch, input).events, EvalKind) ==
      Count(s.events, EvalKind) + (if su.hasEval && Multiple(s.totalStep + 1, su.cfg.saveRate) then 1 else 0)
  {
    var r := StepNext(su, s, iepoch, input);
    var es := Emitted(su, s.totalStep, r.totalLoss, iepoch, false);
    assert r.events == s.events + es;
    QuietEmitted(su, s.totalStep, r.totalLoss, iepoch);
    assert Count(es, EvalKind) == (if su.hasEval && Multiple(s.totalStep + 1, su.cfg.saveRate) then 1 else 0);
    CountConcat(s.events, es, EvalKind);
  }

  /** The steps before the last one, and the last one applied to their result. */
  lemma StepsSplit(su: Setup, s: RunState, iepoch: nat, ins: seq<StepIn>)
    requires StepsDefined(su, s, ins) && ins != []
    ensures var k := |ins| - 1;
      && StepsDefined(su, s, ins[..k])
      && StepDefined(su, Steps(su, s, iepoch, ins[..k]), ins[k])
      && Steps(su, s, iepoch, ins) == StepNext(su, Steps(su, s, iepoch, ins[..k]), iepoch, ins[k])
  {
    var k := |ins| - 1;
    assert StepsDefined(su, s, ins[..k]);
  }

  /**
   * Step `i` of an epoch starts where the steps before it left the state,
   * can be taken from there, and extends the epoch by one step.
   */
  lemma StepStart(su: Setup, s: RunState, iepoch: nat, ins: seq<StepIn>, i: nat)
    requires StepsDefined(su, s, ins) && i < |ins|
    ensures StepsDefined(su, s, ins[..i]) && StepsDefined(su, s, ins[..i + 1])
    ensures StepDefined(su, Steps(su, s, iepoch, ins[..i]), ins[i])
    ensures Steps(su, s, iepoch, ins[..i + 1]) == StepNext(su, Steps(su, s, iepoch, ins[..i]), iepoch, ins[i])
  {
    assert StepsDefined(su, s, ins[..i]);
    assert StepsDefined(su, s, ins[..i + 1]);
    assert ins[..i + 1][..i] == ins[..i];
    RatioDefinedLater(su.cfg, s.totalStep, Steps(su, s, iepoch, ins[..i]).totalStep);
  }

  /**
   * With no forced evaluation, rank 0 logs once for every multiple of the
   * peep rate among the steps taken, and the other ranks never log.
   */
  lemma {:induction false} QuietLogCount(su: Setup, s: RunState, iepoch: nat, ins: seq<StepIn>)
    requires Ready(su) && StepsDefined(su, s, ins) && Quiet(ins)
    ensures Count(Steps(su, s, iepoch, ins).events, LogKind) ==
      Count(s.events, LogKind) + (if su.rt.rank == 0 then MultiplesAfter(s.totalStep, |ins|, su.peepRate) else 0)
    decreases |ins|
  {
    if ins != [] {
      var k := |ins| - 1;
      StepsSplit(su, s, iepoch, ins);
      assert Quiet(ins[..k]);
      QuietLogCount(su, s, iepoch, ins[..k]);
      var mid := Steps(su, s, iepoch, ins[..k]);
      QuietStepLog(su, mid, iepoch, ins[k]);
      if su.rt.rank == 0 {
        MultiplesAfterLast(s.totalStep, |ins|, su.peepRate, mid.totalStep + 1);
      }
    }
  }

  /**
   * With no forced evaluation and no per-epoch saving, rank 0 saves once
   * for every multiple of the save rate among the steps taken.
   */
  lemma {:induction false} QuietSaveCount(su: Setup, s: RunState, iepoch: nat, ins: seq<StepIn>)
    requires Ready(su) && StepsDefined(su, s, ins) && Quiet(ins) && !su.cfg.saveEpoch
    ensures Count(Steps(su, s, iepoch, ins).events, SaveKind) ==
      Count(s.events, SaveKind) + (if su.rt.rank == 0 then MultiplesAfter(s.totalStep, |ins|, su.cfg.saveRate) else 0)
    decreases |ins|
  {
    if ins != [] {
      var k := |ins| - 1;
      StepsSplit(su, s, iepoch, ins);
      assert Quiet(ins[..k]);
      QuietSaveCount(su, s, iepoch, ins[..k]);
      var mid := Steps(su, s, iepoch, ins[..k]);
      QuietStepSave(su, mid, iepoch, ins[k]);
      MultiplesAfterLast(s.totalStep, |ins|, su.cfg.saveRate, mid.totalStep + 1);
    }
  }

  /**
   * Under the same conditions every rank with an evaluation loader
   * evaluates exactly as often as rank 0 saves.
   */
  lemma {:induction false} QuietEvalCount(su: Setup, s: RunState, iepoch: nat, ins: seq<StepIn>)
    requires Ready(su) && StepsDefined(su, s, ins) && Quiet(ins) && !su.cfg.saveEpoch
    ensures Count(Steps(su, s, iepoch, ins).events, EvalKind) ==
      Count(s.events, EvalKind) + (if su.hasEval then MultiplesAfter(s.totalStep, |ins|, su.cfg.saveRate) else 0)
    decreases |ins|
  {
    if ins != [] {
      var k := |ins| - 1;
      StepsSplit(su, s, iepoch, ins);
      assert Quiet(ins[..k]);
      QuietEvalCount(su, s, iepoch, ins[..k]);
      var mid := Steps(su, s, iepoch, ins[..k]);
      QuietStepEval(su, mid, iepoch, ins[k]);
      MultiplesAfterLast(s.totalStep, |ins|, su.cfg.saveRate, mid.totalStep + 1);
    }
  }

  /**
   * The worked example of one epoch of 10 batches from a fresh run on
   * rank 0, peep rate 5 and save rate 10: two log lines, one checkpoint,
   * and the step counter at 10.
   */
  lemma TenBatchEpoch(su: Setup, s: RunState, ins: seq<StepIn>)
    requires Ready(su) && StepsDefined(su, s, ins) && Quiet(ins)
    requires su.rt.rank == 0 && su.peepRate == 5 && su.cfg.saveRate == 10 && !su.cfg.saveEpoch
    requires s.totalStep == 0 && s.events == [] && |ins| == 10
    ensures Steps(su, s, 0, ins).totalStep == 10
    ensures Count(Steps(su, s, 0, ins).events, LogKind) == 2
    ensures Count(Steps(su, s, 0, ins).events, SaveKind) == 1
  {
    QuietLogCount(su, s, 0, ins);
    QuietSaveCount(su, s, 0, ins);
    MultiplesAfterClosedForm(0, 10, 5);
    MultiplesAfterClosedForm(0, 10, 10);
  }

  /** Every ratio the warmup applies lies in [0, 1]. */
  lemma WarmupRatioBounded(cfg: Config, step: nat)
    requires WarmupFires(cfg, step) && cfg.warmupSteps > 0
    ensures 0.0 <= WarmupRatio(step, cfg.warmupSteps) <= 1.0
  {
    RatioAtMostOne(step, cfg.warmupSteps);
  }

  lemma RatioAtMostOne(step: nat, w: nat)
    requires 0 < w && step <= w
    ensures 0.0 <= WarmupRatio(step, w) <= 1.0
  {
    assert WarmupRatio(step, w) * w as real == step as real;
  }

  /** The warmup ratio never decreases as training advances. */
  lemma WarmupRatioMonotone(a: nat, b: nat, warmupSteps: nat)
    requires a <= b && warmupSteps > 0
    ensures WarmupRatio(a, warmupSteps) <= WarmupRatio(b, warmupSteps)
  {
    var x, y := WarmupRatio(a, warmupSteps), WarmupRatio(b, warmupSteps);
    assert x * warmupSteps as real == a as real;
    assert y * warmupSteps as real == b as real;
    assert (y - x) * warmupSteps as real == (b - a) as real;
  }

  /**
   * The warmup sets the base rates themselves (ratio 1) only when the last
   * warmup step is a multiple of the warmup step rate: with warmup steps
   * 30 the rate is 1 and it does, with 50 the rate is 2 and it does too,
   * with 45 the rate is 2 and the last rates set are 44/45 of the base.
   */
  lemma WarmupReachesBase(cfg: Config)
    requires !cfg.useLars && cfg.warmup && cfg.warmupSteps > 0
    ensures WarmupFires(cfg, cfg.warmupSteps) <==> cfg.warmupSteps % WarmupStepRate(cfg.warmupSteps) == 0
    ensures WarmupRatio(cfg.warmupSteps, cfg.warmupSteps) == 1.0
    ensures forall step | cfg.warmupSteps < step :: !WarmupFires(cfg, step)
    ensures cfg.warmupSteps == 45 ==> !WarmupFires(cfg, 45) && WarmupFires(cfg, 44)
  {
    var w := cfg.warmupSteps;
    MultipleMod(w, WarmupStepRate(w));
    RatioOne(w);
    if w == 45 {
      MultipleMod(45, 2);
      MultipleMod(44, 2);
    }
  }

  lemma RatioOne(w: nat)
    requires 0 < w
    ensures WarmupRatio(w, w) == 1.0
  {
    var r := WarmupRatio(w, w);
    assert r * w as real == w as real;
    assert (r - 1.0) * w as real == 0.0;
  }

  /** The rates a warmup step logs are the initial rates scaled by the ratio. */
  lemma WarmupLrsScaled(su: Setup, s: RunState, iepoch: nat, input: StepIn)
    requires StepDefined(su, s, input) && WarmupFires(su.cfg, s.totalStep)
    ensures su.cfg.warmupSteps > 0
    ensures StepNext(su, s, iepoch, input).events[|s.events|] ==
      WarmupLr(Scaled(WarmupRatio(s.totalStep, su.cfg.warmupSteps), su.initialLrs))
  {
  }

  /** Without LARS and without per-batch scheduling, each epoch steps the scheduler once. */
  lemma {:induction false} EpochSchedulerSteps(su: Setup, s: RunState, run: seq<seq<StepIn>>)
    requires EpochsDefined(su, s, run) && !su.cfg.useLars && !su.cfg.batchSch
    ensures Epochs(su, s, run).schedulerSteps == s.schedulerSteps + |run|
    decreases |run|
  {
    if run != [] {
      var k := |run| - 1;
      EpochStart(su, s, run, k);
      assert run[..k + 1] == run;
      EpochSchedulerSteps(su, s, run[..k]);
      StepsKeepScheduler(su, Epochs(su, s, run[..k]), k, run[k]);
    }
  }

  /** Without per-batch scheduling, no step moves the scheduler. */
  lemma {:induction false} StepsKeepScheduler(su: Setup, s: RunState, iepoch: nat, ins: seq<StepIn>)
    requires StepsDefined(su, s, ins) && !su.cfg.batchSch
    ensures Steps(su, s, iepoch, ins).schedulerSteps == s.schedulerSteps
    decreases |ins|
  {
    if ins != [] {
      var k := |ins| - 1;
      assert StepsDefined(su, s, ins[..k]);
      StepsKeepScheduler(su, s, iepoch, ins[..k]);
    }
  }
}

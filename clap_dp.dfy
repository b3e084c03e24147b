/**
 * The data-parallel training monitor for the contrastive audio-text model
 * (`cvap/monitor/clap_dp.py`). It has the same life cycle as the
 * image-audio monitor, with these differences:
 * - the peep rate is used as configured;
 * - the warmup sets one rate for every group, whether or not LARS is used;
 * - there is no forced evaluation and no per-batch scheduling;
 * - an epoch meter collects every step's loss and batch size;
 * - evaluation is skipped while the step's loss is 5 or more;
 * - the learning rate halves at milestone epochs.
 *
 * A step's loss is an input, as are the tensors' contents.
 */
module ClapDp {
  import opened Common
  import opened Trace
  import opened Multiples
  import Checkpoints
  import opened ParamSelect
  import Inference
  import CvapDp

  /** The configuration entries the monitor reads. */
  datatype Config = Config(
    eval: bool,               // run an evaluation pass instead of training
    evalNorms: bool,          // only compute the audio statistics
    peepRate: nat,            // log every `peepRate` steps
    saveRate: nat,            // evaluate and save every `saveRate` steps
    saveEpoch: bool,          // also evaluate and save at every epoch boundary
    evalSamples: Samples,     // sample bound of every inference pass
    epochs: nat,
    useLars: bool,
    warmup: bool,
    warmupSteps: nat,
    lr: real,                 // the configured learning rate
    steps: seq<nat>,          // configured scheduler milestones
    aliasRoot: string,
    modelName: string)

  /** A batch as the loader yields it: audios, captions or labels, their names. */
  datatype RawBatch = RawBatch(audios: Tensor, text: Tensor, names: seq<string>)

  /** The audio has a batch axis (a channel axis is inserted after it). */
  predicate WellFormed(b: RawBatch)
  {
    |b.audios.shape| >= 1
  }

  /**
   * `make_batch`: the audio gets a channel axis of length 1 after the
   * batch axis; the text tensor and the names pass through unchanged.
   */
  function MakeBatch(b: RawBatch): (r: RawBatch)
    requires WellFormed(b)
    ensures |r.audios.shape| == |b.audios.shape| + 1
    ensures r.audios.shape[0] == b.audios.shape[0] && r.audios.shape[1] == 1
    ensures forall i | 1 <= i < |b.audios.shape| :: r.audios.shape[i + 1] == b.audios.shape[i]
    ensures r.text == b.text && r.names == b.names
    ensures WellFormed(r) && Rows(r.audios) == Rows(b.audios)
  {
    RawBatch(Unsqueeze1(b.audios), b.text, b.names)
  }

  /** The batch sizes an inference pass over `loader` counts. */
  function BatchSizes(loader: seq<RawBatch>): (sizes: seq<nat>)
    requires forall i | 0 <= i < |loader| :: WellFormed(loader[i])
    ensures |sizes| == |loader|
    ensures forall i | 0 <= i < |loader| :: WellFormed(loader[i]) && sizes[i] == Rows(loader[i].audios)
  {
    if loader == [] then []
    else
      var k := |loader| - 1;
      BatchSizes(loader[..k]) + [Rows(MakeBatch(loader[k]).audios)]
  }

  /** `steps = [epochs] if len(steps) == 0 else steps`: the scheduler always gets a milestone. */
  function Milestones(steps: seq<nat>, epochs: nat): (ms: seq<nat>)
    ensures ms != []
    ensures steps != [] ==> ms == steps
    ensures steps == [] ==> ms == [epochs]
  {
    if |steps| == 0 then [epochs] else steps
  }

  /** One training step's inputs. */
  datatype StepIn = StepIn(batch: RawBatch, loss: real)

  /** What the epoch meter is fed: a step's loss and its batch size. */
  datatype MeterEntry = MeterEntry(loss: real, n: nat)

  /** What stays fixed while the monitor trains. */
  datatype Setup = Setup(cfg: Config, rt: Runtime, dataLen: nat, hasEval: bool)

  /** The counters and the output a training run accumulates. */
  datatype RunState = RunState(
    totalStep: nat, totalInst: nat, totalLoss: real, meter: seq<MeterEntry>,
    schedulerSteps: nat, events: seq<Event>)

  /** `warmup_steps // 20`: zero when there are fewer than 20 warmup steps. */
  function WarmupStepRate(warmupSteps: nat): (r: nat)
    ensures r * 20 <= warmupSteps < r * 20 + 20
  {
    warmupSteps / 20
  }

  /** The warmup test reaches its modulo: warmup is on and the step is within it. */
  predicate WarmupOn(cfg: Config, step: nat)
  {
    cfg.warmup && step <= cfg.warmupSteps
  }

  /** The modulo of the warmup test does not divide by zero. */
  predicate WarmupDefined(cfg: Config, step: nat)
  {
    WarmupOn(cfg, step) ==> WarmupStepRate(cfg.warmupSteps) >= 1
  }

  /** The step sets new warmup rates. */
  predicate WarmupFires(cfg: Config, step: nat)
    requires WarmupDefined(cfg, step)
  {
    WarmupOn(cfg, step) && Multiple(step, WarmupStepRate(cfg.warmupSteps))
  }

  /**
   * The rate a step's warmup gives every parameter group (and echoes),
   * none when it sets none.
   */
  function WarmupLrs(cfg: Config, step: nat): seq<real>
    requires WarmupDefined(cfg, step)
  {
    if WarmupFires(cfg, step) then [WarmupRate(cfg, step)] else []
  }

  /** `(step / warmup_steps) * lr`. */
  function WarmupRate(cfg: Config, step: nat): real
    requires cfg.warmupSteps > 0
  {
    CvapDp.WarmupRatio(step, cfg.warmupSteps) * cfg.lr
  }

  /**
   * A warmup step sets the configured rate times the warmup ratio, which
   * lies between 0 and 1, so the rate lies between 0 and the configured
   * rate; the warmup has at least 20 steps.
   */
  lemma WarmupLrBounded(cfg: Config, step: nat)
    requires WarmupDefined(cfg, step) && WarmupFires(cfg, step)
    ensures cfg.warmupSteps >= 20
    ensures 0.0 <= CvapDp.WarmupRatio(step, cfg.warmupSteps) <= 1.0
    ensures WarmupLrs(cfg, step) == [WarmupRate(cfg, step)]
    ensures cfg.lr >= 0.0 ==> 0.0 <= WarmupRate(cfg, step) <= cfg.lr
  {
    CvapDp.RatioAtMostOne(step, cfg.warmupSteps);
    var r := CvapDp.WarmupRatio(step, cfg.warmupSteps);
    if cfg.lr >= 0.0 {
      assert (1.0 - r) * cfg.lr >= 0.0;
      assert 0.0 <= r * cfg.lr <= cfg.lr;
    }
  }

  /** The rates the monitor divides by are positive where it divides by them. */
  predicate Ready(su: Setup)
  {
    su.cfg.saveRate >= 1 && (su.cfg.saveEpoch ==> su.dataLen >= 1) && (su.rt.rank == 0 ==> su.cfg.peepRate >= 1)
  }

  predicate ShouldLog(su: Setup, step: nat)
    requires Ready(su)
  {
    su.rt.rank == 0 && Multiple(step, su.cfg.peepRate)
  }

  predicate ShouldEvalSave(su: Setup, step: nat)
    requires Ready(su)
  {
    Multiple(step, su.cfg.saveRate) || (su.cfg.saveEpoch && Multiple(step, su.dataLen))
  }

  /** `loss.detach() < 5.`: no evaluation while the loss is that large. */
  predicate LossGate(loss: real)
  {
    loss < 5.0
  }

  predicate StepDefined(su: Setup, s: RunState, input: StepIn)
  {
    Ready(su) && WarmupDefined(su.cfg, s.totalStep) && WellFormed(input.batch)
  }

  /**
   * The lines and checkpoints of the step that leaves the counter at
   * `step + 1`, the summed loss at `total` and whose own loss is `loss`.
   */
  function Emitted(su: Setup, step: nat, total: real, iepoch: nat, loss: real): seq<Event>
    requires Ready(su) && WarmupDefined(su.cfg, step)
  {
    var n := step + 1;
    var fire := ShouldEvalSave(su, n);
    StepEvents(
      WarmupFires(su.cfg, step), WarmupLr(WarmupLrs(su.cfg, step)),
      ShouldLog(su, n), Log(iepoch, n, total / n as real),
      fire && su.hasEval && LossGate(loss), Evaluated(n),
      fire && su.rt.rank == 0, Saved(n))
  }

  /** One iteration of the `epoch` loop. */
  function StepNext(su: Setup, s: RunState, iepoch: nat, input: StepIn): (r: RunState)
    requires StepDefined(su, s, input)
    ensures r.totalStep == s.totalStep + 1
    ensures r.schedulerSteps == s.schedulerSteps
  {
    var total := s.totalLoss + input.loss;
    var rows := Rows(input.batch.audios);
    RunState(
      s.totalStep + 1,
      s.totalInst + rows * TrainChunks(su.rt),
      total,
      s.meter + [MeterEntry(input.loss, rows)],
      s.schedulerSteps,
      s.events + Emitted(su, s.totalStep, total, iepoch, input.loss))
  }

  /** A state that agrees with the step specification field by field is its result. */
  lemma StepNextFields(su: Setup, s: RunState, iepoch: nat, input: StepIn, r: RunState)
    requires StepDefined(su, s, input)
    requires r.totalStep == s.totalStep + 1 && r.totalLoss == s.totalLoss + input.loss
    requires r.totalInst == s.totalInst + Rows(input.batch.audios) * TrainChunks(su.rt)
    requires r.meter == s.meter + [MeterEntry(input.loss, Rows(input.batch.audios))]
    requires r.schedulerSteps == s.schedulerSteps
    requires r.events == s.events + Emitted(su, s.totalStep, r.totalLoss, iepoch, input.loss)
    ensures r == StepNext(su, s, iepoch, input)
  {
  }

  /** The events of a step, with the new step count named. */
  lemma EmittedWith(su: Setup, step: nat, n: nat, total: real, iepoch: nat, loss: real)
    requires Ready(su) && WarmupDefined(su.cfg, step) && n == step + 1
    ensures Emitted(su, step, total, iepoch, loss) ==
      StepEvents(
        WarmupFires(su.cfg, step), WarmupLr(WarmupLrs(su.cfg, step)),
        ShouldLog(su, n), Log(iepoch, n, total / n as real),
        ShouldEvalSave(su, n) && su.hasEval && LossGate(loss), Evaluated(n),
        ShouldEvalSave(su, n) && su.rt.rank == 0, Saved(n))
  {
  }

  predicate StepsDefined(su: Setup, s: RunState, ins: seq<StepIn>)
  {
    && (ins != [] ==> Ready(su) && WarmupDefined(su.cfg, s.totalStep))
    && forall i | 0 <= i < |ins| :: WellFormed(ins[i].batch)
  }

  /** The entries the meter is fed by the given steps, in order. */
  function Fed(ins: seq<StepIn>): (es: seq<MeterEntry>)
    requires forall i | 0 <= i < |ins| :: WellFormed(ins[i].batch)
    ensures |es| == |ins|
    ensures forall i | 0 <= i < |ins| :: WellFormed(ins[i].batch) && es[i] == MeterEntry(ins[i].loss, Rows(ins[i].batch.audios))
  {
    if ins == [] then []
    else
      var k := |ins| - 1;
      assert WellFormed(ins[k].batch);
      Fed(ins[..k]) + [MeterEntry(ins[k].loss, Rows(ins[k].batch.audios))]
  }

  /** The sum of the losses the meter was fed. */
  function SumLoss(es: seq<MeterEntry>): real
  {
    if es == [] then 0.0 else SumLoss(es[..|es| - 1]) + es[|es| - 1].loss
  }

  /**
   * The steps of one epoch, in order: the meter is fed every step, and the
   * running total grows by exactly the losses the meter is fed.
   */
  function Steps(su: Setup, s: RunState, iepoch: nat, ins: seq<StepIn>): (r: RunState)
    requires StepsDefined(su, s, ins)
    ensures r.totalStep == s.totalStep + |ins|
    ensures r.schedulerSteps == s.schedulerSteps
    ensures r.meter == s.meter + Fed(ins)
    ensures r.totalLoss == s.totalLoss + SumLoss(Fed(ins))
    decreases |ins|
  {
    if ins == [] then s
    else
      var k := |ins| - 1;
      StepNext(su, Steps(su, s, iepoch, ins[..k]), iepoch, ins[k])
  }

  /** After the batches: one scheduler step unless LARS is used, and the meter emptied. */
  function EpochEnd(su: Setup, s: RunState): RunState
  {
    s.(schedulerSteps := s.schedulerSteps + (if su.cfg.useLars then 0 else 1), meter := [])
  }

  function EpochRun(su: Setup, s: RunState, iepoch: nat, ins: seq<StepIn>): RunState
    requires StepsDefined(su, s, ins)
  {
    EpochEnd(su, Steps(su, s, iepoch, ins))
  }

  /** `learn` starts from zeroed counters and a fresh meter. */
  function Reset(s: RunState): RunState
  {
    s.(totalStep := 0, totalInst := 0, totalLoss := 0.0, meter := [])
  }

  ghost predicate EpochsDefined(su: Setup, s: RunState, run: seq<seq<StepIn>>)
  {
    && (forall e | 0 <= e < |run| :: |run[e]| == su.dataLen)
    && (forall e, i | 0 <= e < |run| && 0 <= i < |run[e]| :: WellFormed(run[e][i].batch))
    && (su.dataLen == 0 || run == [] || (Ready(su) && WarmupDefined(su.cfg, s.totalStep)))
  }

  /** The epochs of a training run, epoch `e` fed `run[e]`. */
  function Epochs(su: Setup, s: RunState, run: seq<seq<StepIn>>): (r: RunState)
    requires EpochsDefined(su, s, run)
    ensures r.totalStep == s.totalStep + |run| * su.dataLen
    decreases |run|
  {
    if run == [] then s
    else
      var k := |run| - 1;
      assert EpochsDefined(su, s, run[..k]);
      var mid := Epochs(su, s, run[..k]);
      MulNext(k, su.dataLen);
      EpochRun(su, mid, k, run[k])
  }

  /** The warmup test that is defined at one step is defined at every later step. */
  lemma WarmupDefinedLater(cfg: Config, a: nat, b: nat)
    requires WarmupDefined(cfg, a) && a <= b
    ensures WarmupDefined(cfg, b)
  {
  }

  /**
   * Step `i` of an epoch starts where the steps before it left the state,
   * can be taken from there, and extends the epoch by one step.
   */
  lemma StepStart(su: Setup, s: RunState, iepoch: nat, ins: seq<StepIn>, i: nat)
    requires StepsDefined(su, s, ins) && i < |ins|
    ensures StepsDefined(su, s, ins[..i]) && StepsDefined(su, s, ins[..i + 1])
    ensures StepDefined(su, Steps(su, s, iepoch, ins[..i]), ins[i])
    ensures Steps(su, s, iepoch, ins[..i + 1]) == StepNext(su, Steps(su, s, iepoch, ins[..i]), iepoch, ins[i])
  {
    assert StepsDefined(su, s, ins[..i]);
    assert StepsDefined(su, s, ins[..i + 1]);
    assert ins[..i + 1][..i] == ins[..i];
    WarmupDefinedLater(su.cfg, s.totalStep, Steps(su, s, iepoch, ins[..i]).totalStep);
  }

  /** The steps before the last one, and the last one applied to their result. */
  lemma StepsSplit(su: Setup, s: RunState, iepoch: nat, ins: seq<StepIn>)
    requires StepsDefined(su, s, ins) && ins != []
    ensures var k := |ins| - 1;
      && StepsDefined(su, s, ins[..k])
      && StepDefined(su, Steps(su, s, iepoch, ins[..k]), ins[k])
      && Steps(su, s, iepoch, ins) == StepNext(su, Steps(su, s, iepoch, ins[..k]), iepoch, ins[k])
  {
    var k := |ins| - 1;
    assert StepsDefined(su, s, ins[..k]);
    WarmupDefinedLater(su.cfg, s.totalStep, Steps(su, s, iepoch, ins[..k]).totalStep);
  }

  /**
   * Epoch `e` of a run starts where the epochs before it left the state,
   * its steps can be taken from there, and it extends the run by one epoch.
   */
  lemma EpochStart(su: Setup, s: RunState, run: seq<seq<StepIn>>, e: nat)
    requires EpochsDefined(su, s, run) && e < |run|
    ensures EpochsDefined(su, s, run[..e]) && EpochsDefined(su, s, run[..e + 1])
    ensures StepsDefined(su, Epochs(su, s, run[..e]), run[e])
    ensures Epochs(su, s, run[..e + 1]) == EpochRun(su, Epochs(su, s, run[..e]), e, run[e])
  {
    assert EpochsDefined(su, s, run[..e]);
    assert EpochsDefined(su, s, run[..e + 1]);
    assert run[..e + 1][..e] == run[..e];
    var mid := Epochs(su, s, run[..e]);
    if su.dataLen > 0 {
      MulSign(su.dataLen, e);
      WarmupDefinedLater(su.cfg, s.totalStep, mid.totalStep);
    }
  }

  class Monitor {
    const cfg: Config
    const rt: Runtime
    const dataLen: nat                        // `len(self.dataloader)`
    const evalLoader: Option<seq<RawBatch>>   // `self.evalloader`
    var training: bool                        // `self.model.training`
    var params: seq<NamedParam>               // `self.model.named_parameters()`
    var groups: seq<seq<Tensor>>              // the optimizer's parameter groups
    var milestones: Option<seq<nat>>          // the step scheduler's milestones, when there is one
    var totalStep: nat
    var totalInst: nat
    var totalLoss: real
    var meter: seq<MeterEntry>                // `self.ast_loss`: what it was fed since its last reset
    var schedulerSteps: nat                   // calls of `scheduler.step()`
    var events: seq<Event>

    function Settings(): Setup
    {
      Setup(cfg, rt, dataLen, evalLoader.Some?)
    }

    function State(): RunState
      reads this`totalStep, this`totalInst, this`totalLoss, this`meter, this`schedulerSteps, this`events
    {
      RunState(totalStep, totalInst, totalLoss, meter, schedulerSteps, events)
    }

    ghost predicate Valid()
    {
      evalLoader.Some? ==> forall i | 0 <= i < |evalLoader.value| :: WellFormed(evalLoader.value[i])
    }

    /**
     * The optimizer built from the parameters `named` and the tunable
     * dictionary: every parameter whose key (without the DDP wrapper's
     * "module." prefix) is not tunable is frozen, the tunable tensors are
     * split into the matrix group and the vector group, and without LARS
     * the rate halves at the milestone epochs.
     */
    ghost predicate OptimizerBuilt(named: seq<NamedParam>, tunable: seq<Tunable>)
      reads this`params, this`groups, this`milestones
    {
      && FrozenUntunable(named, params, Names(tunable), DdpRule(rt.distributed))
      && groups == [Matrices(Values(tunable)), NonMatrices(Values(tunable))]
      && milestones == (if cfg.useLars then None else Some(Milestones(cfg.steps, cfg.epochs)))
    }

    /**
     * `__init__`: unless only the audio statistics are wanted, the model is
     * put in training mode exactly when not evaluating and the optimizer is
     * built from the model's tunable dictionary.
     */
    constructor (cfg: Config, rt: Runtime, dataLen: nat, evalLoader: Option<seq<RawBatch>>,
                 named: seq<NamedParam>, tunable: seq<Tunable>)
      requires evalLoader.Some? ==> forall i | 0 <= i < |evalLoader.value| :: WellFormed(evalLoader.value[i])
      ensures Valid()
      ensures this.cfg == cfg && this.rt == rt && this.dataLen == dataLen && this.evalLoader == evalLoader
      ensures training == (!cfg.evalNorms && !cfg.eval)
      ensures !training ==> params == named && groups == [] && milestones == None
      ensures training ==> OptimizerBuilt(named, tunable)
      ensures State() == RunState(0, 0, 0.0, [], 0, [])
    {
      this.cfg := cfg;
      this.rt := rt;
      this.dataLen := dataLen;
      this.evalLoader := evalLoader;
      // `self.model.train(not cfg.eval)`
      training := !cfg.evalNorms && !cfg.eval;
      params := named;
      groups := [];
      milestones := None;
      totalStep, totalInst, totalLoss, meter, schedulerSteps, events := 0, 0, 0.0, [], 0, [];
      new;
      if !cfg.evalNorms {
        BuildOptimizer(tunable);
      }
    }

    /**
     * `build_optimizer`: nothing happens outside training; otherwise the
     * untunable parameters are frozen, the two groups are formed, and a
     * step scheduler with the milestones is created unless LARS is used.
     */
    method BuildOptimizer(tunable: seq<Tunable>)
      modifies this`params, this`groups, this`milestones
      ensures !training ==> params == old(params) && groups == old(groups) && milestones == old(milestones)
      ensures training ==> OptimizerBuilt(old(params), tunable)
    {
      if !training {
        return;
      }
      var values := Values(tunable);
      params := FreezeUntunable(params, Names(tunable), DdpRule(rt.distributed));
      groups := [Matrices(values), NonMatrices(values)];
      if cfg.useLars {
        milestones := None;
      } else {
        milestones := Some(Milestones(cfg.steps, cfg.epochs));
      }
    }

    /** `infer`: a sample-bounded pass over `loader`, counting `num_gpus` chunks per batch under DDP. */
    method Infer(loader: seq<RawBatch>, samples: Samples) returns (p: Inference.Pass)
      requires forall i | 0 <= i < |loader| :: WellFormed(loader[i])
      ensures Inference.StopsAtBound(BatchSizes(loader), EvalChunks(rt), samples, rt.rank, p)
    {
      p := Inference.BoundedPass(BatchSizes(loader), samples, EvalChunks(rt), rt.rank);
    }

    /** `save`: the checkpoint named after the zero-padded step, in the model's directory. */
    method Save() returns (path: string)
      modifies this`events
      ensures path == Checkpoints.CheckpointPath(cfg.aliasRoot, cfg.modelName, totalStep)
      ensures events == old(events) + [Saved(totalStep)]
    {
      path := cfg.aliasRoot + "/" + cfg.modelName + "/" + Checkpoints.Pad8(totalStep) + ".pth";
      events := events + [Saved(totalStep)];
    }

    /**
     * The warmup block of a step: at every warmup step rate, while the step
     * counter is within the warmup, every group's rate becomes the warmup
     * ratio times the configured rate, and the rate is logged.
     */
    method Warmup()
      requires WarmupDefined(cfg, totalStep)
      modifies this`events
      ensures events == old(events) + When(WarmupFires(cfg, totalStep), WarmupLr(WarmupLrs(cfg, totalStep)))
    {
      if cfg.warmup && totalStep <= cfg.warmupSteps {
        MultipleMod(totalStep, WarmupStepRate(cfg.warmupSteps));
        if totalStep % WarmupStepRate(cfg.warmupSteps) == 0 {
          var lr := (totalStep as real / cfg.warmupSteps as real) * cfg.lr;
          // every parameter group's rate becomes `lr`
          assert lr == WarmupRate(cfg, totalStep);
          events := events + [WarmupLr([lr])];
        }
      }
    }

    /**
     * The counters after a batch: one more step, its loss, its samples over
     * all processes; the meter is fed the loss and the batch size.
     */
    method Tally(input: StepIn)
      requires WellFormed(input.batch)
      modifies this`totalStep, this`totalInst, this`totalLoss, this`meter
      ensures totalStep == old(totalStep) + 1 && totalLoss == old(totalLoss) + input.loss
      ensures totalInst == old(totalInst) + Rows(input.batch.audios) * TrainChunks(rt)
      ensures meter == old(meter) + [MeterEntry(input.loss, Rows(input.batch.audios))]
    {
      var b := MakeBatch(input.batch);
      totalStep := totalStep + 1;
      totalLoss := totalLoss + input.loss;
      totalInst := totalInst + Rows(b.audios) * TrainChunks(rt);
      meter := meter + [MeterEntry(input.loss, Rows(b.audios))];
    }

    /** The log line: on rank 0 at every multiple of the peep rate. */
    method LogLine(iepoch: nat)
      requires Ready(Settings()) && totalStep >= 1
      modifies this`events
      ensures events == old(events)
        + When(ShouldLog(Settings(), totalStep), Log(iepoch, totalStep, totalLoss / totalStep as real))
    {
      if rt.rank == 0 {
        MultipleMod(totalStep, cfg.peepRate);
        if totalStep % cfg.peepRate == 0 {
          events := events + [Log(iepoch, totalStep, totalLoss / totalStep as real)];
        }
      }
    }

    /**
     * Evaluation and checkpointing at every multiple of the save rate or
     * (if asked for) at every epoch boundary: evaluation only with an
     * evaluation loader and a loss below 5, the checkpoint on rank 0.
     */
    method EvalSave(loss: real)
      requires Valid() && training && Ready(Settings())
      modifies this`events, this`training
      ensures training
      ensures events == old(events)
        + When(ShouldEvalSave(Settings(), totalStep) && evalLoader.Some? && LossGate(loss), Evaluated(totalStep))
        + When(ShouldEvalSave(Settings(), totalStep) && rt.rank == 0, Saved(totalStep))
    {
      MultipleMod(totalStep, cfg.saveRate);
      if cfg.saveEpoch {
        MultipleMod(totalStep, dataLen);
      }
      var fire := totalStep % cfg.saveRate == 0 || (cfg.saveEpoch && totalStep % dataLen == 0);
      if fire && evalLoader.Some? && loss < 5.0 {
        var pass := Evaluate();
      }
      if fire && rt.rank == 0 {
        var path := Save();
      }
    }

    /**
     * The evaluation inside training: a sample-bounded pass over the
     * evaluation loader in evaluation mode, after which training resumes.
     */
    method Evaluate() returns (pass: Inference.Pass)
      requires Valid() && training && evalLoader.Some?
      modifies this`events, this`training
      ensures training
      ensures Inference.StopsAtBound(BatchSizes(evalLoader.value), EvalChunks(rt), cfg.evalSamples, rt.rank, pass)
      ensures events == old(events) + [Evaluated(totalStep)]
    {
      training := false;
      pass := Infer(evalLoader.value, cfg.evalSamples);
      training := true;
      events := events + [Evaluated(totalStep)];
    }

    /** One iteration of the `epoch` loop. */
    method Step(iepoch: nat, input: StepIn)
      requires Valid() && training && StepDefined(Settings(), State(), input)
      modifies this`totalStep, this`totalInst, this`totalLoss, this`meter, this`events, this`training
      ensures training
      ensures State() == StepNext(Settings(), old(State()), iepoch, input)
    {
      ghost var s0 := State();
      Warmup();
      // forward, backward and the optimizer update are not modelled
      Tally(input);
      LogLine(iepoch);
      EvalSave(input.loss);
      ghost var su := Settings();
      StepEventsAppend(s0.events,
        WarmupFires(cfg, s0.totalStep), WarmupLr(WarmupLrs(cfg, s0.totalStep)),
        ShouldLog(su, totalStep), Log(iepoch, totalStep, totalLoss / totalStep as real),
        ShouldEvalSave(su, totalStep) && su.hasEval && LossGate(input.loss), Evaluated(totalStep),
        ShouldEvalSave(su, totalStep) && rt.rank == 0, Saved(totalStep));
      EmittedWith(su, s0.totalStep, totalStep, totalLoss, iepoch, input.loss);
      StepNextFields(su, s0, iepoch, input, State());
    }

    /** `epoch`: the steps over one pass of the loader, then the scheduler step and the meter reset. */
    method Epoch(iepoch: nat, ins: seq<StepIn>)
      requires Valid() && training && StepsDefined(Settings(), State(), ins)
      modifies this`totalStep, this`totalInst, this`totalLoss, this`meter, this`schedulerSteps, this`events, this`training
      ensures training
      ensures State() == EpochRun(Settings(), old(State()), iepoch, ins)
    {
      RunSteps(iepoch, ins);
      EndEpoch();
    }

    /** The batch loop of `epoch`. */
    method RunSteps(iepoch: nat, ins: seq<StepIn>)
      requires Valid() && training && StepsDefined(Settings(), State(), ins)
      modifies this`totalStep, this`totalInst, this`totalLoss, this`meter, this`events, this`training
      ensures training
      ensures State() == Steps(Settings(), old(State()), iepoch, ins)
    {
      ghost var s0 := State();
      assert ins[..0] == [];
      for i := 0 to |ins|
        invariant training
        invariant StepsDefined(Settings(), s0, ins[..i])
        invariant State() == Steps(Settings(), s0, iepoch, ins[..i])
      {
        StepStart(Settings(), s0, iepoch, ins, i);
        Step(iepoch, ins[i]);
      }
      assert ins[..|ins|] == ins;
    }

    /** After the batches: the scheduler steps once unless LARS is used, and the meter is reset. */
    method EndEpoch()
      modifies this`schedulerSteps, this`meter
      ensures State() == EpochEnd(Settings(), old(State()))
    {
      if !cfg.useLars {
        schedulerSteps := schedulerSteps + 1;
      }
      meter := [];
    }

    /**
     * `learn`: nothing when only statistics are computed; one inference
     * pass over the main loader in evaluation mode; otherwise the counters
     * and the meter are reset and `epochs` epochs are run.
     */
    method Learn(run: seq<seq<StepIn>>, loader: seq<RawBatch>) returns (pass: Option<Inference.Pass>)
      requires Valid()
      requires !cfg.evalNorms && !training ==> forall i | 0 <= i < |loader| :: WellFormed(loader[i])
      requires !cfg.evalNorms && training ==>
        |run| == cfg.epochs && EpochsDefined(Settings(), Reset(State()), run)
      modifies this`totalStep, this`totalInst, this`totalLoss, this`meter, this`schedulerSteps, this`events, this`training
      ensures cfg.evalNorms ==> pass == None && State() == old(State()) && training == old(training)
      ensures !cfg.evalNorms && !old(training) ==>
        && pass.Some?
        && Inference.StopsAtBound(BatchSizes(loader), EvalChunks(rt), cfg.evalSamples, rt.rank, pass.value)
        && State() == old(State()) && !training
      ensures !cfg.evalNorms && old(training) ==>
        pass == None && training && State() == Epochs(Settings(), Reset(old(State())), run)
    {
      if cfg.evalNorms {
        return None;
      }
      if !training {
        var p := Infer(loader, cfg.evalSamples);
        return Some(p);
      }
      Train(run);
      pass := None;
    }

    /** The training branch of `learn`: counters and meter reset, then `epochs` epochs. */
    method Train(run: seq<seq<StepIn>>)
      requires Valid() && training && EpochsDefined(Settings(), Reset(State()), run)
      modifies this`totalStep, this`totalInst, this`totalLoss, this`meter, this`schedulerSteps, this`events, this`training
      ensures training && State() == Epochs(Settings(), Reset(old(State())), run)
    {
      meter := [];
      totalLoss, totalStep, totalInst := 0.0, 0, 0;
      ghost var s0 := State();
      assert run[..0] == [];
      for e := 0 to |run|
        invariant training
        invariant EpochsDefined(Settings(), s0, run[..e])
        invariant State() == Epochs(Settings(), s0, run[..e])
      {
        EpochStart(Settings(), s0, run, e);
        Epoch(e, run[e]);
      }
      assert run[..|run|] == run;
    }
  }

  // ----- properties of the step specification -----

  /** The optional events of one step, each counted exactly when its condition holds. */
  lemma EmittedCounts(su: Setup, step: nat, total: real, iepoch: nat, loss: real)
    requires Ready(su) && WarmupDefined(su.cfg, step)
    ensures var es := Emitted(su, step, total, iepoch, loss);
      var fire := ShouldEvalSave(su, step + 1);
      && Count(es, WarmupKind) == (if WarmupFires(su.cfg, step) then 1 else 0)
      && Count(es, LogKind) == (if su.rt.rank == 0 && Multiple(step + 1, su.cfg.peepRate) then 1 else 0)
      && Count(es, EvalKind) == (if fire && su.hasEval && LossGate(loss) then 1 else 0)
      && Count(es, SaveKind) == (if fire && su.rt.rank == 0 then 1 else 0)
  {
    var n := step + 1;
    var fire := ShouldEvalSave(su, n);
    var warm, log, eval, save := WarmupFires(su.cfg, step), ShouldLog(su, n), fire && su.hasEval && LossGate(loss), fire && su.rt.rank == 0;
    var e1, e2, e3, e4 := WarmupLr(WarmupLrs(su.cfg, step)), Log(iepoch, n, total / n as real), Evaluated(n), Saved(n);
    assert Emitted(su, step, total, iepoch, loss) == StepEvents(warm, e1, log, e2, eval, e3, save, e4);
    CountStepEvents(warm, e1, log, e2, eval, e3, save, e4);
  }

  /** A step adds a log line exactly at a multiple of the peep rate on rank 0. */
  lemma StepLog(su: Setup, s: RunState, iepoch: nat, input: StepIn)
    requires StepDefined(su, s, input)
    ensures Count(StepNext(su, s, iepoch, input).events, LogKind) ==
      Count(s.events, LogKind) + (if su.rt.rank == 0 && Multiple(s.totalStep + 1, su.cfg.peepRate) then 1 else 0)
  {
    var r := StepNext(su, s, iepoch, input);
    var es := Emitted(su, s.totalStep, r.totalLoss, iepoch, input.loss);
    assert r.events == s.events + es;
    EmittedCounts(su, s.totalStep, r.totalLoss, iepoch, input.loss);
    assert Count(es, LogKind) == (if su.rt.rank == 0 && Multiple(s.totalStep + 1, su.cfg.peepRate) then 1 else 0);
    CountConcat(s.events, es, LogKind);
  }

  /** A step saves exactly when evaluation and saving are due, on rank 0. */
  lemma StepSave(su: Setup, s: RunState, iepoch: nat, input: StepIn)
    requires StepDefined(su, s, input)
    ensures Count(StepNext(su, s, iepoch, input).events, SaveKind) ==
      Count(s.events, SaveKind) + (if su.rt.rank == 0 && ShouldEvalSave(su, s.totalStep + 1) then 1 else 0)
  {
    var r := StepNext(su, s, iepoch, input);
    var es := Emitted(su, s.totalStep, r.totalLoss, iepoch, input.loss);
    assert r.events == s.events + es;
    EmittedCounts(su, s.totalStep, r.totalLoss, iepoch, input.loss);
    assert Count(es, SaveKind) == (if su.rt.rank == 0 && ShouldEvalSave(su, s.totalStep + 1) then 1 else 0);
    CountConcat(s.events, es, SaveKind);
  }

  /** A step evaluates exactly when evaluation is due, there is an evaluation loader and its loss is below 5. */
  lemma StepEval(su: Setup, s: RunState, iepoch: nat, input: StepIn)
    requires StepDefined(su, s, input)
    ensures Count(StepNext(su, s, iepoch, input).events, EvalKind) ==
      Count(s.events, EvalKind) + (if su.hasEval && ShouldEvalSave(su, s.totalStep + 1) && LossGate(input.loss) then 1 else 0)
  {
    var r := StepNext(su, s, iepoch, input);
    var es := Emitted(su, s.totalStep, r.totalLoss, iepoch, input.loss);
    assert r.events == s.events + es;
    EmittedCounts(su, s.totalStep, r.totalLoss, iepoch, input.loss);
    assert Count(es, EvalKind) == (if su.hasEval && ShouldEvalSave(su, s.totalStep + 1) && LossGate(input.loss) then 1 else 0);
    CountConcat(s.events, es, EvalKind);
  }

  /** The steps in `start+1 .. start+n` at which evaluation and saving are due. */
  function DueSteps(su: Setup, start: nat, n: nat): (m: nat)
    requires Ready(su)
    ensures m <= n
  {
    if n == 0 then 0
    else DueSteps(su, start, n - 1) + (if ShouldEvalSave(su, start + n) then 1 else 0)
  }

  /** The due steps among `ins` (taken from step `start`) whose loss is below 5. */
  function CalmDue(su: Setup, start: nat, ins: seq<StepIn>): (m: nat)
    requires Ready(su)
    ensures m <= DueSteps(su, start, |ins|)
  {
    if ins == [] then 0
    else
      var k := |ins| - 1;
      CalmDue(su, start, ins[..k]) + (if ShouldEvalSave(su, start + |ins|) && LossGate(ins[k].loss) then 1 else 0)
  }

  /**
   * The loss gate only removes evaluations: all due steps evaluate when
   * every loss is below 5, and none does when every loss is 5 or more.
   */
  lemma {:induction false} CalmDueBounds(su: Setup, start: nat, ins: seq<StepIn>)
    requires Ready(su)
    ensures (forall i | 0 <= i < |ins| :: LossGate(ins[i].loss)) ==> CalmDue(su, start, ins) == DueSteps(su, start, |ins|)
    ensures (forall i | 0 <= i < |ins| :: !LossGate(ins[i].loss)) ==> CalmDue(su, start, ins) == 0
    decreases |ins|
  {
    if ins != [] {
      var k := |ins| - 1;
      assert forall i | 0 <= i < k :: ins[..k][i] == ins[i];
      CalmDueBounds(su, start, ins[..k]);
    }
  }

  /** Without per-epoch saving, evaluation and saving are due exactly at the multiples of the save rate. */
  lemma {:induction false} DueAtSaveRate(su: Setup, start: nat, n: nat)
    requires Ready(su) && !su.cfg.saveEpoch
    ensures DueSteps(su, start, n) == MultiplesAfter(start, n, su.cfg.saveRate)
  {
    if n > 0 {
      DueAtSaveRate(su, start, n - 1);
    }
  }

  /** Rank 0 logs once for every multiple of the peep rate among the steps taken; other ranks never log. */
  lemma {:induction false} LogCount(su: Setup, s: RunState, iepoch: nat, ins: seq<StepIn>)
    requires Ready(su) && StepsDefined(su, s, ins)
    ensures Count(Steps(su, s, iepoch, ins).events, LogKind) ==
      Count(s.events, LogKind) + (if su.rt.rank == 0 then MultiplesAfter(s.totalStep, |ins|, su.cfg.peepRate) else 0)
    decreases |ins|
  {
    if ins != [] {
      var k := |ins| - 1;
      StepsSplit(su, s, iepoch, ins);
      LogCount(su, s, iepoch, ins[..k]);
      var mid := Steps(su, s, iepoch, ins[..k]);
      StepLog(su, mid, iepoch, ins[k]);
      if su.rt.rank == 0 {
        MultiplesAfterLast(s.totalStep, |ins|, su.cfg.peepRate, mid.totalStep + 1);
      }
    }
  }

  /** Rank 0 saves once for every due step; other ranks never save. */
  lemma {:induction false} SaveCount(su: Setup, s: RunState, iepoch: nat, ins: seq<StepIn>)
    requires Ready(su) && StepsDefined(su, s, ins)
    ensures Count(Steps(su, s, iepoch, ins).events, SaveKind) ==
      Count(s.events, SaveKind) + (if su.rt.rank == 0 then DueSteps(su, s.totalStep, |ins|) else 0)
    decreases |ins|
  {
    if ins != [] {
      var k := |ins| - 1;
      StepsSplit(su, s, iepoch, ins);
      SaveCount(su, s, iepoch, ins[..k]);
      var mid := Steps(su, s, iepoch, ins[..k]);
      StepSave(su, mid, iepoch, ins[k]);
      assert mid.totalStep + 1 == s.totalStep + |ins|;
      assert DueSteps(su, s.totalStep, |ins|) ==
        DueSteps(su, s.totalStep, k) + (if ShouldEvalSave(su, mid.totalStep + 1) then 1 else 0);
    }
  }

  /**
   * Every rank with an evaluation loader evaluates once for every due
   * step whose loss is below 5; without one, it never evaluates.
   */
  lemma {:induction false} EvalCount(su: Setup, s: RunState, iepoch: nat, ins: seq<StepIn>)
    requires Ready(su) && StepsDefined(su, s, ins)
    ensures Count(Steps(su, s, iepoch, ins).events, EvalKind) ==
      Count(s.events, EvalKind) + (if su.hasEval then CalmDue(su, s.totalStep, ins) else 0)
    decreases |ins|
  {
    if ins != [] {
      var k := |ins| - 1;
      StepsSplit(su, s, iepoch, ins);
      EvalCount(su, s, iepoch, ins[..k]);
      var mid := Steps(su, s, iepoch, ins[..k]);
      StepEval(su, mid, iepoch, ins[k]);
      assert mid.totalStep + 1 == s.totalStep + |ins|;
      assert CalmDue(su, s.totalStep, ins) ==
        CalmDue(su, s.totalStep, ins[..k]) + (if ShouldEvalSave(su, mid.totalStep + 1) && LossGate(ins[k].loss) then 1 else 0);
    }
  }

  /**
   * One epoch of 10 batches from a fresh run on rank 0 with an evaluation
   * loader, peep rate 5, save rate 10 and every loss below 5: two log
   * lines, one evaluation and one checkpoint.
   */
  lemma TenBatchEpoch(su: Setup, s: RunState, ins: seq<StepIn>)
    requires Ready(su) && StepsDefined(su, s, ins)
    requires su.rt.rank == 0 && su.hasEval && su.cfg.peepRate == 5 && su.cfg.saveRate == 10 && !su.cfg.saveEpoch
    requires s.totalStep == 0 && s.events == [] && |ins| == 10
    requires forall i | 0 <= i < |ins| :: LossGate(ins[i].loss)
    ensures Count(Steps(su, s, 0, ins).events, LogKind) == 2
    ensures Count(Steps(su, s, 0, ins).events, EvalKind) == 1
    ensures Count(Steps(su, s, 0, ins).events, SaveKind) == 1
  {
    LogCount(su, s, 0, ins);
    SaveCount(su, s, 0, ins);
    EvalCount(su, s, 0, ins);
    CalmDueBounds(su, 0, ins);
    DueAtSaveRate(su, 0, 10);
    MultiplesAfterClosedForm(0, 10, 5);
    MultiplesAfterClosedForm(0, 10, 10);
  }

  /** Each epoch steps the scheduler once, unless LARS is used. */
  lemma {:induction false} EpochSchedulerSteps(su: Setup, s: RunState, run: seq<seq<StepIn>>)
    requires EpochsDefined(su, s, run)
    ensures Epochs(su, s, run).schedulerSteps == s.schedulerSteps + (if su.cfg.useLars then 0 else |run|)
    decreases |run|
  {
    if run != [] {
      var k := |run| - 1;
      EpochStart(su, s, run, k);
      assert run[..k + 1] == run;
      EpochSchedulerSteps(su, s, run[..k]);
    }
  }
}

/**
 * The single-process image-audio monitor (`cvap/cvap.py`): it builds the
 * three heads, declares the audio and loss heads tunable, freezes every
 * other parameter, and trains for at most four epochs, logging and saving
 * at fixed step rates and clipping gradients when a norm bound is set.
 *
 * A step's loss is an input, as are the heads' parameters and state
 * dictionaries; the tensors' contents are outside the model.
 */
module Cvap {
  import opened Common
  import opened Trace
  import opened Multiples
  import Checkpoints
  import opened ParamSelect

  /** The configuration entries the monitor reads. */
  datatype Config = Config(
    eval: bool,          // load a trained model instead of training one
    peepRate: nat,       // log every `peepRate` steps
    saveRate: nat,       // save every `saveRate` steps
    epochs: nat,
    maxNorm: real,       // gradient norm bound; clipping is off unless positive
    modelRoot: string,
    modelName: string)

  /** A batch as the loader yields it: images and audios. */
  datatype RawBatch = RawBatch(images: Tensor, audios: Tensor)

  /** Both tensors have a batch axis. */
  predicate WellFormed(b: RawBatch)
  {
    |b.images.shape| >= 1 && |b.audios.shape| >= 1
  }

  /** `make_batch`: the images pass through; the audio gets a channel axis of length 1 after the batch axis. */
  function MakeBatch(b: RawBatch): (r: RawBatch)
    requires WellFormed(b)
    ensures r.images == b.images
    ensures |r.audios.shape| == |b.audios.shape| + 1
    ensures r.audios.shape[0] == b.audios.shape[0] && r.audios.shape[1] == 1
    ensures forall i | 1 <= i < |b.audios.shape| :: r.audios.shape[i + 1] == b.audios.shape[i]
    ensures WellFormed(r)
  {
    RawBatch(b.images, Unsqueeze1(b.audios))
  }

  const ImageHead: string := "image_head"
  const AudioHead: string := "audio_head"
  const LossHead: string := "loss_head"

  /** `{f"{head}.{k}": v for k, v in sd.items()}`. */
  function Qualified(head: string, sd: seq<Tunable>): (ts: seq<Tunable>)
    ensures |ts| == |sd|
    ensures forall i | 0 <= i < |sd| :: ts[i] == Tunable(Key(Under(head), sd[i].name), sd[i].value)
  {
    if sd == [] then []
    else
      var k := |sd| - 1;
      Qualified(head, sd[..k]) + [Tunable(Key(Under(head), sd[k].name), sd[k].value)]
  }

  /**
   * The tunable dictionary `build_model` returns: empty in evaluation
   * mode, otherwise the audio head's and then the loss head's state
   * dictionary entries, qualified by their head.
   */
  function TunableParams(eval: bool, audioSd: seq<Tunable>, lossSd: seq<Tunable>): seq<Tunable>
  {
    if eval then [] else Qualified(AudioHead, audioSd) + Qualified(LossHead, lossSd)
  }

  /** Keys qualified by different heads differ, and a head's qualification is injective. */
  lemma QualifiedKeys(h1: string, k1: string, h2: string, k2: string)
    requires h1 in {ImageHead, AudioHead, LossHead} && h2 in {ImageHead, AudioHead, LossHead}
    ensures Key(Under(h1), k1) == Key(Under(h2), k2) <==> h1 == h2 && k1 == k2
  {
    var a, b := Key(Under(h1), k1), Key(Under(h2), k2);
    if a == b {
      assert a[0] == b[0];
      assert h1 == h2;
      assert k1 == a[|h1| + 1..] == b[|h2| + 1..] == k2;
    }
  }

  /** A qualified key is in a head's qualified dictionary exactly when the head matches and the key is in the head's own. */
  lemma QualifiedMember(head: string, sd: seq<Tunable>, h: string, k: string)
    requires head in {ImageHead, AudioHead, LossHead} && h in {ImageHead, AudioHead, LossHead}
    ensures Key(Under(h), k) in Names(Qualified(head, sd)) <==> h == head && k in Names(sd)
  {
    var q := Qualified(head, sd);
    if Key(Under(h), k) in Names(q) {
      var i :| 0 <= i < |q| && q[i].name == Key(Under(h), k);
      QualifiedKeys(head, sd[i].name, h, k);
    }
    if h == head && k in Names(sd) {
      var i :| 0 <= i < |sd| && sd[i].name == k;
      assert q[i].name == Key(Under(h), k);
    }
  }

  lemma NamesConcat(a: seq<Tunable>, b: seq<Tunable>)
    ensures Names(a + b) == Names(a) + Names(b)
  {
    forall n | n in Names(a + b) ensures n in Names(a) + Names(b) {
      var i :| 0 <= i < |a + b| && (a + b)[i].name == n;
      if i >= |a| {
        assert b[i - |a|].name == n;
      }
    }
    forall n | n in Names(a) ensures n in Names(a + b) {
      var i :| 0 <= i < |a| && a[i].name == n;
      assert (a + b)[i].name == n;
    }
    forall n | n in Names(b) ensures n in Names(a + b) {
      var i :| 0 <= i < |b| && b[i].name == n;
      assert (a + b)[|a| + i].name == n;
    }
  }

  /**
   * In training mode a parameter `k` of a head is tunable exactly when
   * the head is the audio head and `k` is in its state dictionary, or the
   * loss head and `k` is in its state dictionary; the image head is never
   * tunable. In evaluation mode nothing is tunable.
   */
  lemma TunableSelection(eval: bool, audioSd: seq<Tunable>, lossSd: seq<Tunable>, k: string)
    ensures Key(Under(ImageHead), k) !in Names(TunableParams(eval, audioSd, lossSd))
    ensures Key(Under(AudioHead), k) in Names(TunableParams(eval, audioSd, lossSd)) <==> !eval && k in Names(audioSd)
    ensures Key(Under(LossHead), k) in Names(TunableParams(eval, audioSd, lossSd)) <==> !eval && k in Names(lossSd)
    ensures eval ==> Names(TunableParams(eval, audioSd, lossSd)) == {}
  {
    if !eval {
      var qa, ql := Qualified(AudioHead, audioSd), Qualified(LossHead, lossSd);
      NamesConcat(qa, ql);
      QualifiedMember(AudioHead, audioSd, ImageHead, k);
      QualifiedMember(LossHead, lossSd, ImageHead, k);
      QualifiedMember(AudioHead, audioSd, AudioHead, k);
      QualifiedMember(LossHead, lossSd, AudioHead, k);
      QualifiedMember(AudioHead, audioSd, LossHead, k);
      QualifiedMember(LossHead, lossSd, LossHead, k);
    }
  }

  /** `learn` runs at most four epochs: the loop breaks after epoch 3. */
  function EpochCap(epochs: nat): (n: nat)
    ensures n <= 4 && n <= epochs
    ensures n == 4 || n == epochs
  {
    if epochs < 4 then epochs else 4
  }

  /** One training step's inputs. */
  datatype StepIn = StepIn(batch: RawBatch, loss: real)

  /** The counters and the output a training run accumulates. */
  datatype RunState = RunState(totalStep: nat, totalInst: nat, totalLoss: real, events: seq<Event>)

  /** Both rates are positive: the source takes the step counter modulo each of them at every step. */
  predicate Ready(cfg: Config)
  {
    cfg.peepRate >= 1 && cfg.saveRate >= 1
  }

  /**
   * The events of the step that leaves the counter at `n` and the summed
   * loss at `total`: the clipping, a log line at every multiple of the
   * peep rate (on every process), a checkpoint at every multiple of the
   * save rate.
   */
  function Emitted(cfg: Config, n: nat, total: real, iepoch: nat): seq<Event>
    requires Ready(cfg) && n >= 1
  {
    When(cfg.maxNorm > 0.0, Clipped(n))
      + When(Multiple(n, cfg.peepRate), Log(iepoch, n, total / n as real))
      + When(Multiple(n, cfg.saveRate), Saved(n))
  }

  /** One iteration of the `epoch` loop. */
  function StepNext(cfg: Config, s: RunState, iepoch: nat, input: StepIn): (r: RunState)
    requires Ready(cfg) && WellFormed(input.batch)
    ensures r.totalStep == s.totalStep + 1
    ensures r.totalInst == s.totalInst + Rows(input.batch.images)
    ensures r.totalLoss == s.totalLoss + input.loss
  {
    var total := s.totalLoss + input.loss;
    RunState(
      s.totalStep + 1,
      s.totalInst + Rows(MakeBatch(input.batch).images),
      total,
      s.events + Emitted(cfg, s.totalStep + 1, total, iepoch))
  }

  /** A state that agrees with the step specification field by field is its result. */
  lemma StepNextFields(cfg: Config, s: RunState, iepoch: nat, input: StepIn, r: RunState)
    requires Ready(cfg) && WellFormed(input.batch)
    requires r.totalStep == s.totalStep + 1 && r.totalLoss == s.totalLoss + input.loss
    requires r.totalInst == s.totalInst + Rows(input.batch.images)
    requires r.events == s.events + When(cfg.maxNorm > 0.0, Clipped(r.totalStep))
      + When(Multiple(r.totalStep, cfg.peepRate), Log(iepoch, r.totalStep, r.totalLoss / r.totalStep as real))
      + When(Multiple(r.totalStep, cfg.saveRate), Saved(r.totalStep))
    ensures r == StepNext(cfg, s, iepoch, input)
  {
  }

  predicate StepsDefined(cfg: Config, ins: seq<StepIn>)
  {
    (ins != [] ==> Ready(cfg)) && forall i | 0 <= i < |ins| :: WellFormed(ins[i].batch)
  }

  /** The steps of one epoch, in order. */
  function Steps(cfg: Config, s: RunState, iepoch: nat, ins: seq<StepIn>): (r: RunState)
    requires StepsDefined(cfg, ins)
    ensures r.totalStep == s.totalStep + |ins|
    decreases |ins|
  {
    if ins == [] then s
    else
      var k := |ins| - 1;
      assert StepsDefined(cfg, ins[..k]);
      StepNext(cfg, Steps(cfg, s, iepoch, ins[..k]), iepoch, ins[k])
  }

  /** Training starts from zeroed counters. */
  function Reset(s: RunState): RunState
  {
    s.(totalStep := 0, totalInst := 0, totalLoss := 0.0)
  }

  predicate EpochsDefined(cfg: Config, run: seq<seq<StepIn>>)
  {
    forall e | 0 <= e < |run| :: StepsDefined(cfg, run[e])
  }

  /** The epochs of a training run, epoch `e` fed `run[e]`. */
  function Epochs(cfg: Config, s: RunState, run: seq<seq<StepIn>>): RunState
    requires EpochsDefined(cfg, run)
    decreases |run|
  {
    if run == [] then s
    else
      var k := |run| - 1;
      assert EpochsDefined(cfg, run[..k]);
      Steps(cfg, Epochs(cfg, s, run[..k]), k, run[k])
  }

  /** Epoch `e` of a run starts where the epochs before it left the state. */
  lemma EpochStart(cfg: Config, s: RunState, run: seq<seq<StepIn>>, e: nat)
    requires EpochsDefined(cfg, run) && e < |run|
    ensures EpochsDefined(cfg, run[..e]) && EpochsDefined(cfg, run[..e + 1]) && StepsDefined(cfg, run[e])
    ensures Epochs(cfg, s, run[..e + 1]) == Steps(cfg, Epochs(cfg, s, run[..e]), e, run[e])
  {
    assert run[..e + 1][..e] == run[..e];
  }

  /** Step `i` of an epoch extends the epoch by one step. */
  lemma StepStart(cfg: Config, s: RunState, iepoch: nat, ins: seq<StepIn>, i: nat)
    requires StepsDefined(cfg, ins) && i < |ins|
    ensures StepsDefined(cfg, ins[..i]) && StepsDefined(cfg, ins[..i + 1])
    ensures Ready(cfg) && WellFormed(ins[i].batch)
    ensures Steps(cfg, s, iepoch, ins[..i + 1]) == StepNext(cfg, Steps(cfg, s, iepoch, ins[..i]), iepoch, ins[i])
  {
    assert ins[..i + 1][..i] == ins[..i];
  }

  class Monitor {
    const cfg: Config
    var image: seq<NamedParam>      // `self.image_head.named_parameters()`
    var audio: seq<NamedParam>      // `self.audio_head.named_parameters()`
    var loss: seq<NamedParam>       // `self.loss_head.named_parameters()`
    var params: seq<Tensor>         // `self.params`: what the optimizer updates
    var totalStep: nat
    var totalInst: nat
    var totalLoss: real
    var events: seq<Event>

    function State(): RunState
      reads this`totalStep, this`totalInst, this`totalLoss, this`events
    {
      RunState(totalStep, totalInst, totalLoss, events)
    }

    /**
     * The parameters after `build_optimizer` with the tunable dictionary
     * `tunable`, from the heads' parameters `img`, `aud` and `los`: each
     * head's untunable parameters are frozen, and the optimizer updates
     * the dictionary's tensors.
     */
    ghost predicate OptimizerBuilt(img: seq<NamedParam>, aud: seq<NamedParam>, los: seq<NamedParam>, tunable: seq<Tunable>)
      reads this`image, this`audio, this`loss, this`params
    {
      && FrozenUntunable(img, image, Names(tunable), Under(ImageHead))
      && FrozenUntunable(aud, audio, Names(tunable), Under(AudioHead))
      && FrozenUntunable(los, loss, Names(tunable), Under(LossHead))
      && params == Values(tunable)
    }

    /**
     * `__init__` in training mode: `build_model` declares the audio and
     * loss heads' state dictionaries tunable and `build_optimizer` freezes
     * the rest.
     */
    constructor (cfg: Config, img: seq<NamedParam>, aud: seq<NamedParam>, los: seq<NamedParam>,
                 audioSd: seq<Tunable>, lossSd: seq<Tunable>)
      requires !cfg.eval
      ensures this.cfg == cfg
      ensures OptimizerBuilt(img, aud, los, TunableParams(cfg.eval, audioSd, lossSd))
      ensures events == []
    {
      this.cfg := cfg;
      image, audio, loss := img, aud, los;
      params := [];
      totalStep, totalInst, totalLoss, events := 0, 0, 0.0, [];
      new;
      var tunable := TunableParams(cfg.eval, audioSd, lossSd);
      BuildOptimizer(tunable);
    }

    /** `build_optimizer`: per head, a parameter is frozen unless its qualified name is tunable. */
    method BuildOptimizer(tunable: seq<Tunable>)
      modifies this`image, this`audio, this`loss, this`params
      ensures OptimizerBuilt(old(image), old(audio), old(loss), tunable)
    {
      var names := Names(tunable);
      params := Values(tunable);
      image := FreezeUntunable(image, names, Under(ImageHead));
      audio := FreezeUntunable(audio, names, Under(AudioHead));
      loss := FreezeUntunable(loss, names, Under(LossHead));
    }

    /** `save`: the checkpoint named after the zero-padded step, in the model's directory. */
    method Save() returns (path: string)
      modifies this`events
      ensures path == Checkpoints.CheckpointPath(cfg.modelRoot, cfg.modelName, totalStep)
      ensures events == old(events) + [Saved(totalStep)]
    {
      path := cfg.modelRoot + "/" + cfg.modelName + "/" + Checkpoints.Pad8(totalStep) + ".pth";
      events := events + [Saved(totalStep)];
    }

    /** One iteration of the `epoch` loop. */
    method Step(iepoch: nat, input: StepIn)
      requires Ready(cfg) && WellFormed(input.batch)
      modifies this`totalStep, this`totalInst, this`totalLoss, this`events
      ensures State() == StepNext(cfg, old(State()), iepoch, input)
    {
      ghost var s0 := State();
      var b := MakeBatch(input.batch);
      // the heads, the loss and the backward pass are not modelled
      if cfg.maxNorm > 0.0 {
        events := events + [Clipped(totalStep + 1)];
      }
      // the optimizer update is not modelled
      totalStep := totalStep + 1;
      totalLoss := totalLoss + input.loss;
      totalInst := totalInst + Rows(b.images);
      Report(iepoch);
      StepNextFields(cfg, s0, iepoch, input, State());
    }

    /** The log line at every multiple of the peep rate and the checkpoint at every multiple of the save rate. */
    method Report(iepoch: nat)
      requires Ready(cfg) && totalStep >= 1
      modifies this`events
      ensures events == old(events)
        + When(Multiple(totalStep, cfg.peepRate), Log(iepoch, totalStep, totalLoss / totalStep as real))
        + When(Multiple(totalStep, cfg.saveRate), Saved(totalStep))
    {
      MultipleMod(totalStep, cfg.peepRate);
      if totalStep % cfg.peepRate == 0 {
        events := events + [Log(iepoch, totalStep, totalLoss / totalStep as real)];
      }
      MultipleMod(totalStep, cfg.saveRate);
      if totalStep % cfg.saveRate == 0 {
        var path := Save();
      }
    }

    /** `epoch`: one pass over the loader. */
    method Epoch(iepoch: nat, ins: seq<StepIn>)
      requires StepsDefined(cfg, ins)
      modifies this`totalStep, this`totalInst, this`totalLoss, this`events
      ensures State() == Steps(cfg, old(State()), iepoch, ins)
    {
      ghost var s0 := State();
      assert ins[..0] == [];
      for i := 0 to |ins|
        invariant StepsDefined(cfg, ins[..i])
        invariant State() == Steps(cfg, s0, iepoch, ins[..i])
      {
        StepStart(cfg, s0, iepoch, ins, i);
        Step(iepoch, ins[i]);
      }
      assert ins[..|ins|] == ins;
    }

    /**
     * `learn`: the counters are reset and epochs run in order, epoch `e`
     * fed `run[e]`, until the configured number of epochs or until epoch
     * 3 has run, whichever comes first.
     */
    method Learn(run: seq<seq<StepIn>>)
      requires |run| == cfg.epochs && EpochsDefined(cfg, run)
      modifies this`totalStep, this`totalInst, this`totalLoss, this`events
      ensures State() == Epochs(cfg, Reset(old(State())), run[..EpochCap(cfg.epochs)])
    {
      totalLoss, totalStep, totalInst := 0.0, 0, 0;
      ghost var s0 := State();
      var iepoch := 0;
      assert run[..0] == [];
      while iepoch < cfg.epochs
        invariant iepoch <= cfg.epochs && iepoch <= 3
        invariant State() == Epochs(cfg, s0, run[..iepoch])
      {
        EpochStart(cfg, s0, run, iepoch);
        Epoch(iepoch, run[iepoch]);
        if iepoch > 2 {
          break;
        }
        iepoch := iepoch + 1;
      }
    }
  }

  // ----- properties of the step specification -----

  /** The events of one step, each kind counted exactly when its condition holds. */
  lemma EmittedCounts(cfg: Config, n: nat, total: real, iepoch: nat)
    requires Ready(cfg) && n >= 1
    ensures var es := Emitted(cfg, n, total, iepoch);
      && Count(es, ClipKind) == (if cfg.maxNorm > 0.0 then 1 else 0)
      && Count(es, LogKind) == (if Multiple(n, cfg.peepRate) then 1 else 0)
      && Count(es, SaveKind) == (if Multiple(n, cfg.saveRate) then 1 else 0)
  {
    var e1, e2, e3 := Clipped(n), Log(iepoch, n, total / n as real), Saved(n);
    var c1, c2, c3 := cfg.maxNorm > 0.0, Multiple(n, cfg.peepRate), Multiple(n, cfg.saveRate);
    assert Emitted(cfg, n, total, iepoch) == When(c1, e1) + When(c2, e2) + When(c3, e3);
    forall k: Kind
      ensures Count(Emitted(cfg, n, total, iepoch), k) ==
        (if c1 && IsKind(e1, k) then 1 else 0) + (if c2 && IsKind(e2, k) then 1 else 0) + (if c3 && IsKind(e3, k) then 1 else 0)
    {
      CountWhen(c1, e1, k);
      CountAppend(When(c1, e1), c2, e2, k);
      CountAppend(When(c1, e1) + When(c2, e2), c3, e3, k);
    }
  }

  /** A step clips exactly when clipping is on. */
  lemma StepClip(cfg: Config, s: RunState, iepoch: nat, input: StepIn)
    requires Ready(cfg) && WellFormed(input.batch)
    ensures Count(StepNext(cfg, s, iepoch, input).events, ClipKind) ==
      Count(s.events, ClipKind) + (if cfg.maxNorm > 0.0 then 1 else 0)
  {
    var r := StepNext(cfg, s, iepoch, input);
    var es := Emitted(cfg, s.totalStep + 1, r.totalLoss, iepoch);
    assert r.events == s.events + es;
    EmittedCounts(cfg, s.totalStep + 1, r.totalLoss, iepoch);
    assert Count(es, ClipKind) == (if cfg.maxNorm > 0.0 then 1 else 0);
    CountConcat(s.events, es, ClipKind);
  }

  /** A step adds a log line exactly when its new step count is a multiple of the peep rate. */
  lemma StepLog(cfg: Config, s: RunState, iepoch: nat, input: StepIn)
    requires Ready(cfg) && WellFormed(input.batch)
    ensures Count(StepNext(cfg, s, iepoch, input).events, LogKind) ==
      Count(s.events, LogKind) + (if Multiple(s.totalStep + 1, cfg.peepRate) then 1 else 0)
  {
    var r := StepNext(cfg, s, iepoch, input);
    var es := Emitted(cfg, s.totalStep + 1, r.totalLoss, iepoch);
    assert r.events == s.events + es;
    EmittedCounts(cfg, s.totalStep + 1, r.totalLoss, iepoch);
    assert Count(es, LogKind) == (if Multiple(s.totalStep + 1, cfg.peepRate) then 1 else 0);
    CountConcat(s.events, es, LogKind);
  }

  /** A step saves exactly when its new step count is a multiple of the save rate. */
  lemma StepSave(cfg: Config, s: RunState, iepoch: nat, input: StepIn)
    requires Ready(cfg) && WellFormed(input.batch)
    ensures Count(StepNext(cfg, s, iepoch, input).events, SaveKind) ==
      Count(s.events, SaveKind) + (if Multiple(s.totalStep + 1, cfg.saveRate) then 1 else 0)
  {
    var r := StepNext(cfg, s, iepoch, input);
    var es := Emitted(cfg, s.totalStep + 1, r.totalLoss, iepoch);
    assert r.events == s.events + es;
    EmittedCounts(cfg, s.totalStep + 1, r.totalLoss, iepoch);
    assert Count(es, SaveKind) == (if Multiple(s.totalStep + 1, cfg.saveRate) then 1 else 0);
    CountConcat(s.events, es, SaveKind);
  }

  /** The steps before the last one, and the last one applied to their result. */
  lemma StepsSplit(cfg: Config, s: RunState, iepoch: nat, ins: seq<StepIn>)
    requires StepsDefined(cfg, ins) && ins != []
    ensures var k := |ins| - 1;
      && StepsDefined(cfg, ins[..k]) && Ready(cfg) && WellFormed(ins[k].batch)
      && Steps(cfg, s, iepoch, ins) == StepNext(cfg, Steps(cfg, s, iepoch, ins[..k]), iepoch, ins[k])
  {
    assert StepsDefined(cfg, ins[..|ins| - 1]);
  }

  /** With clipping on every step clips once; with it off no step clips. */
  lemma {:induction false} ClipCount(cfg: Config, s: RunState, iepoch: nat, ins: seq<StepIn>)
    requires Ready(cfg) && StepsDefined(cfg, ins)
    ensures Count(Steps(cfg, s, iepoch, ins).events, ClipKind) ==
      Count(s.events, ClipKind) + (if cfg.maxNorm > 0.0 then |ins| else 0)
    decreases |ins|
  {
    if ins != [] {
      var k := |ins| - 1;
      StepsSplit(cfg, s, iepoch, ins);
      ClipCount(cfg, s, iepoch, ins[..k]);
      StepClip(cfg, Steps(cfg, s, iepoch, ins[..k]), iepoch, ins[k]);
    }
  }

  /** Every process logs once per multiple of the peep rate among the steps taken. */
  lemma {:induction false} LogCount(cfg: Config, s: RunState, iepoch: nat, ins: seq<StepIn>)
    requires Ready(cfg) && StepsDefined(cfg, ins)
    ensures Count(Steps(cfg, s, iepoch, ins).events, LogKind) ==
      Count(s.events, LogKind) + MultiplesAfter(s.totalStep, |ins|, cfg.peepRate)
    decreases |ins|
  {
    if ins != [] {
      var k := |ins| - 1;
      StepsSplit(cfg, s, iepoch, ins);
      LogCount(cfg, s, iepoch, ins[..k]);
      var mid := Steps(cfg, s, iepoch, ins[..k]);
      StepLog(cfg, mid, iepoch, ins[k]);
      MultiplesAfterLast(s.totalStep, |ins|, cfg.peepRate, mid.totalStep + 1);
    }
  }

  /** Every process saves once per multiple of the save rate among the steps taken. */
  lemma {:induction false} SaveCount(cfg: Config, s: RunState, iepoch: nat, ins: seq<StepIn>)
    requires Ready(cfg) && StepsDefined(cfg, ins)
    ensures Count(Steps(cfg, s, iepoch, ins).events, SaveKind) ==
      Count(s.events, SaveKind) + MultiplesAfter(s.totalStep, |ins|, cfg.saveRate)
    decreases |ins|
  {
    if ins != [] {
      var k := |ins| - 1;
      StepsSplit(cfg, s, iepoch, ins);
      SaveCount(cfg, s, iepoch, ins[..k]);
      var mid := Steps(cfg, s, iepoch, ins[..k]);
      StepSave(cfg, mid, iepoch, ins[k]);
      MultiplesAfterLast(s.totalStep, |ins|, cfg.saveRate, mid.totalStep + 1);
    }
  }

  /** The number of steps a run takes: the sum of its epochs' lengths. */
  function TotalSteps(run: seq<seq<StepIn>>): nat
  {
    if run == [] then 0 else TotalSteps(run[..|run| - 1]) + |run[|run| - 1]|
  }

  /** A run's step counter ends at the number of batches it was fed, and with clipping on every step clips. */
  lemma {:induction false} EpochsCounts(cfg: Config, s: RunState, run: seq<seq<StepIn>>)
    requires Ready(cfg) && EpochsDefined(cfg, run)
    ensures Epochs(cfg, s, run).totalStep == s.totalStep + TotalSteps(run)
    ensures Count(Epochs(cfg, s, run).events, ClipKind) ==
      Count(s.events, ClipKind) + (if cfg.maxNorm > 0.0 then TotalSteps(run) else 0)
    decreases |run|
  {
    if run != [] {
      var k := |run| - 1;
      EpochStart(cfg, s, run, k);
      assert run[..k + 1] == run;
      EpochsCounts(cfg, s, run[..k]);
      ClipCount(cfg, Epochs(cfg, s, run[..k]), k, run[k]);
    }
  }

  /**
   * Every parameter of the image head is frozen by training, and a
   * parameter of the audio head keeps tracking gradients exactly when it
   * did and its name is in the audio head's state dictionary.
   */
  lemma TrainingFreezesImageHead(img: seq<NamedParam>, image: seq<NamedParam>, aud: seq<NamedParam>, audio: seq<NamedParam>,
                                 audioSd: seq<Tunable>, lossSd: seq<Tunable>)
    requires FrozenUntunable(img, image, Names(TunableParams(false, audioSd, lossSd)), Under(ImageHead))
    requires FrozenUntunable(aud, audio, Names(TunableParams(false, audioSd, lossSd)), Under(AudioHead))
    ensures forall i | 0 <= i < |image| :: !image[i].requiresGrad
    ensures forall i | 0 <= i < |audio| :: audio[i].requiresGrad <==> aud[i].requiresGrad && aud[i].name in Names(audioSd)
  {
    forall i | 0 <= i < |image| ensures !image[i].requiresGrad {
      TunableSelection(false, audioSd, lossSd, img[i].name);
    }
    forall i | 0 <= i < |audio|
      ensures audio[i].requiresGrad <==> aud[i].requiresGrad && aud[i].name in Names(audioSd)
    {
      TunableSelection(false, audioSd, lossSd, aud[i].name);
    }
  }
}

/**
 * What a monitor sends to its logging sink and its checkpoint store,
 * recorded as a sequence of events instead of formatted strings.
 */
module Trace {

  datatype Event =
    | Log(epoch: nat, step: nat, loss: real)  // periodic progress line and the loss it reports
    | WarmupLr(lrs: seq<real>)                // "warmup lr: ..." line with every group's new rate
    | Clipped(step: nat)                      // gradient norm clipped before the update
    | Evaluated(step: nat)                    // an evaluation pass ran
    | Saved(step: nat)                        // the checkpoint named after this step was written

  datatype Kind = LogKind | WarmupKind | ClipKind | EvalKind | SaveKind

  predicate IsKind(e: Event, k: Kind)
  {
    match k
    case LogKind => e.Log?
    case WarmupKind => e.WarmupLr?
    case ClipKind => e.Clipped?
    case EvalKind => e.Evaluated?
    case SaveKind => e.Saved?
  }

  /** The number of events of kind `k` in `es`. */
  function Count(es: seq<Event>, k: Kind): (n: nat)
    ensures n <= |es|
  {
    if es == [] then 0
    else Count(es[..|es| - 1], k) + (if IsKind(es[|es| - 1], k) then 1 else 0)
  }

  lemma {:induction false} CountConcat(a: seq<Event>, b: seq<Event>, k: Kind)
    ensures Count(a + b, k) == Count(a, k) + Count(b, k)
    decreases |b|
  {
    if b == [] {
      assert a + b == a;
    } else {
      var b' := b[..|b| - 1];
      assert (a + b)[..|a + b| - 1] == a + b';
      CountConcat(a, b', k);
    }
  }

  /** Count of an event list built from optional parts. */
  function When(c: bool, e: Event): (r: seq<Event>)
    ensures |r| == (if c then 1 else 0)
  {
    if c then [e] else []
  }

  lemma CountWhen(c: bool, e: Event, k: Kind)
    ensures Count(When(c, e), k) == (if c && IsKind(e, k) then 1 else 0)
  {
    if c {
      assert When(c, e)[..0] == [];
    }
  }

  /** The events counted after appending one optional event. */
  lemma CountAppend(es: seq<Event>, c: bool, e: Event, k: Kind)
    ensures Count(es + When(c, e), k) == Count(es, k) + (if c && IsKind(e, k) then 1 else 0)
  {
    CountConcat(es, When(c, e), k);
    CountWhen(c, e, k);
  }

  /**
   * The optional events of one training step, in the order a monitor emits
   * them: a warmup line, a log line, an evaluation, a checkpoint.
   */
  function StepEvents(warm: bool, e1: Event, log: bool, e2: Event, eval: bool, e3: Event, save: bool, e4: Event): seq<Event>
  {
    When(warm, e1) + When(log, e2) + When(eval, e3) + When(save, e4)
  }

  lemma StepEventsAppend(es: seq<Event>, warm: bool, e1: Event, log: bool, e2: Event,
                         eval: bool, e3: Event, save: bool, e4: Event)
    ensures es + When(warm, e1) + When(log, e2) + When(eval, e3) + When(save, e4) ==
      es + StepEvents(warm, e1, log, e2, eval, e3, save, e4)
  {
  }

  /** Each kind occurs in a step's events exactly when its condition holds. */
  lemma CountStepEvents(warm: bool, e1: Event, log: bool, e2: Event, eval: bool, e3: Event, save: bool, e4: Event)
    requires e1.WarmupLr? && e2.Log? && e3.Evaluated? && e4.Saved?
    ensures var es := StepEvents(warm, e1, log, e2, eval, e3, save, e4);
      && Count(es, WarmupKind) == (if warm then 1 else 0)
      && Count(es, LogKind) == (if log then 1 else 0)
      && Count(es, EvalKind) == (if eval then 1 else 0)
      && Count(es, SaveKind) == (if save then 1 else 0)
      && Count(es, ClipKind) == 0
  {
    var es1 := When(warm, e1);
    var es2 := es1 + When(log, e2);
    var es3 := es2 + When(eval, e3);
    forall k: Kind
      ensures Count(StepEvents(warm, e1, log, e2, eval, e3, save, e4), k) ==
        (if warm && IsKind(e1, k) then 1 else 0) + (if log && IsKind(e2, k) then 1 else 0)
        + (if eval && IsKind(e3, k) then 1 else 0) + (if save && IsKind(e4, k) then 1 else 0)
    {
      CountWhen(warm, e1, k);
      CountAppend(es1, log, e2, k);
      CountAppend(es2, eval, e3, k);
      CountAppend(es3, save, e4, k);
    }
  }
}

/**
 * The multi-label evaluation heads (`cvap/module/decoder/loss_more.py`).
 * In evaluation mode the binary cross-entropy head accumulates, batch by
 * batch, its inputs, its predictions, the gold labels and the sample
 * names in four buffers; `report` turns them into per-label metrics and
 * deletes the buffers. The combined head forwards to a cross-entropy head
 * and a binary cross-entropy head and joins their reports.
 *
 * Tensors are seen through their shapes. What the metric library returns
 * for a label is an input: its average precision (none when it is NaN),
 * its ROC AUC (none when the library raises) and its precision-recall
 * curve.
 */
module LossMore {
  import opened Common

  /** Why a report fails. */
  datatype Fault =
    | NoBuffers    // an attribute that `infer` creates is missing (`report` without a preceding `infer`)
    | BadShapes    // `torch.cat` or the unpacking of the predictions' shape raises
    | CeFailed     // the cross-entropy head's own report raises

  datatype Outcome<T> = Ok(value: T) | Failed(fault: Fault)

  /** The four buffers, each absent until `infer` creates it and again after `report` deletes it. */
  datatype Buffers = Buffers(
    audios: Option<seq<Tensor>>,   // the input features
    x1s: Option<seq<Tensor>>,      // the predicted label probabilities
    x2s: Option<seq<Tensor>>,      // the gold labels
    ids: Option<seq<string>>)      // the sample names

  predicate Present(b: Buffers)
  {
    b.audios.Some? && b.x1s.Some? && b.x2s.Some? && b.ids.Some?
  }

  predicate Absent(b: Buffers)
  {
    b.audios.None? && b.x1s.None? && b.x2s.None? && b.ids.None?
  }

  /** Every buffer exists and the three tensor buffers hold one entry per batch. */
  predicate Aligned(b: Buffers)
  {
    Present(b) && |b.audios.value| == |b.x1s.value| && |b.x1s.value| == |b.x2s.value|
  }

  /** The buffers `infer` appends to: the existing ones, or four empty ones when any is missing. */
  function Base(b: Buffers): (r: Buffers)
    ensures Aligned(b) ==> r == b
    ensures !Present(b) ==> r == Buffers(Some([]), Some([]), Some([]), Some([]))
  {
    if Present(b) then b else Buffers(Some([]), Some([]), Some([]), Some([]))
  }

  /** The sum of the batch sizes of `ts`. */
  function TotalRows(ts: seq<Tensor>): nat
    requires forall i | 0 <= i < |ts| :: |ts[i].shape| >= 1
  {
    if ts == [] then 0 else TotalRows(ts[..|ts| - 1]) + Rows(ts[|ts| - 1])
  }

  /** `torch.cat(ts)` is defined: at least one tensor, all with a batch axis and equal other axes. */
  predicate Concatenable(ts: seq<Tensor>)
  {
    && |ts| >= 1
    && (forall i | 0 <= i < |ts| :: |ts[i].shape| >= 1)
    && (forall i | 0 <= i < |ts| :: ts[i].shape[1..] == ts[0].shape[1..])
  }

  /** `torch.cat(ts)` along the batch axis. */
  function Cat(ts: seq<Tensor>): (r: Option<Tensor>)
    ensures r.Some? <==> Concatenable(ts)
    ensures r.Some? ==> |r.value.shape| == |ts[0].shape| && r.value.shape[0] == TotalRows(ts)
  {
    if Concatenable(ts) then Some(Tensor([TotalRows(ts)] + ts[0].shape[1..])) else None
  }

  /** What the metric library returns for one label. */
  datatype LabelScore = LabelScore(
    ap: Option<real>,       // `average_precision_score`; none when it is NaN
    auc: Option<real>,      // `roc_auc_score`; none when it raises
    precision: seq<real>,   // `precision_recall_curve`
    recall: seq<real>)

  /** The library's precision-recall curve has at least one point, with as many recalls as precisions. */
  predicate CurveShaped(s: LabelScore)
  {
    |s.precision| >= 1 && |s.recall| == |s.precision|
  }

  /** An undefined metric counts as 0. */
  function OrZero(v: Option<real>): (r: real)
    ensures v.Some? ==> r == v.value
    ensures v.None? ==> r == 0.0
  {
    if v.Some? then v.value else 0.0
  }

  /** The label's metrics needed a substitution. */
  predicate Degenerate(s: LabelScore)
  {
    s.ap.None? || s.auc.None?
  }

  /** The three averages the report leads with. */
  datatype Averages = Averages(macro: real, micro: real, weighted: real)

  /** The per-label columns of a report. */
  datatype LabelTable = LabelTable(aps: seq<real>, aucs: seq<real>, precisions: seq<real>, recalls: seq<real>, hasErr: bool)

  /** The fields of the report text: the averages, the error flag, the per-label columns, and `@ nsample`. */
  datatype BceReport = BceReport(averages: Averages, table: LabelTable, nsample: nat)

  /**
   * `t` is the table of the first `nlabel` labels: an undefined average
   * precision or AUC is replaced by 0 and raises the error flag, and the
   * precision and recall are read at the middle of the label's curve.
   */
  predicate Tabulated(nlabel: nat, score: nat -> LabelScore, t: LabelTable)
  {
    && |t.aps| == nlabel && |t.aucs| == nlabel && |t.precisions| == nlabel && |t.recalls| == nlabel
    && (forall k | 0 <= k < nlabel :: t.aps[k] == OrZero(score(k).ap) && t.aucs[k] == OrZero(score(k).auc))
    && (forall k | 0 <= k < nlabel ::
          var s := score(k);
          CurveShaped(s) && t.precisions[k] == s.precision[|s.precision| / 2] && t.recalls[k] == s.recall[|s.precision| / 2])
    && (t.hasErr <==> exists k | 0 <= k < nlabel :: Degenerate(score(k)))
  }

  /** The loop over the labels. */
  method Tabulate(nlabel: nat, score: nat -> LabelScore) returns (t: LabelTable)
    requires forall k | 0 <= k < nlabel :: CurveShaped(score(k))
    ensures Tabulated(nlabel, score, t)
  {
    var hasErr := false;
    var aps, aucs, precisions, recalls := [], [], [], [];
    for k := 0 to nlabel
      invariant |aps| == k && |aucs| == k && |precisions| == k && |recalls| == k
      invariant forall j | 0 <= j < k :: aps[j] == OrZero(score(j).ap) && aucs[j] == OrZero(score(j).auc)
      invariant forall j | 0 <= j < k ::
        var s := score(j);
        CurveShaped(s) && precisions[j] == s.precision[|s.precision| / 2] && recalls[j] == s.recall[|s.precision| / 2]
      invariant hasErr <==> exists j | 0 <= j < k :: Degenerate(score(j))
    {
      var s := score(k);
      var ap := 0.0;
      if s.ap.None? {
        hasErr := true;
      } else {
        ap := s.ap.value;
      }
      var auc := 0.0;
      if s.auc.None? {
        hasErr := true;
      } else {
        auc := s.auc.value;
      }
      var mid := |s.precision| / 2;
      aps, aucs := aps + [ap], aucs + [auc];
      precisions, recalls := precisions + [s.precision[mid]], recalls + [s.recall[mid]];
    }
    t := LabelTable(aps, aucs, precisions, recalls, hasErr);
  }

  /** The predictions for a batch of features: one probability per label in place of the feature axis. */
  function Predict(x1: Tensor, nlabel: nat): (p: Tensor)
    requires |x1.shape| >= 1
    ensures |p.shape| == |x1.shape| && LastDim(p) == nlabel
    ensures forall i | 0 <= i < |x1.shape| - 1 :: p.shape[i] == x1.shape[i]
  {
    Tensor(x1.shape[..|x1.shape| - 1] + [nlabel])
  }

  /** Each stored prediction is the prediction for the features stored beside it. */
  predicate Predicted(b: Buffers, nlabel: nat)
    requires Aligned(b)
  {
    forall i | 0 <= i < |b.audios.value| ::
      |b.audios.value[i].shape| >= 1 && b.x1s.value[i] == Predict(b.audios.value[i], nlabel)
  }

  /**
   * The buffers after `infer` has stored one batch: its features `x1`, their
   * predictions `p` and its labels `x2` each end one buffer, and the names,
   * when given, extend the fourth.
   */
  function Fed(b: Buffers, x1: Tensor, p: Tensor, x2: Tensor, names: Option<seq<string>>): (r: Buffers)
    ensures Present(r)
    ensures (Aligned(b) || !Present(b)) ==> Aligned(r)
    ensures |r.audios.value| == |Base(b).audios.value| + 1 && |r.x1s.value| == |Base(b).x1s.value| + 1
    ensures |r.x2s.value| == |Base(b).x2s.value| + 1
    ensures r.audios.value[..|r.audios.value| - 1] == Base(b).audios.value && r.audios.value[|r.audios.value| - 1] == x1
    ensures r.x1s.value[..|r.x1s.value| - 1] == Base(b).x1s.value && r.x1s.value[|r.x1s.value| - 1] == p
    ensures r.x2s.value[..|r.x2s.value| - 1] == Base(b).x2s.value && r.x2s.value[|r.x2s.value| - 1] == x2
    ensures names.None? ==> r.ids == Base(b).ids
    ensures names.Some? ==> r.ids.value == Base(b).ids.value + names.value
  {
    var base := Base(b);
    Buffers(Some(base.audios.value + [x1]), Some(base.x1s.value + [p]), Some(base.x2s.value + [x2]),
            if names.Some? then Some(base.ids.value + names.value) else base.ids)
  }

  /** Storing a batch with its own predictions keeps every prediction beside its features. */
  lemma FedPredicted(b: Buffers, x1: Tensor, x2: Tensor, names: Option<seq<string>>, nlabel: nat)
    requires |x1.shape| >= 1
    requires !Present(b) || (Aligned(b) && Predicted(b, nlabel))
    ensures Aligned(Fed(b, x1, Predict(x1, nlabel), x2, names))
    ensures Predicted(Fed(b, x1, Predict(x1, nlabel), x2, names), nlabel)
  {
    var r := Fed(b, x1, Predict(x1, nlabel), x2, names);
    var n := |r.audios.value| - 1;
    forall i | 0 <= i < |r.audios.value|
      ensures |r.audios.value[i].shape| >= 1 && r.x1s.value[i] == Predict(r.audios.value[i], nlabel)
    {
      if i < n {
        assert r.audios.value[i] == r.audios.value[..n][i] && r.x1s.value[i] == r.x1s.value[..n][i];
      }
    }
  }

  /** The predictions and labels concatenate, the predictions have a label axis, and the labels match them in shape. */
  predicate ReportDefined(b: Buffers)
  {
    && b.x1s.Some? && b.x2s.Some?
    && Cat(b.x1s.value).Some? && Cat(b.x2s.value).Some?
    && |Cat(b.x1s.value).value.shape| >= 2
    && Cat(b.x2s.value).value.shape == Cat(b.x1s.value).value.shape
  }

  /**
   * Predictions with a label axis keep the batch size of their features, so
   * the report's sample count is the number of feature rows fed.
   */
  lemma {:induction false} PredictRows(audios: seq<Tensor>, x1s: seq<Tensor>, nlabel: nat)
    requires |audios| == |x1s|
    requires forall i | 0 <= i < |audios| :: |audios[i].shape| >= 2 && |x1s[i].shape| >= 2 && x1s[i] == Predict(audios[i], nlabel)
    ensures TotalRows(audios) == TotalRows(x1s)
    decreases |audios|
  {
    if audios != [] {
      var n := |audios| - 1;
      assert Rows(x1s[n]) == Rows(audios[n]);
      PredictRows(audios[..n], x1s[..n], nlabel);
    }
  }

  /** Every prediction of a concatenable list with a label axis has one. */
  lemma LabelAxis(b: Buffers, nlabel: nat)
    requires Aligned(b) && Predicted(b, nlabel) && ReportDefined(b)
    ensures forall i | 0 <= i < |b.audios.value| :: |b.audios.value[i].shape| >= 2
  {
    var x1s := b.x1s.value;
    forall i | 0 <= i < |b.audios.value|
      ensures |b.audios.value[i].shape| >= 2
    {
      assert x1s[i].shape[1..] == x1s[0].shape[1..];
    }
  }

  class BceHead {
    const embedDim: nat    // the feature size the layer norm expects
    const nlabel: nat      // `output_dim`
    var audios: Option<seq<Tensor>>
    var x1s: Option<seq<Tensor>>
    var x2s: Option<seq<Tensor>>
    var ids: Option<seq<string>>

    function State(): Buffers
      reads this`audios, this`x1s, this`x2s, this`ids
    {
      Buffers(audios, x1s, x2s, ids)
    }

    /** Either no buffer exists, or all do, aligned, each prediction beside its features. */
    ghost predicate Valid()
      reads this`audios, this`x1s, this`x2s, this`ids
    {
      Absent(State()) || (Aligned(State()) && Predicted(State(), nlabel))
    }

    constructor (embedDim: nat, nlabel: nat)
      ensures this.embedDim == embedDim && this.nlabel == nlabel
      ensures Absent(State()) && Valid()
    {
      this.embedDim, this.nlabel := embedDim, nlabel;
      audios, x1s, x2s, ids := None, None, None, None;
    }

    /**
     * `infer`: when any buffer is missing all four start empty; the
     * features, their predictions and the labels are appended, and the
     * names are added when given.
     */
    method Infer(x1: Tensor, x2: Tensor, names: Option<seq<string>>)
      requires |x1.shape| >= 1 && LastDim(x1) == embedDim
      modifies this`audios, this`x1s, this`x2s, this`ids
      ensures State() == Fed(old(State()), x1, Predict(x1, nlabel), x2, names)
      ensures (old(Valid()) || !old(Present(State()))) ==> Valid()
    {
      ghost var b := State();
      if audios.None? || x1s.None? || x2s.None? || ids.None? {
        audios, x1s, x2s, ids := Some([]), Some([]), Some([]), Some([]);
      }
      audios := Some(audios.value + [x1]);
      x1s := Some(x1s.value + [Predict(x1, nlabel)]);
      x2s := Some(x2s.value + [x2]);
      if names.Some? {
        ids := Some(ids.value + names.value);
      }
      if old(Valid()) || !Present(b) {
        FedPredicted(b, x1, x2, names, nlabel);
      }
    }

    /**
     * The evaluation branch of `forward`: only an undistributed process or
     * rank 0 stores the batch; the result is `None` either way.
     */
    method ForwardEval(x1: Tensor, x2: Tensor, names: Option<seq<string>>, rt: Runtime)
      requires Stores(rt) ==> |x1.shape| >= 1 && LastDim(x1) == embedDim
      modifies this`audios, this`x1s, this`x2s, this`ids
      ensures Stores(rt) ==> State() == Fed(old(State()), x1, Predict(x1, nlabel), x2, names)
      ensures !Stores(rt) ==> State() == old(State())
      ensures old(Valid()) ==> Valid()
    {
      if !rt.distributed || rt.rank == 0 {
        Infer(x1, x2, names);
      }
    }

    /**
     * `report`: fails without buffers (so a second report fails) and when
     * the predictions or labels cannot be concatenated and scored; otherwise
     * reports the averages, the per-label table and the number of samples,
     * and deletes all four buffers. The metric library's results are
     * `averages` and `score`.
     */
    method Report(averages: Averages, score: nat -> LabelScore) returns (r: Outcome<BceReport>)
      requires Valid()
      requires forall k :: CurveShaped(score(k))
      modifies this`audios, this`x1s, this`x2s, this`ids
      ensures Valid()
      ensures old(Absent(State())) ==> r == Failed(NoBuffers)
      ensures r.Ok? <==> old(Present(State())) && old(ReportDefined(State()))
      ensures r.Ok? ==> Absent(State())
      ensures r.Ok? ==>
        && r.value.averages == averages
        && Tabulated(old(Cat(x1s.value).value.shape[1]), score, r.value.table)
        && r.value.nsample == old(TotalRows(audios.value))
      ensures r.Failed? ==> State() == old(State())
    {
      if x1s.None? || x2s.None? {
        return Failed(NoBuffers);
      }
      var preds := Cat(x1s.value);
      var labels := Cat(x2s.value);
      if preds.None? || labels.None? || |preds.value.shape| < 2 || labels.value.shape != preds.value.shape {
        return Failed(BadShapes);
      }
      var nsample, nlabel := preds.value.shape[0], preds.value.shape[1];
      var table := Tabulate(nlabel, score);
      LabelAxis(State(), this.nlabel);
      PredictRows(audios.value, x1s.value, this.nlabel);
      audios, x1s, x2s, ids := None, None, None, None;
      r := Ok(BceReport(averages, table, nsample));
    }
  }

  /** A forward pass in evaluation mode stores the batch: no process group, or rank 0. */
  predicate Stores(rt: Runtime)
  {
    !rt.distributed || rt.rank == 0
  }

  /** A call the combined head made to its cross-entropy head's `infer`: the features and the mirror features. */
  datatype CeCall = CeCall(x1: Tensor, x3: Tensor)

  /** The two parts of the combined report, joined by a newline; the first is empty when skipped. */
  datatype CombinedReport = CombinedReport(ce: string, bce: BceReport)

  /**
   * `BCEAndCELossHead`: a cross-entropy head, whose code is not part of
   * this model and which is seen through the calls made to it, and a
   * binary cross-entropy head.
   */
  class CombinedHead {
    const bce: BceHead
    var ceCalls: seq<CeCall>

    ghost predicate Valid()
      reads bce
    {
      bce.Valid()
    }

    constructor (embedDim: nat, nlabel: nat)
      ensures fresh(bce) && bce.embedDim == embedDim && bce.nlabel == nlabel
      ensures Absent(bce.State()) && Valid() && ceCalls == []
    {
      bce := new BceHead(embedDim, nlabel);
      ceCalls := [];
    }

    /**
     * The evaluation branch of `forward`: on an undistributed process or
     * rank 0, the cross-entropy head is given the batch only when mirror
     * features `x3` come with it, and the binary head always stores it;
     * other ranks do nothing.
     */
    method ForwardEval(x1: Tensor, x2: Tensor, x3: Option<Tensor>, names: Option<seq<string>>, rt: Runtime)
      requires Stores(rt) ==> |x1.shape| >= 1 && LastDim(x1) == bce.embedDim
      modifies this`ceCalls, bce`audios, bce`x1s, bce`x2s, bce`ids
      ensures Stores(rt) ==> bce.State() == Fed(old(bce.State()), x1, Predict(x1, bce.nlabel), x2, names)
      ensures Stores(rt) ==> ceCalls == old(ceCalls) + (if x3.Some? then [CeCall(x1, x3.value)] else [])
      ensures !Stores(rt) ==> bce.State() == old(bce.State()) && ceCalls == old(ceCalls)
      ensures old(Valid()) ==> Valid()
    {
      if !rt.distributed || rt.rank == 0 {
        if x3.Some? {
          ceCalls := ceCalls + [CeCall(x1, x3.value)];
        }
        bce.Infer(x1, x2, names);
      }
    }

    /**
     * `report`: the cross-entropy head reports only when it holds both
     * `x1s` and `x2s` (`ceHolds`), with the outcome `ceReport`; the binary
     * head always reports. A failure of either fails the whole report.
     */
    method Report(ceHolds: bool, ceReport: Option<string>, averages: Averages, score: nat -> LabelScore)
      returns (r: Outcome<CombinedReport>)
      requires Valid()
      requires forall k :: CurveShaped(score(k))
      modifies bce`audios, bce`x1s, bce`x2s, bce`ids
      ensures Valid()
      ensures ceHolds && ceReport.None? ==> r == Failed(CeFailed) && bce.State() == old(bce.State())
      ensures r.Ok? <==> (!ceHolds || ceReport.Some?) && old(Present(bce.State())) && old(ReportDefined(bce.State()))
      ensures r.Ok? ==> r.value.ce == (if ceHolds then ceReport.value else "")
      ensures r.Ok? ==> Absent(bce.State()) && r.value.bce.averages == averages
      ensures r.Ok? ==> r.value.bce.nsample == old(TotalRows(bce.audios.value))
      ensures r.Ok? ==> Tabulated(old(Cat(bce.x1s.value).value.shape[1]), score, r.value.bce.table)
      ensures old(Absent(bce.State())) && !(ceHolds && ceReport.None?) ==> r == Failed(NoBuffers)
    {
      var ce := "";
      if ceHolds {
        if ceReport.None? {
          return Failed(CeFailed);
        }
        ce := ceReport.value;
      }
      var b := bce.Report(averages, score);
      if b.Failed? {
        return Failed(b.fault);
      }
      r := Ok(CombinedReport(ce, b.value));
    }
  }
}

/**
 * Values shared by the training monitors and the evaluation head.
 * Tensors are seen only through their shape; the numbers inside them
 * (and everything computed from those numbers) are outside the model.
 */
module Common {

  datatype Option<T> = None | Some(value: T)

  /** A tensor, abstracted to its shape (`t.shape`, `t.dim()`). */
  datatype Tensor = Tensor(shape: seq<nat>)

  function Rank(t: Tensor): nat { |t.shape| }

  /** `t.shape[0]`: the batch dimension. */
  function Rows(t: Tensor): nat
    requires |t.shape| >= 1
  {
    t.shape[0]
  }

  /** `t.shape[-1]`. */
  function LastDim(t: Tensor): nat
    requires |t.shape| >= 1
  {
    t.shape[|t.shape| - 1]
  }

  /**
   * `t.unsqueeze(1)`: a new axis of length 1 at position 1. Torch accepts
   * position 1 only when the tensor has at least one axis.
   */
  function Unsqueeze1(t: Tensor): (r: Tensor)
    requires |t.shape| >= 1
    ensures |r.shape| == |t.shape| + 1
    ensures r.shape[0] == t.shape[0] && r.shape[1] == 1
    ensures forall i | 1 <= i < |t.shape| :: r.shape[i + 1] == t.shape[i]
  {
    Tensor(t.shape[..1] + [1] + t.shape[1..])
  }

  /**
   * `F.interpolate(t, res, mode="bilinear")`: bilinear resizing is defined
   * on (N, C, H, W) tensors and replaces both spatial sizes by `res`.
   */
  function Interpolate(t: Tensor, res: nat): (r: Tensor)
    requires |t.shape| == 4
    ensures |r.shape| == 4 && r.shape[..2] == t.shape[..2]
    ensures r.shape[2] == res && r.shape[3] == res
  {
    Tensor(t.shape[..2] + [res, res])
  }

  /**
   * The process a monitor runs in: its rank, the size of the process
   * group, the number of local GPUs, and whether the process group is
   * initialised (which is also when the model is wrapped for distributed
   * data parallelism).
   */
  datatype Runtime = Runtime(rank: nat, worldSize: nat, numGpus: nat, distributed: bool)

  /** Training multiplies each batch size by the world size under DDP. */
  function TrainChunks(rt: Runtime): (n: nat)
    ensures !rt.distributed ==> n == 1
  {
    if rt.distributed then rt.worldSize else 1
  }

  /** Inference multiplies each batch size by the number of GPUs under DDP. */
  function EvalChunks(rt: Runtime): (n: nat)
    ensures !rt.distributed ==> n == 1
  {
    if rt.distributed then rt.numGpus else 1
  }

  /** The `samples` bound of an inference pass; the default is infinity. */
  datatype Samples = Unbounded | Limit(n: int)

  /** `nsample >= samples`. */
  predicate Reached(nsample: nat, samples: Samples)
  {
    samples.Limit? && nsample >= samples.n
  }
}

/**
 * The sample-bounded inference pass shared by the data-parallel monitors:
 * batches are consumed in order until the number of samples seen reaches
 * the bound, and a progress line is printed every `max(10, len // 10)`
 * batches on rank 0.
 */
module Inference {
  import opened Common
  import opened Multiples

  /** Samples counted after the given batches, each worth `size * nchunk`. */
  function SeenAfter(sizes: seq<nat>, nchunk: nat): nat
  {
    if sizes == [] then 0
    else SeenAfter(sizes[..|sizes| - 1], nchunk) + sizes[|sizes| - 1] * nchunk
  }

  /** `max(10, len(dataloader) // 10)`. */
  function ProgressRate(nbatch: nat): (p: nat)
    ensures p >= 10 && p >= nbatch / 10
    ensures p == 10 || p == nbatch / 10
  {
    if nbatch / 10 > 10 then nbatch / 10 else 10
  }

  /** Indices `ibatch < n` after which a progress line is printed. */
  function ProgressLines(n: nat, rank: nat, rate: nat): (r: seq<nat>)
    requires rate >= 1
    ensures forall i | 0 <= i < |r| :: r[i] < n && Multiple(r[i] + 1, rate)
    ensures rank != 0 ==> r == []
  {
    if n == 0 then []
    else ProgressLines(n - 1, rank, rate) + (if rank == 0 && Multiple(n, rate) then [n - 1] else [])
  }

  /** What an inference pass did: batches run, samples counted, progress lines. */
  datatype Pass = Pass(consumed: nat, nsample: nat, progress: seq<nat>)

  /**
   * The contract of the pass: `consumed` batches are run, none of them
   * started with the bound already reached, and the pass ends before the
   * last batch only once the bound is reached.
   */
  ghost predicate StopsAtBound(sizes: seq<nat>, nchunk: nat, samples: Samples, rank: nat, p: Pass)
  {
    && p.consumed <= |sizes|
    && p.nsample == SeenAfter(sizes[..p.consumed], nchunk)
    && (forall k | 0 <= k < p.consumed :: !Reached(SeenAfter(sizes[..k], nchunk), samples))
    && (p.consumed < |sizes| ==> Reached(p.nsample, samples))
    && p.progress == ProgressLines(p.consumed, rank, ProgressRate(|sizes|))
  }

  /** `for ibatch, batch in enumerate(dataloader): if nsample >= samples: break ...`. */
  method BoundedPass(sizes: seq<nat>, samples: Samples, nchunk: nat, rank: nat) returns (p: Pass)
    ensures StopsAtBound(sizes, nchunk, samples, rank, p)
  {
    var rate := ProgressRate(|sizes|);
    var consumed, nsample, progress := 0, 0, [];
    while consumed < |sizes| && !Reached(nsample, samples)
      invariant consumed <= |sizes|
      invariant nsample == SeenAfter(sizes[..consumed], nchunk)
      invariant forall k | 0 <= k < consumed :: !Reached(SeenAfter(sizes[..k], nchunk), samples)
      invariant progress == ProgressLines(consumed, rank, rate)
    {
      assert sizes[..consumed + 1][..consumed] == sizes[..consumed];
      nsample := nsample + sizes[consumed] * nchunk;
      MultipleMod(consumed + 1, rate);
      if rank == 0 && (consumed + 1) % rate == 0 {
        progress := progress + [consumed];
      }
      consumed := consumed + 1;
    }
    p := Pass(consumed, nsample, progress);
  }

  /** Seen samples never decrease as more batches are consumed. */
  lemma {:induction false} SeenMonotone(sizes: seq<nat>, nchunk: nat, j: nat, k: nat)
    requires j <= k <= |sizes|
    ensures SeenAfter(sizes[..j], nchunk) <= SeenAfter(sizes[..k], nchunk)
    decreases k - j
  {
    if j < k {
      SeenMonotone(sizes, nchunk, j, k - 1);
      assert sizes[..k][..k - 1] == sizes[..k - 1];
    }
  }
}

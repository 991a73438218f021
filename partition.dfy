/** The static round-robin assignment of bands to worker threads and of
    worker threads to CPU cores. Nothing here is materialised by the
    program: every worker recomputes its own share from its index. */
module Partition {

  /** The worker that owns a band: band mod num_threads. */
  function Owner(band: nat, numThreads: nat): (t: nat)
    requires numThreads > 0
    ensures t < numThreads
    ensures band < numThreads ==> t == band
  {
    band % numThreads
  }

  /** The core a worker pins itself to: thread_id mod num_processors. */
  function CoreOf(threadId: nat, numProcessors: nat): (core: nat)
    requires numProcessors > 0
    ensures core < numProcessors
    ensures threadId < numProcessors ==> core == threadId
  {
    threadId % numProcessors
  }

  /** The indices from, from + step, from + 2*step, ... below limit, in
      the order a strided loop visits them. */
  function Stride(from: nat, step: nat, limit: nat): seq<nat>
    requires step > 0
    decreases limit - from
  {
    if from >= limit then [] else [from] + Stride(from + step, step, limit)
  }

  /** The bands worker t visits: t, t + n, t + 2n, ... below num_bands. */
  function OwnedBands(t: nat, numThreads: nat, numBands: nat): seq<nat>
    requires numThreads > 0
  {
    Stride(t, numThreads, numBands)
  }

  /** A strided walk visits exactly the indices in [from, limit) that are a
      whole number of steps past from. */
  lemma {:induction false} StrideMembers(from: nat, step: nat, limit: nat, b: nat)
    requires step > 0
    ensures b in Stride(from, step, limit) <==> from <= b < limit && (b - from) % step == 0
    decreases limit - from
  {
    if from < limit {
      StrideMembers(from + step, step, limit, b);
      if b >= from + step {
        ShiftMod(b - from - step, step);
      } else if from < b {
        assert (b - from) % step == b - from;
      }
    }
  }

  /** A strided walk is strictly ascending, each index one step past the last. */
  lemma {:induction false} StrideAscending(from: nat, step: nat, limit: nat)
    requires step > 0
    ensures forall i :: 0 <= i < |Stride(from, step, limit)| ==> Stride(from, step, limit)[i] == from + i * step
    decreases limit - from
  {
    if from < limit {
      StrideAscending(from + step, step, limit);
      var s := Stride(from, step, limit);
      forall i | 0 <= i < |s| ensures s[i] == from + i * step {
        if i > 0 {
          assert s[i] == Stride(from + step, step, limit)[i - 1];
          assert from + step + (i - 1) * step == from + i * step;
        }
      }
    }
  }

  /** Adding one step does not change the remainder. */
  lemma ShiftMod(x: nat, step: nat)
    requires step > 0
    ensures (x + step) % step == x % step
  {
    DivModUnique(x + step, step, x / step + 1, x % step);
  }

  /** Quotient and remainder are determined by any decomposition x == q*n + r. */
  lemma DivModUnique(x: int, n: int, q: int, r: int)
    requires n > 0 && 0 <= r < n && x == q * n + r
    ensures x / n == q && x % n == r
  {
    var q0, r0 := x / n, x % n;
    assert x == q0 * n + r0;
    if q > q0 {
      assert (q - q0) * n == q * n - q0 * n;
      MulAtLeast(q - q0, n);
    } else if q < q0 {
      assert (q0 - q) * n == q0 * n - q * n;
      MulAtLeast(q0 - q, n);
    }
  }

  lemma MulAtLeast(d: int, n: int)
    requires d >= 1 && n > 0
    ensures d * n >= n
  {
  }

  /** Worker t visits exactly the bands below num_bands that it owns. */
  lemma OwnedBandsExact(t: nat, numThreads: nat, numBands: nat, b: nat)
    requires t < numThreads
    ensures b in OwnedBands(t, numThreads, numBands) <==> b < numBands && Owner(b, numThreads) == t
  {
    StrideMembers(t, numThreads, numBands, b);
    ResidueOfOffset(t, numThreads, b);
  }

  /** For t below n: b is a multiple of n past t exactly when b mod n is t. */
  lemma ResidueOfOffset(t: nat, n: nat, b: nat)
    requires t < n
    ensures (t <= b && (b - t) % n == 0) <==> b % n == t
  {
    if t <= b && (b - t) % n == 0 {
      DivModUnique(b, n, (b - t) / n, t);
    }
    if b % n == t {
      DivModUnique(b - t, n, b / n, 0);
    }
  }

  /** No two workers share a band: the write sets are pairwise disjoint. */
  lemma WriteSetsDisjoint(t1: nat, t2: nat, numThreads: nat, numBands: nat)
    requires t1 < numThreads && t2 < numThreads && t1 != t2
    ensures forall b :: b in OwnedBands(t1, numThreads, numBands) ==> b !in OwnedBands(t2, numThreads, numBands)
  {
    forall b | b in OwnedBands(t1, numThreads, numBands)
      ensures b !in OwnedBands(t2, numThreads, numBands)
    {
      OwnedBandsExact(t1, numThreads, numBands, b);
      OwnedBandsExact(t2, numThreads, numBands, b);
    }
  }

  /** Every band is visited by its owner, so the write sets together cover
      all bands whatever the number of threads. */
  lemma WriteSetsCover(numThreads: nat, numBands: nat, b: nat)
    requires numThreads > 0 && b < numBands
    ensures Owner(b, numThreads) < numThreads
    ensures b in OwnedBands(Owner(b, numThreads), numThreads, numBands)
  {
    OwnedBandsExact(Owner(b, numThreads), numThreads, numBands, b);
  }
}

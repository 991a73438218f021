/** The worker threads: each one pins itself to a core and fills the
    band_power slots of the bands it owns. The threads run without locks;
    here they run one after another (RunWorkers), or with their single
    band writes interleaved in any order (RunInterleaved), and both leave
    the same table. */
module Workers {
  import opened BandGeometry
  import opened Partition

  /** The external per-band chain (band-pass synthesis, Hamming window,
      convolution and mean-square power), from the sample buffer, Fs, the
      filter order and a band's two edges to that band's power. */
  type PowerPipeline = (seq<real>, real, nat, real, real) -> real

  /** The argument record handed to each thread. signalData and bandPower
      are shared by all threads of a run. */
  datatype ThreadArgs = ThreadArgs(
    threadId: nat,
    numThreads: nat,
    numProcessors: nat,
    filterOrder: nat,
    numBands: nat,
    fs: real,
    signalData: array<real>,
    numSamples: nat,
    bandPower: array<real>)
  {
    /** The run's configuration as the program checks it on start-up, with
        the buffers the program allocates: a table of num_bands slots that
        is not the sample buffer. */
    predicate ValidConfig() {
      && fs > 0.0
      && filterOrder > 0 && filterOrder % 2 == 0
      && numBands > 0
      && numThreads > 0
      && numProcessors > 0
      && numSamples <= signalData.Length
      && bandPower.Length == numBands
      && signalData != bandPower
    }

    /** The arguments of one of the run's threads. */
    predicate Valid() {
      ValidConfig() && threadId < numThreads
    }

    /** The power the external chain yields for a band of this run. */
    function PowerOf(pipeline: PowerPipeline, band: nat): real
      requires ValidConfig()
      reads signalData
    {
      BandPower(pipeline, signalData[..numSamples], fs, filterOrder, numBands, band)
    }
  }

  /** The power of one band: the pipeline evaluated at that band's edges. */
  function BandPower(pipeline: PowerPipeline, samples: seq<real>, fs: real, filterOrder: nat,
                     numBands: nat, band: nat): real
    requires fs > 0.0 && numBands > 0
  {
    pipeline(samples, fs, filterOrder, BandLow(fs, numBands, band), BandHigh(fs, numBands, band))
  }

  /** One iteration of a worker's loop: compute the band's edges from the
      bandwidth, filter the samples for that band and store the power in
      the band's slot, and in no other. */
  method ProcessBand(a: ThreadArgs, pipeline: PowerPipeline, bandwidth: real, band: nat)
    requires a.ValidConfig() && band < a.numBands
    requires bandwidth == Bandwidth(a.fs, a.numBands)
    modifies a.bandPower
    ensures a.bandPower[..] == old(a.bandPower[..])[band := a.PowerOf(pipeline, band)]
  {
    var low := (band as real) * bandwidth + Epsilon;
    var high := ((band + 1) as real) * bandwidth - Epsilon;
    assert low == BandLow(a.fs, a.numBands, band);
    assert high == BandHigh(a.fs, a.numBands, band);
    a.bandPower[band] := pipeline(a.signalData[..a.numSamples], a.fs, a.filterOrder, low, high);
  }

  /** thread_fn: choose the core thread_id mod num_processors, then visit
      bands thread_id, thread_id + num_threads, ... in ascending order. The
      worker writes exactly the slots of the bands it owns. */
  method ThreadFn(a: ThreadArgs, pipeline: PowerPipeline) returns (core: nat, ghost visited: seq<nat>)
    requires a.Valid()
    modifies a.bandPower
    ensures core == CoreOf(a.threadId, a.numProcessors)
    ensures visited == OwnedBands(a.threadId, a.numThreads, a.numBands)
    ensures forall b :: 0 <= b < a.numBands ==>
      a.bandPower[b] == if Owner(b, a.numThreads) == a.threadId then a.PowerOf(pipeline, b) else old(a.bandPower[b])
  {
    core := a.threadId % a.numProcessors;
    var fc := a.fs / 2.0;
    var bandwidth := fc / (a.numBands as real);
    assert bandwidth == Bandwidth(a.fs, a.numBands);
    var band := a.threadId;
    visited := [];
    while band < a.numBands
      invariant visited + Stride(band, a.numThreads, a.numBands) == OwnedBands(a.threadId, a.numThreads, a.numBands)
      invariant forall b :: 0 <= b < a.numBands ==>
        a.bandPower[b] == if b in visited then a.PowerOf(pipeline, b) else old(a.bandPower[b])
      decreases a.numBands - band
    {
      ProcessBand(a, pipeline, bandwidth, band);
      assert visited + [band] + Stride(band + a.numThreads, a.numThreads, a.numBands)
          == visited + Stride(band, a.numThreads, a.numBands);
      visited := visited + [band];
      band := band + a.numThreads;
    }
    forall b | 0 <= b < a.numBands
      ensures b in visited <==> Owner(b, a.numThreads) == a.threadId
    {
      OwnedBandsExact(a.threadId, a.numThreads, a.numBands, b);
    }
  }

  /** Run whole workers one after another, in any order in which every
      thread index appears (repeats allowed). Whatever the order and the
      number of threads, every slot ends up holding its band's power. */
  method RunWorkers(shared: ThreadArgs, order: seq<nat>, pipeline: PowerPipeline) returns (cores: seq<nat>)
    requires shared.ValidConfig()
    requires forall i :: 0 <= i < |order| ==> order[i] < shared.numThreads
    requires forall t :: 0 <= t < shared.numThreads ==> t in order
    modifies shared.bandPower
    ensures |cores| == |order|
    ensures forall i :: 0 <= i < |order| ==> cores[i] == CoreOf(order[i], shared.numProcessors)
    ensures forall b :: 0 <= b < shared.numBands ==> shared.bandPower[b] == shared.PowerOf(pipeline, b)
  {
    cores := [];
    var i := 0;
    while i < |order|
      invariant 0 <= i <= |order|
      invariant |cores| == i
      invariant forall j :: 0 <= j < i ==> cores[j] == CoreOf(order[j], shared.numProcessors)
      invariant forall b :: 0 <= b < shared.numBands ==>
        shared.bandPower[b] == if Owner(b, shared.numThreads) in order[..i] then shared.PowerOf(pipeline, b) else old(shared.bandPower[b])
    {
      var core, visited := ThreadFn(shared.(threadId := order[i]), pipeline);
      assert order[..i + 1] == order[..i] + [order[i]];
      cores := cores + [core];
      i := i + 1;
    }
    assert order[..i] == order;
  }

  /** Two bands with the same owner less than num_threads apart are the same band. */
  lemma SameOwnerWithinStride(x: nat, b: nat, numThreads: nat)
    requires numThreads > 0
    requires x <= b < x + numThreads
    requires Owner(b, numThreads) == Owner(x, numThreads)
    ensures b == x
  {
    var q, t := x / numThreads, x % numThreads;
    var d := b - x;
    if t + d < numThreads {
      DivModUnique(b, numThreads, q, t + d);
    } else {
      DivModUnique(b, numThreads, q + 1, t + d - numThreads);
    }
  }

  /** A table in which exactly the bands that their owner has passed
      (the bands below next[owner]) hold their power; the others still hold
      their initial value. */
  ghost predicate FilledUpTo(shared: ThreadArgs, pipeline: PowerPipeline, next: seq<nat>, init: seq<real>)
    requires shared.ValidConfig()
    reads shared.signalData, shared.bandPower
  {
    && |next| == shared.numThreads
    && |init| == shared.numBands
    && (forall t :: 0 <= t < shared.numThreads ==> t <= next[t] && Owner(next[t], shared.numThreads) == t)
    && (forall b :: 0 <= b < shared.numBands ==>
          shared.bandPower[b] == if b < next[Owner(b, shared.numThreads)] then shared.PowerOf(pipeline, b) else init[b])
  }

  /** One scheduling step: thread t does its next band, if it has one left. */
  method InterleavedStep(shared: ThreadArgs, pipeline: PowerPipeline, t: nat, next: seq<nat>, ghost init: seq<real>)
    returns (next': seq<nat>)
    requires shared.ValidConfig() && t < shared.numThreads
    requires FilledUpTo(shared, pipeline, next, init)
    modifies shared.bandPower
    ensures FilledUpTo(shared, pipeline, next', init)
    ensures next' == if next[t] < shared.numBands then next[t := next[t] + shared.numThreads] else next
  {
    var n := shared.numThreads;
    var band := next[t];
    next' := next;
    if band < shared.numBands {
      var fc := shared.fs / 2.0;
      var bandwidth := fc / (shared.numBands as real);
      assert bandwidth == Bandwidth(shared.fs, shared.numBands);
      ProcessBand(shared.(threadId := t), pipeline, bandwidth, band);
      ShiftMod(band, n);
      next' := next[t := band + n];
      forall b | 0 <= b < shared.numBands
        ensures shared.bandPower[b]
             == if b < next'[Owner(b, n)] then shared.PowerOf(pipeline, b) else init[b]
      {
        if Owner(b, n) == t && band <= b < band + n {
          SameOwnerWithinStride(band, b, n);
        }
      }
    }
  }

  /** The threads' single band writes interleaved in any order: step k lets
      thread sched[k] do its next band, if it has one left. next[t] is the
      next band of thread t (its loop variable). A slot holds its band's
      power exactly when its owner has passed it; once every thread has
      run past the last band (the join), every slot holds its power. */
  method RunInterleaved(shared: ThreadArgs, sched: seq<nat>, pipeline: PowerPipeline) returns (next: seq<nat>)
    requires shared.ValidConfig()
    requires forall k :: 0 <= k < |sched| ==> sched[k] < shared.numThreads
    modifies shared.bandPower
    ensures |next| == shared.numThreads
    ensures forall t :: 0 <= t < shared.numThreads ==> t <= next[t] && Owner(next[t], shared.numThreads) == t
    ensures forall b :: 0 <= b < shared.numBands ==>
      shared.bandPower[b] == if b < next[Owner(b, shared.numThreads)] then shared.PowerOf(pipeline, b) else old(shared.bandPower[b])
    ensures (forall t :: 0 <= t < shared.numThreads ==> next[t] >= shared.numBands) ==>
      forall b :: 0 <= b < shared.numBands ==> shared.bandPower[b] == shared.PowerOf(pipeline, b)
  {
    ghost var init := shared.bandPower[..];
    next := seq(shared.numThreads, t => t);
    var k := 0;
    while k < |sched|
      invariant 0 <= k <= |sched|
      invariant FilledUpTo(shared, pipeline, next, init)
    {
      next := InterleavedStep(shared, pipeline, sched[k], next, init);
      k := k + 1;
    }
  }
}

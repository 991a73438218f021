/** The scan as the program's main routine runs it once the arguments are
    parsed and the signal is loaded: remove the DC component, allocate a
    zeroed band-power table, start one worker per thread index and wait for
    them all, then run the detection loop over the table. */
module BandScan {
  import opened Reductions
  import opened Partition
  import opened Workers
  import opened Detection

  /** The table every run must produce: each band's power, computed from the
      DC-free samples. It does not depend on the number of threads or cores. */
  function ExpectedTable(pipeline: PowerPipeline, samples: seq<real>, fs: real, filterOrder: nat, numBands: nat)
    : (table: seq<real>)
    requires fs > 0.0 && numBands > 0
    ensures |table| == numBands
    ensures forall b :: 0 <= b < numBands ==> table[b] == BandPower(pipeline, samples, fs, filterOrder, numBands, b)
  {
    seq(numBands, b requires 0 <= b < numBands => BandPower(pipeline, samples, fs, filterOrder, numBands, b))
  }

  /** One run of the scan. The requires clauses are the start-up checks of
      the configuration; the samples are the loaded signal. */
  method Scan(samples: array<real>, numSamples: nat, fs: real, filterOrder: nat,
              numBands: nat, numThreads: nat, numProcessors: nat, pipeline: PowerPipeline)
    returns (bandPower: array<real>, cores: seq<nat>, lines: seq<BandLine>, v: Verdict)
    requires numSamples <= samples.Length
    requires fs > 0.0
    requires filterOrder > 0 && filterOrder % 2 == 0
    requires numBands > 0 && numThreads > 0 && numProcessors > 0
    modifies samples
    ensures numSamples > 0 ==>
      samples[..numSamples] == Shifted(old(samples[..numSamples]), Mean(old(samples[..numSamples])))
    ensures samples[numSamples..] == old(samples[numSamples..])
    ensures fresh(bandPower)
    ensures bandPower[..] == ExpectedTable(pipeline, samples[..numSamples], fs, filterOrder, numBands)
    ensures |cores| == numThreads
    ensures forall t :: 0 <= t < numThreads ==> cores[t] == CoreOf(t, numProcessors)
    ensures |lines| == numBands
    ensures forall b :: 0 <= b < numBands ==> lines[b] == Line(bandPower[..], fs, b)
    ensures v == ExpectedVerdict(bandPower[..], fs)
  {
    RemoveDc(samples, numSamples);

    bandPower := new real[numBands](_ => 0.0);
    var shared := ThreadArgs(0, numThreads, numProcessors, filterOrder, numBands, fs,
                             samples, numSamples, bandPower);
    var order := seq(numThreads, t => t);
    forall t | 0 <= t < numThreads
      ensures t in order
    {
      assert order[t] == t;
    }
    cores := RunWorkers(shared, order, pipeline);

    lines, v := DetectionScan(bandPower, fs);
  }
}

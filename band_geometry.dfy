/** Band geometry shared by the workers and by the detection scan:
    the spectrum [0, Fs/2] is cut into num_bands equal bands, and each
    band's filter edges are pulled inward by a small guard so that no
    filter is evaluated exactly at DC or at the Nyquist frequency. */
module BandGeometry {

  /** Guard added to a band's low edge and taken from its high edge. */
  const Epsilon: real := 0.0001
  /** The target ("alien") window, in Hz. */
  const AliensLow: real := 50000.0
  const AliensHigh: real := 150000.0
  /** A band is anomalous when its power exceeds this multiple of the mean. */
  const Threshold: real := 2.0
  /** Longest star bar printed for a band. */
  const MaxWidth: int := 40

  /** The width of one band: the Nyquist range Fs/2 split num_bands ways. */
  function Bandwidth(fs: real, numBands: nat): (bw: real)
    requires fs > 0.0 && numBands > 0
    ensures bw > 0.0
    ensures bw * (numBands as real) == fs / 2.0
  {
    (fs / 2.0) / (numBands as real)
  }

  /** The low filter edge of a band. It is always positive, so a value
      below zero can serve as a "not yet set" sentinel. */
  function BandLow(fs: real, numBands: nat, band: nat): (low: real)
    requires fs > 0.0 && numBands > 0
    ensures low >= Epsilon
  {
    (band as real) * Bandwidth(fs, numBands) + Epsilon
  }

  /** The high filter edge of a band: one bandwidth above its low edge,
      less the two guards. Every band of the run ends below the Nyquist
      frequency. */
  function BandHigh(fs: real, numBands: nat, band: nat): (high: real)
    requires fs > 0.0 && numBands > 0
    ensures high == BandLow(fs, numBands, band) + Bandwidth(fs, numBands) - 2.0 * Epsilon
    ensures band < numBands ==> high <= fs / 2.0 - Epsilon
  {
    ((band + 1) as real) * Bandwidth(fs, numBands) - Epsilon
  }

  /** The detection test on a band: one of its two edges lies in the target
      window. A band that passes it overlaps the window. */
  predicate InWindow(low: real, high: real)
    ensures low <= high && InWindow(low, high) ==> low <= AliensHigh && AliensLow <= high
  {
    (AliensLow <= low <= AliensHigh) || (AliensLow <= high <= AliensHigh)
  }

  /** Consecutive bands are separated by exactly twice the guard. */
  lemma EdgesAdjacent(fs: real, numBands: nat, band: nat)
    requires fs > 0.0 && numBands > 0
    ensures BandLow(fs, numBands, band + 1) - BandHigh(fs, numBands, band) == 2.0 * Epsilon
  {
  }

  /** The first band starts a guard above DC and the last band ends a guard
      below the Nyquist frequency. */
  lemma BandsSpanNyquist(fs: real, numBands: nat)
    requires fs > 0.0 && numBands > 0
    ensures BandLow(fs, numBands, 0) == Epsilon
    ensures BandHigh(fs, numBands, numBands - 1) == fs / 2.0 - Epsilon
  {
  }

  /** Edges grow with the band index, one bandwidth per band. */
  lemma EdgesIncrease(fs: real, numBands: nat, b1: nat, b2: nat)
    requires fs > 0.0 && numBands > 0 && b1 < b2
    ensures BandLow(fs, numBands, b2) - BandLow(fs, numBands, b1)
         == ((b2 - b1) as real) * Bandwidth(fs, numBands)
    ensures BandLow(fs, numBands, b1) < BandLow(fs, numBands, b2)
    ensures BandHigh(fs, numBands, b1) < BandHigh(fs, numBands, b2)
  {
  }
}

/** The detection heuristic run over the completed band-power table: for
    each band, in ascending frequency order, recompute its edges, draw a
    star bar proportional to its power, and flag it when one of its edges
    lies in the target window and its power exceeds twice the mean. The
    verdict spans from the low edge of the first flagged band to the high
    edge of the last one, whatever lies between them. */
module Detection {
  import opened BandGeometry
  import opened Reductions

  datatype Option<T> = None | Some(value: T)

  /** The final verdict line: no detection, or the range [low, high]. */
  datatype Verdict = NoAliens | PossibleAliens(low: real, high: real)
  {
    /** The reported centre of a detection, which lies inside its range. */
    function Center(): (c: real)
      requires PossibleAliens?
      ensures low <= high ==> low <= c <= high
    {
      (low + high) / 2.0
    }
  }

  /** What the scan reports for one band: its index, edges, power, the
      length of its star bar, and whether it was flagged ("WOW") or not ("meh"). */
  datatype BandLine = BandLine(band: nat, low: real, high: real, power: real, stars: nat, wow: bool)

  /** Band b of the table p is anomalous: an edge in the window and a power
      above the threshold times the mean power. A band that is the only one
      is its own mean, so it can only be flagged with a negative power. */
  predicate Flagged(p: seq<real>, fs: real, b: nat)
    requires fs > 0.0 && b < |p|
    ensures Flagged(p, fs, b) && |p| == 1 ==> p[b] < 0.0
  {
    SingletonMeanMax(p[0]);
    assert |p| == 1 ==> p == [p[0]];
    && InWindow(BandLow(fs, |p|, b), BandHigh(fs, |p|, b))
    && p[b] > Threshold * Mean(p)
  }

  /** The first flagged band among bands [0, k). */
  function FirstFlaggedBelow(p: seq<real>, fs: real, k: nat): (r: Option<nat>)
    requires fs > 0.0 && k <= |p|
    ensures r.Some? ==> r.value < k && Flagged(p, fs, r.value)
    ensures r.Some? ==> forall c :: 0 <= c < r.value ==> !Flagged(p, fs, c)
    ensures r.None? ==> forall c :: 0 <= c < k ==> !Flagged(p, fs, c)
  {
    if k == 0 then None
    else
      match FirstFlaggedBelow(p, fs, k - 1)
      case Some(f) => Some(f)
      case None => if Flagged(p, fs, k - 1) then Some(k - 1) else None
  }

  /** The last flagged band among bands [0, k). */
  function LastFlaggedBelow(p: seq<real>, fs: real, k: nat): (r: Option<nat>)
    requires fs > 0.0 && k <= |p|
    ensures r.Some? ==> r.value < k && Flagged(p, fs, r.value)
    ensures r.Some? ==> forall c :: r.value < c < k ==> !Flagged(p, fs, c)
    ensures r.None? ==> forall c :: 0 <= c < k ==> !Flagged(p, fs, c)
  {
    if k == 0 then None
    else if Flagged(p, fs, k - 1) then Some(k - 1)
    else LastFlaggedBelow(p, fs, k - 1)
  }

  /** The verdict the scan must reach on the table p: a detection exactly
      when some band is flagged, reaching from the first flagged band's low
      edge to the last flagged band's high edge. */
  function ExpectedVerdict(p: seq<real>, fs: real): (v: Verdict)
    requires fs > 0.0 && |p| > 0
    ensures v.PossibleAliens? <==> exists b :: 0 <= b < |p| && Flagged(p, fs, b)
  {
    match (FirstFlaggedBelow(p, fs, |p|), LastFlaggedBelow(p, fs, |p|))
    case (Some(f), Some(l)) => PossibleAliens(BandLow(fs, |p|, f), BandHigh(fs, |p|, l))
    case _ => NoAliens
  }

  /** The number of stars the bar loop prints for a bar of length x: the
      count of integers i >= 0 with i < x, that is, the least n >= x. */
  function StarCount(x: real): (n: nat)
    ensures (n as real) >= x
    ensures n == 0 || ((n - 1) as real) < x
  {
    if x <= 0.0 then 0
    else if (x.Floor as real) == x then x.Floor
    else x.Floor + 1
  }

  /** The star bar of a band: MaxWidth * power / max stars, rounded up.
      A zero maximum means every power is at most zero, and the program's
      bar length is then not a positive number: no star is printed. */
  function BarLength(power: real, maxPower: real): (n: nat)
    requires power <= maxPower
    ensures maxPower >= 0.0 && power <= 0.0 ==> n == 0
    ensures power > 0.0 ==> n >= 1
  {
    if maxPower == 0.0 then 0
    else
      assert maxPower > 0.0 && power <= 0.0 ==> power / maxPower <= 0.0;
      StarCount((MaxWidth as real) * (power / maxPower))
  }

  /** The report line for band b of the table p. */
  function Line(p: seq<real>, fs: real, b: nat): BandLine
    requires fs > 0.0 && b < |p|
  {
    BandLine(b, BandLow(fs, |p|, b), BandHigh(fs, |p|, b), p[b], BarLength(p[b], Max(p)), Flagged(p, fs, b))
  }

  /** The star-printing loop: one star per integer i >= 0 below x. */
  method CountStars(x: real) returns (n: nat)
    ensures (n as real) >= x
    ensures n == 0 || ((n - 1) as real) < x
  {
    n := 0;
    while (n as real) < x
      invariant n == 0 || ((n - 1) as real) < x
      decreases x.Floor + 1 - n
    {
      n := n + 1;
    }
  }

  /** The bar of one band: MaxWidth * (power / max) stars, none when the
      maximum is zero. */
  method PrintBar(power: real, maxPower: real) returns (stars: nat)
    requires power <= maxPower
    ensures stars == BarLength(power, maxPower)
  {
    if maxPower == 0.0 {
      stars := CountStars(0.0);
    } else {
      stars := CountStars((MaxWidth as real) * (power / maxPower));
    }
  }

  /** The scan state after bands [0, k): wow tells whether one of them was
      flagged; lb is then the low edge of the first flagged band and ub the
      high edge of the last one; before that, lb is still negative. */
  ghost predicate ScannedUpTo(p: seq<real>, fs: real, k: nat, wow: int, lb: real, ub: real)
    requires fs > 0.0 && k <= |p|
  {
    && (wow == 0 || wow == 1)
    && (wow == 0 <==> FirstFlaggedBelow(p, fs, k).None?)
    && (wow == 0 ==> lb < 0.0)
    && (wow == 1 ==> lb == BandLow(fs, |p|, FirstFlaggedBelow(p, fs, k).value))
    && (wow == 1 ==> LastFlaggedBelow(p, fs, k).Some?)
    && (wow == 1 ==> ub == BandHigh(fs, |p|, LastFlaggedBelow(p, fs, k).value))
  }

  /** One pass of the detection loop: recompute the band's edges, draw its
      bar, test the window and the threshold, and update wow, lb and ub. */
  method ScanBand(bandPower: array<real>, fs: real, bandwidth: real, maxBandPower: real, avgBandPower: real,
                  band: nat, wow: int, lb: real, ub: real)
    returns (line: BandLine, wow': int, lb': real, ub': real)
    requires fs > 0.0 && band < bandPower.Length
    requires bandwidth == Bandwidth(fs, bandPower.Length)
    requires maxBandPower == Max(bandPower[..]) && avgBandPower == Mean(bandPower[..])
    requires ScannedUpTo(bandPower[..], fs, band, wow, lb, ub)
    ensures line == Line(bandPower[..], fs, band)
    ensures ScannedUpTo(bandPower[..], fs, band + 1, wow', lb', ub')
  {
    ghost var p := bandPower[..];
    var bandLow := (band as real) * bandwidth + Epsilon;
    var bandHigh := ((band + 1) as real) * bandwidth - Epsilon;
    assert bandLow == BandLow(fs, |p|, band);
    assert bandHigh == BandHigh(fs, |p|, band);

    var stars := PrintBar(bandPower[band], maxBandPower);

    wow', lb', ub' := wow, lb, ub;
    var flagged := false;
    if (bandLow >= AliensLow && bandLow <= AliensHigh) || (bandHigh >= AliensLow && bandHigh <= AliensHigh) {
      if bandPower[band] > Threshold * avgBandPower {
        flagged := true;
        wow' := 1;
        if lb' < 0.0 {
          lb' := bandLow;
        }
        ub' := bandHigh;
      }
    }
    assert flagged == Flagged(p, fs, band);
    line := BandLine(band, bandLow, bandHigh, bandPower[band], stars, flagged);
  }

  /** The detection loop of the program's main routine, over the completed
      table: max and mean first, then one report line per band, the
      flagged state, and the first-low/last-high bounds with -1 meaning
      "not yet set". */
  method DetectionScan(bandPower: array<real>, fs: real) returns (lines: seq<BandLine>, v: Verdict)
    requires fs > 0.0 && bandPower.Length > 0
    ensures |lines| == bandPower.Length
    ensures forall b :: 0 <= b < |lines| ==> lines[b] == Line(bandPower[..], fs, b)
    ensures forall b :: 0 <= b < |lines| ==>
      (lines[b].wow <==> InWindow(lines[b].low, lines[b].high) && lines[b].power > Threshold * Mean(bandPower[..]))
    ensures v == ExpectedVerdict(bandPower[..], fs)
  {
    var numBands := bandPower.Length;
    var fc := fs / 2.0;
    var bandwidth := fc / (numBands as real);
    var maxBandPower := MaxOf(bandPower, numBands);
    var avgBandPower := AvgOf(bandPower, numBands);
    assert bandPower[..numBands] == bandPower[..];

    var lb, ub := -1.0, -1.0;
    var wow := 0;
    lines := [];
    var band := 0;
    while band < numBands
      invariant 0 <= band <= numBands
      invariant |lines| == band
      invariant forall b :: 0 <= b < band ==> lines[b] == Line(bandPower[..], fs, b)
      invariant ScannedUpTo(bandPower[..], fs, band, wow, lb, ub)
    {
      var line;
      line, wow, lb, ub := ScanBand(bandPower, fs, bandwidth, maxBandPower, avgBandPower, band, wow, lb, ub);
      lines := lines + [line];
      band := band + 1;
    }

    if wow == 1 {
      v := PossibleAliens(lb, ub);
    } else {
      v := NoAliens;
    }
  }

  /** The verdict is fixed by the first and the last flagged band alone:
      flagged or quiet bands between them do not split the range. */
  lemma VerdictSpansFirstToLast(p: seq<real>, fs: real, f: nat, l: nat)
    requires fs > 0.0 && f <= l < |p|
    requires Flagged(p, fs, f) && Flagged(p, fs, l)
    requires forall c :: 0 <= c < f ==> !Flagged(p, fs, c)
    requires forall c :: l < c < |p| ==> !Flagged(p, fs, c)
    ensures ExpectedVerdict(p, fs) == PossibleAliens(BandLow(fs, |p|, f), BandHigh(fs, |p|, l))
  {
  }

  /** Two flagged bands with quiet bands between them yield one range from
      the first one's low edge to the second one's high edge. */
  lemma GapIsSpanned(p: seq<real>, fs: real, i: nat, j: nat)
    requires fs > 0.0 && i < j < |p|
    requires forall c :: 0 <= c < |p| ==> (Flagged(p, fs, c) <==> c == i || c == j)
    ensures ExpectedVerdict(p, fs) == PossibleAliens(BandLow(fs, |p|, i), BandHigh(fs, |p|, j))
  {
    VerdictSpansFirstToLast(p, fs, i, j);
  }

  /** A single flagged band is reported as its own range, centred on its midpoint. */
  lemma SingleFlaggedBand(p: seq<real>, fs: real, i: nat)
    requires fs > 0.0 && i < |p|
    requires forall c :: 0 <= c < |p| ==> (Flagged(p, fs, c) <==> c == i)
    ensures ExpectedVerdict(p, fs) == PossibleAliens(BandLow(fs, |p|, i), BandHigh(fs, |p|, i))
    ensures ExpectedVerdict(p, fs).Center() == (BandLow(fs, |p|, i) + BandHigh(fs, |p|, i)) / 2.0
  {
    VerdictSpansFirstToLast(p, fs, i, i);
  }

  /** When no band has an edge in the window, there is no detection,
      whatever the powers. */
  lemma OutOfWindowImmunity(p: seq<real>, fs: real)
    requires fs > 0.0 && |p| > 0
    requires forall b :: 0 <= b < |p| ==> !InWindow(BandLow(fs, |p|, b), BandHigh(fs, |p|, b))
    ensures ExpectedVerdict(p, fs) == NoAliens
  {
  }

  /** A band whose edges lie on both sides of the window, one below it and
      one above, has no edge in the window and is never flagged, whatever
      its power. */
  lemma StraddlingBandNeverFlagged(p: seq<real>, fs: real, b: nat)
    requires fs > 0.0 && b < |p|
    requires BandLow(fs, |p|, b) < AliensLow && AliensHigh < BandHigh(fs, |p|, b)
    ensures !Flagged(p, fs, b) && !Line(p, fs, b).wow
  {
  }

  /** At Fs = 1 MHz with two bands, band 0 runs from just above DC to just
      below 250 kHz and band 1 lies wholly above the window: no table of
      powers leads to a detection. */
  lemma TwoWideBandsNeverDetect(p: seq<real>)
    requires |p| == 2
    ensures ExpectedVerdict(p, 1000000.0) == NoAliens
  {
  }

  /** With one band of non-negative power the mean is that power, which is
      never above twice itself: there is no detection. */
  lemma SingleBandNoAliens(p: seq<real>, fs: real)
    requires fs > 0.0 && |p| == 1 && p[0] >= 0.0
    ensures ExpectedVerdict(p, fs) == NoAliens
  {
  }

  /** A bar is never longer than MaxWidth, and the loudest band's bar is
      exactly MaxWidth, when powers are non-negative and the maximum is positive. */
  lemma BarLengthBounded(power: real, maxPower: real)
    requires 0.0 <= power <= maxPower && maxPower > 0.0
    ensures BarLength(power, maxPower) <= MaxWidth
    ensures power == maxPower ==> BarLength(power, maxPower) == MaxWidth
  {
    assert power / maxPower <= 1.0;
    var n := BarLength(power, maxPower);
    assert n == 0 || ((n as int - 1) as real) < MaxWidth as real;
    if power == maxPower {
      assert power / maxPower == 1.0;
    }
  }
}

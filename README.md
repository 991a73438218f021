# p_band_scan — a Dafny model of the parallel band-power scanner

`p_band_scan` looks for "possible aliens" in a sampled signal. It removes the
signal's DC component. It cuts the spectrum `[0, Fs/2]` into `num_bands`
equal bands and starts `num_threads` worker threads. Worker `t` handles bands
`t, t+n, t+2n, …`: for each one it builds a band-pass filter, applies a
Hamming window, convolves the signal and stores the mean-square power in
`band_power[band]`. Workers take no locks. Worker `t` is pinned to core
`t mod num_processors`. After the join, the main routine finds the largest
and the mean band power. It then walks the bands in frequency order. It
prints each band's edges, its power and a star bar. It flags ("WOW") a band
that has one edge in `[50000, 150000]` Hz and a power above `2.0 ×` the mean.
The verdict runs from the low edge of the first flagged band to the high edge
of the last flagged band, and its centre is their midpoint.

The model has six modules, one per component of the program:

- `BandGeometry` (`band_geometry.dfy`): the constants, the band width and
  the band edges. Workers and the detection loop share these formulas.
- `Partition` (`partition.dfy`): the round-robin owner `band mod n`, the core
  index `thread_id mod num_processors`, and the strided band sequence of a
  worker. It proves that the write sets of the workers are disjoint and
  cover every band.
- `Reductions` (`reductions.dfy`): `max_of`, `avg_of`, `avg_power` and
  `remove_dc`. These are loops over an `array<real>`, checked against the
  specification functions `Max`, `Sum`, `Mean` and `Shifted`.
- `Workers` (`workers.dfy`): the `thread_args_t` record, one worker
  (`ThreadFn`), all workers run in any order (`RunWorkers`), and any
  interleaving of the workers' single band writes (`RunInterleaved`).
- `Detection` (`detection.dfy`): the detection loop with its `wow`, `lb`
  and `ub` state and the star bar. `ExpectedVerdict` is a separate
  specification of the verdict: "first flagged low edge / last flagged
  high edge".
- `BandScan` (`band_scan.dfy`): the main routine after loading. It runs DC
  removal, a zeroed table, the workers started in index order, and the scan.
  Its postcondition states the table and the verdict without mentioning
  `num_threads` or `num_processors`.

The filter chain (`generate_band_pass`, `hamming_window` and
`convolve_and_compute_power`) is not part of this model. It enters as a
function-typed parameter `PowerPipeline`, which maps the samples, `Fs`, the
filter order and a band's two edges to that band's power. All arithmetic is
on Dafny `real`s.

Three behaviours of the code are easy to misread as something simpler; the
model keeps what the code does:

- A band counts as in the window when one of its two edges lies in
  `[50000, 150000]` (p_band_scan.c:184-185). Overlapping the window is not
  enough. A band wider than the window that contains it on both sides is
  never flagged (`Detection.StraddlingBandNeverFlagged`). With two bands at
  `Fs` = 1 MHz no table of powers leads to a detection
  (`Detection.TwoWideBandsNeverDetect`).
- The star loop `for (i = 0; i < 40 * (p / max); i++)` prints
  `⌈40·p/max⌉` stars, not `⌊40·p/max⌋` (p_band_scan.c:180-182).
- `remove_dc` does not reject an empty buffer. With `num == 0` it divides
  zero by zero and then subtracts the result from no element, so the buffer
  is unchanged. The model leaves it unchanged.

## Model

| member | source | states |
|---|---|---|
| `BandGeometry.Bandwidth` | p_band_scan.c:40-41 | The band width is positive, and `num_bands` bands of that width exactly fill `[0, Fs/2]`. |
| `BandGeometry.BandLow` | p_band_scan.c:176 | A band's low edge is at least the 0.0001 guard, so it is always positive. This is why the `lb < 0` sentinel test means "no band flagged yet". |
| `BandGeometry.EdgesAdjacent` | p_band_scan.c:176-177 | The next band's low edge lies exactly twice the guard above this band's high edge. |
| `BandGeometry.BandsSpanNyquist` | p_band_scan.c:167-177 | The first band starts one guard above DC. The last band ends one guard below `Fs/2`. |
| `BandGeometry.EdgesIncrease` | p_band_scan.c:176-177 | For two bands, the low edges differ by the index difference times the bandwidth. Both edges strictly increase with the band index. |
| `BandGeometry.BandHigh` | p_band_scan.c:177 | A band's high edge lies one bandwidth above its low edge, less two guards. For every band of the run it is at most `Fs/2` less one guard. |
| `BandGeometry.InWindow` | p_band_scan.c:184-185 | The window test holds when one edge lies in `[50000, 150000]`. A band with `low <= high` that passes it overlaps the window. |
| `Partition.Owner` | p_band_scan.c:44 | The owner `band mod num_threads` is a valid thread index. A band below `num_threads` is owned by the thread with the same index. |
| `Partition.CoreOf` | p_band_scan.c:37 | The pinned core `thread_id mod num_processors` lies in `[0, num_processors)`. |
| `Partition.StrideMembers` | p_band_scan.c:44 | The strided loop `for (b = from; b < limit; b += step)` visits exactly the `b` in `[from, limit)` that are a whole number of steps past `from`. |
| `Partition.StrideAscending` | p_band_scan.c:44 | The i-th band visited is `from + i·step`, so the visits are strictly ascending. |
| `Partition.OwnedBandsExact` | p_band_scan.c:44-47 | Worker `t` visits band `b` exactly when `b < num_bands` and `b mod num_threads == t`. |
| `Partition.WriteSetsDisjoint` | p_band_scan.c:44-47 | Two different workers never visit the same band, so their writes to `band_power` never overlap. |
| `Partition.WriteSetsCover` | p_band_scan.c:148-161 | Every band below `num_bands` is visited by its owner, a worker that is started. |
| `Reductions.Max` | p_band_scan.c:67-76 | The maximum of a non-empty sequence is one of its elements, and no element exceeds it. |
| `Reductions.MaxOf` | p_band_scan.c:67-76 | `max_of` returns an element of `data[0..num)` that is at least every element. It does not modify `data`. |
| `Reductions.AvgOf` | p_band_scan.c:78-85 | `avg_of` returns the sum of `data[0..num)` divided by `num`. It does not modify `data`. |
| `Reductions.AvgPower` | p_band_scan.c:57-65 | `avg_power` returns the sum of the squares divided by `num`. The result is non-negative, and `data` is not modified. |
| `Reductions.RemoveDc` | p_band_scan.c:87-96 | `remove_dc` lowers every element of `data[0..num)` by the original mean, in place. Elements past `num` are unchanged, and `num == 0` changes nothing. |
| `Reductions.SumShifted` | p_band_scan.c:93-95 | Lowering every element by `c` lowers the sum by `num·c`. |
| `Reductions.DcRemovedSumsToZero` | p_band_scan.c:87-96 | After DC removal the samples sum to 0 and their mean is 0. |
| `Reductions.RemoveDcIdempotent` | p_band_scan.c:87-96 | Removing the DC component a second time changes nothing. |
| `Reductions.SumOfSquaresNonnegative` | p_band_scan.c:57-65 | A sum of squares, and therefore the mean-square power, is never negative. |
| `Reductions.MeanAtMostMax` | p_band_scan.c:169-170 | The mean band power never exceeds the maximum band power. |
| `Reductions.SingletonMeanMax` | p_band_scan.c:169-170 | With one band, the maximum and the mean are both that band's power. |
| `Reductions.AggregationExample` | p_band_scan.c:169-170 | For the table `[1, 4, 9]` the maximum is 9 and the mean is 14/3. |
| `Workers.BandPower` | p_band_scan.c:45-47 | Definition, no contract: a band's power is the external chain applied to the samples, `Fs`, the filter order and the band's two edges `BandLow`/`BandHigh`. |
| `Workers.ThreadArgs.PowerOf` | p_band_scan.c:45-47 | Definition, no contract: `BandPower` on the run's first `num_samples` samples, `Fs`, filter order and band count, the same for every thread. |
| `Workers.ProcessBand` | p_band_scan.c:45-47 | One loop pass computes the band's edges from the bandwidth. It writes the pipeline's power for those edges into `band_power[band]` and leaves every other slot unchanged. |
| `Workers.ThreadFn` | p_band_scan.c:32-51 | The worker returns core `thread_id mod num_processors`. It visits exactly its owned bands in ascending order. Afterwards each owned slot holds its band's power, and every other slot holds its old value. |
| `Workers.RunWorkers` | p_band_scan.c:148-165 | Run whole workers in any order that includes every thread index. Afterwards every slot holds its band's power, for any `num_threads`. Worker `i` reports core `order[i] mod num_processors`. |
| `Workers.InterleavedStep` | p_band_scan.c:44-47 | Let thread `t` perform its next band write, if it has one left. This moves `t`'s loop variable on by `num_threads` and keeps the invariant: a slot holds its power exactly when its owner has passed it. |
| `Workers.RunInterleaved` | p_band_scan.c:148-165 | For any interleaving of the threads' single band writes, a slot holds its power exactly when its owner's loop variable has passed it. Otherwise it keeps its initial value. Once every thread has finished, every slot holds its power. |
| `Detection.Verdict.Center` | p_band_scan.c:203 | The reported centre `(lb + ub) / 2` lies inside the range whenever `lb <= ub`. |
| `Detection.Flagged` | p_band_scan.c:184-187 | A band is flagged when one edge is in the window and its power exceeds twice the mean. A band that is the only band can be flagged only with a negative power. |
| `Detection.FirstFlaggedBelow` | p_band_scan.c:190 | The result is the flagged band among `[0, k)` that comes before every other flagged band, or `None` when no band there is flagged. |
| `Detection.LastFlaggedBelow` | p_band_scan.c:191 | The result is the flagged band among `[0, k)` with no flagged band after it, or `None` when no band there is flagged. |
| `Detection.ExpectedVerdict` | p_band_scan.c:184-205 | The verdict reports a detection exactly when some band has an edge in the window and a power above twice the mean. |
| `Detection.BarLength` | p_band_scan.c:180-182 | A band's bar length is `⌈40·p/max⌉`, or 0 when `max` is 0. A band of positive power gets at least one star. With a non-negative maximum, a band of power at most 0 gets none. |
| `Detection.StarCount` | p_band_scan.c:180-182 | The number of integers `i >= 0` with `i < x` is the least natural number `>= x`. |
| `Detection.CountStars` | p_band_scan.c:180-182 | The star loop stops after the least natural number of iterations that is `>= x`. |
| `Detection.PrintBar` | p_band_scan.c:180-182 | A band's bar has `BarLength(power, max)` stars. |
| `Detection.ScanBand` | p_band_scan.c:175-199 | One pass of the detection loop produces the band's report line. It moves the `wow`/`lb`/`ub` state from "bands below `band` scanned" to "bands up to `band` scanned". |
| `Detection.DetectionScan` | p_band_scan.c:167-205 | The loop prints one report line per band: its edges, its power, its bar and its tag. A line is tagged "WOW" exactly when one of its printed edges is in the window and its printed power exceeds twice the mean. The verdict `wow ? [lb, ub] : no aliens` equals `ExpectedVerdict` on the table. |
| `Detection.VerdictSpansFirstToLast` | p_band_scan.c:187-191 | The reported range runs from the first flagged band's low edge to the last flagged band's high edge, whatever lies between them. |
| `Detection.GapIsSpanned` | p_band_scan.c:187-191 | If exactly bands `i < j` are flagged, the result is one range from `low(i)` to `high(j)`, not two. |
| `Detection.SingleFlaggedBand` | p_band_scan.c:187-203 | If exactly one band is flagged, the range is that band's own edges, and the centre is their midpoint. |
| `Detection.OutOfWindowImmunity` | p_band_scan.c:184-197 | If no band has an edge in the window, the verdict is "no aliens" whatever the powers. |
| `Detection.StraddlingBandNeverFlagged` | p_band_scan.c:184-187 | A band with its low edge below the window and its high edge above it is never flagged and its line is never tagged "WOW", whatever its power. |
| `Detection.TwoWideBandsNeverDetect` | p_band_scan.c:176-205 | With `Fs` = 1 MHz and two bands, band 0 straddles the window and band 1 lies above it, so every table of powers yields "no aliens". |
| `Detection.SingleBandNoAliens` | p_band_scan.c:169-191 | With a single band of non-negative power, nothing is flagged and the verdict is "no aliens". |
| `Detection.BarLengthBounded` | p_band_scan.c:180-182 | With `0 <= power <= max` and `max > 0`, a bar has at most 40 stars, and the loudest band's bar has exactly 40. |
| `BandScan.ExpectedTable` | p_band_scan.c:144-165 | The reference table for a sample sequence: `num_bands` slots, slot `b` holding `BandPower` for band `b`. It is a definition. That the samples it is applied to are the DC-free ones is stated by `Scan`'s postcondition. |
| `BandScan.Scan` | p_band_scan.c:141-205 | A whole run removes the DC component and fills the table with `ExpectedTable`. It reports core `t mod num_processors` for each thread and ends with `ExpectedVerdict` of that table. The table, the report lines and the verdict do not depend on `num_threads` or `num_processors`. Only the reported cores do. |

## Left out

- Thread creation, joining and CPU pinning (`pthread_create`, `pthread_join`, `pthread_setaffinity_np`, `cpu_set_t`). Workers run as sequential calls (`RunWorkers`) or as an interleaving of whole band writes (`RunInterleaved`). Only the chosen core index is modelled. Interleavings below the granularity of one slot write are not modelled. They cannot matter, because no two workers write the same slot.
- `generate_band_pass`, `hamming_window` and `convolve_and_compute_power`, from `filter.h`, are not part of this model. Their combined result is the `PowerPipeline` parameter. The per-band stack buffer of `filter_order + 1` coefficients is therefore not modelled.
- Signal loading and release (`load_text_format_signal`, `load_binary_format_signal`, `map_binary_format_signal`, `free_signal`, from `signal.h`) are not part of this model. The same goes for the choice among them by type letter and the failure exits (p_band_scan.c:102-139). `Scan` receives the loaded samples as an array.
- Argument parsing with `atof`/`atoi`, `usage`, and every `printf`. The start-up `assert`s (p_band_scan.c:115-119) become `requires` clauses of `Scan`. Instead of printed text, the model returns each band's report line as data, including the star count, and the verdict.
- IEEE-754 rounding and special values. All arithmetic is on exact reals, so the zero sum after `remove_dc` holds exactly here. Two NaN/infinity cases are modelled by their visible effect. With a zero maximum power, `p / max` is NaN or −∞ and no star is printed, so `BarLength` gives 0. With `num == 0`, `remove_dc` changes nothing.
- C `int` ranges. Band indices, thread indices and the star counter are unbounded naturals, so overflow of `i < 40 * (p / max)` for huge ratios is not modelled.
- `max_of`, `avg_of` and `avg_power` with `num < 1`. `max_of` would read `data[0]` and the averages would divide by zero, so these methods require `num >= 1`. The main routine calls `max_of` and `avg_of` with `num_bands` (p_band_scan.c:169-170), which the start-up check keeps positive. `remove_dc` calls `avg_of` with `num_samples` (p_band_scan.c:89, 142); the model's `RemoveDc` calls `AvgOf` only when `num > 0` and handles `num == 0` as described above. `avg_power` has no caller in this file.

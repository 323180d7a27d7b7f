# SiPMCalib data handling, modelled in Dafny

SiPMCalib is the calibration toolkit of a silicon-photomultiplier (SiPM)
test stand. Around its ROOT/RooFit fits sit small data-handling components.
This project models those components and proves what they promise:

- **Job generator** (`JobGen`, `jobgen.dfy`). The Python script
  `gencondor_runtoy.py` takes the Cartesian product of seven parameter
  lists. For each point it builds a Condor job-file name from
  model-dependent segments, with every `.` replaced by `p`, and fills a
  fixed job template.
- **Waveform decoder** (`Waveforms`, `waveformat.dfy`). `WaveFormat` reads
  lines of hexadecimal digits and assembles one 16-bit sample per `nbits`
  characters with a shift/OR accumulator. It negates the samples when
  asked, then removes single-sample "bit flips" in place. It then answers
  pedestal, area and area-list queries.
- **Low-light data reader** (`SiPMData`, `sipmformat.dfy`). `SiPMFormat`
  decodes two-character signed bytes over a sample window. It builds a
  per-sample baseline from a second file, computes one area per line and
  keeps the areas sorted. A truncated data set keeps the areas below a
  cut.
- **Row containers.**
  - `StdData` (`stdformat.dfy`): the whitespace-separated standard format,
    with selector-driven column extraction, concatenation and reduction.
  - `LedData` (`ledformat.dfy`): the LED luminosity table, stably sorted
    by z, with its scans and extrema.
  - `MonteCarlo` (`mcformat.dfy`): the cache of acceptance models, with
    lookup-or-insert and the `total`/`passed` counters.
- **Settings and selection rules.**
  - `LowLight` (`lowlight.dfy`): the low-light fitter's defaults, the
    1/2/3-value parameter options, the estimation locks and the gating of
    estimates.
  - `NonLinearFit` (`nonlinear.dfy`): the non-linearity fitter's defaults
    and settings, its look-up tables, the reference-row choice, the
    pixel-count rule and the look-up multiplier.
  - `Profiles` (`plotprofile.dfy`): the stability-profile program's
    option pairing, its exactly-two-ranges check, the profile grid and the
    closed-window fill rule.

Shared modules:

- `Wrappers`: `Option` and `Result`.
- `CInt`: C++ integer behaviour, namely two's-complement truncation to
  `int16_t`/`int8_t`, truncating division and signed `char`.
- `Seqs`: filter/map over sequences, a stable insertion sort with its
  correctness lemma, extrema and the Cartesian product.
- `Options`: `usr::ArgumentExtender` modelled as maps from option name to
  values.

Representation choices:

- Measured doubles are `real`s.
- Integer types are unbounded, with every truncation the code relies on
  written out.
- File contents arrive as already-split lines or token rows.
- ROOT objects are plain records, or the list of values filled into them.

## Model

| member | source | states |
|---|---|---|
| JobGen.NatText | SiPMCalc/gencondor_runtoy.py:32 | the decimal text Python prints for a count is never empty |
| JobGen.NatTextDigits | SiPMCalc/gencondor_runtoy.py:32 | that text consists of decimal digits only |
| JobGen.ParseNatText | SiPMCalc/gencondor_runtoy.py:32 | reading the digits back gives the count: the text determines the number |
| JobGen.NatTextInjective | SiPMCalc/gencondor_runtoy.py:32 | two counts with the same text are equal |
| JobGen.Prefixed | SiPMCalc/gencondor_runtoy.py:23-30 | prefixing a value keeps one tuple per tail, each being the value followed by the tail |
| JobGen.SpreadLength | SiPMCalc/gencondor_runtoy.py:23-30 | one comprehension level has \|xs\|·\|tails\| tuples |
| JobGen.CartesianLength | SiPMCalc/gencondor_runtoy.py:23-30 | the product of the axes has as many tuples as the product of their sizes |
| JobGen.SpreadAt | SiPMCalc/gencondor_runtoy.py:23-30 | tuple i·\|tails\|+j is xs[i] followed by tails[j], so the first list is the outer loop |
| JobGen.SpreadMember | SiPMCalc/gencondor_runtoy.py:23-30 | every tuple of a level starts with a value of its list and continues with a tail |
| JobGen.CartesianMember | SiPMCalc/gencondor_runtoy.py:23-30 | every tuple has one entry per axis, and each entry comes from its axis |
| JobGen.SpreadDistinct | SiPMCalc/gencondor_runtoy.py:23-30 | distinct values and distinct tails give distinct tuples |
| JobGen.CartesianDistinct | SiPMCalc/gencondor_runtoy.py:23-30 | axes without repeats give a product without repeated tuples |
| JobGen.SingleValueAxis | SiPMCalc/gencondor_runtoy.py:18-30 | a one-value axis only prefixes its value to every later tuple |
| JobGen.PrefixedOne | SiPMCalc/gencondor_runtoy.py:23-30 | prefixing a single tail gives the single extended tuple |
| JobGen.JobLengths | SiPMCalc/gencondor_runtoy.py:23-30 | every job has exactly seven fields |
| JobGen.FixedTail | SiPMCalc/gencondor_runtoy.py:18-21 | the last four lists contribute the single tail (10, 0.1, 0.1, 0.1) |
| JobGen.JobsNested | SiPMCalc/gencondor_runtoy.py:15-30 | the job list is nEvents outermost, then models, then fits, then the fixed tail |
| JobGen.NestedAt | SiPMCalc/gencondor_runtoy.py:23-30 | three nested levels place (a, b, c) at index a·\|ys\|·\|zs\| + b·\|zs\| + c |
| JobGen.JobAt | SiPMCalc/gencondor_runtoy.py:15-30 | there are 5·5·2 = 50 jobs, and job 10a+2b+c is (nEvents[a], models[b], fits[c], 10, 0.1, 0.1, 0.1) |
| JobGen.ReplaceDots | SiPMCalc/gencondor_runtoy.py:39 | replacing '.' by 'p' keeps the length |
| JobGen.ReplaceDotsAt | SiPMCalc/gencondor_runtoy.py:39 | each character is 'p' where the input has '.', and unchanged elsewhere |
| JobGen.ReplaceDotsNoDot | SiPMCalc/gencondor_runtoy.py:39 | the replaced text contains no '.' |
| JobGen.ReplaceDotsAppend | SiPMCalc/gencondor_runtoy.py:39 | the replacement works piece by piece on a concatenation |
| JobGen.ReplaceDotsNone | SiPMCalc/gencondor_runtoy.py:39 | text without a '.' is left unchanged |
| JobGen.BuildFileName | SiPMCalc/gencondor_runtoy.py:32-40 | successive reassignment (prefix, then the r/x, dc and a segments under their model tests, then the replacement and directory) yields FileName |
| JobGen.FileNameShape | SiPMCalc/gencondor_runtoy.py:39-40 | every name starts with the jdl directory and ends in ".jdl", with no '.' in between |
| JobGen.NameParts | SiPMCalc/gencondor_runtoy.py:32-40 | for dot-free model, count and fit, the name is directory + "SiPMRunToy_<model>_nEvt<nEvent>_<fit>" + replaced segments + ".jdl" |
| JobGen.SegmentsByModel | SiPMCalc/gencondor_runtoy.py:33-38 | full gets r/x, dc and a; dark gets dc and a; ndc gets r/x and a; nap gets r/x and dc; simp gets r/x only; always in that order |
| JobGen.RateSegmentFirst | SiPMCalc/gencondor_runtoy.py:33-34 | the segments start with "_r" exactly when the model is not "dark" |
| JobGen.SegmentsStart | SiPMCalc/gencondor_runtoy.py:33-38 | the appended segments are empty or start with '_' |
| JobGen.DarkExample | SiPMCalc/gencondor_runtoy.py:32-40 | (30000, dark, binned, 10, 0.1, 0.1, 0.1) is named …SiPMRunToy_dark_nEvt30000_binned_dc0p1_a0p1.jdl |
| JobGen.FullExample | SiPMCalc/gencondor_runtoy.py:32-40 | the "full" model is named …_binned_r10_x0p1_dc0p1_a0p1.jdl |
| JobGen.FullSegments | SiPMCalc/gencondor_runtoy.py:34-39 | the segments of the "full" model, dots replaced, are _r10_x0p1_dc0p1_a0p1 |
| JobGen.Thirty | SiPMCalc/gencondor_runtoy.py:15 | the count 30000 prints as "30000" |
| JobGen.DotToP | SiPMCalc/gencondor_runtoy.py:39 | "0.1" values inside dot-free text become "0p1" |
| JobGen.FirstIndex | SiPMCalc/gencondor_runtoy.py:32 | the first position of a separator lies within the text |
| JobGen.FirstIndexAfter | SiPMCalc/gencondor_runtoy.py:32 | a separator-free part followed by a separator is found at its own length |
| JobGen.SplitAtSeparator | SiPMCalc/gencondor_runtoy.py:32 | two separator-free parts followed by separator-led rests split a text uniquely |
| JobGen.DropPrefix | SiPMCalc/gencondor_runtoy.py:32 | equal texts with equal prefixes have equal rests |
| JobGen.StripEnds | SiPMCalc/gencondor_runtoy.py:39-40 | equal texts with equal prefixes and suffixes have equal middles |
| JobGen.SplitFit | SiPMCalc/gencondor_runtoy.py:32-38 | the fit field is recovered uniquely from "_<fit><segments>" |
| JobGen.SplitWord | SiPMCalc/gencondor_runtoy.py:32 | a `_`-free word after a fixed prefix is recovered uniquely: the model from "SiPMRunToy_<model>_…" and the count from "_nEvt<count>_…" |
| JobGen.SplitName | SiPMCalc/gencondor_runtoy.py:32-38 | the model, count, fit and segments are recovered uniquely from the name prefix |
| JobGen.HeadThen | SiPMCalc/gencondor_runtoy.py:32 | the prefix is "SiPMRunToy_" + model + "_nEvt" + count + "_" + fit |
| JobGen.SameName | SiPMCalc/gencondor_runtoy.py:32-40 | equal file names mean equal model, count and fit texts |
| JobGen.FileNameInjective | SiPMCalc/gencondor_runtoy.py:32-40 | two jobs with the same fixed tail and the same file name are the same job |
| JobGen.EventCountPlain | SiPMCalc/gencondor_runtoy.py:15 | every event count is a non-negative integer whose text has no '_' or '.' |
| JobGen.ModelPlain | SiPMCalc/gencondor_runtoy.py:16 | every model is a word without '_' or '.' |
| JobGen.FitPlain | SiPMCalc/gencondor_runtoy.py:17 | every fit is a word without '_' or '.' |
| JobGen.JobShape | SiPMCalc/gencondor_runtoy.py:15-30 | every job has plain model, count and fit fields and the fixed tail |
| JobGen.NoSeparatorInCount | SiPMCalc/gencondor_runtoy.py:32 | a printed count has no '_' and no '.' |
| JobGen.AllJobsShaped | SiPMCalc/gencondor_runtoy.py:15-30 | all 50 jobs have that shape |
| JobGen.NamesInjective | SiPMCalc/gencondor_runtoy.py:32-40 | distinct shaped jobs get pairwise distinct file names |
| JobGen.NamesDistinct | SiPMCalc/gencondor_runtoy.py:15-40 | the 50 generated names are pairwise distinct |
| JobGen.RenderFirst | SiPMCalc/gencondor_runtoy.py:44 | rendering is the first piece's text followed by the rest's |
| JobGen.RenderPair | SiPMCalc/gencondor_runtoy.py:44 | a literal followed by field k renders as the literal then value k |
| JobGen.TemplateSplit | SiPMCalc/gencondor_runtoy.py:3-13 | the template's back half starts at " --xtalkrate " |
| JobGen.RenderBack | SiPMCalc/gencondor_runtoy.py:11-13 | the back half renders with values 4, 5, 6 in their slots and the dash-less " alpha " flag |
| JobGen.RenderEnd | SiPMCalc/gencondor_runtoy.py:44 | literal, field, literal renders as the three texts in order |
| JobGen.RenderFront | SiPMCalc/gencondor_runtoy.py:3-11 | the front half renders the fixed preamble with values 0 to 3 in order |
| JobGen.ContentsLayout | SiPMCalc/gencondor_runtoy.py:3-44 | the job file is the template text with {0}…{6} replaced by nEvent, model, fit, mean, xrate, dcfrac, alpha in that order; all other text is unchanged |
| JobGen.Mapped | SiPMCalc/gencondor_runtoy.py:42 | mapping the name function keeps one name per job |
| JobGen.MappedAt | SiPMCalc/gencondor_runtoy.py:42 | the i-th mapped value is the function of the i-th job |
| JobGen.FilesKeys | SiPMCalc/gencondor_runtoy.py:43-44 | the written files are exactly the printed names |
| JobGen.FilesDistinct | SiPMCalc/gencondor_runtoy.py:43-44 | with distinct names, each file holds the contents of its own job (none is overwritten) |
| JobGen.WriteStep | SiPMCalc/gencondor_runtoy.py:42-44 | one iteration extends the printed list by the name and writes the file under it |
| JobGen.WriteJobs | SiPMCalc/gencondor_runtoy.py:23-44 | the loop prints every job's name in order and writes each job's text under its name |
| JobGen.Generate | SiPMCalc/gencondor_runtoy.py:15-44 | the script prints 50 distinct names, writes exactly those files, and the file of job i holds its rendered template |
| Waveforms.HexToInt | Common/src/WaveFormat.cc:16-22 | '0'-'9' give 0-9 and 'b'-'f'/'B'-'F' give 11-15; because the comparisons are strict, 'a' gives 42 and 'A' 17 |
| Waveforms.Bit4ToBit2 | Common/src/WaveFormat.cc:24-28 | narrowing to int8_t keeps the value modulo 256 and leaves 8-bit values unchanged |
| Waveforms.SmallBits | Common/src/WaveFormat.cc:68-69 | a digit value 0-15 fits in the low four bits |
| Waveforms.ShiftOr | Common/src/WaveFormat.cc:69 | for a digit below 16, value<<4 \| digit equals 16·value + digit (mod 2^16) |
| Waveforms.AssemblePositional | Common/src/WaveFormat.cc:64-70 | over hexadecimal digits the accumulator is the base-16 value, most significant digit first, kept to 16 bits |
| Waveforms.Stored | Common/src/WaveFormat.cc:46-73 | a stored sample is an int16; other widths end up in int8 range; without inversion a 4-digit sample is the assembled 16 bits read as signed |
| Waveforms.StoredInvert | Common/src/WaveFormat.cc:72-73 | with inversion, 4-digit samples are the 16-bit negation of the non-inverted sample, and other widths its 8-bit negation |
| Waveforms.Wrap16Multiple | Common/src/WaveFormat.cc:72 | 16-bit truncation changes a value by a multiple of 2^16 |
| Waveforms.Wrap8Multiple | Common/src/WaveFormat.cc:73 | 8-bit truncation changes a value by a multiple of 2^8 |
| Waveforms.Wrap8Shift | Common/src/WaveFormat.cc:73 | 8-bit truncation ignores multiples of 2^8 |
| Waveforms.ChunkBound | Common/src/WaveFormat.cc:62-68 | the characters of sample k lie inside the line |
| Waveforms.Chunk | Common/src/WaveFormat.cc:67-68 | sample k reads exactly nbits characters |
| Waveforms.DecodeLine | Common/src/WaveFormat.cc:62-74 | a line yields \|line\|/nbits samples, each an int16 |
| Waveforms.AssembleSample | Common/src/WaveFormat.cc:65-70 | the shift/OR loop over nbits characters computes the assembled value |
| Waveforms.DecodeSamples | Common/src/WaveFormat.cc:62-74 | the sample loop fills a new array with the decoded line |
| Waveforms.SizeDiff | Common/src/WaveFormat.cc:79-81 | `w.size() - k` is the difference when the size is at least k, and wraps to at least 2^64-3 otherwise |
| Waveforms.PeakCell | Common/src/WaveFormat.cc:76-92 | the test throws exactly for 1- or 2-sample lines; otherwise it holds iff the jumps to both sides exceed 70; a flagged index lies in 1..n-2 |
| Waveforms.Step | Common/src/WaveFormat.cc:95-99 | one filter step keeps the length |
| Waveforms.FilterFrom | Common/src/WaveFormat.cc:95-100 | the left-to-right pass keeps the length |
| Waveforms.Filter | Common/src/WaveFormat.cc:95-100 | the filtered waveform has as many samples as the decoded one |
| Waveforms.FilterGlitches | Common/src/WaveFormat.cc:76-100 | the in-place loop succeeds iff the line has neither 1 nor 2 samples, and then rewrites the array to Filter of its old contents |
| Waveforms.FilterKeepsEnds | Common/src/WaveFormat.cc:79-99 | the first and last samples are never rewritten |
| Waveforms.MeanInt16 | Common/src/WaveFormat.cc:98 | the truncated mean of two int16 values is an int16 |
| Waveforms.FilterInt16 | Common/src/WaveFormat.cc:95-100 | filtering keeps every sample within int16 |
| Waveforms.FilterSmooth | Common/src/WaveFormat.cc:76-100 | a waveform without jumps over 70 is left unchanged |
| Waveforms.SpikeRemoved | Common/src/WaveFormat.cc:95-100 | a single spike of 100 in a flat line is replaced by the mean of its neighbours |
| Waveforms.ScaledSumConstant | Common/src/WaveFormat.cc:214-216 | summing a constant window gives the window length times the scaled, offset value |
| Waveforms.PedMeanFlat | Common/src/WaveFormat.cc:139-145 | over a flat pedestal window the pedestal is that sample's value in millivolts |
| Waveforms.PedList | Common/src/WaveFormat.cc:163-167 | the pedestal list has one scaled sample per window index, in order |
| Waveforms.PedListSnoc | Common/src/WaveFormat.cc:165-167 | extending the window by one index appends that sample |
| Waveforms.Decoded | Common/src/WaveFormat.cc:61-101 | one waveform per data line |
| Waveforms.AllFilterableEach | Common/src/WaveFormat.cc:61-101 | the recursive "no line throws" predicate holds iff every line passes |
| Waveforms.DecodedSnoc | Common/src/WaveFormat.cc:61-101 | reading one more line appends its filtered waveform |
| Waveforms.FilterableCount | Common/src/WaveFormat.cc:79-82 | a line passes the filter iff it decodes to neither 1 nor 2 samples |
| Waveforms.MulAtLeast | Common/src/WaveFormat.cc:62 | multiplying by a larger count gives at least as many characters |
| Waveforms.WaveFormat.constructor | Common/src/WaveFormat.cc:56-58 | a reader starts from the header values with no waveforms |
| Waveforms.WaveFormat.AddLine | Common/src/WaveFormat.cc:61-101 | a line is appended decoded and, when it has neither 1 nor 2 samples, filtered; otherwise the constructor throws; samples stay int16 |
| Waveforms.WaveFormat.WaveformRaw | Common/src/WaveFormat.cc:112-122 | an out-of-range index throws; otherwise each sample minus the offset, truncated to int16 |
| Waveforms.WaveFormat.PedValue | Common/src/WaveFormat.cc:130-146 | a `unsigned(-1)` bound gives 0; otherwise the mean of the scaled window samples (failure on a throwing `.at()` or an empty window's 0/0) |
| Waveforms.WaveFormat.PedRMS | Common/src/WaveFormat.cc:153-170 | a `unsigned(-1)` bound gives 0; an empty window gives the deviation of no samples; otherwise the deviation of the window, or a throw when it lies outside |
| Waveforms.WaveFormat.WaveformSum | Common/src/WaveFormat.cc:201-221 | the area is time × Σ over [intstart, min(intstop, n)) of (sample·adc − pedestal); an empty window gives 0 even with a NaN (0/0) pedestal, and only a throw from the pedestal's `.at()` fails it |
| Waveforms.WaveFormat.SumList | Common/src/WaveFormat.cc:229-245 | NWaveforms entries sorted nondecreasing, each the area of waveform `intstart` (line 239 passes it as the index), so all are equal |
| Waveforms.Load | Common/src/WaveFormat.cc:44-102 | the file loads iff no line decodes to 1 or 2 samples, and then holds the header values and every line decoded and filtered |
| SiPMData.DigitValue | SiPMCalc/src/SiPMFormat.cc:56-61 | with non-strict comparisons, hexadecimal digits of either case decode to 0-15 |
| SiPMData.Nibble | SiPMCalc/src/SiPMFormat.cc:56-61 | the digit is stored in an int8_t |
| SiPMData.SampleValue | SiPMCalc/src/SiPMFormat.cc:62 | `v1 << 4 \| v2` stored in an int8_t is a signed byte |
| SiPMData.BitOrShift | SiPMCalc/src/SiPMFormat.cc:62 | OR-ing a value below 2^k into a k-bit shift is addition |
| SiPMData.HexDigitRange | SiPMCalc/src/SiPMFormat.cc:56-61 | a hexadecimal character decodes to 0-15 with no truncation |
| SiPMData.ShiftOr | SiPMCalc/src/SiPMFormat.cc:62 | for two digits, 16·d1 \| d2 equals 16·d1 + d2 |
| SiPMData.HexPairValue | SiPMCalc/src/SiPMFormat.cc:56-62 | two hexadecimal characters decode to (16·d1 + d2) wrapped into [−128, 127] |
| SiPMData.HexPair | SiPMCalc/src/SiPMFormat.cc:56-62 | every signed byte has a two-hex-digit spelling |
| SiPMData.DigitOfHex | SiPMCalc/src/SiPMFormat.cc:56-61 | each hexadecimal digit decodes to its own value |
| SiPMData.LowByte | SiPMCalc/src/SiPMFormat.cc:62 | a signed byte is recovered from its low 8 bits |
| SiPMData.Nibbles | SiPMCalc/src/SiPMFormat.cc:62 | a byte is 16 × its high nibble + its low nibble |
| SiPMData.HexPairRoundTrip | SiPMCalc/src/SiPMFormat.cc:56-62 | decoding the spelling of any signed byte gives that byte back |
| SiPMData.Sample | SiPMCalc/src/SiPMFormat.cc:56-62 | sample i is read from characters 2i and 2i+1 and is a signed byte |
| SiPMData.SampleRow | SiPMCalc/src/SiPMFormat.cc:55-62 | a line gives one sample per window index |
| SiPMData.AreaTermZero | SiPMCalc/src/SiPMFormat.cc:63 | with a zero baseline a sample contributes −timeint × its value |
| SiPMData.LineAreaZeroBaseline | SiPMCalc/src/SiPMFormat.cc:55-64 | with an all-zero baseline a line's area is −timeint × the sum of its window samples |
| SiPMData.WindowArea | SiPMCalc/src/SiPMFormat.cc:53-66 | a line's area needs only the samples the window reads, and an empty window (start ≥ stop) has area 0 |
| SiPMData.Areas | SiPMCalc/src/SiPMFormat.cc:48-67 | every data line contributes exactly one area, and all areas are 0 for an empty window |
| SiPMData.Zeros | SiPMCalc/src/SiPMFormat.cc:112-115 | the resized vectors hold n zeros |
| SiPMData.Baseline | SiPMCalc/src/SiPMFormat.cc:109-166 | the baseline always has presample + postsample entries |
| SiPMData.BaselineErr | SiPMCalc/src/SiPMFormat.cc:109-166 | the baseline error always has presample + postsample entries |
| SiPMData.ColumnSnoc | SiPMCalc/src/SiPMFormat.cc:142-156 | one more baseline line adds its sample, and its square, to each column |
| SiPMData.SiPMFormat.constructor | SiPMCalc/src/SiPMFormat.cc:39-43 | a reader holds the header values and no baseline, areas or data yet |
| SiPMData.SiPMFormat.AccumulateLine | SiPMCalc/src/SiPMFormat.cc:145-155 | a baseline line adds each decoded sample to `_baseline` and its square to `_baseline_err`, and changes nothing else |
| SiPMData.SiPMFormat.MakeBaseLine | SiPMCalc/src/SiPMFormat.cc:109-166 | both vectors get presample+postsample entries: all zero for an empty name or a header mismatch, otherwise the per-sample mean and deviation; an empty matching file fails (0/0); baseline lines need to cover the window only when the file is used |
| SiPMData.SiPMFormat.Normalize | SiPMCalc/src/SiPMFormat.cc:158-161 | each sum is divided by the line count, and the error becomes sqrt(mean square − mean²) |
| SiPMData.SiPMFormat.SumColumns | SiPMCalc/src/SiPMFormat.cc:142-156 | from zeros, the read loop leaves the per-sample sums and sums of squares |
| SiPMData.SiPMFormat.AddLine | SiPMCalc/src/SiPMFormat.cc:53-66 | a data line appends its area over start ≤ i < min(end, presample+postsample), and nothing else changes; the line must hold the samples read, so any line is accepted when the window is empty |
| SiPMData.SiPMFormat.ReadAreas | SiPMCalc/src/SiPMFormat.cc:48-67 | the read loop leaves one area per line, in file order; lines need only cover the window actually read |
| SiPMData.SiPMFormat.SortAreas | SiPMCalc/src/SiPMFormat.cc:69-87 | the areas are sorted, the bin width is set and every area is filled into the data set |
| SiPMData.SiPMFormat.TruncateDataSet | SiPMCalc/src/SiPMFormat.cc:90-107 | the data set holds exactly the areas strictly below `maxarea`, in order; `_arealist` is unchanged |
| SiPMData.Load | SiPMCalc/src/SiPMFormat.cc:26-88 | a reader is built iff there is a data line and the baseline is computable (an unused baseline file may hold lines of any length, and data lines need only cover the window read); its areas are the lines' areas, one per line, sorted nondecreasing and a permutation of them |
| StdData.ParseRow | Common/src/StdFormat.cc:28-37 | the first 8 tokens fill time…sipmtemp and all remaining tokens go to `data` in order |
| StdData.ConcatLength | Common/src/StdFormat.cc:111-123 | the concatenated data has as many values as the selected rows' data vectors together |
| StdData.StdFormat.constructor | Common/src/StdFormat.cc:16-41 | one row per line, in file order |
| StdData.StdFormat.Empty | Common/src/StdFormat.cc:47-48 | no rows |
| StdData.StdFormat.Column | Common/src/StdFormat.cc:52-64 | the field of exactly the accepted rows, in row order |
| StdData.StdFormat.Time | Common/src/StdFormat.cc:66 | the time of exactly the accepted rows, in order |
| StdData.StdFormat.DetId | Common/src/StdFormat.cc:67 | the detector id of exactly the accepted rows, in order |
| StdData.StdFormat.X | Common/src/StdFormat.cc:68 | the x of exactly the accepted rows, in order |
| StdData.StdFormat.Y | Common/src/StdFormat.cc:69 | the y of exactly the accepted rows, in order |
| StdData.StdFormat.Z | Common/src/StdFormat.cc:70 | the z of exactly the accepted rows, in order |
| StdData.StdFormat.Bias | Common/src/StdFormat.cc:71 | the bias of exactly the accepted rows, in order |
| StdData.StdFormat.LedTemp | Common/src/StdFormat.cc:72 | the LED temperature of exactly the accepted rows, in order |
| StdData.StdFormat.SiPMTemp | Common/src/StdFormat.cc:73 | the SiPM temperature of exactly the accepted rows, in order |
| StdData.StdFormat.DataCol | Common/src/StdFormat.cc:85-98 | `data[col]` of each accepted row in order; every accepted row must have that column |
| StdData.StdFormat.DataAll | Common/src/StdFormat.cc:111-123 | the in-order concatenation of the accepted rows' data, of length the sum of their lengths |
| StdData.StdFormat.MakeReduced | Common/src/StdFormat.cc:134-146 | a new container with exactly the accepted rows in order; the source is unchanged |
| StdData.ColumnNoSelect | Common/src/StdFormat.cc:52-73 | with `NoSelect` a column has one entry per row, the row's field |
| StdData.ColumnOfReduced | Common/src/StdFormat.cc:52-146 | a column of the reduced set with `NoSelect` equals the column of the original with the selector |
| LedData.LEDManager.constructor | InvSqCalc/src/LEDFormat.cc:21-36 | the table is ordered by z, is a permutation of the lines, and points with equal z keep their file order |
| LedData.LEDManager.MakeZScanGraph | InvSqCalc/src/LEDFormat.cc:94-114 | exactly the points with matching x and y, in list order, so z is nondecreasing |
| LedData.LEDManager.MakeXScanGraph | InvSqCalc/src/LEDFormat.cc:116-136 | exactly the points with matching y and z, in list order |
| LedData.LEDManager.MakeHScanGraph | InvSqCalc/src/LEDFormat.cc:53-72 | exactly the points at z, and a throw unless at least two match |
| LedData.LEDManager.Xmin | InvSqCalc/src/LEDFormat.cc:138-146 | the least x, attained by a point |
| LedData.LEDManager.Xmax | InvSqCalc/src/LEDFormat.cc:148-156 | the greatest x, attained by a point |
| LedData.LEDManager.Ymin | InvSqCalc/src/LEDFormat.cc:158-166 | the least y, attained by a point |
| LedData.LEDManager.Ymax | InvSqCalc/src/LEDFormat.cc:168-176 | the greatest y, attained by a point |
| LedData.LEDManager.Zmin | InvSqCalc/src/LEDFormat.cc:178-186 | the least z, attained by a point |
| LedData.LEDManager.Zmax | InvSqCalc/src/LEDFormat.cc:188-196 | the greatest z, attained by a point |
| LedData.LEDManager.LumiMin | InvSqCalc/src/LEDFormat.cc:199-207 | the least luminosity, attained by a point |
| LedData.LEDManager.LumiMax | InvSqCalc/src/LEDFormat.cc:209-217 | the greatest luminosity, attained by a point |
| LedData.LEDManager.ZRangeEnds | InvSqCalc/src/LEDFormat.cc:178-196 | on the sorted table Zmin is the first point's z and Zmax the last point's |
| LedData.ZScanSorted | InvSqCalc/src/LEDFormat.cc:94-114 | a selection from a z-sorted table has nondecreasing z |
| LedData.ZPointsOfKeep | InvSqCalc/src/LEDFormat.cc:100-107 | the scan's points are the graph points of the kept table entries, in order |
| MonteCarlo.Model.constructor | InvSqCalc/src/MCFormat.cc:16-23 | a new model has its geometry and total = passed = 0 |
| MonteCarlo.Model.Run | InvSqCalc/src/MCFormat.cc:40-64 | `total` grows by exactly n and `passed` by the number of hits, at most n, so passed ≤ total is kept |
| MonteCarlo.MCManager.constructor | InvSqCalc/src/MCFormat.cc:74-75 | an empty cache |
| MonteCarlo.MCManager.FromFile | InvSqCalc/src/MCFormat.cc:77-94 | one model per line in file order, with total and passed taken from the file unchecked |
| MonteCarlo.MCManager.GetModel | InvSqCalc/src/MCFormat.cc:100-117 | the first matching model, list unchanged; otherwise one new model appended, run in blocks of 100 and stopped at the first block b after which passed ≥ 100: total = 100·b and passed = the passes of the first b blocks; old models are never changed or reordered |
| MonteCarlo.MCManager.MakeZScanGraph | InvSqCalc/src/MCFormat.cc:135-168 | exactly the models with matching r, l, o and 20 ≤ z ≤ 450, in list order |
| MonteCarlo.MCManager.MakeHScanGraph | InvSqCalc/src/MCFormat.cc:170-195 | exactly the models with matching r, l, z, in list order |
| Profiles.Unpair | TimeCalc/bin/PlotProfile.cc:163-165 | flattening n pairs gives 2n values |
| Profiles.MakePairs | TimeCalc/bin/PlotProfile.cc:152-169 | an absent option gives no pairs; an odd count throws; otherwise the pairs (list[2i], list[2i+1]) in order, which flatten back to the list |
| Profiles.CheckRanges | TimeCalc/bin/PlotProfile.cc:74-81 | the program continues iff exactly two of the three pair lists are non-empty |
| Profiles.Span | TimeCalc/bin/PlotProfile.cc:186-211 | a stored window is the min and max of its pair, so min ≤ max |
| Profiles.ProfileMgr.constructor | TimeCalc/bin/PlotProfile.cc:216-230 | a profile keeps its windows, starts empty, and gets its x-axis title from the sentinel test |
| Profiles.ProfileMgr.Fill | TimeCalc/bin/PlotProfile.cc:253-275 | a reading adds the entry Entry decides and nothing else |
| Profiles.Entry | TimeCalc/bin/PlotProfile.cc:253-275 | a reading fills at most one point, exactly when both non-axis values lie in their closed windows, and the point is (axis value, −readout) |
| Profiles.Grid | TimeCalc/bin/PlotProfile.cc:180-214 | one fresh profile per element of the product, outer list first, with the windows of its pair |
| Profiles.MakeProfileList | TimeCalc/bin/PlotProfile.cc:172-250 | the first-named absent option picks the axis; one empty profile per pair of the other two lists, with titles from the same sentinel test |
| Profiles.ProfileGrid | TimeCalc/bin/PlotProfile.cc:180-214 | the profile count is the product of the sizes, and profile i·\|inner\|+j uses outer[i] and inner[j] |
| Profiles.FillMatchesBranch | TimeCalc/bin/PlotProfile.cc:180-275 | for non-degenerate windows, a profile built for an axis fills by that axis' branch of `Fill` |
| Profiles.ZeroBiasWindowIsAmbiguous | TimeCalc/bin/PlotProfile.cc:224-225 | a supplied bias window of (0,0) is taken for the bias axis and titled as such |
| LowLight.NewVar | SiPMCalc/src/SiPMLowLightFit.cc:42-66 | a new parameter has the given range, floats, and starts inside the range |
| LowLight.UpdateArg | SiPMCalc/src/SiPMLowLightFit.cc:257-282 | 1 value: that value, constant; 2 values: only the range, floating; 3 values: value v0, range [v1, v2], floating; absent or other counts: unchanged |
| LowLight.LockIffValueSet | SiPMCalc/src/SiPMLowLightFit.cc:270-307 | a parameter is locked exactly when the option assigns its value |
| LowLight.ReadData | SiPMCalc/src/SiPMLowLightFit.cc:247-254 | each data option keeps its previous value when absent; `pedrms` is never read |
| LowLight.SiPMLowLightFit.constructor | SiPMCalc/src/SiPMLowLightFit.cc:25-105 | the defaults: ignore flags false, `_waveform` true, bin width 16, both pedestal bounds `unsigned(-1)`, and the listed ranges |
| LowLight.SiPMLowLightFit.UpdateSettings | SiPMCalc/src/SiPMLowLightFit.cc:243-329 | data options via ArgOpt, each of the ten parameters via UpdateArg, the six ignore flags recomputed as Lock, and the rest via ArgOpt |
| LowLight.SiPMLowLightFit.ApplyEstimates | SiPMCalc/src/SiPMLowLightFit_Estimate.cc:48-226 | with fewer than 2 peaks nothing changes; otherwise each estimate is written only where its ignore flag is false |
| LowLight.Gate | SiPMCalc/src/SiPMLowLightFit_Estimate.cc:131-136 | a locked parameter keeps its value; an unlocked one takes the estimate; the range and constness are untouched |
| LowLight.LockedValueSurvives | SiPMCalc/src/SiPMLowLightFit.cc:296-314 | a value given with 1 or 3 entries survives estimation |
| NonLinearFit.Dist | SiPMCalc/src/SiPMNonLinearFit.cc:256 | `fabs(x − p)` is non-negative and is x − p or p − x |
| NonLinearFit.ClosestIndex | SiPMCalc/src/SiPMNonLinearFit.cc:253-257 | `min_element` stops at an index of the list |
| NonLinearFit.ClosestIsFirst | SiPMCalc/src/SiPMNonLinearFit.cc:253-257 | the chosen z is the first one minimising \|z − power_z\| |
| NonLinearFit.FirstClosestUnique | SiPMCalc/src/SiPMNonLinearFit.cc:253-257 | there is only one such first minimiser |
| NonLinearFit.ClosestZ | SiPMCalc/src/SiPMNonLinearFit.cc:252-257 | the scan returns the z at that index |
| NonLinearFit.Zs | SiPMCalc/src/SiPMNonLinearFit.cc:252 | the z column, one entry per row |
| NonLinearFit.ScanRows | SiPMCalc/src/SiPMNonLinearFit.cc:258-262 | the selected rows all have the closest z and come from the data |
| NonLinearFit.ScanRowsExactly | SiPMCalc/src/SiPMNonLinearFit.cc:258-262 | a row is selected iff it is in the data and has that z |
| NonLinearFit.ScanRowsNonEmpty | SiPMCalc/src/SiPMNonLinearFit.cc:252-262 | at least one row is selected |
| NonLinearFit.Biases | SiPMCalc/src/SiPMNonLinearFit.cc:261 | the bias column of the selected rows |
| NonLinearFit.Readouts | SiPMCalc/src/SiPMNonLinearFit.cc:262 | the data column 0 of the selected rows |
| NonLinearFit.Pad | SiPMCalc/src/SiPMNonLinearFit.cc:264-267 | padding adds one value in front and one at the back |
| NonLinearFit.ScanTableEnds | SiPMCalc/src/SiPMNonLinearFit.cc:264-267 | n+2 entries: bias −10000000 in front and 100000000 at the back, readout repeating its first and last values |
| NonLinearFit.ScanTableInner | SiPMCalc/src/SiPMNonLinearFit.cc:252-267 | between the pads, entry k+1 is the bias and readout of the k-th row at the closest z |
| NonLinearFit.ReadScanTable | SiPMCalc/src/SiPMNonLinearFit.cc:250-267 | the selection and padding build the 1-D table |
| NonLinearFit.PadTable | SiPMCalc/src/SiPMNonLinearFit.cc:264-267 | the inserts and push_backs pad both vectors |
| NonLinearFit.CorrTable | SiPMCalc/src/SiPMNonLinearFit.cc:296-303 | one table entry per correction-file line |
| NonLinearFit.CloserStep | SiPMCalc/src/SiPMNonLinearFit.cc:406-412 | the row comparator is transitive across an incomparable row |
| NonLinearFit.FirstNearestUnique | SiPMCalc/src/SiPMNonLinearFit.cc:403-413 | the first row minimising \|z − ref_z\|, then \|bias − ref_bias\|, is unique |
| NonLinearFit.PixelRange | SiPMCalc/src/SiPMNonLinearFit.cc:195-203 | 1 value: min = max = v; 2 values: the min and max of the pair; other counts: unchanged |
| NonLinearFit.SiPMNonLinearFit.constructor | SiPMCalc/src/SiPMNonLinearFit.cc:70-73 | the defaults, no data and no look-up table |
| NonLinearFit.SiPMNonLinearFit.FromConfig | SiPMCalc/src/SiPMNonLinearFit.cc:76-79 | the configuration file is ignored: the same defaults |
| NonLinearFit.SiPMNonLinearFit.InitDefaults | SiPMCalc/src/SiPMNonLinearFit.cc:166-180 | lin_pmin = lin_pmax = lin_zmin = 0, power_z = 500, pixels [500, 7000] and the default labels |
| NonLinearFit.SiPMNonLinearFit.UpdateSettings | SiPMCalc/src/SiPMNonLinearFit.cc:188-209 | absent options keep their values, except that `linzmin` falls back to the updated `_lin_pmin`; the pixel range follows PixelRange and stays ordered |
| NonLinearFit.SiPMNonLinearFit.ReadFiles | SiPMCalc/src/SiPMNonLinearFit.cc:221-235 | fresh data; no 3-D table ever; the 1-D table comes from the scan when there is no correction file, and from that file otherwise; the settings and labels are kept |
| NonLinearFit.SiPMNonLinearFit.MakeInterpolator1D | SiPMCalc/src/SiPMNonLinearFit.cc:250-274 | the 1-D table is the padded scan at the closest z; nothing else changes |
| NonLinearFit.SiPMNonLinearFit.MakeInterpolator3D | SiPMCalc/src/SiPMNonLinearFit.cc:288-309 | the correction file fills the 1-D table; nothing else changes |
| NonLinearFit.SiPMNonLinearFit.ReferenceRow | SiPMCalc/src/SiPMNonLinearFit.cc:403-413 | the first row minimising \|z − ref_z\|, ties broken by smaller \|bias − ref_bias\| |
| NonLinearFit.SiPMNonLinearFit.PixelParameter | SiPMCalc/src/SiPMNonLinearFit.cc:472-477 | the pixel count is fixed iff pixel_min == pixel_max; otherwise it is bounded to [pixel_min, pixel_max] |
| NonLinearFit.SiPMNonLinearFit.LookUpMultiplier | SiPMCalc/src/SiPMNonLinearFit.cc:757-766 | 0 with a 3-D table; otherwise the ratio of the table at the two biases (a failure on division by zero) |
| NonLinearFit.SiPMNonLinearFit.SameBiasMultiplier | SiPMCalc/src/SiPMNonLinearFit.cc:764 | rows at the same bias have multiplier 1 |
| Seqs.SelectAppend | Common/src/StdFormat.cc:58-62 | selecting from a concatenation concatenates the selections |
| Seqs.InSelect | Common/src/StdFormat.cc:58-62 | a value is selected iff some accepted element maps to it |
| Seqs.SelectOfKeep | Common/src/StdFormat.cc:52-146 | selecting from a reduced list is selecting with both selectors |
| Seqs.KeepTwice | Common/src/StdFormat.cc:134-146 | reducing twice with the same selector equals reducing once |
| Seqs.InKeep | Common/src/StdFormat.cc:139-143 | an element is kept iff it is present and accepted |
| Seqs.KeepSorted | SiPMCalc/src/SiPMFormat.cc:101-106 | filtering a sorted list leaves it sorted |
| Seqs.InsertBySorted | InvSqCalc/src/LEDFormat.cc:33-36 | inserting into a sorted list keeps it sorted and adds exactly the element |
| Seqs.SortByCorrect | InvSqCalc/src/LEDFormat.cc:33-36 | the stable sort gives a sorted permutation in which elements with equal key keep their order |
| Seqs.MinOf | InvSqCalc/src/LEDFormat.cc:138-146 | the least key, attained by an element |
| Seqs.MaxOf | InvSqCalc/src/LEDFormat.cc:148-156 | the greatest key, attained by an element |
| Seqs.ProductAt | TimeCalc/bin/PlotProfile.cc:181-190 | element i·\|ys\|+j of the product is (xs[i], ys[j]) |
| Seqs.ProductLength | TimeCalc/bin/PlotProfile.cc:181-190 | the product has \|xs\|·\|ys\| elements |
| Seqs.Count | InvSqCalc/src/MCFormat.cc:59-62 | the number of hits is at most the number of draws |
| Seqs.Average | SiPMCalc/src/SiPMFormat.cc:159 | the average times the count is the total |
| CInt.Wrap16 | Common/src/WaveFormat.cc:72 | conversion to int16_t keeps the value modulo 2^16 and leaves int16 values unchanged |
| CInt.Wrap8 | SiPMCalc/src/SiPMFormat.cc:56-62 | conversion to int8_t keeps the value modulo 2^8 and leaves int8 values unchanged |
| CInt.CDiv | Common/src/WaveFormat.cc:98 | C++ division truncates toward zero |
| CInt.CharCode | SiPMCalc/src/SiPMFormat.cc:56-61 | a `char` in arithmetic is a signed byte, equal to its code below 128 |

## Left out

- File opening, the fatal-on-open paths, the progress and diagnostic
  printing, and `SaveToTXT`/`WriteToFile`. Inputs arrive as already-split
  lines (waveform and low-light readers) or token rows (standard format,
  LED table, Monte Carlo cache, correction file). Header lines arrive as
  parsed values.
- Floating point. Doubles are exact reals. A NaN that the code would
  produce from 0/0 (an empty pedestal window, an empty matching baseline
  file, a zero look-up value) is a `Failure`/`None` result in the model,
  except where the code never uses it: `WaveformSum` with an empty
  integration window returns 0.
- SiPMData.Load: a used baseline file with no data lines leaves NaN
  baseline vectors in the reader. The model reports this as a failure even
  when the area window is empty, where every area would be 0.
- `usr::StdDev` and `TMath::Sqrt` are parameters (`stddev`, `sqrt`) of
  `PedRMS` and `MakeBaseLine`.
- RooFit binning (`RoundDown`/`RoundUp`, `setBins`, `setMax`), `RooDataHist`
  and `TProfile`. The data set is modelled as the list of values filled into
  it, and a profile as the list of (x, y) entries.
- WaveFormat's `Waveform` (the pedestal-subtracted vector) is not part of
  this model: it is floating-point arithmetic only, and `WaveformSum`
  already models the same pedestal subtraction.
- The sample-window arithmetic `2*i` and `_presample + _postsample` is not
  wrapped at 32 bits for large windows. The lines must cover the window
  that is read (baseline lines only when the baseline file is used), because `operator[]` past a line's end is undefined
  behaviour.
- Waveforms.WaveFormat.WaveformSum: requires at least one stored waveform,
  because `front()` on an empty list is undefined behaviour.
- StdData.Token: a line too short for a fixed field leaves that field
  indeterminate in the C++ (`>>` into an uninitialised local); the model
  reads it as 0. The correction-file table (`CorrTable`) uses the same rule.
- StdData.ParseRow: lines arrive as numbers, and the detector id is the
  floor of its number. The C++ `>>` into an `int` would stop at a decimal
  point and shift the remaining fields; such lines are not modelled.
- MonteCarlo.Model.Run: the geometry and the random draws are a sequence of
  hit outcomes, and the `unsigned` counters are not wrapped at 2^32.
- MonteCarlo.MCManager.GetModel: the random blocks are a parameter and are
  required to reach 100 passes eventually. The C++ loop has no such
  guarantee and could run forever.
- `Model::MaxTheta`, `Sangle` and `Lumi` (geometry and efficiency) are
  floating-point physics.
- PlotProfile's `main` beyond the range check, the profile names, the
  `xbins`/`xmin`/`xmax` axis and the plotting.
- The low-light estimation fits, TSpectrum peak finding and the fit-quality
  cuts. Only the gating by the ignore flags and the fewer-than-two-peaks
  exit are modelled (`ApplyEstimates`, `Gate`).
- The low-light fitter's configuration-file constructor. It is the default
  constructor followed by `UpdateSettings` on arguments parsed from the
  file, and file parsing is left out.
- The `RooRealVar` objects are records of value, range and constness. A
  new variable starts at the middle of its range, and ROOT's clipping of
  values to ranges is left out.
- LowLight.SiPMLowLightFit.UpdateSettings: the estimation window widths are
  read as doubles and truncated to integers toward zero. Values beyond the
  `int` range are not modelled.
- The `SiPMPdf` object and the `_x` readout variable's own settings: `_x` is
  not changed by `UpdateSettings`, and the model keeps it as created.
- `MakeLinearGraph`, the products of `MakeNonLinearGraph` other than the
  reference row and the pixel rule, `RunNonLinearFit` and
  `GetZPosMultiplier`. These are fits and graph building.
- The ROOT interpolator's evaluation is the `eval` parameter of
  `LookUpMultiplier`. The interpolator's own checks (sorted, distinct
  abscissae) are left out, so a table is its two vectors.
- The non-linear fitter's label strings (`_readout_units`, `_setup`,
  `_sipm_model`, `_sipm_id`) are grouped into one `Labels` record.
- `WriteJobs` is generic over the text function. `Generate` instantiates it
  with the job template.
- JobGen: Python's `str.format` raises `IndexError` for a field number past
  its arguments. The template only uses fields 0-6 and always gets seven
  values, so the model's renderer gives no text for such a field instead.
- Python float formatting: floats carry the text Python prints for them
  (`0.1` prints as "0.1").
- `ToyRunCommon.cc` and the command-line programs under `bin/` are not
  part of this model. They duplicate SiPMFormat's decoder, parse options
  and plot.

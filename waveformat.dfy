/** The DRS4 waveform file (Common/src/WaveFormat.cc): a header with the
    sample interval, the number of hexadecimal digits per sample and the
    ADC-to-mV factor, then one line of hexadecimal digits per waveform. Each
    line is decoded into 16-bit (or 8-bit) samples, optionally inverted, and
    single-sample bit flips are smoothed out in place. */
module Waveforms {
  import opened CInt
  import opened Wrappers
  import opened Seqs

  // ---------------------------------------------------------------------
  // Decoding one sample

  /** `hex_to_int`. The comparisons are strict, so '0'-'9' and 'b'-'f',
      'B'-'F' decode as hexadecimal digits while 'a' gives 42 and 'A' 17. */
  function HexToInt(c: char): (r: int)
    ensures IsInt16(r)
    ensures '0' <= c <= '9' ==> r == c as int - '0' as int
    ensures 'b' <= c <= 'f' ==> 11 <= r <= 15 && r == c as int - 'a' as int + 10
    ensures 'B' <= c <= 'F' ==> 11 <= r <= 15 && r == c as int - 'A' as int + 10
    ensures c == 'a' ==> r == 42
    ensures c == 'A' ==> r == 17
  {
    var x := CharCode(c);
    if x > 'a' as int then 10 + x - 'a' as int
    else if x > 'A' as int then 10 + x - 'A' as int
    else x - '0' as int
  }

  /** `bit4_to_bit2`: an `int16_t` returned as `int8_t`. */
  function Bit4ToBit2(x: int): (r: int)
    requires IsInt16(x)
    ensures IsInt8(r) && (x - r) % TWO8 == 0
    ensures IsInt8(x) ==> r == x
  {
    Wrap8(x)
  }

  /** The bits `bit_value` contributes to the accumulator: the `int16_t`
      digit value, sign extension included. */
  function DigitBits(c: char): bv16
  {
    ToBv16(HexToInt(c))
  }

  /** The accumulator after `value = value << 4 | digit` over `digits`,
      most significant digit first; only the low 16 bits survive each
      assignment to the `int16_t`. */
  function Assemble(digits: string): bv16
  {
    if digits == [] then 0
    else (Assemble(digits[..|digits| - 1]) << 4) | DigitBits(digits[|digits| - 1])
  }

  /** The positional base-16 value of the digits, modulo 2^16. */
  function Positional(digits: string): bv16
  {
    if digits == [] then 0
    else Positional(digits[..|digits| - 1]) * 16 + DigitBits(digits[|digits| - 1])
  }

  /** The characters `hex_to_int` reads as hexadecimal digits. */
  predicate HexDigit(c: char)
  {
    '0' <= c <= '9' || 'b' <= c <= 'f' || 'B' <= c <= 'F'
  }

  /** A digit value 0-15 occupies the low four bits only. */
  lemma SmallBits(x: int)
    requires 0 <= x < 16
    ensures ToBv16(x) < 16
  {
    if x == 0 {} else if x == 1 {} else if x == 2 {} else if x == 3 {}
    else if x == 4 {} else if x == 5 {} else if x == 6 {} else if x == 7 {}
    else if x == 8 {} else if x == 9 {} else if x == 10 {} else if x == 11 {}
    else if x == 12 {} else if x == 13 {} else if x == 14 {} else {}
  }

  lemma ShiftOr(a: bv16, d: bv16)
    requires d < 16
    ensures (a << 4) | d == a * 16 + d
  {
  }

  /** With genuine hexadecimal digits the shift/OR accumulator computes the
      positional value. */
  lemma {:induction false} AssemblePositional(digits: string)
    requires forall k :: 0 <= k < |digits| ==> HexDigit(digits[k])
    ensures Assemble(digits) == Positional(digits)
  {
    if digits != [] {
      var n := |digits| - 1;
      AssemblePositional(digits[..n]);
      SmallBits(HexToInt(digits[n]));
      ShiftOr(Assemble(digits[..n]), DigitBits(digits[n]));
    }
  }

  /** The stored sample: with `nbits == 4` the value times `factor` (the
      unsigned -1 when inverting) kept to 16 bits; with any other width the
      same product passed through `bit4_to_bit2`, keeping 8 bits. */
  function Stored(value: bv16, nbits: nat, invert: bool): (r: int)
    ensures IsInt16(r)
    ensures nbits != 4 ==> IsInt8(r)
    ensures nbits == 4 && !invert ==> r == Signed16(value)
  {
    var v := Signed16(value);
    var product := if invert then Wrap16(-v) else v;
    if nbits == 4 then product else Bit4ToBit2(product)
  }

  /** Inverting is two's-complement negation at the stored width. */
  lemma StoredInvert(value: bv16, nbits: nat)
    ensures Stored(value, nbits, true)
      == if nbits == 4 then Wrap16(-Stored(value, nbits, false)) else Wrap8(-Stored(value, nbits, false))
  {
    var v := Signed16(value);
    if nbits != 4 {
      var q1 := Wrap16Multiple(-v);
      Wrap8Shift(-v, 0x100 * q1);
      var q2 := Wrap8Multiple(v);
      Wrap8Shift(-v, -q2);
    }
  }

  /** `Wrap16` moves its argument by a multiple of 2^16. */
  lemma Wrap16Multiple(v: int) returns (q: int)
    ensures Wrap16(v) == v + TWO16 * q
  {
    var m := v % TWO16;
    assert v == TWO16 * (v / TWO16) + m;
    q := if m < 0x8000 then -(v / TWO16) else -(v / TWO16) - 1;
  }

  /** `Wrap8` moves its argument by a multiple of 2^8. */
  lemma Wrap8Multiple(v: int) returns (q: int)
    ensures Wrap8(v) == v + TWO8 * q
  {
    var m := v % TWO8;
    assert v == TWO8 * (v / TWO8) + m;
    q := if m < 0x80 then -(v / TWO8) else -(v / TWO8) - 1;
  }

  /** `Wrap8` only depends on its argument modulo 2^8. */
  lemma Wrap8Shift(x: int, q: int)
    ensures Wrap8(x + TWO8 * q) == Wrap8(x)
  {
    assert (x + TWO8 * q) % TWO8 == x % TWO8;
  }

  // ---------------------------------------------------------------------
  // Decoding one line

  lemma ChunkBound(len: nat, nbits: nat, k: nat)
    requires nbits > 0 && k < len / nbits
    ensures nbits * k + nbits <= len
  {
    assert nbits * k + nbits == nbits * (k + 1);
    assert nbits * (k + 1) <= nbits * (len / nbits);
  }

  /** The digits of sample `k`. */
  function Chunk(line: string, nbits: nat, k: nat): (r: string)
    requires nbits > 0 && k < |line| / nbits
    ensures |r| == nbits
  {
    ChunkBound(|line|, nbits, k);
    line[nbits * k .. nbits * k + nbits]
  }

  /** The samples of one line, before the glitch filter: `|line| / nbits`
      of them, each from its own `nbits` digits. */
  function DecodeLine(line: string, nbits: nat, invert: bool): (r: seq<int>)
    requires nbits > 0
    ensures |r| == |line| / nbits
    ensures forall k :: 0 <= k < |r| ==> IsInt16(r[k])
  {
    seq(|line| / nbits, k requires 0 <= k < |line| / nbits => Stored(Assemble(Chunk(line, nbits, k)), nbits, invert))
  }

  /** The inner loop of the constructor: one sample's accumulator. */
  method AssembleSample(line: string, start: nat, nbits: nat) returns (value: bv16)
    requires start + nbits <= |line|
    ensures value == Assemble(line[start .. start + nbits])
  {
    value := 0;
    var bit := 0;
    while bit < nbits
      invariant 0 <= bit <= nbits
      invariant value == Assemble(line[start .. start + bit])
    {
      assert line[start .. start + bit + 1][..bit] == line[start .. start + bit];
      value := (value << 4) | DigitBits(line[start + bit]);
      bit := bit + 1;
    }
  }

  /** The decoding loops of the constructor for one line. */
  method DecodeSamples(line: string, nbits: nat, invert: bool) returns (w: array<int>)
    requires nbits > 0
    ensures fresh(w)
    ensures w[..] == DecodeLine(line, nbits, invert)
  {
    var n := |line| / nbits;
    w := new int[n](_ => 0);
    var index := 0;
    while index < n
      invariant 0 <= index <= n
      invariant forall k :: 0 <= k < index ==> w[k] == DecodeLine(line, nbits, invert)[k]
    {
      ChunkBound(|line|, nbits, index);
      var value := AssembleSample(line, nbits * index, nbits);
      w[index] := Stored(value, nbits, invert);
      index := index + 1;
    }
  }

  // ---------------------------------------------------------------------
  // The bit-flip filter

  function Max(a: nat, b: nat): nat
  {
    if a >= b then a else b
  }

  /** One difference of `is_peak_cell`: 0 when the guard says so, otherwise
      `|w[index] - w[j]|` read with `.at()`, which fails outside the line. */
  function Probe(w: seq<int>, index: nat, j: int, guarded: bool): Option<nat>
    requires index < |w|
  {
    if guarded then Some(0)
    else if 0 <= j < |w| then Some(Abs(w[index] - w[j]))
    else None
  }

  /** A jump of more than 70 to one of the next two samples. */
  predicate JumpsAfter(w: seq<int>, i: nat)
    requires i < |w|
  {
    (i + 1 < |w| && Abs(w[i] - w[i + 1]) > 70) || (i + 2 < |w| && Abs(w[i] - w[i + 2]) > 70)
  }

  /** A jump of more than 70 to one of the previous two samples. */
  predicate JumpsBefore(w: seq<int>, i: nat)
    requires i < |w|
  {
    (i >= 1 && Abs(w[i] - w[i - 1]) > 70) || (i >= 2 && Abs(w[i] - w[i - 2]) > 70)
  }

  /** `size - k` in `size_t` arithmetic: a negative difference wraps
      around 2^64. */
  function SizeDiff(n: nat, k: nat): (r: nat)
    requires k <= 3
    ensures n >= k ==> r == n - k
    ensures n < k ==> r >= TWO64 - 3
  {
    if n >= k then n - k else n - k + TWO64
  }

  /** `is_peak_cell`, with `w.size() - 2` and `w.size() - 3` computed in
      64-bit unsigned arithmetic (`SizeDiff`). `None` is the `std::out_of_range` thrown
      by `.at()`: it happens exactly for lines of one or two samples. */
  function PeakCell(w: seq<int>, index: nat): (r: Option<bool>)
    requires index < |w|
    ensures r.None? <==> |w| <= 2
    ensures |w| >= 3 ==> r == Some(JumpsAfter(w, index) && JumpsBefore(w, index))
    ensures r == Some(true) ==> 1 <= index <= |w| - 2
  {
    var n := |w|;
    var p1 := Probe(w, index, index + 1, index > SizeDiff(n, 2));
    var p2 := Probe(w, index, index + 2, index > SizeDiff(n, 3));
    var m1 := Probe(w, index, index - 1, index < 1);
    var m2 := Probe(w, index, index - 2, index < 2);
    if p1.None? || p2.None? || m1.None? || m2.None? then None
    else Some(Max(p1.value, p2.value) > 70 && Max(m1.value, m2.value) > 70)
  }

  /** The filter's visit of sample `i`: a peak cell becomes the truncated
      mean of its two neighbours. */
  function Step(w: seq<int>, i: nat): (r: seq<int>)
    requires i < |w|
    ensures |r| == |w|
  {
    if PeakCell(w, i) == Some(true) then w[i := CDiv(w[i + 1] + w[i - 1], 2)] else w
  }

  /** The samples after visiting `i`, `i + 1`, ... in turn; each visit sees
      the values earlier visits rewrote. */
  function FilterFrom(w: seq<int>, i: nat): (r: seq<int>)
    ensures |r| == |w|
    decreases |w| - i
  {
    if i >= |w| then w else FilterFrom(Step(w, i), i + 1)
  }

  function Filter(w: seq<int>): (r: seq<int>)
    ensures |r| == |w|
  {
    FilterFrom(w, 0)
  }

  /** The in-place filter loop of the constructor. It fails (the constructor
      throws) exactly on a line of one or two samples, before changing any. */
  method FilterGlitches(w: array<int>) returns (ok: bool)
    modifies w
    ensures ok <==> w.Length != 1 && w.Length != 2
    ensures ok ==> w[..] == Filter(old(w[..]))
    ensures !ok ==> w[..] == old(w[..])
  {
    var index := 0;
    while index < w.Length
      invariant 0 <= index <= w.Length
      invariant index > 0 ==> w.Length >= 3
      invariant FilterFrom(w[..], index) == Filter(old(w[..]))
      invariant index == 0 ==> w[..] == old(w[..])
    {
      var peak := PeakCell(w[..], index);
      if peak.None? {
        return false;
      }
      if peak.value {
        w[index] := CDiv(w[index + 1] + w[index - 1], 2);
      }
      index := index + 1;
    }
    return true;
  }

  /** The first and the last sample are never rewritten. */
  lemma {:induction false} FilterKeepsEnds(w: seq<int>, i: nat)
    requires |w| > 0
    ensures FilterFrom(w, i)[0] == w[0] && FilterFrom(w, i)[|w| - 1] == w[|w| - 1]
    decreases |w| - i
  {
    if i < |w| {
      FilterKeepsEnds(Step(w, i), i + 1);
    }
  }

  /** The mean of two `int16_t` samples is one. */
  lemma MeanInt16(a: int, b: int)
    requires IsInt16(a) && IsInt16(b)
    ensures IsInt16(CDiv(a + b, 2))
  {
  }

  predicate AllInt16(w: seq<int>)
  {
    forall k :: 0 <= k < |w| ==> IsInt16(w[k])
  }

  /** Rewritten samples still fit in 16 bits. */
  lemma {:induction false} FilterInt16(w: seq<int>, i: nat)
    requires AllInt16(w)
    ensures AllInt16(FilterFrom(w, i))
    decreases |w| - i
  {
    if i < |w| {
      if PeakCell(w, i) == Some(true) {
        MeanInt16(w[i + 1], w[i - 1]);
      }
      FilterInt16(Step(w, i), i + 1);
    }
  }

  /** No two samples at most two apart differ by more than 70. */
  predicate Smooth(w: seq<int>)
  {
    forall i, j :: 0 <= i < |w| && 0 <= j < |w| && i - 2 <= j <= i + 2 ==> Abs(w[i] - w[j]) <= 70
  }

  /** A waveform without jumps passes the filter unchanged. */
  lemma {:induction false} FilterSmooth(w: seq<int>, i: nat)
    requires Smooth(w) && |w| >= 3
    ensures FilterFrom(w, i) == w
    decreases |w| - i
  {
    if i < |w| {
      assert PeakCell(w, i) != Some(true) by {
        if i + 1 < |w| { assert Abs(w[i] - w[i + 1]) <= 70; }
        if i + 2 < |w| { assert Abs(w[i] - w[i + 2]) <= 70; }
      }
      FilterSmooth(w, i + 1);
    }
  }

  /** A single flipped sample is replaced by the mean of its neighbours. */
  lemma SpikeRemoved()
    ensures Filter([0, 0, 100, 0, 0]) == [0, 0, 0, 0, 0]
  {
    var w := [0, 0, 100, 0, 0];
    assert Step(w, 0) == w;
    assert Step(w, 1) == w;
    var v := Step(w, 2);
    assert v == [0, 0, 0, 0, 0];
    assert Smooth(v);
    FilterSmooth(v, 3);
  }

  // ---------------------------------------------------------------------
  // Pedestal and area sums (exact reals stand for the doubles)

  /** A sample in mV: the read-out times the conversion factor. */
  function MilliVolts(v: int, adc: real): real
  {
    v as real * adc
  }

  /** The sum, over the samples `lo <= i < hi`, of each sample in mV
      (times `adc`) less `offset`: the running total of the source loops. */
  function ScaledSum(s: seq<int>, adc: real, offset: real, lo: nat, hi: nat): real
    requires hi <= |s|
    decreases hi
  {
    if hi <= lo then 0.0 else ScaledSum(s, adc, offset, lo, hi - 1) + (MilliVolts(s[hi - 1], adc) - offset)
  }

  /** A window of equal samples sums to its length times one term. */
  lemma {:induction false} ScaledSumConstant(s: seq<int>, adc: real, offset: real, lo: nat, hi: nat, c: int)
    requires lo <= hi <= |s|
    requires forall i :: lo <= i < hi ==> s[i] == c
    ensures ScaledSum(s, adc, offset, lo, hi) == (hi - lo) as real * (MilliVolts(c, adc) - offset)
    decreases hi
  {
    if hi > lo {
      ScaledSumConstant(s, adc, offset, lo, hi - 1, c);
      var v := MilliVolts(c, adc) - offset;
      var n := (hi - 1 - lo) as real;
      assert s[hi - 1] == c;
      assert ScaledSum(s, adc, offset, lo, hi - 1) == n * v;
      calc {
        ScaledSum(s, adc, offset, lo, hi);
        ScaledSum(s, adc, offset, lo, hi - 1) + v;
        n * v + v;
        (n + 1.0) * v;
        { assert n + 1.0 == (hi - lo) as real; }
        (hi - lo) as real * v;
      }
    }
  }

  /** `PedValue`. Either bound at `unsigned(-1)` gives 0. An empty window
      divides 0 by 0, a NaN, reported as a failure; a reversed one divides 0
      by the wrapped (huge) difference, giving 0. A sample outside the data
      makes `.at()` throw. */
  function PedMean(w: seq<seq<int>>, adc: real, index: nat, pedstart: nat, pedstop: nat): (r: Result<real, string>)
  {
    if pedstart == UINT_MAX || pedstop == UINT_MAX then Success(0.0)
    else if pedstart < pedstop then
      if index < |w| && pedstop <= |w[index]| then
        Success(Average(ScaledSum(w[index], adc, 0.0, pedstart, pedstop), pedstop - pedstart))
      else Failure("out_of_range")
    else if pedstart == pedstop then Failure("NaN")
    else Success(0.0)
  }

  /** A flat pedestal window has the flat value, in mV, as its mean. */
  lemma PedMeanFlat(w: seq<seq<int>>, adc: real, index: nat, pedstart: nat, pedstop: nat, c: int)
    requires pedstart < pedstop < UINT_MAX && index < |w| && pedstop <= |w[index]|
    requires forall i :: pedstart <= i < pedstop ==> w[index][i] == c
    ensures PedMean(w, adc, index, pedstart, pedstop) == Success(MilliVolts(c, adc))
  {
    ScaledSumConstant(w[index], adc, 0.0, pedstart, pedstop, c);
    var n := (pedstop - pedstart) as real;
    var x := MilliVolts(c, adc);
    var a := Average(ScaledSum(w[index], adc, 0.0, pedstart, pedstop), pedstop - pedstart);
    assert a * n == n * (x - 0.0) == n * x;
    assert (a - x) * n == 0.0;
  }

  /** The scaled samples `PedRMS` hands to the standard deviation. */
  function PedList(s: seq<int>, adc: real, pedstart: nat, pedstop: nat): (r: seq<real>)
    requires pedstart <= pedstop <= |s|
    ensures |r| == pedstop - pedstart
    ensures forall k :: 0 <= k < |r| ==> r[k] == MilliVolts(s[pedstart + k], adc)
  {
    seq(pedstop - pedstart, k requires 0 <= k < pedstop - pedstart => MilliVolts(s[pedstart + k], adc))
  }

  /** A summed window in mV times the sample interval. */
  function Area(total: real, time: real): real
  {
    total * time
  }

  /** Widening the window by one sample appends that sample, scaled. */
  lemma PedListSnoc(s: seq<int>, adc: real, pedstart: nat, i: nat)
    requires pedstart <= i < |s|
    ensures PedList(s, adc, pedstart, i + 1) == PedList(s, adc, pedstart, i) + [MilliVolts(s[i], adc)]
  {
    var a := PedList(s, adc, pedstart, i + 1);
    var b := PedList(s, adc, pedstart, i) + [MilliVolts(s[i], adc)];
    assert |a| == |b|;
    forall k | 0 <= k < |a|
      ensures a[k] == b[k]
    {
      if k < |a| - 1 {
        assert b[k] == PedList(s, adc, pedstart, i)[k];
      }
    }
  }

  /** The summed window of `WaveformSum`: from `intstart` up to the smaller
      of `intstop` and the length of the first waveform, each sample in mV
      minus the pedestal, times the sample interval. The pedestal is
      computed first, so a throw from its `.at()` always propagates; but with
      an empty integration window the summing loop never runs and a NaN
      pedestal is never used, so the area is 0. */
  function WindowSum(w: seq<seq<int>>, adc: real, time: real, index: nat,
                     intstart: nat, intstop: nat, pedstart: nat, pedstop: nat): (r: Result<real, string>)
    requires |w| > 0
    ensures (if intstop < |w[0]| then intstop else |w[0]|) <= intstart ==>
      (r.Success? <==> PedMean(w, adc, index, pedstart, pedstop) != Failure("out_of_range"))
      && (r.Success? ==> r.value == 0.0)
    ensures intstart < (if intstop < |w[0]| then intstop else |w[0]|) && PedMean(w, adc, index, pedstart, pedstop).Failure? ==>
      r == PedMean(w, adc, index, pedstart, pedstop)
  {
    var ped := PedMean(w, adc, index, pedstart, pedstop);
    var stop := if intstop < |w[0]| then intstop else |w[0]|;
    if stop <= intstart then
      if ped == Failure("out_of_range") then ped else Success(0.0)
    else if ped.Failure? then ped
    else if index < |w| && stop <= |w[index]| then
      Success(Area(ScaledSum(w[index], adc, ped.value, intstart, stop), time))
    else Failure("out_of_range")
  }

  // ---------------------------------------------------------------------
  // The file

  /** Every line, decoded and filtered, in file order. */
  function Decoded(lines: seq<string>, nbits: nat, invert: bool): (r: seq<seq<int>>)
    requires nbits > 0
    ensures |r| == |lines|
  {
    if lines == [] then []
    else Decoded(lines[..|lines| - 1], nbits, invert) + [Filter(DecodeLine(lines[|lines| - 1], nbits, invert))]
  }

  /** Every line is `Filterable`, checked from the last one back. */
  predicate AllFilterable(lines: seq<string>, nbits: nat)
    requires nbits > 0
  {
    lines == [] || (AllFilterable(lines[..|lines| - 1], nbits) && Filterable(lines[|lines| - 1], nbits))
  }

  /** `AllFilterable` holds exactly when each line is `Filterable`. */
  lemma {:induction false} AllFilterableEach(lines: seq<string>, nbits: nat)
    requires nbits > 0
    ensures AllFilterable(lines, nbits) <==> forall i :: 0 <= i < |lines| ==> Filterable(lines[i], nbits)
  {
    if lines != [] {
      var init := lines[..|lines| - 1];
      AllFilterableEach(init, nbits);
      assert forall i :: 0 <= i < |init| ==> init[i] == lines[i];
    }
  }

  /** Decoding one more line appends its filtered samples; checking one
      more line adds its check. */
  lemma DecodedSnoc(lines: seq<string>, i: nat, nbits: nat, invert: bool)
    requires i < |lines| && nbits > 0
    ensures Decoded(lines[..i + 1], nbits, invert)
      == Decoded(lines[..i], nbits, invert) + [Filter(DecodeLine(lines[i], nbits, invert))]
    ensures AllFilterable(lines[..i + 1], nbits) <==> AllFilterable(lines[..i], nbits) && Filterable(lines[i], nbits)
  {
    assert lines[..i + 1][..i] == lines[..i];
  }

  /** A line the filter can process: not one or two samples long. */
  predicate Filterable(line: string, nbits: nat)
    requires nbits > 0
  {
    |line| < nbits || 3 * nbits <= |line|
  }

  /** `Filterable` is exactly a sample count other than one or two. */
  lemma FilterableCount(line: string, nbits: nat)
    requires nbits > 0
    ensures Filterable(line, nbits) <==> |line| / nbits != 1 && |line| / nbits != 2
  {
    var q, r := |line| / nbits, |line| % nbits;
    assert |line| == q * nbits + r && 0 <= r < nbits;
    if q >= 3 {
      MulAtLeast(q, 3, nbits);
    }
  }

  lemma MulAtLeast(a: nat, b: nat, c: nat)
    requires b <= a
    ensures b * c <= a * c
  {
  }

  class WaveFormat {
    var time: real
    var nbits: nat
    var adc: real
    var waveforms: seq<seq<int>>

    /** Every stored sample fits in an `int16_t`. */
    predicate Valid()
      reads this
    {
      forall i :: 0 <= i < |waveforms| ==> AllInt16(waveforms[i])
    }

    /** The header line has been read; no waveform yet. */
    constructor (time: real, nbits: nat, adc: real)
      ensures this.time == time && this.nbits == nbits && this.adc == adc
      ensures waveforms == [] && Valid()
    {
      this.time := time;
      this.nbits := nbits;
      this.adc := adc;
      waveforms := [];
    }

    /** One iteration of the constructor's line loop: the decoded line is
        appended, then filtered in place. On a line of one or two samples
        the filter throws, leaving the unfiltered samples behind. */
    method AddLine(line: string, invert: bool) returns (ok: bool)
      requires nbits > 0 && Valid()
      modifies this
      ensures time == old(time) && nbits == old(nbits) && adc == old(adc)
      ensures ok <==> Filterable(line, nbits)
      ensures ok ==> waveforms == old(waveforms) + [Filter(DecodeLine(line, nbits, invert))]
      ensures !ok ==> waveforms == old(waveforms) + [DecodeLine(line, nbits, invert)]
      ensures Valid()
    {
      var w := DecodeSamples(line, nbits, invert);
      FilterableCount(line, nbits);
      ok := FilterGlitches(w);
      if ok {
        FilterInt16(DecodeLine(line, nbits, invert), 0);
      }
      waveforms := waveforms + [w[..]];
    }

    /** `WaveformRaw`: the samples of waveform `index` minus `offset`, each
        difference stored back into an `int16_t`. */
    method WaveformRaw(index: nat, offset: int) returns (r: Result<seq<int>, string>)
      requires IsInt16(offset)
      ensures index >= |waveforms| ==> r.Failure?
      ensures index < |waveforms| ==> r.Success? && |r.value| == |waveforms[index]|
      ensures index < |waveforms| ==> forall k :: 0 <= k < |r.value| ==> r.value[k] == Wrap16(waveforms[index][k] - offset)
    {
      if index >= |waveforms| {
        return Failure("out_of_range");
      }
      var w := waveforms[index];
      var ans: seq<int> := [];
      var i := 0;
      while i < |w|
        invariant 0 <= i <= |w|
        invariant |ans| == i
        invariant forall k :: 0 <= k < i ==> ans[k] == Wrap16(w[k] - offset)
      {
        ans := ans + [Wrap16(w[i] - offset)];
        i := i + 1;
      }
      return Success(ans);
    }

    /** `PedValue`: the loop sums the scaled samples of the window. */
    method PedValue(index: nat, pedstart: nat, pedstop: nat) returns (r: Result<real, string>)
      ensures r == PedMean(waveforms, adc, index, pedstart, pedstop)
      ensures pedstart == UINT_MAX || pedstop == UINT_MAX ==> r == Success(0.0)
    {
      if pedstart == UINT_MAX || pedstop == UINT_MAX {
        return Success(0.0);
      }
      var ped := 0.0;
      var i := pedstart;
      while i < pedstop
        invariant pedstart <= i || pedstop <= pedstart
        invariant pedstart < pedstop ==> i <= pedstop
        invariant i > pedstart ==> index < |waveforms| && i <= |waveforms[index]|
        invariant i > pedstart ==> ped == ScaledSum(waveforms[index], adc, 0.0, pedstart, i)
        invariant i == pedstart ==> ped == 0.0
        invariant pedstop <= pedstart ==> ped == 0.0 && i == pedstart
        decreases pedstop - i
      {
        if index >= |waveforms| || i >= |waveforms[index]| {
          return Failure("out_of_range");
        }
        ped := ped + MilliVolts(waveforms[index][i], adc);
        i := i + 1;
      }
      if pedstart == pedstop {
        return Failure("NaN");
      } else if pedstop < pedstart {
        return Success(0.0);
      }
      return Success(Average(ped, pedstop - pedstart));
    }

    /** `PedRMS`: 0 for the default window, otherwise the standard
        deviation (`stddev`, a library routine) of the scaled samples. */
    method PedRMS(index: nat, pedstart: nat, pedstop: nat, stddev: seq<real> -> real)
      returns (r: Result<real, string>)
      ensures pedstart == UINT_MAX || pedstop == UINT_MAX ==> r == Success(0.0)
      ensures pedstart != UINT_MAX && pedstop != UINT_MAX && pedstop <= pedstart ==> r == Success(stddev([]))
      ensures pedstart != UINT_MAX && pedstop != UINT_MAX && pedstart < pedstop ==>
        if index < |waveforms| && pedstop <= |waveforms[index]|
        then r == Success(stddev(PedList(waveforms[index], adc, pedstart, pedstop)))
        else r.Failure?
    {
      if pedstart == UINT_MAX || pedstop == UINT_MAX {
        return Success(0.0);
      }
      var list: seq<real> := [];
      var i := pedstart;
      while i < pedstop
        invariant pedstart <= i
        invariant pedstart < pedstop ==> i <= pedstop
        invariant i > pedstart ==> index < |waveforms| && i <= |waveforms[index]|
        invariant i > pedstart ==> list == PedList(waveforms[index], adc, pedstart, i)
        invariant i == pedstart ==> list == []
        invariant pedstop <= pedstart ==> list == []
        decreases pedstop - i
      {
        if index >= |waveforms| || i >= |waveforms[index]| {
          return Failure("out_of_range");
        }
        var x := MilliVolts(waveforms[index][i], adc);
        PedListSnoc(waveforms[index], adc, pedstart, i);
        if i == pedstart {
          assert PedList(waveforms[index], adc, pedstart, i) == [];
          assert list == [];
        } else {
          assert list == PedList(waveforms[index], adc, pedstart, i);
        }
        assert list + [x] == PedList(waveforms[index], adc, pedstart, i + 1);
        list := list + [x];
        i := i + 1;
      }
      return Success(stddev(list));
    }

    /** `WaveformSum`. */
    method WaveformSum(index: nat, intstart: nat, intstop: nat, pedstart: nat, pedstop: nat)
      returns (r: Result<real, string>)
      requires |waveforms| > 0
      ensures r == WindowSum(waveforms, adc, time, index, intstart, intstop, pedstart, pedstop)
    {
      var ped := PedValue(index, pedstart, pedstop);
      var stop := if intstop < |waveforms[0]| then intstop else |waveforms[0]|;
      if ped.Failure? && (ped.error != "NaN" || intstart < stop) {
        return ped;
      }
      var pv := if ped.Success? then ped.value else 0.0;
      var ans := 0.0;
      var i := intstart;
      while i < stop
        invariant intstart <= i || stop <= intstart
        invariant intstart < stop ==> i <= stop
        invariant i > intstart ==> index < |waveforms| && i <= |waveforms[index]|
        invariant i > intstart ==> ans == ScaledSum(waveforms[index], adc, pv, intstart, i)
        invariant i == intstart ==> ans == 0.0
        invariant stop <= intstart ==> ans == 0.0
        decreases stop - i
      {
        if index >= |waveforms| || i >= |waveforms[index]| {
          return Failure("out_of_range");
        }
        ans := ans + (MilliVolts(waveforms[index][i], adc) - pv);
        i := i + 1;
      }
      return Success(Area(ans, time));
    }

    /** `SumList` as written: the loop passes its four arguments to
        `WaveformSum` shifted by one place (`intstart` as the waveform
        index, the pedestal stop left at its default) and never uses the
        loop index, so every entry is the same number. The list is then
        sorted. */
    method SumList(intstart: nat, intstop: nat, pedstart: nat, pedstop: nat)
      returns (r: Result<seq<real>, string>)
      ensures |waveforms| == 0 ==> r == Success([])
      ensures |waveforms| > 0 ==>
        var v := WindowSum(waveforms, adc, time, intstart, intstop, pedstart, pedstop, UINT_MAX);
        (r.Success? <==> v.Success?)
        && (r.Success? ==>
              |r.value| == |waveforms| && SortedBy(r.value, (x: real) => x)
              && forall k :: 0 <= k < |r.value| ==> r.value[k] == v.value)
    {
      var ans: seq<real> := [];
      var i := 0;
      while i < |waveforms|
        invariant 0 <= i <= |waveforms|
        invariant |ans| == i
        invariant i > 0 ==> WindowSum(waveforms, adc, time, intstart, intstop, pedstart, pedstop, UINT_MAX).Success?
        invariant forall k :: 0 <= k < i ==>
          ans[k] == WindowSum(waveforms, adc, time, intstart, intstop, pedstart, pedstop, UINT_MAX).value
      {
        var s := WaveformSum(intstart, intstop, pedstart, pedstop, UINT_MAX);
        if s.Failure? {
          return Failure(s.error);
        }
        ans := ans + [s.value];
        i := i + 1;
      }
      var sorted := SortBy(ans, (x: real) => x);
      SortByCorrect(ans, (x: real) => x);
      forall k | 0 <= k < |sorted|
        ensures sorted[k] in multiset(ans)
      {
        assert sorted[k] in multiset(sorted);
      }
      return Success(sorted);
    }
  }

  /** The constructor over the header values and the data lines. It throws
      when a data line meets a zero digit count (a division by zero) or
      decodes to one or two samples. */
  method Load(time: real, nbits: nat, adc: real, lines: seq<string>, invert: bool)
    returns (r: Result<WaveFormat, string>)
    ensures r.Success? <==> |lines| == 0 || (nbits > 0 && forall i :: 0 <= i < |lines| ==> Filterable(lines[i], nbits))
    ensures r.Success? ==> fresh(r.value) && r.value.Valid()
    ensures r.Success? ==> r.value.time == time && r.value.nbits == nbits && r.value.adc == adc
    ensures r.Success? && nbits > 0 ==> r.value.waveforms == Decoded(lines, nbits, invert)
    ensures r.Success? && |lines| == 0 ==> r.value.waveforms == []
  {
    var wf := new WaveFormat(time, nbits, adc);
    if |lines| == 0 {
      return Success(wf);
    }
    if nbits == 0 {
      return Failure("division by zero");
    }
    var i := 0;
    while i < |lines|
      invariant 0 <= i <= |lines|
      invariant fresh(wf) && wf.Valid()
      invariant wf.time == time && wf.nbits == nbits && wf.adc == adc
      invariant wf.waveforms == Decoded(lines[..i], nbits, invert)
      invariant AllFilterable(lines[..i], nbits)
    {
      var ok := wf.AddLine(lines[i], invert);
      if !ok {
        return Failure("out_of_range");
      }
      DecodedSnoc(lines, i, nbits, invert);
      i := i + 1;
    }
    assert lines[..i] == lines;
    AllFilterableEach(lines, nbits);
    return Success(wf);
  }
}

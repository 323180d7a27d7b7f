/** The SiPM readout file (SiPMCalc/src/SiPMFormat.cc): a header with the
    sample interval, the number of captures, the pre- and post-trigger
    sample counts and the ADC conversion factor, then one line per capture
    holding two hexadecimal characters per signed 8-bit sample. Each line is
    reduced to one area over a sample window, after subtracting an optional
    per-sample baseline averaged from a second file of the same format. */
module SiPMData {
  import opened CInt
  import opened Seqs
  import opened Wrappers

  // ---------------------------------------------------------------------
  // Decoding one sample

  /** The digit rule of the decoder. The comparisons are not strict, so the
      hexadecimal digits of either case decode to 0-15; any other character
      still yields a number. */
  function DigitValue(c: char): (r: int)
    ensures '0' <= c <= '9' ==> r == c as int - '0' as int
    ensures 'a' <= c <= 'f' ==> r == c as int - 'a' as int + 10
    ensures 'A' <= c <= 'F' ==> r == c as int - 'A' as int + 10
  {
    var x := CharCode(c);
    if x >= 'a' as int then 10 + x - 'a' as int
    else if x >= 'A' as int then 10 + x - 'A' as int
    else x - '0' as int
  }

  /** The `int8_t` a digit value is stored into. */
  function Nibble(c: char): (r: int)
    ensures IsInt8(r)
  {
    Wrap8(DigitValue(c))
  }

  /** Bitwise OR of two non-negative integers. */
  function BitOr(a: nat, b: nat): nat
    decreases a + b
  {
    if a == 0 then b
    else if b == 0 then a
    else 2 * BitOr(a / 2, b / 2) + (if a % 2 == 1 || b % 2 == 1 then 1 else 0)
  }

  /** The signed byte `v1 << 4 | v2` stored into an `int8_t`. Only the low
      byte of the `int` expression survives: there the shifted `v1`
      contributes its low four bits as the high half, and `v2`, sign-extended
      to `int`, contributes its whole low byte. */
  function SampleValue(c1: char, c2: char): (r: int)
    ensures IsInt8(r)
  {
    Wrap8(BitOr(16 * (Nibble(c1) % 16), Nibble(c2) % TWO8))
  }

  /** The characters both decoders of this file agree are hexadecimal. */
  predicate HexChar(c: char)
  {
    '0' <= c <= '9' || 'a' <= c <= 'f' || 'A' <= c <= 'F'
  }

  function Pow2(k: nat): (p: nat)
    ensures p > 0
  {
    if k == 0 then 1 else 2 * Pow2(k - 1)
  }

  /** OR-ing a number below 2^k into a multiple of 2^k adds it. */
  lemma {:induction false} BitOrShift(a: nat, d: nat, k: nat)
    requires d < Pow2(k)
    ensures BitOr(a * Pow2(k), d) == a * Pow2(k) + d
  {
    var x := a * Pow2(k);
    if k == 0 {
      assert d == 0;
    } else if a == 0 || d == 0 {
    } else {
      var p := Pow2(k - 1);
      assert x == 2 * (a * p);
      BitOrShift(a, d / 2, k - 1);
      assert BitOr(x, d) == 2 * BitOr(a * p, d / 2) + d % 2;
    }
  }

  /** A hexadecimal character's digit value is stored unchanged. */
  lemma HexDigitRange(c: char)
    requires HexChar(c)
    ensures 0 <= DigitValue(c) < 16 && Nibble(c) == DigitValue(c)
  {
  }

  /** `d1 << 4 | d2` for two digits is `16 * d1 + d2`. */
  lemma ShiftOr(d1: nat, d2: nat)
    requires d1 < 16 && d2 < 16
    ensures BitOr(16 * d1, d2) == 16 * d1 + d2
  {
    assert Pow2(4) == 16;
    BitOrShift(d1, d2, 4);
  }

  /** Two hexadecimal characters decode to the byte `16 * d1 + d2` read as a
      signed number. */
  lemma HexPairValue(c1: char, c2: char)
    requires HexChar(c1) && HexChar(c2)
    ensures 0 <= DigitValue(c1) < 16 && 0 <= DigitValue(c2) < 16
    ensures SampleValue(c1, c2) == Wrap8(16 * DigitValue(c1) + DigitValue(c2))
  {
    var d1 := DigitValue(c1);
    var d2 := DigitValue(c2);
    HexDigitRange(c1);
    HexDigitRange(c2);
    var x1 := Nibble(c1) % 16;
    var x2 := Nibble(c2) % TWO8;
    assert x1 == d1 && x2 == d2;
    ShiftOr(d1, d2);
    assert SampleValue(c1, c2) == Wrap8(BitOr(16 * x1, x2));
  }

  const HexDigits: string := "0123456789abcdef"

  /** The two lower-case characters that write a signed byte. */
  function HexPair(b: int): (r: string)
    requires IsInt8(b)
    ensures |r| == 2 && HexChar(r[0]) && HexChar(r[1])
  {
    var m := b % TWO8;
    [HexDigits[m / 16], HexDigits[m % 16]]
  }

  /** Every lower-case digit decodes to its position. */
  lemma DigitOfHex(d: nat)
    requires d < 16
    ensures DigitValue(HexDigits[d]) == d
  {
    if d < 10 {
      assert HexDigits[d] as int == '0' as int + d;
    } else {
      assert HexDigits[d] as int == 'a' as int + d - 10;
    }
  }

  /** The low byte of a signed byte, read back as signed, is the byte. */
  lemma LowByte(b: int)
    requires IsInt8(b)
    ensures 0 <= b % TWO8 < TWO8 && Wrap8(b % TWO8) == b
  {
    if b < 0 {
      assert b % TWO8 == b + TWO8;
    }
  }

  /** A byte is its high digit times 16 plus its low digit. */
  lemma Nibbles(m: nat)
    ensures 16 * (m / 16) + m % 16 == m
  {
  }

  /** Writing a byte as two digits and decoding them gives the byte back. */
  lemma HexPairRoundTrip(b: int)
    requires IsInt8(b)
    ensures SampleValue(HexPair(b)[0], HexPair(b)[1]) == b
  {
    LowByte(b);
    var m := b % TWO8;
    var d1, d2 := m / 16, m % 16;
    Nibbles(m);
    var c1 := HexDigits[d1];
    var c2 := HexDigits[d2];
    assert HexPair(b) == [c1, c2];
    DigitOfHex(d1);
    DigitOfHex(d2);
    HexPairValue(c1, c2);
    assert SampleValue(c1, c2) == Wrap8(16 * d1 + d2) == Wrap8(m);
  }

  // ---------------------------------------------------------------------
  // Lines

  /** `line[j]`: the terminating NUL when `j` is the length. */
  function CharAt(line: string, j: nat): char
    requires j <= |line|
  {
    if j < |line| then line[j] else '\0'
  }

  /** The line holds the characters of the samples `i < stop` (the last
      sample may end on the terminator); reading further is undefined. */
  predicate Covers(line: string, stop: nat)
  {
    2 * stop <= |line| + 1
  }

  /** Sample `i` of a line: characters `2i` and `2i+1`. */
  function Sample(line: string, i: nat): (r: int)
    requires Covers(line, i + 1)
    ensures IsInt8(r)
  {
    SampleValue(CharAt(line, 2 * i), CharAt(line, 2 * i + 1))
  }

  /** The first `n` samples of a line, decoded. */
  function SampleRow(line: string, n: nat): (r: seq<int>)
    requires Covers(line, n)
    ensures |r| == n
  {
    seq(n, i requires 0 <= i < n => Sample(line, i))
  }

  /** The samples of the window `lo <= i < hi`, summed. */
  function WindowTotal(row: seq<int>, lo: nat, hi: nat): real
    requires hi <= |row|
    decreases hi
  {
    if hi <= lo then 0.0 else WindowTotal(row, lo, hi - 1) + row[hi - 1] as real
  }

  /** The area contribution of one sample: `(v - baseline) * timeint * (-1)`. */
  function AreaTerm(v: int, base: real, timeint: nat): real
  {
    (v as real - base) * timeint as real * -1.0
  }

  /** The area of one line's samples over the window `lo <= i < hi`. */
  function LineArea(row: seq<int>, baseline: seq<real>, timeint: nat, lo: nat, hi: nat): real
    requires hi <= |row| && hi <= |baseline|
    decreases hi
  {
    if hi <= lo then 0.0
    else LineArea(row, baseline, timeint, lo, hi - 1) + AreaTerm(row[hi - 1], baseline[hi - 1], timeint)
  }

  /** Without a baseline a sample's term is minus the sample interval times
      the sample. */
  lemma AreaTermZero(v: int, timeint: nat)
    ensures AreaTerm(v, 0.0, timeint) == -(timeint as real) * v as real
  {
  }

  /** With an all-zero baseline a line's area is minus the sample interval
      times the sum of its samples in the window. */
  lemma {:induction false} LineAreaZeroBaseline(row: seq<int>, baseline: seq<real>, timeint: nat, lo: nat, hi: nat)
    requires hi <= |row| && hi <= |baseline|
    requires forall i :: 0 <= i < |baseline| ==> baseline[i] == 0.0
    ensures LineArea(row, baseline, timeint, lo, hi) == -(timeint as real) * WindowTotal(row, lo, hi)
    decreases hi
  {
    if hi > lo {
      LineAreaZeroBaseline(row, baseline, timeint, lo, hi - 1);
      var t := timeint as real;
      var v := row[hi - 1] as real;
      var w := WindowTotal(row, lo, hi - 1);
      assert baseline[hi - 1] == 0.0;
      AreaTermZero(row[hi - 1], timeint);
      calc {
        LineArea(row, baseline, timeint, lo, hi);
        -t * w + -t * v;
        -t * (w + v);
        -t * WindowTotal(row, lo, hi);
      }
    }
  }

  /** The lines cover the samples `i < n`. */
  predicate AllCover(lines: seq<string>, n: nat)
  {
    forall k :: 0 <= k < |lines| ==> Covers(lines[k], n)
  }

  /** The samples the window `lo <= i < hi` reads: those below `hi`, or none
      when the window is empty. */
  function Reach(lo: nat, hi: nat): (n: nat)
    ensures n <= hi && (lo < hi <==> n == hi && n > 0)
  {
    if lo < hi then hi else 0
  }

  /** The area of one line over the window `lo <= i < hi`; only the samples
      the window reads need to be on the line, and an empty window has area
      0 whatever the line holds. */
  function WindowArea(line: string, baseline: seq<real>, timeint: nat, lo: nat, hi: nat): (r: real)
    requires hi <= |baseline| && Covers(line, Reach(lo, hi))
    ensures hi <= lo ==> r == 0.0
  {
    var n := Reach(lo, hi);
    LineArea(SampleRow(line, n), baseline, timeint, lo, n)
  }

  /** The area of every line, in file order; all 0 for an empty window. */
  function Areas(lines: seq<string>, baseline: seq<real>, timeint: nat, lo: nat, hi: nat): (r: seq<real>)
    requires hi <= |baseline| && AllCover(lines, Reach(lo, hi))
    ensures |r| == |lines|
    ensures hi <= lo ==> forall k :: 0 <= k < |r| ==> r[k] == 0.0
  {
    if lines == [] then []
    else Areas(lines[..|lines| - 1], baseline, timeint, lo, hi)
         + [WindowArea(lines[|lines| - 1], baseline, timeint, lo, hi)]
  }

  // ---------------------------------------------------------------------
  // The baseline

  /** The values read from a header line. */
  datatype Header = Header(timeint: nat, ncapture: nat, presample: nat, postsample: nat, convfactor: real)
  {
    /** The counts are read into 32-bit `unsigned` variables. */
    predicate Unsigned()
    {
      timeint < TWO32 && ncapture < TWO32 && presample < TWO32 && postsample < TWO32
    }

    /** `_presample + _postsample` in `unsigned` arithmetic. */
    function Samples(): (n: nat)
      ensures n < TWO32
    {
      WrapU32(presample + postsample)
    }
  }

  /** The baseline file is accepted when its interval, sample counts and
      conversion factor (times 256) equal those of the data file; the
      capture count is not compared. */
  predicate Matches(data: Header, base: Header)
  {
    base.timeint == data.timeint && base.presample == data.presample
    && base.postsample == data.postsample && 256.0 * base.convfactor == data.convfactor * 256.0
  }

  function Square(x: real): real
  {
    x * x
  }

  /** Sample `i` summed over the baseline lines. */
  function ColumnSum(lines: seq<string>, n: nat, i: nat): real
    requires i < n && AllCover(lines, n)
  {
    if lines == [] then 0.0
    else ColumnSum(lines[..|lines| - 1], n, i) + SampleRow(lines[|lines| - 1], n)[i] as real
  }

  /** The squares of sample `i` summed over the baseline lines. */
  function ColumnSquares(lines: seq<string>, n: nat, i: nat): real
    requires i < n && AllCover(lines, n)
  {
    if lines == [] then 0.0
    else ColumnSquares(lines[..|lines| - 1], n, i) + Square(SampleRow(lines[|lines| - 1], n)[i] as real)
  }

  /** Whether `MakeBaseLine` averages the baseline file at all. */
  predicate UsesBaseline(data: Header, file: string, base: Header)
  {
    file != "" && Matches(data, base)
  }

  /** `n` zeros. */
  function Zeros(n: nat): (r: seq<real>)
    ensures |r| == n && forall i :: 0 <= i < n ==> r[i] == 0.0
  {
    seq(n, i => 0.0)
  }

  /** The per-sample baseline `MakeBaseLine` leaves behind: zeros for no
      file or a mismatched header, otherwise each sample's mean over the
      baseline lines. */
  function Baseline(data: Header, file: string, base: Header, lines: seq<string>): (r: seq<real>)
    requires |lines| > 0 || !UsesBaseline(data, file, base) || data.Samples() == 0
    requires UsesBaseline(data, file, base) ==> AllCover(lines, data.Samples())
    ensures |r| == data.Samples()
  {
    var n := data.Samples();
    if !UsesBaseline(data, file, base) || n == 0 then Zeros(n)
    else seq(n, i requires 0 <= i < n => Average(ColumnSum(lines, n, i), |lines|))
  }

  /** The per-sample spread: the square root (`sqrt`, a library routine)
      of the mean square less the squared mean. */
  function BaselineErr(data: Header, file: string, base: Header, lines: seq<string>, sqrt: real -> real): (r: seq<real>)
    requires |lines| > 0 || !UsesBaseline(data, file, base) || data.Samples() == 0
    requires UsesBaseline(data, file, base) ==> AllCover(lines, data.Samples())
    ensures |r| == data.Samples()
  {
    var n := data.Samples();
    if !UsesBaseline(data, file, base) || n == 0 then Zeros(n)
    else
      var b := Baseline(data, file, base, lines);
      seq(n, i requires 0 <= i < n => sqrt(Average(ColumnSquares(lines, n, i), |lines|) - Square(b[i])))
  }

  /** Adding one more baseline line adds its sample to each column. */
  lemma ColumnSnoc(lines: seq<string>, j: nat, n: nat, i: nat)
    requires j < |lines| && i < n && AllCover(lines, n)
    ensures AllCover(lines[..j + 1], n) && AllCover(lines[..j], n)
    ensures ColumnSum(lines[..j + 1], n, i) == ColumnSum(lines[..j], n, i) + SampleRow(lines[j], n)[i] as real
    ensures ColumnSquares(lines[..j + 1], n, i) == ColumnSquares(lines[..j], n, i) + Square(SampleRow(lines[j], n)[i] as real)
  {
    assert lines[..j + 1][..j] == lines[..j];
  }

  // ---------------------------------------------------------------------
  // The data file

  class SiPMFormat {
    var timeint: nat
    var ncapture: nat
    var presample: nat
    var postsample: nat
    var convfactor: real
    var baseline: seq<real>
    var baselineErr: seq<real>
    var arealist: seq<real>
    var binwidth: real
    /** The areas filled into the histogram, in order. */
    var data: seq<real>

    function HeaderValues(): Header
      reads this
    {
      Header(timeint, ncapture, presample, postsample, convfactor)
    }

    function Samples(): nat
      reads this
    {
      HeaderValues().Samples()
    }

    /** The baseline vectors have one entry per sample. */
    predicate Valid()
      reads this
    {
      |baseline| == Samples() && |baselineErr| == Samples()
    }

    /** The header line has been read; nothing else yet. */
    constructor (h: Header)
      requires h.Unsigned()
      ensures HeaderValues() == h
      ensures baseline == [] && baselineErr == [] && arealist == [] && data == []
    {
      timeint := h.timeint;
      ncapture := h.ncapture;
      presample := h.presample;
      postsample := h.postsample;
      convfactor := h.convfactor;
      baseline := [];
      baselineErr := [];
      arealist := [];
      data := [];
    }

    /** One pass of `MakeBaseLine`'s line loop: every sample of the line is
        added to its column, and its square to the squares. */
    method AccumulateLine(line: string)
      requires Valid() && Covers(line, Samples())
      modifies this
      ensures HeaderValues() == old(HeaderValues()) && Valid()
      ensures arealist == old(arealist) && data == old(data) && binwidth == old(binwidth)
      ensures forall i :: 0 <= i < Samples() ==>
        baseline[i] == old(baseline)[i] + SampleRow(line, Samples())[i] as real
        && baselineErr[i] == old(baselineErr)[i] + Square(SampleRow(line, Samples())[i] as real)
    {
      var n := Samples();
      ghost var row := SampleRow(line, n);
      var i := 0;
      while i < n
        invariant 0 <= i <= n
        invariant HeaderValues() == old(HeaderValues()) && Valid()
        invariant arealist == old(arealist) && data == old(data) && binwidth == old(binwidth)
        invariant forall k :: 0 <= k < i ==>
          baseline[k] == old(baseline)[k] + row[k] as real
          && baselineErr[k] == old(baselineErr)[k] + Square(row[k] as real)
        invariant forall k :: i <= k < n ==> baseline[k] == old(baseline)[k] && baselineErr[k] == old(baselineErr)[k]
      {
        var v := Sample(line, i) as real;
        assert v == row[i] as real;
        baseline := baseline[i := baseline[i] + v];
        baselineErr := baselineErr[i := baselineErr[i] + Square(v)];
        i := i + 1;
      }
    }

    /** `MakeBaseLine`. Both vectors are resized to the sample count and
        zeroed; without a file name, or when the baseline file's header
        disagrees, they stay zero. Otherwise each entry becomes the mean
        (and spread) of its sample over the baseline lines. With no lines
        the means are 0/0, a NaN, reported as `ok == false`. */
    method MakeBaseLine(file: string, base: Header, lines: seq<string>, sqrt: real -> real) returns (ok: bool)
      requires UsesBaseline(HeaderValues(), file, base) ==> AllCover(lines, Samples())
      modifies this
      ensures HeaderValues() == old(HeaderValues()) && Valid()
      ensures arealist == old(arealist) && data == old(data) && binwidth == old(binwidth)
      ensures ok <==> |lines| > 0 || !UsesBaseline(HeaderValues(), file, base) || Samples() == 0
      ensures ok ==> baseline == Baseline(HeaderValues(), file, base, lines)
      ensures ok ==> baselineErr == BaselineErr(HeaderValues(), file, base, lines, sqrt)
      ensures !ok ==> baseline == Zeros(Samples()) && baselineErr == Zeros(Samples())
    {
      var n := Samples();
      baseline := Zeros(n);
      baselineErr := Zeros(n);
      if file == "" {
        return true;
      }
      if !Matches(HeaderValues(), base) {
        return true;
      }
      SumColumns(lines);
      if |lines| == 0 {
        return n == 0;
      }
      Normalize(|lines|, sqrt);
      ghost var h := HeaderValues();
      assert baseline == Baseline(h, file, base, lines);
      assert baselineErr == BaselineErr(h, file, base, lines, sqrt);
      return true;
    }

    /** `MakeBaseLine`'s last loop: each sum becomes a mean over `count`
        lines, and each sum of squares the spread about that mean. */
    method Normalize(count: nat, sqrt: real -> real)
      requires count > 0 && Valid()
      modifies this
      ensures HeaderValues() == old(HeaderValues()) && Valid()
      ensures arealist == old(arealist) && data == old(data) && binwidth == old(binwidth)
      ensures forall i :: 0 <= i < Samples() ==>
        baseline[i] == Average(old(baseline)[i], count)
        && baselineErr[i] == sqrt(Average(old(baselineErr)[i], count) - Square(baseline[i]))
    {
      var n := Samples();
      var i := 0;
      while i < n
        invariant 0 <= i <= n
        invariant HeaderValues() == old(HeaderValues()) && Valid()
        invariant arealist == old(arealist) && data == old(data) && binwidth == old(binwidth)
        invariant forall k :: 0 <= k < i ==>
          baseline[k] == Average(old(baseline)[k], count)
          && baselineErr[k] == sqrt(Average(old(baselineErr)[k], count) - Square(baseline[k]))
        invariant forall k :: i <= k < n ==> baseline[k] == old(baseline)[k] && baselineErr[k] == old(baselineErr)[k]
      {
        baseline := baseline[i := Average(baseline[i], count)];
        baselineErr := baselineErr[i := sqrt(Average(baselineErr[i], count) - Square(baseline[i]))];
        i := i + 1;
      }
    }

    /** `MakeBaseLine`'s line loop, from zeroed vectors: afterwards each
        entry holds its column's sum (and sum of squares). */
    method SumColumns(lines: seq<string>)
      requires Valid() && AllCover(lines, Samples())
      requires baseline == Zeros(Samples()) && baselineErr == Zeros(Samples())
      modifies this
      ensures HeaderValues() == old(HeaderValues()) && Valid()
      ensures arealist == old(arealist) && data == old(data) && binwidth == old(binwidth)
      ensures forall i :: 0 <= i < Samples() ==>
        baseline[i] == ColumnSum(lines, Samples(), i) && baselineErr[i] == ColumnSquares(lines, Samples(), i)
    {
      var n := Samples();
      var j := 0;
      while j < |lines|
        invariant 0 <= j <= |lines|
        invariant HeaderValues() == old(HeaderValues()) && Valid()
        invariant arealist == old(arealist) && data == old(data) && binwidth == old(binwidth)
        invariant AllCover(lines[..j], n)
        invariant forall i :: 0 <= i < n ==>
          baseline[i] == ColumnSum(lines[..j], n, i) && baselineErr[i] == ColumnSquares(lines[..j], n, i)
      {
        AccumulateLine(lines[j]);
        forall i | 0 <= i < n
          ensures baseline[i] == ColumnSum(lines[..j + 1], n, i) && baselineErr[i] == ColumnSquares(lines[..j + 1], n, i)
        {
          ColumnSnoc(lines, j, n, i);
        }
        j := j + 1;
      }
      assert lines[..j] == lines;
    }

    /** The last sample read: the loop stops at `end` or at the sample
        count, whichever comes first. */
    function Stop(end: nat): nat
      reads this
    {
      if end < Samples() then end else Samples()
    }

    /** One pass of the constructor's line loop: the line's area over the
        window, after the baseline, is appended. */
    method AddLine(line: string, start: nat, end: nat)
      requires Valid() && Covers(line, Reach(start, Stop(end)))
      modifies this
      ensures HeaderValues() == old(HeaderValues()) && Valid()
      ensures baseline == old(baseline) && baselineErr == old(baselineErr)
      ensures data == old(data) && binwidth == old(binwidth)
      ensures arealist == old(arealist) + [WindowArea(line, baseline, timeint, start, Stop(end))]
    {
      var stop := Stop(end);
      ghost var row := SampleRow(line, Reach(start, stop));
      var area := 0.0;
      var i := start;
      while i < end && i < Samples()
        invariant start <= i && (i <= stop || i == start)
        invariant area == if start < stop then LineArea(row, baseline, timeint, start, i) else 0.0
        decreases stop - i
      {
        var v := Sample(line, i);
        assert v == row[i];
        area := area + AreaTerm(v, baseline[i], timeint);
        i := i + 1;
      }
      arealist := arealist + [area];
    }

    /** The constructor's line loop: one area per line, in file order. */
    method ReadAreas(lines: seq<string>, start: nat, end: nat)
      requires Valid() && arealist == [] && AllCover(lines, Reach(start, Stop(end)))
      modifies this
      ensures HeaderValues() == old(HeaderValues()) && Valid()
      ensures baseline == old(baseline) && baselineErr == old(baselineErr)
      ensures arealist == Areas(lines, baseline, timeint, start, Stop(end))
    {
      var stop := Stop(end);
      var j := 0;
      while j < |lines|
        invariant 0 <= j <= |lines|
        invariant HeaderValues() == old(HeaderValues()) && Valid()
        invariant baseline == old(baseline) && baselineErr == old(baselineErr)
        invariant AllCover(lines[..j], Reach(start, stop))
        invariant arealist == Areas(lines[..j], baseline, timeint, start, stop)
      {
        AddLine(lines[j], start, end);
        assert lines[..j + 1][..j] == lines[..j];
        j := j + 1;
      }
      assert lines[..j] == lines;
    }

    /** The end of the constructor: the areas are sorted, the bin width
        stored, and every area filled into the histogram. */
    method SortAreas(width: real)
      modifies this
      ensures HeaderValues() == old(HeaderValues())
      ensures baseline == old(baseline) && baselineErr == old(baselineErr)
      ensures arealist == SortBy(old(arealist), (a: real) => a)
      ensures binwidth == width && data == arealist
    {
      arealist := SortBy(arealist, (a: real) => a);
      binwidth := width;
      data := arealist;
    }

    /** `TruncateDataSet`: the histogram is refilled with the areas below
        `maxarea`; the area list itself is left alone. */
    method TruncateDataSet(maxarea: real)
      modifies this
      ensures HeaderValues() == old(HeaderValues())
      ensures baseline == old(baseline) && baselineErr == old(baselineErr) && binwidth == old(binwidth)
      ensures arealist == old(arealist)
      ensures data == Keep(arealist, (a: real) => a < maxarea)
      ensures forall a :: a in data <==> a in arealist && a < maxarea
      ensures SortedBy(arealist, (a: real) => a) ==> SortedBy(data, (a: real) => a)
    {
      var kept: seq<real> := [];
      var j := 0;
      while j < |arealist|
        invariant 0 <= j <= |arealist|
        invariant kept == Keep(arealist[..j], (a: real) => a < maxarea)
      {
        assert arealist[..j + 1][..j] == arealist[..j];
        if arealist[j] < maxarea {
          kept := kept + [arealist[j]];
        }
        j := j + 1;
      }
      assert arealist[..j] == arealist;
      data := kept;
      forall a
        ensures a in data <==> a in arealist && a < maxarea
      {
        InKeep(arealist, (a: real) => a < maxarea, a);
      }
      if SortedBy(arealist, (a: real) => a) {
        KeepSorted(arealist, (a: real) => a, (a: real) => a < maxarea);
      }
    }
  }

  /** The constructor: the header, the baseline, one area per data line,
      then the areas sorted and filled into the histogram. With no data
      lines the source reads the first element of an empty list; a used
      baseline file without data lines makes every mean 0/0, a NaN; the
      model reports both as failures. */
  method Load(h: Header, binwidth: real, start: nat, end: nat, lines: seq<string>,
              file: string, base: Header, baseLines: seq<string>, sqrt: real -> real)
    returns (r: Result<SiPMFormat, string>)
    requires h.Unsigned()
    requires UsesBaseline(h, file, base) ==> AllCover(baseLines, h.Samples())
    requires AllCover(lines, Reach(start, if end < h.Samples() then end else h.Samples()))
    ensures r.Success? <==> |lines| > 0 && (|baseLines| > 0 || !UsesBaseline(h, file, base) || h.Samples() == 0)
    ensures r.Success? ==> fresh(r.value) && r.value.HeaderValues() == h && r.value.binwidth == binwidth
    ensures r.Success? ==>
      var stop := if end < h.Samples() then end else h.Samples();
      var b := Baseline(h, file, base, baseLines);
      && r.value.baseline == b
      && r.value.baselineErr == BaselineErr(h, file, base, baseLines, sqrt)
      && r.value.arealist == SortBy(Areas(lines, b, h.timeint, start, stop), (a: real) => a)
      && |r.value.arealist| == |lines|
      && SortedBy(r.value.arealist, (a: real) => a)
      && multiset(r.value.arealist) == multiset(Areas(lines, b, h.timeint, start, stop))
      && r.value.data == r.value.arealist
  {
    var f := new SiPMFormat(h);
    var ok := f.MakeBaseLine(file, base, baseLines, sqrt);
    if !ok {
      return Failure("NaN");
    }
    f.ReadAreas(lines, start, end);
    if |lines| == 0 {
      return Failure("empty area list");
    }
    SortByCorrect(f.arealist, (a: real) => a);
    f.SortAreas(binwidth);
    return Success(f);
  }
}

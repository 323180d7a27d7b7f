/** The non-linearity fitter (SiPMCalc/src/SiPMNonLinearFit.cc), reduced to
    its decision rules: the default and updated settings, the bias look-up
    table built either from the z scan itself or from a correction file, the
    choice of the reference row, the pixel-count fit parameter and the
    look-up multiplier. The inverse-square and non-linear fits, the graphs
    and the plots are floating-point library work and are not modelled. */
module NonLinearFit {
  import opened Seqs
  import opened Wrappers
  import opened Options
  import opened StdData

  /** `fabs(x - p)`. */
  function Dist(x: real, p: real): (d: real)
    ensures d >= 0.0 && (d == x - p || d == p - x)
  {
    if x < p then p - x else x - p
  }

  /** The points handed to ROOT's linear interpolator, bias against readout;
      evaluating it is left to a parameter. */
  datatype Lookup = Lookup(bias: seq<real>, readout: seq<real>)

  /** How the pixel count enters the non-linear fit: fixed at a value, or
      started at `start` and bounded to `[lo, hi]`. */
  datatype PixelParam = Fixed(value: real) | Bounded(start: real, lo: real, hi: real)

  /** The plot decorations: the readout units, the setup string and the
      SiPM model and identifier. */
  datatype Labels = Labels(units: string, setup: string, model: string, id: string)

  /** The bias placed below and above the scanned biases. */
  const BIAS_BELOW: real := -10000000.0
  const BIAS_ABOVE: real := 100000000.0

  // ---------------------------------------------------------------------
  // The z closest to a target

  /** Where `std::min_element` stops with the comparator `|l - p| < |r - p|`:
      scanning left to right, a value replaces the current one only when it
      is strictly closer to `p`. */
  function ClosestIndex(zs: seq<real>, p: real): (i: nat)
    requires |zs| > 0
    ensures i < |zs|
    decreases |zs|
  {
    if |zs| == 1 then 0
    else
      var i := ClosestIndex(zs[..|zs| - 1], p);
      if Dist(zs[|zs| - 1], p) < Dist(zs[i], p) then |zs| - 1 else i
  }

  /** `i` is the first index of a value nearest to `p`. */
  predicate FirstClosest(zs: seq<real>, p: real, i: int)
  {
    && 0 <= i < |zs|
    && (forall k :: 0 <= k < |zs| ==> Dist(zs[i], p) <= Dist(zs[k], p))
    && (forall k :: 0 <= k < i ==> Dist(zs[i], p) < Dist(zs[k], p))
  }

  /** The scan stops at the first value nearest to `p`. */
  lemma {:induction false} ClosestIsFirst(zs: seq<real>, p: real)
    requires |zs| > 0
    ensures FirstClosest(zs, p, ClosestIndex(zs, p))
    decreases |zs|
  {
    if |zs| > 1 {
      var pre := zs[..|zs| - 1];
      ClosestIsFirst(pre, p);
      assert forall k :: 0 <= k < |pre| ==> zs[k] == pre[k];
    }
  }

  /** There is only one first nearest index. */
  lemma FirstClosestUnique(zs: seq<real>, p: real, i: int, j: int)
    requires FirstClosest(zs, p, i) && FirstClosest(zs, p, j)
    ensures i == j
  {
    assert Dist(zs[i], p) <= Dist(zs[j], p) && Dist(zs[j], p) <= Dist(zs[i], p);
  }

  /** `MakeInterpolator1D`'s `min_element` over the z column. */
  method ClosestZ(zs: seq<real>, p: real) returns (c: real)
    requires |zs| > 0
    ensures c == zs[ClosestIndex(zs, p)]
  {
    c := zs[0];
    ghost var best := 0;
    var i := 1;
    while i < |zs|
      invariant 1 <= i <= |zs|
      invariant best == ClosestIndex(zs[..i], p) && c == zs[best]
    {
      assert zs[..i + 1][..i] == zs[..i];
      if Dist(zs[i], p) < Dist(c, p) {
        c := zs[i];
        best := i;
      }
      i := i + 1;
    }
    assert zs[..i] == zs;
  }

  // ---------------------------------------------------------------------
  // The look-up table built from the scan

  /** The z column of every row. */
  function Zs(rows: seq<Row>): (r: seq<real>)
    ensures |r| == |rows| && forall i :: 0 <= i < |rows| ==> r[i] == rows[i].z
  {
    ColumnNoSelect(rows, (r: Row) => r.z);
    Select(rows, (r: Row) => r.z, NoSelect)
  }

  /** The selector `at_z`: rows taken at exactly `z`. */
  function AtZ(z: real): Row -> bool
  {
    (r: Row) => r.z == z
  }

  /** The z the scan table is read at. */
  function ScanZ(rows: seq<Row>, p: real): real
    requires |rows| > 0
  {
    rows[ClosestIndex(Zs(rows), p)].z
  }

  /** What `MakeInterpolator1D` needs: a row to take the minimum over, and
      a first data column (the readout) in every row at the chosen z. */
  predicate ScanReady(rows: seq<Row>, p: real)
  {
    |rows| > 0 && forall k :: 0 <= k < |rows| && rows[k].z == ScanZ(rows, p) ==> |rows[k].data| > 0
  }

  /** The rows taken at `z`, in file order. */
  function ScanRows(rows: seq<Row>, z: real): (r: seq<Row>)
    ensures forall k :: 0 <= k < |r| ==> r[k].z == z && r[k] in rows
  {
    forall x | x in Keep(rows, AtZ(z)) ensures x in rows && x.z == z {
      InKeep(rows, AtZ(z), x);
    }
    Keep(rows, AtZ(z))
  }

  /** Exactly the rows at `z` are taken. */
  lemma ScanRowsExactly(rows: seq<Row>, z: real, x: Row)
    ensures x in ScanRows(rows, z) <==> x in rows && x.z == z
  {
    InKeep(rows, AtZ(z), x);
  }

  /** The chosen z is one of the rows', so at least one row is taken. */
  lemma ScanRowsNonEmpty(rows: seq<Row>, p: real)
    requires |rows| > 0
    ensures |ScanRows(rows, ScanZ(rows, p))| > 0
  {
    ScanRowsExactly(rows, ScanZ(rows, p), rows[ClosestIndex(Zs(rows), p)]);
  }

  /** The bias of every row. */
  function Biases(rows: seq<Row>): (r: seq<real>)
    ensures |r| == |rows| && forall k :: 0 <= k < |rows| ==> r[k] == rows[k].bias
  {
    seq(|rows|, k requires 0 <= k < |rows| => rows[k].bias)
  }

  /** The first data column of every row. */
  function Readouts(rows: seq<Row>): (r: seq<real>)
    requires forall k :: 0 <= k < |rows| ==> |rows[k].data| > 0
    ensures |r| == |rows| && forall k :: 0 <= k < |rows| ==> r[k] == rows[k].data[0]
  {
    seq(|rows|, k requires 0 <= k < |rows| => rows[k].data[0])
  }

  /** `xs` with `lo` inserted in front and `hi` appended. */
  function Pad(xs: seq<real>, lo: real, hi: real): (r: seq<real>)
    ensures |r| == |xs| + 2 && r[0] == lo && r[|xs| + 1] == hi
    ensures forall k :: 0 <= k < |xs| ==> r[k + 1] == xs[k]
  {
    [lo] + xs + [hi]
  }

  /** The table `MakeInterpolator1D` builds: the biases of the rows at the
      chosen z against their first data column, padded with one far-off bias
      at each end that repeats the first and last readout. */
  function ScanTable(rows: seq<Row>, p: real): Lookup
    requires ScanReady(rows, p)
  {
    var kept := ScanRows(rows, ScanZ(rows, p));
    ScanRowsNonEmpty(rows, p);
    assert forall k :: 0 <= k < |kept| ==> |kept[k].data| > 0;
    var readout := Readouts(kept);
    Lookup(Pad(Biases(kept), BIAS_BELOW, BIAS_ABOVE),
           Pad(readout, readout[0], readout[|readout| - 1]))
  }

  /** The scan table has two more points than there are rows at the chosen
      z (at least one): the outer biases are the fixed far-off values and the
      outer readouts repeat their neighbours. */
  lemma ScanTableEnds(rows: seq<Row>, p: real)
    requires ScanReady(rows, p)
    ensures |ScanRows(rows, ScanZ(rows, p))| >= 1
    ensures |ScanTable(rows, p).bias| == |ScanRows(rows, ScanZ(rows, p))| + 2
    ensures |ScanTable(rows, p).readout| == |ScanRows(rows, ScanZ(rows, p))| + 2
    ensures ScanTable(rows, p).bias[0] == BIAS_BELOW
    ensures ScanTable(rows, p).bias[|ScanRows(rows, ScanZ(rows, p))| + 1] == BIAS_ABOVE
    ensures ScanTable(rows, p).readout[0] == ScanTable(rows, p).readout[1]
    ensures ScanTable(rows, p).readout[|ScanRows(rows, ScanZ(rows, p))| + 1]
         == ScanTable(rows, p).readout[|ScanRows(rows, ScanZ(rows, p))|]
  {
    ScanRowsNonEmpty(rows, p);
  }

  /** The inner points of the scan table are the bias and readout of the rows
      at the chosen z, in file order. */
  lemma ScanTableInner(rows: seq<Row>, p: real)
    requires ScanReady(rows, p)
    ensures |ScanTable(rows, p).bias| == |ScanTable(rows, p).readout| == |ScanRows(rows, ScanZ(rows, p))| + 2
    ensures forall k :: 0 <= k < |ScanRows(rows, ScanZ(rows, p))| ==>
      && ScanRows(rows, ScanZ(rows, p))[k].z == ScanZ(rows, p)
      && ScanTable(rows, p).bias[k + 1] == ScanRows(rows, ScanZ(rows, p))[k].bias
      && ScanTable(rows, p).readout[k + 1] == ScanRows(rows, ScanZ(rows, p))[k].data[0]
  {
  }

  /** The body of `MakeInterpolator1D`: the z column's first value nearest
      to `p`, the bias and first data column of the rows at that z, padded. */
  method ReadScanTable(data: StdFormat, p: real) returns (t: Lookup)
    requires ScanReady(data.rows, p)
    ensures t == ScanTable(data.rows, p)
  {
    ghost var rows := data.rows;
    var z := data.Z(NoSelect);
    assert z == Zs(rows);
    var closest := ClosestZ(z, p);
    var atZ := AtZ(closest);
    ghost var kept := ScanRows(rows, closest);
    assert closest == ScanZ(rows, p) && kept == Keep(rows, atZ);
    assert forall r :: r in rows && atZ(r) ==> 0 < |r.data|;
    var bias := data.Bias(atZ);
    var readout := data.DataCol(0, atZ);
    assert bias == Biases(kept) && readout == Readouts(kept) && |kept| > 0 by {
      SelectKeep(rows, (r: Row) => r.bias, atZ);
      ScanRowsNonEmpty(rows, p);
    }
    bias, readout := PadTable(bias, readout);
    t := Lookup(bias, readout);
  }

  /** The padding of `MakeInterpolator1D`: a far-off bias inserted in front
      and appended, each with a copy of the readout next to it. */
  method PadTable(bias: seq<real>, readout: seq<real>) returns (b: seq<real>, r: seq<real>)
    requires |readout| > 0
    ensures b == Pad(bias, BIAS_BELOW, BIAS_ABOVE)
    ensures r == Pad(readout, readout[0], readout[|readout| - 1])
  {
    b := [BIAS_BELOW] + bias;
    r := [readout[0]] + readout;
    b := b + [BIAS_ABOVE];
    r := r + [r[|r| - 1]];
  }

  // ---------------------------------------------------------------------
  // The look-up table read from a correction file

  /** The table `MakeInterpolator3D` reads: the first two numbers of every
      line, bias then relative light output (where a line is too short the
      C++ leaves the number indeterminate; the model takes 0, as `Token`
      does). */
  function CorrTable(lines: seq<seq<real>>): (t: Lookup)
    ensures |t.bias| == |lines| && |t.readout| == |lines|
  {
    Lookup(seq(|lines|, k requires 0 <= k < |lines| => Token(lines[k], 0)),
           seq(|lines|, k requires 0 <= k < |lines| => Token(lines[k], 1)))
  }

  // ---------------------------------------------------------------------
  // The reference row

  /** The comparator of `MakeNonLinearGraph`'s reference-row search: nearer
      in z first, then nearer in bias. */
  predicate CloserRow(l: Row, r: Row, refZ: real, refBias: real)
  {
    if Dist(l.z, refZ) != Dist(r.z, refZ) then Dist(l.z, refZ) < Dist(r.z, refZ)
    else Dist(l.bias, refBias) < Dist(r.bias, refBias)
  }

  /** `i` is the first row no other row is closer than. */
  predicate FirstNearest(rows: seq<Row>, refZ: real, refBias: real, i: int)
  {
    && 0 <= i < |rows|
    && (forall k :: 0 <= k < |rows| ==> !CloserRow(rows[k], rows[i], refZ, refBias))
    && (forall k :: 0 <= k < i ==> CloserRow(rows[i], rows[k], refZ, refBias))
  }

  /** The comparator is a lexicographic order: what beats a row that `c`
      does not beat also beats `c`. */
  lemma CloserStep(a: Row, b: Row, c: Row, refZ: real, refBias: real)
    requires CloserRow(a, b, refZ, refBias) && !CloserRow(c, b, refZ, refBias)
    ensures CloserRow(a, c, refZ, refBias) && !CloserRow(c, a, refZ, refBias)
  {
  }

  /** The reference row is unique: the first nearest index is determined. */
  lemma FirstNearestUnique(rows: seq<Row>, refZ: real, refBias: real, i: int, j: int)
    requires FirstNearest(rows, refZ, refBias, i) && FirstNearest(rows, refZ, refBias, j)
    ensures i == j
  {
    assert !CloserRow(rows[i], rows[j], refZ, refBias) && !CloserRow(rows[j], rows[i], refZ, refBias);
  }

  // ---------------------------------------------------------------------
  // The fitter

  /** The pixel range after the `npixels` option: one value fixes both ends
      to it, two give their minimum and maximum, any other count keeps the
      range. A valid range stays valid. */
  function PixelRange(lo: real, hi: real, npix: seq<real>): (r: (real, real))
    ensures |npix| == 1 ==> r == (npix[0], npix[0])
    ensures |npix| == 2 ==> r.0 <= r.1 && multiset{r.0, r.1} == multiset(npix)
    ensures |npix| != 1 && |npix| != 2 ==> r == (lo, hi)
    ensures lo <= hi ==> r.0 <= r.1
  {
    if |npix| == 1 then (npix[0], npix[0])
    else if |npix| == 2 then
      var m := MinOf(npix, (x: real) => x);
      var n := MaxOf(npix, (x: real) => x);
      assert npix == [npix[0], npix[1]];
      assert multiset{m, n} == multiset(npix) by {
        if npix[0] <= npix[1] {
          assert m == npix[0] && n == npix[1];
        } else {
          assert m == npix[1] && n == npix[0];
        }
      }
      (m, n)
    else (lo, hi)
  }

  class SiPMNonLinearFit {
    var linPmin: real
    var linPmax: real
    var linZmin: real
    var powerZ: real
    var pixelMin: real
    var pixelMax: real
    /** `_readout_units`, `_setup`, `_sipm_model` and `_sipm_id`. */
    var labels: Labels
    /** `_raw_data`: the z-scan rows, once `ReadFiles` has run. */
    var rawData: StdFormat?
    /** `_lookup_1d`: the bias look-up table, once one is built. */
    var lookup1d: Option<Lookup>
    /** Whether `_lookup_3d` holds a table; nothing ever builds one. */
    var lookup3d: bool

    /** The values `InitDefaults` sets. */
    predicate Defaults()
      reads this
    {
      && linPmax == 0.0 && linPmin == 0.0 && linZmin == 0.0 && powerZ == 500.0
      && pixelMin == 500.0 && pixelMax == 7000.0
      && labels == Labels("[A.U.]", "UMD Gantry", "HDR2 (7500 pix.)", "")
    }

    /** The pixel range is a range. */
    predicate PixelsOrdered()
      reads this
    {
      pixelMin <= pixelMax
    }

    constructor ()
      ensures Defaults() && PixelsOrdered()
      ensures rawData == null && lookup1d == None && !lookup3d
    {
      rawData := null;
      lookup1d := None;
      lookup3d := false;
      new;
      InitDefaults();
    }

    /** The configuration-file constructor; the file name is not read. */
    constructor FromConfig(config: string)
      ensures Defaults() && PixelsOrdered()
      ensures rawData == null && lookup1d == None && !lookup3d
    {
      rawData := null;
      lookup1d := None;
      lookup3d := false;
      new;
      InitDefaults();
    }

    /** `InitDefaults`: the settings return to their defaults, with a valid
        pixel range; the data and tables are left alone. */
    method InitDefaults()
      modifies this
      ensures Defaults() && PixelsOrdered()
      ensures rawData == old(rawData) && lookup1d == old(lookup1d) && lookup3d == old(lookup3d)
    {
      linPmax := 0.0;
      linPmin := 0.0;
      linZmin := 0.0;
      powerZ := 500.0;
      pixelMin := 500.0;
      pixelMax := 7000.0;
      labels := Labels("[A.U.]", "UMD Gantry", "HDR2 (7500 pix.)", "");
    }

    /** `UpdateSettings`: every option given replaces its setting and every
        absent one keeps it, except that an absent `linzmin` falls back to
        the (already updated) `linpmin`. One `npixels` value fixes the pixel
        range to it, two set it to their minimum and maximum, and any other
        count leaves it alone, so a valid range stays valid. */
    method UpdateSettings(args: Args)
      modifies this
      ensures linPmin == ArgOpt(args, "linpmin", old(linPmin))
      ensures linPmax == ArgOpt(args, "linpmax", old(linPmax))
      ensures linZmin == ArgOpt(args, "linzmin", linPmin)
      ensures powerZ == ArgOpt(args, "powerz", old(powerZ))
      ensures (pixelMin, pixelMax) == PixelRange(old(pixelMin), old(pixelMax), ArgList(args, "npixels"))
      ensures old(PixelsOrdered()) ==> PixelsOrdered()
      ensures labels == Labels(ArgOptWord(args, "units", old(labels).units),
                               ArgOptWord(args, "setup", old(labels).setup),
                               ArgOptWord(args, "sipmmodel", old(labels).model),
                               ArgOptWord(args, "sipmid", old(labels).id))
      ensures rawData == old(rawData) && lookup1d == old(lookup1d) && lookup3d == old(lookup3d)
    {
      linPmin := ArgOpt(args, "linpmin", linPmin);
      linPmax := ArgOpt(args, "linpmax", linPmax);
      linZmin := ArgOpt(args, "linzmin", linPmin);
      powerZ := ArgOpt(args, "powerz", powerZ);

      if CheckArg(args, "npixels") {
        var range := PixelRange(pixelMin, pixelMax, ArgList(args, "npixels"));
        pixelMin, pixelMax := range.0, range.1;
      }

      labels := Labels(ArgOptWord(args, "units", labels.units),
                       ArgOptWord(args, "setup", labels.setup),
                       ArgOptWord(args, "sipmmodel", labels.model),
                       ArgOptWord(args, "sipmid", labels.id));
    }

    /** `ReadFiles`: the scan is read into fresh rows and both tables are
        dropped; then the bias table is built from the scan when no
        correction file is named, and read from the file otherwise. Either
        way the 1-D table exists and the 3-D one does not. */
    method ReadFiles(zscan: seq<seq<real>>, corr: string, corrLines: seq<seq<real>>)
      requires corr == "" ==> ScanReady(seq(|zscan|, k requires 0 <= k < |zscan| => ParseRow(zscan[k])), powerZ)
      modifies this
      ensures linPmin == old(linPmin) && linPmax == old(linPmax) && linZmin == old(linZmin)
      ensures powerZ == old(powerZ) && pixelMin == old(pixelMin) && pixelMax == old(pixelMax)
      ensures labels == old(labels)
      ensures fresh(rawData)
      ensures rawData.rows == seq(|zscan|, k requires 0 <= k < |zscan| => ParseRow(zscan[k]))
      ensures lookup1d.Some? && !lookup3d
      ensures corr == "" ==> lookup1d == Some(ScanTable(rawData.rows, powerZ))
      ensures corr != "" ==> lookup1d == Some(CorrTable(corrLines))
    {
      var raw := new StdFormat(zscan);
      assert raw.rows == seq(|zscan|, k requires 0 <= k < |zscan| => ParseRow(zscan[k]));
      rawData := raw;
      lookup1d := None;
      lookup3d := false;
      if corr == "" {
        MakeInterpolator1D();
      } else {
        MakeInterpolator3D(corrLines);
      }
    }

    /** `MakeInterpolator1D`: the table is read off the scan at the first z
        nearest to `power_z`. */
    method MakeInterpolator1D()
      requires rawData != null && ScanReady(rawData.rows, powerZ)
      modifies this
      ensures rawData == old(rawData) && lookup3d == old(lookup3d)
      ensures linPmin == old(linPmin) && linPmax == old(linPmax) && linZmin == old(linZmin)
      ensures powerZ == old(powerZ) && pixelMin == old(pixelMin) && pixelMax == old(pixelMax)
      ensures labels == old(labels)
      ensures lookup1d == Some(ScanTable(rawData.rows, powerZ))
    {
      var table := ReadScanTable(rawData, powerZ);
      lookup1d := Some(table);
    }

    /** `MakeInterpolator3D`: the table is read line by line from the
        correction file. */
    method MakeInterpolator3D(lines: seq<seq<real>>)
      modifies this
      ensures lookup1d == Some(CorrTable(lines))
      ensures rawData == old(rawData) && lookup3d == old(lookup3d)
      ensures linPmin == old(linPmin) && linPmax == old(linPmax) && linZmin == old(linZmin)
      ensures powerZ == old(powerZ) && pixelMin == old(pixelMin) && pixelMax == old(pixelMax)
      ensures labels == old(labels)
    {
      var bias: seq<real> := [];
      var readout: seq<real> := [];
      var i := 0;
      while i < |lines|
        invariant 0 <= i <= |lines|
        invariant |bias| == i && |readout| == i
        invariant forall k :: 0 <= k < i ==> bias[k] == Token(lines[k], 0) && readout[k] == Token(lines[k], 1)
      {
        bias := bias + [Token(lines[i], 0)];
        readout := readout + [Token(lines[i], 1)];
        i := i + 1;
      }
      assert bias == CorrTable(lines).bias && readout == CorrTable(lines).readout;
      lookup1d := Some(Lookup(bias, readout));
    }

    /** `MakeNonLinearGraph`'s reference row: the first row nearest to
        `refZ` in z, ties going to the row nearest to `refBias`. */
    method ReferenceRow(refZ: real, refBias: real) returns (row: Row)
      requires rawData != null && |rawData.rows| > 0
      ensures exists i :: FirstNearest(rawData.rows, refZ, refBias, i) && row == rawData.rows[i]
    {
      var rows := rawData.rows;
      row := rows[0];
      ghost var best := 0;
      var j := 1;
      while j < |rows|
        invariant 1 <= j <= |rows| && 0 <= best < j && row == rows[best]
        invariant forall k :: 0 <= k < j ==> !CloserRow(rows[k], row, refZ, refBias)
        invariant forall k :: 0 <= k < best ==> CloserRow(row, rows[k], refZ, refBias)
      {
        if CloserRow(rows[j], row, refZ, refBias) {
          forall k | 0 <= k < j
            ensures CloserRow(rows[j], rows[k], refZ, refBias) && !CloserRow(rows[k], rows[j], refZ, refBias)
          {
            CloserStep(rows[j], row, rows[k], refZ, refBias);
          }
          row := rows[j];
          best := j;
        }
        j := j + 1;
      }
      assert FirstNearest(rows, refZ, refBias, best);
    }

    /** `RunNonLinearFit`'s pixel-count parameter: fixed exactly when the
        range is a single value, otherwise started at the minimum and
        bounded by the range. */
    function PixelParameter(): (p: PixelParam)
      reads this
      ensures p.Fixed? <==> pixelMin == pixelMax
      ensures p.Fixed? ==> p.value == pixelMin
      ensures p.Bounded? ==> p.start == p.lo == pixelMin && p.hi == pixelMax
      ensures p.Bounded? && PixelsOrdered() ==> p.lo < p.hi
    {
      if pixelMin == pixelMax then Fixed(pixelMin) else Bounded(pixelMin, pixelMin, pixelMax)
    }

    /** `GetLookUpMultiplier`: 0 when a 3-D table is held, otherwise the
        table's value at the row's bias over its value at the reference
        bias, with `eval` standing for the interpolator. A zero denominator
        (an infinite or NaN quotient) gives `None`. */
    function LookUpMultiplier(main: Row, ref: Row, eval: (Lookup, real) -> real): (m: Option<real>)
      reads this
      requires lookup3d || lookup1d.Some?
      ensures lookup3d ==> m == Some(0.0)
      ensures !lookup3d ==> (m.Some? <==> eval(lookup1d.value, ref.bias) != 0.0)
      ensures !lookup3d && m.Some? ==> m.value * eval(lookup1d.value, ref.bias) == eval(lookup1d.value, main.bias)
    {
      if lookup3d then Some(0.0)
      else
        var d := eval(lookup1d.value, ref.bias);
        if d == 0.0 then None else Some(eval(lookup1d.value, main.bias) / d)
    }

    /** After `ReadFiles`, a row at the reference bias has multiplier 1. */
    lemma SameBiasMultiplier(main: Row, ref: Row, eval: (Lookup, real) -> real)
      requires lookup1d.Some? && !lookup3d
      requires main.bias == ref.bias && eval(lookup1d.value, ref.bias) != 0.0
      ensures LookUpMultiplier(main, ref, eval) == Some(1.0)
    {
      var d := eval(lookup1d.value, ref.bias);
      assert LookUpMultiplier(main, ref, eval).value * d == d;
    }
  }
}

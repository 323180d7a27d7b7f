/** Selection logic of the stability profile plotter (TimeCalc/bin/PlotProfile.cc).
    Two of the three quantities (bias voltage, SiPM temperature, LED
    temperature) are restricted to ranges given in pairs on the command line;
    the remaining one is the x axis of every profile. */
module Profiles {
  import opened Options
  import opened Seqs
  import opened Wrappers

  type Pair = (real, real)

  /** Concatenation of pairs back into the flat option list. */
  function Unpair(ps: seq<Pair>): (l: seq<real>)
    ensures |l| == 2 * |ps|
  {
    if ps == [] then [] else Unpair(ps[..|ps| - 1]) + [ps[|ps| - 1].0, ps[|ps| - 1].1]
  }

  /** `MakePairs`: an absent option gives no pairs, an odd number of values
      is an error, otherwise consecutive values are paired up in order. */
  method MakePairs(a: Args, name: string) returns (r: Result<seq<Pair>, string>)
    ensures !CheckArg(a, name) ==> r == Success([])
    ensures CheckArg(a, name) && |ArgList(a, name)| % 2 == 1 ==> r.Failure?
    ensures CheckArg(a, name) && |ArgList(a, name)| % 2 == 0 ==>
      r.Success? && Unpair(r.value) == ArgList(a, name)
      && forall i :: 0 <= i < |r.value| ==>
           r.value[i] == (ArgList(a, name)[2 * i], ArgList(a, name)[2 * i + 1])
  {
    var ans: seq<Pair> := [];
    if CheckArg(a, name) {
      var list := ArgList(a, name);
      if |list| % 2 == 1 {
        return Failure("Expected in put arguments to be in pairs!");
      }
      var i := 0;
      while i < |list| / 2
        invariant 0 <= i <= |list| / 2
        invariant |ans| == i
        invariant Unpair(ans) == list[..2 * i]
        invariant forall k :: 0 <= k < i ==> ans[k] == (list[2 * k], list[2 * k + 1])
      {
        assert list[..2 * i + 2] == list[..2 * i] + [list[2 * i], list[2 * i + 1]];
        ans := ans + [(list[2 * i], list[2 * i + 1])];
        assert ans[..|ans| - 1] == ans[..i];
        i := i + 1;
      }
      assert list[..2 * i] == list;
    }
    return Success(ans);
  }

  /** The check in `main`: the sum of the signs of the three list sizes must
      be 2. */
  function Sgn(n: nat): nat { if n > 0 then 1 else 0 }

  function CheckRanges(bias: seq<Pair>, sipm: seq<Pair>, pulse: seq<Pair>): (r: Result<(), string>)
    ensures r.Success? <==>
      (bias == [] && sipm != [] && pulse != []) ||
      (bias != [] && sipm == [] && pulse != []) ||
      (bias != [] && sipm != [] && pulse == [])
  {
    if Sgn(|bias|) + Sgn(|sipm|) + Sgn(|pulse|) != 2 then
      Failure("Expect exactly on of the biasrange, tempsipm, or temppulsers to be empty")
    else Success(())
  }

  /** A closed selection window. */
  datatype Range = Range(lo: real, hi: real)
  {
    predicate Contains(v: real) { lo <= v <= hi }
  }

  /** The window spanned by a pair given in either order. */
  function Span(p: Pair): (w: Range)
    ensures w.lo <= w.hi
    ensures {w.lo, w.hi} == {p.0, p.1}
  {
    if p.0 <= p.1 then Range(p.0, p.1) else Range(p.1, p.0)
  }

  /** The "no range" value the axis variable gets. */
  const Unset := Range(0.0, 0.0)

  datatype Axis = BiasAxis | SiPMAxis | LEDAxis

  datatype Ranges = Ranges(bias: Range, sipm: Range, pulse: Range)

  /** The axis a profile uses, decided by testing the bias window for (0,0)
      first, then the SiPM window, else the LED temperature. */
  function AxisOf(rs: Ranges): Axis
  {
    if rs.bias == Unset then BiasAxis
    else if rs.sipm == Unset then SiPMAxis
    else LEDAxis
  }

  function Title(ax: Axis): string
  {
    match ax
    case BiasAxis => "Bias Voltage [mV]"
    case SiPMAxis => "SiPM Temperature [^{#circ}C]"
    case LEDAxis => "LED Temperature [^{#circ}C]"
  }

  /** The windows of a profile made for axis `ax` from the outer and inner
      pair of the two supplied lists (in the order bias, SiPM, LED). */
  function RangesFor(ax: Axis, p: (Pair, Pair)): Ranges
  {
    match ax
    case BiasAxis => Ranges(Unset, Span(p.0), Span(p.1))
    case SiPMAxis => Ranges(Span(p.0), Unset, Span(p.1))
    case LEDAxis => Ranges(Span(p.0), Span(p.1), Unset)
  }

  class ProfileMgr {
    const ranges: Ranges
    const xtitle: string
    /** The (x, y) entries filled into the profile so far. */
    var filled: seq<Pair>

    constructor (rs: Ranges)
      ensures ranges == rs && xtitle == Title(AxisOf(rs)) && filled == []
    {
      ranges := rs;
      xtitle := Title(AxisOf(rs));
      filled := [];
    }

    /** One reading: filled, as (axis value, -readout), exactly when the two
        other quantities lie in their windows. */
    method Fill(readout: real, bias: real, ledtemp: real, sipmtemp: real)
      modifies this
      ensures filled == old(filled) + Entry(ranges, readout, bias, ledtemp, sipmtemp)
    {
      if ranges.bias == Unset {
        if ranges.pulse.Contains(ledtemp) && ranges.sipm.Contains(sipmtemp) {
          filled := filled + [(bias, -readout)];
        }
      } else if ranges.sipm == Unset {
        if ranges.bias.Contains(bias) && ranges.pulse.Contains(ledtemp) {
          filled := filled + [(sipmtemp, -readout)];
        }
      } else {
        if ranges.bias.Contains(bias) && ranges.sipm.Contains(sipmtemp) {
          filled := filled + [(ledtemp, -readout)];
        }
      }
    }
  }

  /** The value of the axis quantity of a reading. */
  function AxisValue(ax: Axis, bias: real, ledtemp: real, sipmtemp: real): real
  {
    match ax
    case BiasAxis => bias
    case SiPMAxis => sipmtemp
    case LEDAxis => ledtemp
  }

  /** Whether the non-axis quantities of a reading are inside their windows. */
  predicate Selected(rs: Ranges, bias: real, ledtemp: real, sipmtemp: real)
  {
    (AxisOf(rs) == BiasAxis || rs.bias.Contains(bias))
    && (AxisOf(rs) == SiPMAxis || rs.sipm.Contains(sipmtemp))
    && (AxisOf(rs) == LEDAxis || rs.pulse.Contains(ledtemp))
  }

  /** What `Fill` adds to a profile: at most one entry. */
  function Entry(rs: Ranges, readout: real, bias: real, ledtemp: real, sipmtemp: real)
    : (e: seq<Pair>)
    ensures |e| <= 1
    ensures |e| == 1 <==> Selected(rs, bias, ledtemp, sipmtemp)
    ensures |e| == 1 ==> e[0] == (AxisValue(AxisOf(rs), bias, ledtemp, sipmtemp), -readout)
  {
    if Selected(rs, bias, ledtemp, sipmtemp)
    then [(AxisValue(AxisOf(rs), bias, ledtemp, sipmtemp), -readout)]
    else []
  }

  /** The profiles of one branch: one per element of outer × inner, outer
      list as the outer loop. */
  method Grid(ax: Axis, outer: seq<Pair>, inner: seq<Pair>) returns (ans: seq<ProfileMgr>)
    ensures |ans| == |Product(outer, inner)|
    ensures forall k :: 0 <= k < |ans| ==>
      fresh(ans[k]) && ans[k].ranges == RangesFor(ax, Product(outer, inner)[k])
      && ans[k].filled == [] && ans[k].xtitle == Title(AxisOf(ans[k].ranges))
  {
    ans := [];
    var i := 0;
    while i < |outer|
      invariant 0 <= i <= |outer|
      invariant |ans| == |Product(outer[..i], inner)|
      invariant forall k :: 0 <= k < |ans| ==>
        fresh(ans[k]) && ans[k].ranges == RangesFor(ax, Product(outer[..i], inner)[k])
        && ans[k].filled == [] && ans[k].xtitle == Title(AxisOf(ans[k].ranges))
    {
      ghost var done := Product(outer[..i], inner);
      assert outer[..i + 1][..i] == outer[..i];
      assert Product(outer[..i + 1], inner) == done + Row(outer[i], inner);
      var j := 0;
      while j < |inner|
        invariant 0 <= j <= |inner|
        invariant |ans| == |done| + j
        invariant forall k :: 0 <= k < |ans| ==>
          fresh(ans[k]) && ans[k].ranges == RangesFor(ax, (done + Row(outer[i], inner))[k])
          && ans[k].filled == [] && ans[k].xtitle == Title(AxisOf(ans[k].ranges))
      {
        var pm := new ProfileMgr(RangesFor(ax, (outer[i], inner[j])));
        ans := ans + [pm];
        j := j + 1;
      }
      i := i + 1;
    }
    assert outer[..i] == outer;
  }

  /** `MakeProfileList`: without a bias option the bias is the axis and
      the profiles run over SiPM × LED windows; else without a SiPM option
      the SiPM temperature is the axis over bias × LED; else the LED
      temperature is the axis over bias × SiPM. */
  method MakeProfileList(a: Args, bias: seq<Pair>, sipm: seq<Pair>, pulse: seq<Pair>)
    returns (ans: seq<ProfileMgr>)
    ensures var grid := Product(Supplied(ChosenAxis(a), bias, sipm, pulse).0,
                                Supplied(ChosenAxis(a), bias, sipm, pulse).1);
      && |ans| == |grid|
      && forall k :: 0 <= k < |ans| ==>
           && fresh(ans[k]) && ans[k].filled == []
           && ans[k].ranges == RangesFor(ChosenAxis(a), grid[k])
           && ans[k].xtitle == Title(AxisOf(ans[k].ranges))
  {
    var ax := ChosenAxis(a);
    var lists := Supplied(ax, bias, sipm, pulse);
    ans := Grid(ax, lists.0, lists.1);
  }

  /** Profile `i * |inner| + j` of a branch is made from the i-th outer and
      the j-th inner pair, and there are |outer| * |inner| of them. */
  lemma ProfileGrid(ax: Axis, outer: seq<Pair>, inner: seq<Pair>, i: nat, j: nat)
    requires i < |outer| && j < |inner|
    ensures |Product(outer, inner)| == |outer| * |inner|
    ensures i * |inner| + j < |Product(outer, inner)|
    ensures RangesFor(ax, Product(outer, inner)[i * |inner| + j]) == RangesFor(ax, (outer[i], inner[j]))
  {
    ProductLength(outer, inner);
    ProductAt(outer, inner, i, j);
  }

  /** The branch `MakeProfileList` takes. */
  function ChosenAxis(a: Args): Axis
  {
    if !CheckArg(a, "biasrange") then BiasAxis
    else if !CheckArg(a, "tempsipm") then SiPMAxis
    else LEDAxis
  }

  /** The two pair lists that span the profiles of a branch. */
  function Supplied(ax: Axis, bias: seq<Pair>, sipm: seq<Pair>, pulse: seq<Pair>)
    : (seq<Pair>, seq<Pair>)
  {
    match ax
    case BiasAxis => (sipm, pulse)
    case SiPMAxis => (bias, pulse)
    case LEDAxis => (bias, sipm)
  }

  /** The axis decided in `Fill` and in the title is the branch's axis as long
      as no supplied pair spans the window (0,0); and then a reading is
      filled exactly when the two other quantities lie between the values of
      their pairs. */
  lemma FillMatchesBranch(ax: Axis, p: (Pair, Pair), readout: real, bias: real,
                          ledtemp: real, sipmtemp: real)
    requires Span(p.0) != Unset && Span(p.1) != Unset
    ensures AxisOf(RangesFor(ax, p)) == ax
    ensures var vals := match ax
        case BiasAxis => (sipmtemp, ledtemp)
        case SiPMAxis => (bias, ledtemp)
        case LEDAxis => (bias, sipmtemp);
      Entry(RangesFor(ax, p), readout, bias, ledtemp, sipmtemp)
        == if Span(p.0).Contains(vals.0) && Span(p.1).Contains(vals.1)
           then [(AxisValue(ax, bias, ledtemp, sipmtemp), -readout)] else []
  {
  }

  /** A bias window genuinely given as (0,0) in the LED-axis branch is taken
      for the "no range" marker: the profile is titled and filled against the
      bias voltage. */
  lemma ZeroBiasWindowIsAmbiguous(s: Pair)
    requires Span(s) != Unset
    ensures AxisOf(RangesFor(LEDAxis, ((0.0, 0.0), s))) == BiasAxis
    ensures Title(AxisOf(RangesFor(LEDAxis, ((0.0, 0.0), s)))) == "Bias Voltage [mV]"
  {
  }
}

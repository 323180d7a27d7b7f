/** The batch job-file generator (SiPMCalc/gencondor_runtoy.py): for every
    point of the Cartesian product of seven parameter lists it builds a file
    name from model-dependent rules and writes the Condor job template filled
    with the point's values. */
module JobGen {
  import opened Seqs

  /** A Python value of the parameter lists: an integer, a string, or a float
      carried as the text Python prints for it (`0.1` prints as "0.1"). */
  datatype Scalar = Int(i: int) | Str(s: string) | Float(repr: string)

  function DigitChar(d: nat): (c: char)
    requires d < 10
    ensures '0' <= c <= '9'
  {
    (48 + d) as char
  }

  /** Decimal text of a natural number, most significant digit first. */
  function NatText(n: nat): (s: string)
    ensures |s| > 0
  {
    if n < 10 then [DigitChar(n)] else NatText(n / 10) + [DigitChar(n % 10)]
  }

  /** The text is made of decimal digits only. */
  lemma {:induction false} NatTextDigits(n: nat)
    ensures forall i :: 0 <= i < |NatText(n)| ==> '0' <= NatText(n)[i] <= '9'
  {
    if n >= 10 {
      NatTextDigits(n / 10);
    }
  }

  /** Reading decimal digits back. */
  function ParseDigits(s: string): nat
  {
    if s == [] then 0
    else 10 * ParseDigits(s[..|s| - 1]) + (if '0' <= s[|s| - 1] <= '9' then (s[|s| - 1] as int) - 48 else 0)
  }

  /** Reading the printed number back gives the number. */
  lemma {:induction false} ParseNatText(n: nat)
    ensures ParseDigits(NatText(n)) == n
  {
    if n >= 10 {
      var s := NatText(n);
      assert s[..|s| - 1] == NatText(n / 10);
      ParseNatText(n / 10);
    }
  }

  /** What `str.format` inserts for a value. */
  function Text(v: Scalar): string
  {
    match v
    case Int(i) => if i < 0 then "-" + NatText(-i) else NatText(i)
    case Str(s) => s
    case Float(r) => r
  }

  // ---------------------------------------------------------------------
  // The parameter product

  const NEvents: seq<Scalar> := [Int(30000), Int(100000), Int(300000), Int(1000000), Int(3000000)]
  const Models: seq<Scalar> := [Str("full"), Str("ndc"), Str("nap"), Str("simp"), Str("dark")]
  const Fits: seq<Scalar> := [Str("binned"), Str("unbinned")]
  const Means: seq<Scalar> := [Int(10)]
  const XRates: seq<Scalar> := [Float("0.1")]
  const DCFracs: seq<Scalar> := [Float("0.1")]
  const Alphas: seq<Scalar> := [Float("0.1")]

  /** The seven lists in the comprehension's loop order. */
  const Axes: seq<seq<Scalar>> := [NEvents, Models, Fits, Means, XRates, DCFracs, Alphas]

  /** `x` prepended to each tail, in order. */
  function Prefixed(x: Scalar, tails: seq<seq<Scalar>>): (r: seq<seq<Scalar>>)
    ensures |r| == |tails| && forall j :: 0 <= j < |tails| ==> r[j] == [x] + tails[j]
  {
    seq(|tails|, j requires 0 <= j < |tails| => [x] + tails[j])
  }

  /** Every element of `xs` (outer loop) prepended to every tail (inner
      loop). */
  function Spread(xs: seq<Scalar>, tails: seq<seq<Scalar>>): seq<seq<Scalar>>
  {
    if xs == [] then [] else Spread(xs[..|xs| - 1], tails) + Prefixed(xs[|xs| - 1], tails)
  }

  /** The nested list comprehension over `axes[from..]`: the list at
      `from` is the outermost loop, the last list the innermost. */
  function Cartesian(axes: seq<seq<Scalar>>, from: nat): seq<seq<Scalar>>
    decreases |axes| - from
  {
    if from >= |axes| then [[]] else Spread(axes[from], Cartesian(axes, from + 1))
  }

  function SizeProduct(axes: seq<seq<Scalar>>, from: nat): nat
    decreases |axes| - from
  {
    if from >= |axes| then 1 else |axes[from]| * SizeProduct(axes, from + 1)
  }

  lemma {:induction false} SpreadLength(xs: seq<Scalar>, tails: seq<seq<Scalar>>)
    ensures |Spread(xs, tails)| == |xs| * |tails|
  {
    if xs != [] {
      SpreadLength(xs[..|xs| - 1], tails);
      assert |xs| * |tails| == (|xs| - 1) * |tails| + |tails|;
    }
  }

  /** There is one point per combination. */
  lemma {:induction false} CartesianLength(axes: seq<seq<Scalar>>, from: nat)
    ensures |Cartesian(axes, from)| == SizeProduct(axes, from)
    decreases |axes| - from
  {
    if from < |axes| {
      CartesianLength(axes, from + 1);
      SpreadLength(axes[from], Cartesian(axes, from + 1));
    }
  }

  /** Loop order: point `i * |tails| + j` is the i-th outer value in front of
      the j-th inner tail. */
  lemma {:induction false} SpreadAt(xs: seq<Scalar>, tails: seq<seq<Scalar>>, i: nat, j: nat)
    requires i < |xs| && j < |tails|
    ensures i * |tails| + j < |Spread(xs, tails)|
    ensures Spread(xs, tails)[i * |tails| + j] == [xs[i]] + tails[j]
  {
    var n := |xs| - 1;
    SpreadLength(xs[..n], tails);
    SpreadLength(xs, tails);
    if i < n {
      SpreadAt(xs[..n], tails, i, j);
    } else {
      assert i * |tails| + j == |Spread(xs[..n], tails)| + j;
    }
  }

  /** Every point takes its k-th value from the k-th list. */
  lemma {:induction false} SpreadMember(xs: seq<Scalar>, tails: seq<seq<Scalar>>, t: seq<Scalar>)
    requires t in Spread(xs, tails)
    ensures |t| > 0 && t[0] in xs && t[1..] in tails
  {
    var n := |xs| - 1;
    if t in Spread(xs[..n], tails) {
      SpreadMember(xs[..n], tails, t);
    } else {
      var j :| 0 <= j < |tails| && t == Prefixed(xs[n], tails)[j];
      assert t[1..] == tails[j];
    }
  }

  lemma {:induction false} CartesianMember(axes: seq<seq<Scalar>>, from: nat, t: seq<Scalar>)
    requires from <= |axes| && t in Cartesian(axes, from)
    ensures |t| == |axes| - from
    ensures forall k :: from <= k < |axes| ==> t[k - from] in axes[k]
    decreases |axes| - from
  {
    if from < |axes| {
      SpreadMember(axes[from], Cartesian(axes, from + 1), t);
      CartesianMember(axes, from + 1, t[1..]);
      forall k | from + 1 <= k < |axes|
        ensures t[k - from] in axes[k]
      {
        assert t[1..][k - (from + 1)] == t[k - from];
      }
    }
  }

  predicate Distinct<T(==)>(s: seq<T>)
  {
    forall i, j :: 0 <= i < j < |s| ==> s[i] != s[j]
  }

  lemma {:induction false} SpreadDistinct(xs: seq<Scalar>, tails: seq<seq<Scalar>>)
    requires Distinct(xs) && Distinct(tails)
    ensures Distinct(Spread(xs, tails))
  {
    if xs != [] {
      var n := |xs| - 1;
      var front := Spread(xs[..n], tails);
      var back := Prefixed(xs[n], tails);
      SpreadDistinct(xs[..n], tails);
      forall a, b | 0 <= a < |front| && 0 <= b < |back|
        ensures front[a] != back[b]
      {
        assert front[a] in front;
        SpreadMember(xs[..n], tails, front[a]);
        assert front[a][0] != xs[n];
        assert back[b][0] == xs[n];
      }
      forall a, b | 0 <= a < b < |back|
        ensures back[a] != back[b]
      {
        assert back[a][1..] == tails[a];
        assert back[b][1..] == tails[b];
      }
      var all := front + back;
      assert all == Spread(xs, tails);
      forall a, b | 0 <= a < b < |all|
        ensures all[a] != all[b]
      {
        if b < |front| {
        } else if a < |front| {
          assert all[b] == back[b - |front|];
        } else {
          assert all[a] == back[a - |front|];
          assert all[b] == back[b - |front|];
        }
      }
    }
  }

  /** Lists without repeated values give points without repetitions. */
  lemma {:induction false} CartesianDistinct(axes: seq<seq<Scalar>>, from: nat)
    requires forall k :: from <= k < |axes| ==> Distinct(axes[k])
    ensures Distinct(Cartesian(axes, from))
    decreases |axes| - from
  {
    if from < |axes| {
      CartesianDistinct(axes, from + 1);
      SpreadDistinct(axes[from], Cartesian(axes, from + 1));
    }
  }

  /** A one-value list puts its value in front of every later point. */
  lemma SingleValueAxis(axes: seq<seq<Scalar>>, from: nat, x: Scalar)
    requires from < |axes| && axes[from] == [x]
    ensures Cartesian(axes, from) == Prefixed(x, Cartesian(axes, from + 1))
  {
    var rest := Cartesian(axes, from + 1);
    assert axes[from][..0] == [];
    assert Spread(axes[from], rest) == Spread([], rest) + Prefixed(x, rest);
  }

  lemma PrefixedOne(x: Scalar, t: seq<Scalar>)
    ensures Prefixed(x, [t]) == [[x] + t]
  {
  }

  /** The generated job list. */
  const Jobs: seq<seq<Scalar>> := Cartesian(Axes, 0)

  /** Every job has one value per list. */
  lemma JobLengths()
    ensures forall t :: t in Jobs ==> |t| == 7
  {
    forall t | t in Jobs
      ensures |t| == 7
    {
      CartesianMember(Axes, 0, t);
    }
  }

  const FixedValues: seq<Scalar> := [Int(10), Float("0.1"), Float("0.1"), Float("0.1")]

  /** The four one-value lists contribute a single common tail. */
  lemma FixedTail()
    ensures Cartesian(Axes, 3) == [FixedValues]
  {
    var f := Float("0.1");
    assert Cartesian(Axes, 7) == [[]];
    SingleValueAxis(Axes, 6, f);
    PrefixedOne(f, []);
    assert [f] + [] == [f];
    assert Cartesian(Axes, 6) == [[f]];
    SingleValueAxis(Axes, 5, f);
    PrefixedOne(f, [f]);
    assert [f] + [f] == [f, f];
    assert Cartesian(Axes, 5) == [[f, f]];
    SingleValueAxis(Axes, 4, f);
    PrefixedOne(f, [f, f]);
    assert [f] + [f, f] == [f, f, f];
    assert Cartesian(Axes, 4) == [[f, f, f]];
    SingleValueAxis(Axes, 3, Int(10));
    PrefixedOne(Int(10), [f, f, f]);
    assert [Int(10)] + [f, f, f] == FixedValues;
  }

  /** The job list is the three multi-valued lists spread over the fixed
      tail. */
  lemma JobsNested()
    ensures Jobs == Spread(NEvents, Spread(Models, Spread(Fits, [FixedValues])))
  {
    FixedTail();
    assert Cartesian(Axes, 2) == Spread(Fits, Cartesian(Axes, 3));
    assert Cartesian(Axes, 1) == Spread(Models, Cartesian(Axes, 2));
  }

  /** Three nested loops over one common tail: point
      `(a * |ys| + b) * |zs| + c` is `xs[a], ys[b], zs[c]` in front of it. */
  lemma {:induction false} NestedAt(xs: seq<Scalar>, ys: seq<Scalar>, zs: seq<Scalar>, tail: seq<Scalar>,
                                    a: nat, b: nat, c: nat)
    requires a < |xs| && b < |ys| && c < |zs|
    ensures |Spread(xs, Spread(ys, Spread(zs, [tail])))| == |xs| * (|ys| * |zs|)
    ensures a * (|ys| * |zs|) + (b * |zs| + c) < |xs| * (|ys| * |zs|)
    ensures Spread(xs, Spread(ys, Spread(zs, [tail])))[a * (|ys| * |zs|) + (b * |zs| + c)]
              == [xs[a], ys[b], zs[c]] + tail
  {
    var inner := Spread(zs, [tail]);
    var mid := Spread(ys, inner);
    SpreadLength(zs, [tail]);
    SpreadLength(ys, inner);
    SpreadLength(xs, mid);
    SpreadAt(zs, [tail], c, 0);
    SpreadAt(ys, inner, b, c);
    SpreadAt(xs, mid, a, b * |zs| + c);
    assert [xs[a]] + ([ys[b]] + ([zs[c]] + tail)) == [xs[a], ys[b], zs[c]] + tail;
  }

  /** 5 x 5 x 2 x 1 x 1 x 1 x 1 = 50 jobs, nEvents outermost and alphas
      innermost: job `10 * a + 2 * b + c` is the a-th event count, the b-th
      model and the c-th fit, followed by the fixed values. */
  lemma JobAt(a: nat, b: nat, c: nat)
    requires a < 5 && b < 5 && c < 2
    ensures |Jobs| == 50
    ensures Jobs[10 * a + 2 * b + c] == [NEvents[a], Models[b], Fits[c]] + FixedValues
  {
    JobsNested();
    NestedAt(NEvents, Models, Fits, FixedValues, a, b, c);
    assert |Models| == 5 && |Fits| == 2;
    assert a * (|Models| * |Fits|) + (b * |Fits| + c) == 10 * a + 2 * b + c;
  }

  // ---------------------------------------------------------------------
  // File names

  /** `str.replace('.', 'p')`, one character at a time. */
  function ReplaceDots(s: string): (r: string)
    ensures |r| == |s|
  {
    if s == [] then [] else [if s[0] == '.' then 'p' else s[0]] + ReplaceDots(s[1..])
  }

  /** Every character is kept except a dot, which becomes `p`. */
  lemma {:induction false} ReplaceDotsAt(s: string, i: nat)
    requires i < |s|
    ensures ReplaceDots(s)[i] == if s[i] == '.' then 'p' else s[i]
  {
    if i > 0 {
      ReplaceDotsAt(s[1..], i - 1);
    }
  }

  /** No dot is left. */
  lemma {:induction false} ReplaceDotsNoDot(s: string)
    ensures '.' !in ReplaceDots(s)
  {
    if s != [] {
      ReplaceDotsNoDot(s[1..]);
    }
  }

  const JdlDir := "/data/users/yichen/condor/jdl/"

  /** The name segments after `SiPMRunToy_<model>_nEvt<nEvent>_<fit>`, in
      the order rate/crosstalk, dark-count fraction, afterpulse. */
  function Segments(t: seq<Scalar>): string
    requires |t| == 7
  {
    (if t[1] != Str("dark") then "_r" + Text(t[3]) + "_x" + Text(t[4]) else "")
    + (if t[1] != Str("ndc") && t[1] != Str("simp") then "_dc" + Text(t[5]) else "")
    + (if t[1] != Str("nap") && t[1] != Str("simp") then "_a" + Text(t[6]) else "")
  }

  /** The name up to the segments: model, event count and fit. */
  function Head(t: seq<Scalar>): string
    requires |t| == 7
  {
    "SiPMRunToy_" + (Text(t[1]) + ("_nEvt" + (Text(t[0]) + ("_" + Text(t[2])))))
  }

  /** The name before dot replacement. */
  function BaseName(t: seq<Scalar>): string
    requires |t| == 7
  {
    Head(t) + Segments(t)
  }

  /** The job file path of one point. */
  function FileName(t: seq<Scalar>): string
    requires |t| == 7
  {
    JdlDir + (ReplaceDots(Head(t)) + ReplaceDots(Segments(t))) + ".jdl"
  }

  /** The name as the script builds it, one reassignment at a time. */
  method BuildFileName(t: seq<Scalar>) returns (filename: string)
    requires |t| == 7
    ensures filename == FileName(t)
  {
    var nEvent, model, fit, mean, xrate, dcfrac, alpha := t[0], t[1], t[2], t[3], t[4], t[5], t[6];
    filename := "SiPMRunToy_" + (Text(model) + ("_nEvt" + (Text(nEvent) + ("_" + Text(fit)))));
    if model != Str("dark") {
      filename := filename + ("_r" + Text(mean) + "_x" + Text(xrate));
    }
    if model != Str("ndc") && model != Str("simp") {
      filename := filename + ("_dc" + Text(dcfrac));
    }
    if model != Str("nap") && model != Str("simp") {
      filename := filename + ("_a" + Text(alpha));
    }
    assert filename == BaseName(t);
    ReplaceDotsAppend(Head(t), Segments(t));
    filename := JdlDir + ReplaceDots(filename) + ".jdl";
  }

  /** Replacing is done character by character, so it splits over `+`. */
  lemma {:induction false} ReplaceDotsAppend(a: string, b: string)
    ensures ReplaceDots(a + b) == ReplaceDots(a) + ReplaceDots(b)
  {
    if a == [] {
      assert a + b == b;
    } else {
      assert (a + b)[1..] == a[1..] + b;
      ReplaceDotsAppend(a[1..], b);
    }
  }

  /** A text without dots is left as it is. */
  lemma {:induction false} ReplaceDotsNone(a: string)
    requires '.' !in a
    ensures ReplaceDots(a) == a
  {
    if a != [] {
      ReplaceDotsNone(a[1..]);
    }
  }

  /** Every job file sits in the job directory, ends in `.jdl`, and has no
      other dot in its name. */
  lemma FileNameShape(t: seq<Scalar>)
    requires |t| == 7
    ensures var f := FileName(t);
      |f| > |JdlDir| + 4 && f[..|JdlDir|] == JdlDir && f[|f| - 4..] == ".jdl"
      && '.' !in f[|JdlDir|..|f| - 4]
  {
    var middle := ReplaceDots(Head(t)) + ReplaceDots(Segments(t));
    var f := FileName(t);
    ReplaceDotsNoDot(Head(t));
    ReplaceDotsNoDot(Segments(t));
    assert f[|JdlDir|..|f| - 4] == middle;
  }

  /** A value that may stand between two `_` separators of a name: no `_`
      and no `.` in its text. */
  predicate Plain(v: Scalar)
  {
    '_' !in Text(v) && '.' !in Text(v)
  }

  /** Only the segments can hold a dot. */
  lemma NameParts(t: seq<Scalar>)
    requires |t| == 7 && Plain(t[0]) && Plain(t[1]) && Plain(t[2])
    ensures FileName(t) == JdlDir + (Head(t) + ReplaceDots(Segments(t))) + ".jdl"
  {
    assert '.' !in "SiPMRunToy_" && '.' !in "_nEvt" && '.' !in "_";
    assert '.' !in Head(t);
    ReplaceDotsNone(Head(t));
  }

  /** The segments each of the five models gets, always in the order r/x,
      dc, a: "dark" has no rate segment, "ndc" no dark-count segment, "nap"
      no afterpulse segment, "simp" neither of the last two. */
  lemma SegmentsByModel(t: seq<Scalar>)
    requires |t| == 7
    ensures var rx, dc, a := "_r" + Text(t[3]) + "_x" + Text(t[4]), "_dc" + Text(t[5]), "_a" + Text(t[6]);
      && (t[1] == Str("full") ==> Segments(t) == rx + dc + a)
      && (t[1] == Str("dark") ==> Segments(t) == dc + a)
      && (t[1] == Str("ndc") ==> Segments(t) == rx + a)
      && (t[1] == Str("nap") ==> Segments(t) == rx + dc)
      && (t[1] == Str("simp") ==> Segments(t) == rx)
  {
  }

  /** The rate segment comes first exactly when the model is not "dark". */
  lemma RateSegmentFirst(t: seq<Scalar>)
    requires |t| == 7
    ensures t[1] != Str("dark") <==> |Segments(t)| >= 2 && Segments(t)[..2] == "_r"
  {
    if t[1] == Str("dark") {
      assert Segments(t)[..2] == "_d";
    }
  }

  /** The segments, after dot replacement, are empty or begin with `_`. */
  lemma SegmentsStart(t: seq<Scalar>)
    requires |t| == 7
    ensures var r := ReplaceDots(Segments(t)); r == [] || r[0] == '_'
  {
  }

  /** `SiPMRunToy_dark_nEvt30000_binned_dc0p1_a0p1`. */
  lemma DarkExample()
    ensures FileName([Int(30000), Str("dark"), Str("binned"), Int(10), Float("0.1"), Float("0.1"), Float("0.1")])
      == JdlDir + (("SiPMRunToy_" + ("dark" + ("_nEvt" + ("30000" + ("_" + "binned")))))
                   + ("_dc" + "0p1" + "_a" + "0p1")) + ".jdl"
  {
    var t := [Int(30000), Str("dark"), Str("binned"), Int(10), Float("0.1"), Float("0.1"), Float("0.1")];
    var h := "SiPMRunToy_" + ("dark" + ("_nEvt" + ("30000" + ("_" + "binned"))));
    assert Head(t) == h by {
      Thirty();
    }
    assert ReplaceDots(h) == h by {
      assert '.' !in "SiPMRunToy_" && '.' !in "dark" && '.' !in "_nEvt";
      assert '.' !in "30000" && '.' !in "_" && '.' !in "binned";
      ReplaceDotsNone(h);
    }
    assert Segments(t) == "_dc" + "0.1" + "_a" + "0.1";
    DotToP("_dc", "_a");
  }

  /** `SiPMRunToy_full_nEvt30000_binned_r10_x0p1_dc0p1_a0p1`. */
  lemma FullExample()
    ensures FileName([Int(30000), Str("full"), Str("binned"), Int(10), Float("0.1"), Float("0.1"), Float("0.1")])
      == JdlDir + (("SiPMRunToy_" + ("full" + ("_nEvt" + ("30000" + ("_" + "binned")))))
                   + (("_r10_x" + "0p1") + ("_dc" + "0p1" + "_a" + "0p1"))) + ".jdl"
  {
    var t := [Int(30000), Str("full"), Str("binned"), Int(10), Float("0.1"), Float("0.1"), Float("0.1")];
    Thirty();
    assert NatText(10) == "10" by {
      assert NatText(1) == "1";
    }
    assert Head(t) == "SiPMRunToy_" + ("full" + ("_nEvt" + ("30000" + ("_" + "binned"))));
    assert Segments(t) == ("_r" + "10" + "_x" + "0.1") + ("_dc" + "0.1" + "_a" + "0.1");
    NameParts(t);
    FullSegments();
  }

  lemma FullSegments()
    ensures ReplaceDots(("_r" + "10" + "_x" + "0.1") + ("_dc" + "0.1" + "_a" + "0.1"))
      == ("_r10_x" + "0p1") + ("_dc" + "0p1" + "_a" + "0p1")
  {
    ReplaceDotsAppend("_r" + "10" + "_x" + "0.1", "_dc" + "0.1" + "_a" + "0.1");
    assert "_r" + "10" + "_x" == "_r10_x";
    ReplaceDotsAppend("_r10_x", "0.1");
    assert ReplaceDots("0.1") == "0p1";
    ReplaceDotsNone("_r10_x");
    DotToP("_dc", "_a");
  }

  lemma Thirty()
    ensures NatText(30000) == "30000"
  {
    assert NatText(3) == "3";
    assert NatText(30) == "30";
    assert NatText(300) == "300";
    assert NatText(3000) == "3000";
  }

  lemma DotToP(a: string, b: string)
    requires '.' !in a && '.' !in b
    ensures ReplaceDots(a + "0.1" + b + "0.1") == a + "0p1" + b + "0p1"
  {
    assert ReplaceDots("0.1") == "0p1";
    ReplaceDotsAppend(a + "0.1" + b, "0.1");
    ReplaceDotsAppend(a + "0.1", b);
    ReplaceDotsAppend(a, "0.1");
    ReplaceDotsNone(a);
    ReplaceDotsNone(b);
  }

  // ---------------------------------------------------------------------
  // Distinct names

  /** Position of the first `c` in `s`, or `|s|` when there is none. */
  function FirstIndex(s: string, c: char): (n: nat)
    ensures n <= |s|
  {
    if s == [] then 0 else if s[0] == c then 0 else 1 + FirstIndex(s[1..], c)
  }

  lemma {:induction false} FirstIndexAfter(a: string, r: string, c: char)
    requires c !in a
    requires r == [] || r[0] == c
    ensures FirstIndex(a + r, c) == |a|
  {
    if a != [] {
      assert (a + r)[1..] == a[1..] + r;
      FirstIndexAfter(a[1..], r, c);
    }
  }

  /** Splitting at the first separator: two strings free of `c`, each
      followed by a tail that is empty or starts with `c`, can only give the
      same concatenation if they are equal. */
  lemma SplitAtSeparator(a: string, r: string, a2: string, r2: string, c: char)
    requires c !in a && c !in a2
    requires r == [] || r[0] == c
    requires r2 == [] || r2[0] == c
    requires a + r == a2 + r2
    ensures a == a2 && r == r2
  {
    FirstIndexAfter(a, r, c);
    FirstIndexAfter(a2, r2, c);
    assert a == (a + r)[..|a|];
    assert a2 == (a2 + r2)[..|a2|];
  }

  lemma DropPrefix(p: string, a: string, b: string)
    requires p + a == p + b
    ensures a == b
  {
    assert a == (p + a)[|p|..];
    assert b == (p + b)[|p|..];
  }

  lemma NatTextInjective(n: nat, m: nat)
    requires NatText(n) == NatText(m)
    ensures n == m
  {
    ParseNatText(n);
    ParseNatText(m);
  }

  /** A job: a non-negative event count and plain model and fit names. */
  predicate JobLike(t: seq<Scalar>)
  {
    |t| == 7 && t[0].Int? && t[0].i >= 0 && t[1].Str? && t[2].Str?
    && Plain(t[0]) && Plain(t[1]) && Plain(t[2])
  }

  lemma StripEnds(p: string, a: string, b: string, q: string)
    requires p + a + q == p + b + q
    ensures a == b
  {
    assert |a| == |b|;
    assert a == (p + a + q)[|p|..|p| + |a|];
    assert b == (p + b + q)[|p|..|p| + |b|];
  }

  /** The fit name ends at the first `_` after it. */
  lemma SplitFit(f: string, rs: string, f2: string, rs2: string)
    requires '_' !in f && '_' !in f2
    requires (rs == [] || rs[0] == '_') && (rs2 == [] || rs2[0] == '_')
    requires "_" + (f + rs) == "_" + (f2 + rs2)
    ensures f == f2 && rs == rs2
  {
    DropPrefix("_", f + rs, f2 + rs2);
    SplitAtSeparator(f, rs, f2, rs2, '_');
  }

  /** A word without `_` written after a fixed prefix ends at the first
      `_` that follows it: the model name after `SiPMRunToy_` and the event
      count after `_nEvt`. */
  lemma SplitWord(p: string, w: string, tail: string, w2: string, tail2: string)
    requires '_' !in w && '_' !in w2
    requires |tail| > 0 && tail[0] == '_' && |tail2| > 0 && tail2[0] == '_'
    requires p + (w + tail) == p + (w2 + tail2)
    ensures w == w2 && tail == tail2
  {
    DropPrefix(p, w + tail, w2 + tail2);
    SplitAtSeparator(w, tail, w2, tail2, '_');
  }

  /** A name `SiPMRunToy_<m>_nEvt<d>_<f><rs>` determines its parts when
      none of `m`, `d`, `f` holds a `_` and `rs` is empty or starts with one. */
  lemma SplitName(m: string, d: string, f: string, rs: string,
                  m2: string, d2: string, f2: string, rs2: string)
    requires '_' !in m && '_' !in d && '_' !in f && (rs == [] || rs[0] == '_')
    requires '_' !in m2 && '_' !in d2 && '_' !in f2 && (rs2 == [] || rs2[0] == '_')
    requires "SiPMRunToy_" + (m + ("_nEvt" + (d + ("_" + (f + rs)))))
          == "SiPMRunToy_" + (m2 + ("_nEvt" + (d2 + ("_" + (f2 + rs2)))))
    ensures m == m2 && d == d2 && f == f2 && rs == rs2
  {
    var ftail, ftail2 := "_" + (f + rs), "_" + (f2 + rs2);
    var dtail, dtail2 := "_nEvt" + (d + ftail), "_nEvt" + (d2 + ftail2);
    SplitWord("SiPMRunToy_", m, dtail, m2, dtail2);
    SplitWord("_nEvt", d, ftail, d2, ftail2);
    SplitFit(f, rs, f2, rs2);
  }

  lemma HeadThen(t: seq<Scalar>, rs: string)
    requires |t| == 7
    ensures Head(t) + rs == "SiPMRunToy_" + (Text(t[1]) + ("_nEvt" + (Text(t[0]) + ("_" + (Text(t[2]) + rs)))))
  {
  }

  /** Equal names give equal heads. */
  lemma SameName(t: seq<Scalar>, t2: seq<Scalar>)
    requires |t| == 7 && Plain(t[0]) && Plain(t[1]) && Plain(t[2])
    requires |t2| == 7 && Plain(t2[0]) && Plain(t2[1]) && Plain(t2[2])
    requires FileName(t) == FileName(t2)
    ensures Text(t[1]) == Text(t2[1]) && Text(t[0]) == Text(t2[0]) && Text(t[2]) == Text(t2[2])
  {
    NameParts(t);
    NameParts(t2);
    SegmentsStart(t);
    SegmentsStart(t2);
    var rs, rs2 := ReplaceDots(Segments(t)), ReplaceDots(Segments(t2));
    StripEnds(JdlDir, Head(t) + rs, Head(t2) + rs2, ".jdl");
    HeadThen(t, rs);
    HeadThen(t2, rs2);
    SplitName(Text(t[1]), Text(t[0]), Text(t[2]), rs, Text(t2[1]), Text(t2[0]), Text(t2[2]), rs2);
  }

  /** Two jobs that agree after the fit get the same name only if they agree
      on event count, model and fit too. */
  lemma FileNameInjective(t: seq<Scalar>, t2: seq<Scalar>)
    requires JobLike(t) && JobLike(t2) && t[3..] == t2[3..]
    requires FileName(t) == FileName(t2)
    ensures t == t2
  {
    SameName(t, t2);
    NatTextInjective(t[0].i, t2[0].i);
    assert t == [t[0], t[1], t[2]] + t[3..];
    assert t2 == [t2[0], t2[1], t2[2]] + t2[3..];
  }

  lemma EventCountPlain(v: Scalar)
    requires v in NEvents
    ensures v.Int? && v.i >= 0 && Plain(v)
  {
    NoSeparatorInCount(v.i);
  }

  lemma ModelPlain(v: Scalar)
    requires v in Models
    ensures v.Str? && Plain(v)
  {
  }

  lemma FitPlain(v: Scalar)
    requires v in Fits
    ensures v.Str? && Plain(v)
  {
  }

  /** Every generated job has event count, model and fit as in `JobLike`
      and the fixed values of the one-element lists. */
  lemma JobShape(t: seq<Scalar>)
    requires t in Jobs
    ensures JobLike(t)
    ensures t[3..] == FixedValues
  {
    CartesianMember(Axes, 0, t);
    assert Axes[0] == NEvents && Axes[1] == Models && Axes[2] == Fits;
    EventCountPlain(t[0]);
    ModelPlain(t[1]);
    FitPlain(t[2]);
    assert Axes[3] == Means && Axes[4] == XRates && Axes[5] == DCFracs && Axes[6] == Alphas;
    assert t[3..] == [t[3], t[4], t[5], t[6]];
  }

  lemma NoSeparatorInCount(n: nat)
    ensures '_' !in NatText(n) && '.' !in NatText(n)
  {
    NatTextDigits(n);
  }

  /** Every generated job has the shape `FileNameInjective` needs. */
  lemma AllJobsShaped()
    ensures forall t :: t in Jobs ==> JobLike(t) && t[3..] == FixedValues
  {
    forall t | t in Jobs
      ensures JobLike(t) && t[3..] == FixedValues
    {
      JobShape(t);
    }
  }

  /** Distinct jobs of that shape get distinct names. */
  lemma NamesInjective(jobs: seq<seq<Scalar>>)
    requires forall t :: t in jobs ==> JobLike(t) && t[3..] == FixedValues
    requires Distinct(jobs)
    ensures Shaped(jobs)
    ensures Distinct(Mapped(jobs, FileName))
  {
    assert Shaped(jobs) by {
      forall i | 0 <= i < |jobs|
        ensures |jobs[i]| == 7
      {
        assert jobs[i] in jobs;
      }
    }
    var names := Mapped(jobs, FileName);
    forall i, j | 0 <= i < j < |names|
      ensures names[i] != names[j]
    {
      var t, t2 := jobs[i], jobs[j];
      assert t in jobs && t2 in jobs;
      MappedAt(jobs, FileName, i);
      MappedAt(jobs, FileName, j);
      if FileName(t) == FileName(t2) {
        FileNameInjective(t, t2);
      }
    }
  }

  /** The 50 generated names are pairwise distinct, so no job file
      overwrites another. */
  lemma NamesDistinct()
    ensures Shaped(Jobs)
    ensures Distinct(Mapped(Jobs, FileName))
  {
    AllJobsShaped();
    CartesianDistinct(Axes, 0);
    NamesInjective(Jobs);
  }

  // ---------------------------------------------------------------------
  // The job file

  /** A piece of the template: literal text or the positional field `{k}`. */
  datatype Piece = Lit(s: string) | Slot(k: nat)

  /** The job template with its seven `{k}` fields; all other text, the
      `$(cluster)_$(process)` macros and the dash-less `alpha` flag included,
      is literal. */
  const Template: seq<Piece> := [
    Lit(Preamble),
    Slot(0), Lit(" --model "), Slot(1), Lit(" --fit "), Slot(2), Lit(" --rate "), Slot(3),
    Lit(" --xtalkrate "), Slot(4), Lit(" --darkrate "), Slot(5), Lit(" alpha "), Slot(6),
    Lit("\nQueue 1\n")]

  /** The fixed text before the first field. */
  const Preamble: string :=
    "\nuniverse = vanilla\n"
    + "Executable = /data/users/yichen/CMSSW_10_3_1_patch1/src/SiPMCalib/SiPMCalc/condor_runtoy.sh\n"
    + "should_transfer_files = NO\n"
    + "Requirements = TARGET.FileSystemDomain == \"privnet\"\n"
    + "Output = /data/users/yichen/condor/log/simple_$(cluster)_$(process).stdout\n"
    + "Error  = /data/users/yichen/condor/log/simple_$(cluster)_$(process).stderr\n"
    + "Log    = /data/users/yichen/condor/log/simple_$(cluster)_$(process).condor\n"
    + "Arguments = --nToys 500 --nEvents "

  /** The text one piece contributes. Python raises `IndexError` for a
      field number past the arguments; the template here numbers its fields
      0 to 6 and always gets seven values, so that case gives no text. */
  function PieceText(p: Piece, vals: seq<string>): string
  {
    match p
    case Lit(s) => s
    case Slot(k) => if k < |vals| then vals[k] else ""
  }

  /** `str.format` with positional arguments on a parsed template. */
  function Render(ps: seq<Piece>, vals: seq<string>): string
  {
    if ps == [] then [] else PieceText(ps[0], vals) + Render(ps[1..], vals)
  }

  /** Rendering works piece by piece. */
  lemma RenderFirst(ps: seq<Piece>, vals: seq<string>)
    requires |ps| > 0
    ensures Render(ps, vals) == PieceText(ps[0], vals) + Render(ps[1..], vals)
  {
  }

  /** The seven values of a job, in the order `template.format` gets them. */
  function Contents(t: seq<Scalar>): string
    requires |t| == 7
  {
    Render(Template, [Text(t[0]), Text(t[1]), Text(t[2]), Text(t[3]), Text(t[4]), Text(t[5]), Text(t[6])])
  }

  /** A literal followed by a field. */
  lemma RenderPair(a: string, k: nat, rest: seq<Piece>, v: seq<string>)
    requires k < |v|
    ensures Render([Lit(a), Slot(k)] + rest, v) == a + (v[k] + Render(rest, v))
  {
    var ps := [Lit(a), Slot(k)] + rest;
    assert ps[1..] == [Slot(k)] + rest;
    assert ps[1..][1..] == rest;
  }

  /** The template from the `--xtalkrate` flag on. */
  const TemplateBack: seq<Piece> :=
    [Lit(" --xtalkrate "), Slot(4), Lit(" --darkrate "), Slot(5), Lit(" alpha "), Slot(6), Lit("\nQueue 1\n")]

  lemma TemplateSplit()
    ensures Template[8..] == TemplateBack
  {
  }

  lemma RenderBack(v: seq<string>)
    requires |v| == 7
    ensures Render(TemplateBack, v)
      == " --xtalkrate " + (v[4] + (" --darkrate " + (v[5] + (" alpha " + (v[6] + "\nQueue 1\n")))))
  {
    var t12 := [Lit(" alpha "), Slot(6), Lit("\nQueue 1\n")];
    var t10 := [Lit(" --darkrate "), Slot(5)] + t12;
    assert Render(t12, v) == " alpha " + (v[6] + "\nQueue 1\n") by {
      RenderEnd(" alpha ", 6, "\nQueue 1\n", v);
    }
    assert Render(t10, v) == " --darkrate " + (v[5] + Render(t12, v)) by {
      RenderPair(" --darkrate ", 5, t12, v);
    }
    assert TemplateBack == [Lit(" --xtalkrate "), Slot(4)] + t10;
    RenderPair(" --xtalkrate ", 4, t10, v);
  }

  /** A field between two literals, at the end of a template. */
  lemma RenderEnd(a: string, k: nat, b: string, v: seq<string>)
    requires k < |v|
    ensures Render([Lit(a), Slot(k), Lit(b)], v) == a + (v[k] + b)
  {
    var ps := [Lit(a), Slot(k), Lit(b)];
    assert ps[1..] == [Slot(k), Lit(b)];
    assert ps[1..][1..] == [Lit(b)];
    assert [Lit(b)][1..] == [];
    assert Render([Lit(b)], v) == b + [];
    assert b + [] == b;
  }

  lemma RenderFront(v: seq<string>)
    requires |v| == 7
    ensures Render(Template, v)
      == Preamble + (v[0] + (" --model " + (v[1] + (" --fit " + (v[2] + (" --rate " + (v[3]
           + Render(Template[8..], v))))))))
  {
    var T := Template;
    RenderFirst(T[7..], v);
    RenderFirst(T[6..], v);
    RenderFirst(T[5..], v);
    RenderFirst(T[4..], v);
    RenderFirst(T[3..], v);
    RenderFirst(T[2..], v);
    RenderFirst(T[1..], v);
    RenderFirst(T, v);
  }

  /** Where each value lands in the job file. */
  lemma ContentsLayout(t: seq<Scalar>)
    requires |t| == 7
    ensures Contents(t) == Preamble + (Text(t[0]) + (" --model " + (Text(t[1]) + (" --fit " + (Text(t[2])
      + (" --rate " + (Text(t[3]) + (" --xtalkrate " + (Text(t[4]) + (" --darkrate " + (Text(t[5])
      + (" alpha " + (Text(t[6]) + "\nQueue 1\n")))))))))))))
  {
    var v := [Text(t[0]), Text(t[1]), Text(t[2]), Text(t[3]), Text(t[4]), Text(t[5]), Text(t[6])];
    TemplateSplit();
    RenderBack(v);
    RenderFront(v);
  }

  /** Every entry has one value per list. */
  predicate Shaped(jobs: seq<seq<Scalar>>)
  {
    forall i :: 0 <= i < |jobs| ==> |jobs[i]| == 7
  }

  /** `f` applied to every job, in order: the printed names with
      `FileName`, the written texts with `Contents`. */
  function Mapped(jobs: seq<seq<Scalar>>, f: seq<Scalar> --> string): (r: seq<string>)
    requires forall i :: 0 <= i < |jobs| ==> f.requires(jobs[i])
    ensures |r| == |jobs|
  {
    if jobs == [] then [] else Mapped(jobs[..|jobs| - 1], f) + [f(jobs[|jobs| - 1])]
  }

  lemma {:induction false} MappedAt(jobs: seq<seq<Scalar>>, f: seq<Scalar> --> string, i: nat)
    requires forall i :: 0 <= i < |jobs| ==> f.requires(jobs[i])
    requires i < |jobs|
    ensures Mapped(jobs, f)[i] == f(jobs[i])
  {
    var n := |jobs| - 1;
    if i < n {
      MappedAt(jobs[..n], f, i);
    }
  }

  /** The files after writing `texts[i]` to `names[i]` in order: a later
      write to the same name replaces the earlier one. */
  function Files(names: seq<string>, texts: seq<string>): map<string, string>
    requires |names| == |texts|
  {
    if names == [] then map[]
    else Files(names[..|names| - 1], texts[..|texts| - 1])[names[|names| - 1] := texts[|texts| - 1]]
  }

  /** Exactly the written names exist. */
  lemma {:induction false} FilesKeys(names: seq<string>, texts: seq<string>)
    requires |names| == |texts|
    ensures Files(names, texts).Keys == set x | x in names
  {
    if names != [] {
      var n := |names| - 1;
      FilesKeys(names[..n], texts[..n]);
      assert names == names[..n] + [names[n]];
    }
  }

  /** With no repeated names, every file holds the text written to it. */
  lemma {:induction false} FilesDistinct(names: seq<string>, texts: seq<string>)
    requires |names| == |texts| && Distinct(names)
    ensures forall i :: 0 <= i < |names| ==> names[i] in Files(names, texts) && Files(names, texts)[names[i]] == texts[i]
  {
    if names != [] {
      var n := |names| - 1;
      FilesDistinct(names[..n], texts[..n]);
      forall i | 0 <= i < |names|
        ensures names[i] in Files(names, texts) && Files(names, texts)[names[i]] == texts[i]
      {
        if i < n {
          assert names[..n][i] == names[i];
          assert names[i] != names[n];
        }
      }
    }
  }

  /** One more job extends the printed names and the texts by its own
      entry, and the files by its own file. */
  lemma WriteStep(jobs: seq<seq<Scalar>>, name: seq<Scalar> --> string, format: seq<Scalar> --> string,
                  i: nat, printed: seq<string>, written: map<string, string>, filename: string, text: string)
    requires forall i :: 0 <= i < |jobs| ==> name.requires(jobs[i]) && format.requires(jobs[i])
    requires i < |jobs|
    requires printed == Mapped(jobs[..i], name) && written == Files(printed, Mapped(jobs[..i], format))
    requires filename == name(jobs[i]) && text == format(jobs[i])
    ensures printed + [filename] == Mapped(jobs[..i + 1], name)
    ensures written[filename := text] == Files(printed + [filename], Mapped(jobs[..i + 1], format))
  {
    var texts := Mapped(jobs[..i], format);
    assert jobs[..i + 1][..i] == jobs[..i];
    assert Mapped(jobs[..i + 1], format) == texts + [text];
    assert (printed + [filename])[..|printed|] == printed;
    assert (texts + [text])[..|texts|] == texts;
  }

  /** The loop of the script: for every job, in order, print its file name
      and write the job's text, as `format` renders it, to that file.
      Returns the printed lines and the files written, by name. */
  method WriteJobs(jobs: seq<seq<Scalar>>, format: seq<Scalar> --> string)
    returns (printed: seq<string>, written: map<string, string>)
    requires Shaped(jobs) && forall i :: 0 <= i < |jobs| ==> format.requires(jobs[i])
    ensures printed == Mapped(jobs, FileName)
    ensures written == Files(printed, Mapped(jobs, format))
  {
    printed := [];
    written := map[];
    var i := 0;
    while i < |jobs|
      invariant 0 <= i <= |jobs|
      invariant printed == Mapped(jobs[..i], FileName)
      invariant written == Files(printed, Mapped(jobs[..i], format))
    {
      var filename := BuildFileName(jobs[i]);
      var text := format(jobs[i]);
      WriteStep(jobs, FileName, format, i, printed, written, filename, text);
      printed := printed + [filename];
      written := written[filename := text];
      i := i + 1;
    }
    assert jobs[..i] == jobs;
  }

  /** The script over the 50 generated jobs: 50 distinct files, each holding
      the template filled with its own job. */
  method Generate() returns (printed: seq<string>, written: map<string, string>)
    ensures Shaped(Jobs)
    ensures printed == Mapped(Jobs, FileName) && |printed| == 50 && Distinct(printed)
    ensures written.Keys == set x | x in printed
    ensures forall i :: 0 <= i < |Jobs| ==> written[printed[i]] == Contents(Jobs[i])
  {
    JobAt(0, 0, 0);
    NamesDistinct();
    printed, written := WriteJobs(Jobs, Contents);
    var texts := Mapped(Jobs, Contents);
    FilesKeys(printed, texts);
    FilesDistinct(printed, texts);
    forall i | 0 <= i < |Jobs|
      ensures written[printed[i]] == Contents(Jobs[i])
    {
      MappedAt(Jobs, Contents, i);
    }
  }
}

/** The LED luminosity scan table (InvSqCalc/src/LEDFormat.cc): one point per
    gantry position (x, y, z) with the measured luminosity and its error,
    kept ordered by z. */
module LedData {
  import opened Seqs
  import opened Wrappers

  datatype LEDPoint = LEDPoint(x: real, y: real, z: real, lumi: real, lumierr: real)

  function XOf(p: LEDPoint): real { p.x }
  function YOf(p: LEDPoint): real { p.y }
  function ZOf(p: LEDPoint): real { p.z }
  function LumiOf(p: LEDPoint): real { p.lumi }

  /** A point of a one-dimensional scan graph: the scanned coordinate, the
      luminosity and its error. */
  datatype ScanPoint = ScanPoint(coord: real, lumi: real, lumierr: real)

  /** The z-scan graph point of `p`. */
  function ZPoint(p: LEDPoint): ScanPoint { ScanPoint(p.z, p.lumi, p.lumierr) }

  /** The x-scan graph point of `p`. */
  function XPoint(p: LEDPoint): ScanPoint { ScanPoint(p.x, p.lumi, p.lumierr) }

  class LEDManager {
    var pointlist: seq<LEDPoint>

    /** The table stays ordered by z. */
    predicate Valid()
      reads this
    {
      SortedBy(pointlist, ZOf)
    }

    /** Reading the file: the points in file order, then a stable sort by z
        (`std::stable_sort` with `a.z < b.z`). */
    constructor (lines: seq<LEDPoint>)
      ensures Valid()
      ensures multiset(pointlist) == multiset(lines)
      ensures forall k :: WithKey(pointlist, ZOf, k) == WithKey(lines, ZOf, k)
    {
      var list: seq<LEDPoint> := [];
      var i := 0;
      while i < |lines|
        invariant 0 <= i <= |lines|
        invariant list == SortBy(lines[..i], ZOf)
      {
        assert lines[..i + 1][..i] == lines[..i];
        list := InsertBy(lines[i], list, ZOf);
        i := i + 1;
      }
      assert lines[..i] == lines;
      SortByCorrect(lines, ZOf);
      pointlist := list;
    }

    /** The points at (x, y), in table order, as (z, lumi, lumierr); with a
        valid table their z values are nondecreasing. */
    method MakeZScanGraph(x: real, y: real) returns (pts: seq<ScanPoint>)
      ensures pts == Select(pointlist, ZPoint, (p: LEDPoint) => p.x == x && p.y == y)
      ensures Valid() ==> forall i, j :: 0 <= i < j < |pts| ==> pts[i].coord <= pts[j].coord
    {
      var sel := (p: LEDPoint) => p.x == x && p.y == y;
      pts := [];
      var i := 0;
      while i < |pointlist|
        invariant 0 <= i <= |pointlist|
        invariant pts == Select(pointlist[..i], ZPoint, sel)
      {
        assert pointlist[..i + 1][..i] == pointlist[..i];
        if sel(pointlist[i]) {
          pts := pts + [ZPoint(pointlist[i])];
        }
        i := i + 1;
      }
      assert pointlist[..i] == pointlist;
      if Valid() {
        ZScanSorted(pointlist, sel);
      }
    }

    /** The points at (y, z), in table order, as (x, lumi, lumierr). */
    method MakeXScanGraph(y: real, z: real) returns (pts: seq<ScanPoint>)
      ensures pts == Select(pointlist, XPoint, (p: LEDPoint) => p.y == y && p.z == z)
    {
      var sel := (p: LEDPoint) => p.y == y && p.z == z;
      pts := [];
      var i := 0;
      while i < |pointlist|
        invariant 0 <= i <= |pointlist|
        invariant pts == Select(pointlist[..i], XPoint, sel)
      {
        assert pointlist[..i + 1][..i] == pointlist[..i];
        if sel(pointlist[i]) {
          pts := pts + [XPoint(pointlist[i])];
        }
        i := i + 1;
      }
      assert pointlist[..i] == pointlist;
    }

    /** The points at height z that feed the two-dimensional histogram. The
        bin width is taken from the first two of them (`xlist.at(1)`), so
        fewer than two matching points is an error. */
    method MakeHScanGraph(z: real) returns (r: Result<seq<LEDPoint>, string>)
      ensures var sel := Keep(pointlist, (p: LEDPoint) => p.z == z);
        && (r.Failure? <==> |sel| < 2)
        && (r.Success? ==> r.value == sel)
    {
      var sel := (p: LEDPoint) => p.z == z;
      var pts: seq<LEDPoint> := [];
      var i := 0;
      while i < |pointlist|
        invariant 0 <= i <= |pointlist|
        invariant pts == Keep(pointlist[..i], sel)
      {
        assert pointlist[..i + 1][..i] == pointlist[..i];
        if sel(pointlist[i]) {
          pts := pts + [pointlist[i]];
        }
        i := i + 1;
      }
      assert pointlist[..i] == pointlist;
      if |pts| < 2 {
        return Failure("vector::_M_range_check");
      }
      return Success(pts);
    }

    function Xmin(): (m: real)
      requires |pointlist| > 0
      reads this
      ensures exists i :: 0 <= i < |pointlist| && pointlist[i].x == m
      ensures forall i :: 0 <= i < |pointlist| ==> m <= pointlist[i].x
    {
      MinOf(pointlist, XOf)
    }

    function Xmax(): (m: real)
      requires |pointlist| > 0
      reads this
      ensures exists i :: 0 <= i < |pointlist| && pointlist[i].x == m
      ensures forall i :: 0 <= i < |pointlist| ==> pointlist[i].x <= m
    {
      MaxOf(pointlist, XOf)
    }

    function Ymin(): (m: real)
      requires |pointlist| > 0
      reads this
      ensures exists i :: 0 <= i < |pointlist| && pointlist[i].y == m
      ensures forall i :: 0 <= i < |pointlist| ==> m <= pointlist[i].y
    {
      MinOf(pointlist, YOf)
    }

    function Ymax(): (m: real)
      requires |pointlist| > 0
      reads this
      ensures exists i :: 0 <= i < |pointlist| && pointlist[i].y == m
      ensures forall i :: 0 <= i < |pointlist| ==> pointlist[i].y <= m
    {
      MaxOf(pointlist, YOf)
    }

    function Zmin(): (m: real)
      requires |pointlist| > 0
      reads this
      ensures exists i :: 0 <= i < |pointlist| && pointlist[i].z == m
      ensures forall i :: 0 <= i < |pointlist| ==> m <= pointlist[i].z
    {
      MinOf(pointlist, ZOf)
    }

    function Zmax(): (m: real)
      requires |pointlist| > 0
      reads this
      ensures exists i :: 0 <= i < |pointlist| && pointlist[i].z == m
      ensures forall i :: 0 <= i < |pointlist| ==> pointlist[i].z <= m
    {
      MaxOf(pointlist, ZOf)
    }

    function LumiMin(): (m: real)
      requires |pointlist| > 0
      reads this
      ensures exists i :: 0 <= i < |pointlist| && pointlist[i].lumi == m
      ensures forall i :: 0 <= i < |pointlist| ==> m <= pointlist[i].lumi
    {
      MinOf(pointlist, LumiOf)
    }

    function LumiMax(): (m: real)
      requires |pointlist| > 0
      reads this
      ensures exists i :: 0 <= i < |pointlist| && pointlist[i].lumi == m
      ensures forall i :: 0 <= i < |pointlist| ==> pointlist[i].lumi <= m
    {
      MaxOf(pointlist, LumiOf)
    }

    /** In a table ordered by z, the z range runs from the first point to the
        last one. */
    lemma ZRangeEnds()
      requires Valid() && |pointlist| > 0
      ensures Zmin() == pointlist[0].z
      ensures Zmax() == pointlist[|pointlist| - 1].z
    {
      var m := Zmin();
      var i :| 0 <= i < |pointlist| && pointlist[i].z == m;
      assert ZOf(pointlist[0]) <= ZOf(pointlist[i]);
      var n := Zmax();
      var j :| 0 <= j < |pointlist| && pointlist[j].z == n;
      assert ZOf(pointlist[j]) <= ZOf(pointlist[|pointlist| - 1]);
    }
  }

  /** A z-scan of a z-ordered table lists its points by nondecreasing z. */
  lemma ZScanSorted(points: seq<LEDPoint>, sel: LEDPoint -> bool)
    requires SortedBy(points, ZOf)
    ensures var pts := Select(points, ZPoint, sel);
      forall i, j :: 0 <= i < j < |pts| ==> pts[i].coord <= pts[j].coord
  {
    KeepSorted(points, ZOf, sel);
    ZPointsOfKeep(points, sel);
  }

  /** A scan's points are the `ZPoint`s of the kept rows. */
  lemma {:induction false} ZPointsOfKeep(points: seq<LEDPoint>, sel: LEDPoint -> bool)
    ensures |Select(points, ZPoint, sel)| == |Keep(points, sel)|
    ensures forall i :: 0 <= i < |Keep(points, sel)| ==>
      Select(points, ZPoint, sel)[i] == ZPoint(Keep(points, sel)[i])
  {
    if points != [] {
      ZPointsOfKeep(points[..|points| - 1], sel);
    }
  }
}

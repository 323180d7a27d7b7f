/** The cache of Monte Carlo acceptance results (InvSqCalc/src/MCFormat.cc).
    A `Model` is one geometry (aperture radius r, SiPM edge l, offset o,
    distance z) with the number of generated toys and of toys that hit the
    SiPM. The random hit test of `Run` is outside the model: each call is
    given the outcomes of its toys. */
module MonteCarlo {
  import opened Seqs

  class Model {
    const r: real
    const l: real
    const o: real
    const z: real
    var total: nat
    var passed: nat

    /** No toy can pass without having been generated. */
    predicate Valid()
      reads this
    {
      passed <= total
    }

    constructor (r: real, l: real, o: real, z: real)
      ensures this.r == r && this.l == l && this.o == o && this.z == z
      ensures total == 0 && passed == 0
      ensures Valid()
    {
      this.r := r;
      this.l := l;
      this.o := o;
      this.z := z;
      total := 0;
      passed := 0;
    }

    /** Generates `|hits|` toys; `hits[i]` is whether toy i landed on the
        SiPM. */
    method Run(hits: seq<bool>)
      modifies this
      ensures total == old(total) + |hits|
      ensures passed == old(passed) + Count(hits)
      ensures passed - old(passed) <= total - old(total)
      ensures old(Valid()) ==> Valid()
    {
      var i := 0;
      while i < |hits|
        invariant 0 <= i <= |hits|
        invariant total == old(total) + i
        invariant passed == old(passed) + Count(hits[..i])
      {
        assert hits[..i + 1][..i] == hits[..i];
        total := total + 1;
        if hits[i] {
          passed := passed + 1;
        }
        i := i + 1;
      }
      assert hits[..i] == hits;
    }
  }

  /** The parameters match exactly (the C++ compares doubles with `==`). */
  predicate Matches(m: Model, r: real, l: real, o: real, z: real)
  {
    m.r == r && m.l == l && m.o == o && m.z == z
  }

  /** One line of a cache file: r l o z total passed. */
  datatype CacheLine = CacheLine(r: real, l: real, o: real, z: real, total: nat, passed: nat)

  /** The number of passes in a run of several blocks. */
  function BlockPasses(blocks: seq<seq<bool>>): nat
  {
    if blocks == [] then 0
    else BlockPasses(blocks[..|blocks| - 1]) + Count(blocks[|blocks| - 1])
  }

  /** One point of a scan graph: the scanned coordinate and the counts the
      luminosity estimate is computed from. */
  datatype MCPoint = MCPoint(coord: real, total: nat, passed: nat)

  class MCManager {
    var modellist: seq<Model>

    constructor ()
      ensures modellist == []
    {
      modellist := [];
    }

    /** Loading a cache file: one model per line in file order, with the
        counts as written (they are not checked against each other). */
    constructor FromFile(lines: seq<CacheLine>)
      ensures |modellist| == |lines|
      ensures forall i :: 0 <= i < |lines| ==>
        var m := modellist[i];
        m.r == lines[i].r && m.l == lines[i].l && m.o == lines[i].o && m.z == lines[i].z
        && m.total == lines[i].total && m.passed == lines[i].passed
    {
      var list: seq<Model> := [];
      var i := 0;
      while i < |lines|
        invariant 0 <= i <= |lines|
        invariant |list| == i
        invariant forall k :: 0 <= k < i ==>
          var m := list[k];
          m.r == lines[k].r && m.l == lines[k].l && m.o == lines[k].o && m.z == lines[k].z
          && m.total == lines[k].total && m.passed == lines[k].passed
      {
        var m := new Model(lines[i].r, lines[i].l, lines[i].o, lines[i].z);
        m.total := lines[i].total;
        m.passed := lines[i].passed;
        list := list + [m];
        i := i + 1;
      }
      modellist := list;
    }

    /** Looks the geometry up; when it is not cached, appends a new model and
        runs it in blocks of 100 toys until at least 100 have passed. `blocks`
        are the hit outcomes of successive blocks; they must eventually give
        100 passes, or the C++ loop never ends. */
    method GetModel(r: real, l: real, o: real, z: real, blocks: seq<seq<bool>>)
      returns (m: Model)
      requires forall b :: b in blocks ==> |b| == 100
      requires BlockPasses(blocks) >= 100
      modifies this
      ensures (exists i :: 0 <= i < |old(modellist)| && Matches(old(modellist)[i], r, l, o, z))
        ==> modellist == old(modellist)
            && (exists k :: 0 <= k < |modellist| && m == modellist[k]
                  && Matches(m, r, l, o, z)
                  && forall j :: 0 <= j < k ==> !Matches(modellist[j], r, l, o, z))
      ensures (forall i :: 0 <= i < |old(modellist)| ==> !Matches(old(modellist)[i], r, l, o, z))
        ==> fresh(m) && modellist == old(modellist) + [m] && Matches(m, r, l, o, z)
            && m.passed >= 100 && m.total > 0 && m.total % 100 == 0 && m.Valid()
            && (exists b :: 0 < b <= |blocks| && m.total == 100 * b
                  && m.passed == BlockPasses(blocks[..b]) && BlockPasses(blocks[..b - 1]) < 100)
      ensures forall i :: 0 <= i < |old(modellist)| ==>
        modellist[i] == old(modellist)[i]
        && modellist[i].total == old(modellist[i].total)
        && modellist[i].passed == old(modellist[i].passed)
    {
      var i := 0;
      while i < |modellist|
        invariant 0 <= i <= |modellist|
        invariant forall j :: 0 <= j < i ==> !Matches(modellist[j], r, l, o, z)
      {
        if Matches(modellist[i], r, l, o, z) {
          return modellist[i];
        }
        i := i + 1;
      }

      m := new Model(r, l, o, z);
      modellist := modellist + [m];
      var b := 0;
      while m.passed < 100
        invariant 0 <= b <= |blocks|
        invariant m.total == 100 * b
        invariant m.passed == BlockPasses(blocks[..b])
        invariant m.Valid()
        invariant modellist == old(modellist) + [m]
        invariant b == |blocks| ==> m.passed >= 100
        invariant b > 0 ==> BlockPasses(blocks[..b - 1]) < 100
        decreases |blocks| - b
      {
        assert blocks[..b + 1][..b] == blocks[..b];
        assert blocks[b] in blocks;
        m.Run(blocks[b]);
        b := b + 1;
        if b == |blocks| {
          assert blocks[..b] == blocks;
        }
      }
      assert b > 0;
      assert m.passed == BlockPasses(blocks[..b]) && BlockPasses(blocks[..b - 1]) < 100;
    }

    /** The z-scan: the models with this r, l, o and 20 <= z <= 450, in list
        order. */
    method MakeZScanGraph(r: real, l: real, o: real) returns (pts: seq<MCPoint>)
      ensures var kept := Keep(modellist, (m: Model) => m.r == r && m.l == l && m.o == o
                                                         && 20.0 <= m.z <= 450.0);
        |pts| == |kept|
        && forall k :: 0 <= k < |pts| ==>
             pts[k] == MCPoint(kept[k].z, kept[k].total, kept[k].passed)
    {
      var sel := (m: Model) => m.r == r && m.l == l && m.o == o && 20.0 <= m.z <= 450.0;
      pts := [];
      ghost var kept: seq<Model> := [];
      var i := 0;
      while i < |modellist|
        invariant 0 <= i <= |modellist|
        invariant kept == Keep(modellist[..i], sel)
        invariant |pts| == |kept|
        invariant forall k :: 0 <= k < |pts| ==>
          pts[k] == MCPoint(kept[k].z, kept[k].total, kept[k].passed)
      {
        assert modellist[..i + 1][..i] == modellist[..i];
        var m := modellist[i];
        if sel(m) {
          pts := pts + [MCPoint(m.z, m.total, m.passed)];
          kept := kept + [m];
        }
        i := i + 1;
      }
      assert modellist[..i] == modellist;
    }

    /** The horizontal scan: the models with this r, l, z, in list order,
        plotted against their offset. */
    method MakeHScanGraph(r: real, l: real, z: real) returns (pts: seq<MCPoint>)
      ensures var kept := Keep(modellist, (m: Model) => m.r == r && m.l == l && m.z == z);
        |pts| == |kept|
        && forall k :: 0 <= k < |pts| ==>
             pts[k] == MCPoint(kept[k].o, kept[k].total, kept[k].passed)
    {
      var sel := (m: Model) => m.r == r && m.l == l && m.z == z;
      pts := [];
      ghost var kept: seq<Model> := [];
      var i := 0;
      while i < |modellist|
        invariant 0 <= i <= |modellist|
        invariant kept == Keep(modellist[..i], sel)
        invariant |pts| == |kept|
        invariant forall k :: 0 <= k < |pts| ==>
          pts[k] == MCPoint(kept[k].o, kept[k].total, kept[k].passed)
      {
        assert modellist[..i + 1][..i] == modellist[..i];
        var m := modellist[i];
        if sel(m) {
          pts := pts + [MCPoint(m.o, m.total, m.passed)];
          kept := kept + [m];
        }
        i := i + 1;
      }
      assert modellist[..i] == modellist;
    }
  }
}

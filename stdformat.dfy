/** The standard row-oriented data file (Common/src/StdFormat.cc): every line
    holds time, detector id, gantry x/y/z, LED bias, LED and SiPM temperatures
    followed by any number of data columns. The file is given as its lines,
    each already split into numeric tokens. */
module StdData {
  import opened Seqs

  datatype Row = Row(time: real, id: int, x: real, y: real, z: real,
                     bias: real, ledtemp: real, sipmtemp: real,
                     data: seq<real>)

  /** The `k`-th token of a line, or 0.0 where the line is too short (the C++
      leaves such fields indeterminate; the model fixes them to 0). */
  function Token(tokens: seq<real>, k: nat): real
  {
    if k < |tokens| then tokens[k] else 0.0
  }

  /** One line becomes one row: the first eight tokens fill the fixed fields
      in order, every further token is appended to `data`. */
  function ParseRow(tokens: seq<real>): (r: Row)
    ensures |tokens| >= 8 ==>
      [r.time, r.x, r.y, r.z, r.bias, r.ledtemp, r.sipmtemp]
        == [tokens[0], tokens[2], tokens[3], tokens[4], tokens[5], tokens[6], tokens[7]]
      && r.id == tokens[1].Floor
      && tokens == tokens[..8] + r.data
    ensures |tokens| <= 8 ==> r.data == []
  {
    Row(Token(tokens, 0), Token(tokens, 1).Floor, Token(tokens, 2), Token(tokens, 3),
        Token(tokens, 4), Token(tokens, 5), Token(tokens, 6), Token(tokens, 7),
        if |tokens| > 8 then tokens[8..] else [])
  }

  /** The default selector: accepts every row. */
  predicate NoSelect(r: Row)
  {
    true
  }

  /** Total number of data entries of the rows `sel` accepts. */
  function DataCount(rows: seq<Row>, sel: Row -> bool): nat
  {
    if rows == [] then 0
    else DataCount(rows[..|rows| - 1], sel)
         + (if sel(rows[|rows| - 1]) then |rows[|rows| - 1].data| else 0)
  }

  /** The data entries of the rows `sel` accepts, concatenated in order. */
  function Concat(rows: seq<Row>, sel: Row -> bool): seq<real>
  {
    if rows == [] then []
    else Concat(rows[..|rows| - 1], sel)
         + (if sel(rows[|rows| - 1]) then rows[|rows| - 1].data else [])
  }

  lemma {:induction false} ConcatLength(rows: seq<Row>, sel: Row -> bool)
    ensures |Concat(rows, sel)| == DataCount(rows, sel)
  {
    if rows != [] {
      ConcatLength(rows[..|rows| - 1], sel);
    }
  }

  class StdFormat {
    var rows: seq<Row>

    /** Reading a file: one row per line, in file order. */
    constructor (lines: seq<seq<real>>)
      ensures |rows| == |lines|
      ensures forall i :: 0 <= i < |lines| ==> rows[i] == ParseRow(lines[i])
    {
      var acc: seq<Row> := [];
      var i := 0;
      while i < |lines|
        invariant 0 <= i <= |lines|
        invariant |acc| == i
        invariant forall k :: 0 <= k < i ==> acc[k] == ParseRow(lines[k])
      {
        acc := acc + [ParseRow(lines[i])];
        i := i + 1;
      }
      rows := acc;
    }

    /** The bare container that `MakeReduced` fills. */
    constructor Empty()
      ensures rows == []
    {
      rows := [];
    }

    /** The column accessor generated by the `COLUMN` macro: the field `get`
        of every row `selector` accepts, in file order. */
    method Column<T>(get: Row -> T, selector: Row -> bool) returns (ans: seq<T>)
      ensures ans == Select(rows, get, selector)
    {
      ans := [];
      var i := 0;
      while i < |rows|
        invariant 0 <= i <= |rows|
        invariant ans == Select(rows[..i], get, selector)
      {
        assert rows[..i + 1][..i] == rows[..i];
        if selector(rows[i]) {
          ans := ans + [get(rows[i])];
        }
        i := i + 1;
      }
      assert rows[..i] == rows;
    }

    method Time(selector: Row -> bool) returns (ans: seq<real>)
      ensures ans == Select(rows, (r: Row) => r.time, selector)
    {
      ans := Column((r: Row) => r.time, selector);
    }

    method DetId(selector: Row -> bool) returns (ans: seq<int>)
      ensures ans == Select(rows, (r: Row) => r.id, selector)
    {
      ans := Column((r: Row) => r.id, selector);
    }

    method X(selector: Row -> bool) returns (ans: seq<real>)
      ensures ans == Select(rows, (r: Row) => r.x, selector)
    {
      ans := Column((r: Row) => r.x, selector);
    }

    method Y(selector: Row -> bool) returns (ans: seq<real>)
      ensures ans == Select(rows, (r: Row) => r.y, selector)
    {
      ans := Column((r: Row) => r.y, selector);
    }

    method Z(selector: Row -> bool) returns (ans: seq<real>)
      ensures ans == Select(rows, (r: Row) => r.z, selector)
    {
      ans := Column((r: Row) => r.z, selector);
    }

    method Bias(selector: Row -> bool) returns (ans: seq<real>)
      ensures ans == Select(rows, (r: Row) => r.bias, selector)
    {
      ans := Column((r: Row) => r.bias, selector);
    }

    method LedTemp(selector: Row -> bool) returns (ans: seq<real>)
      ensures ans == Select(rows, (r: Row) => r.ledtemp, selector)
    {
      ans := Column((r: Row) => r.ledtemp, selector);
    }

    method SiPMTemp(selector: Row -> bool) returns (ans: seq<real>)
      ensures ans == Select(rows, (r: Row) => r.sipmtemp, selector)
    {
      ans := Column((r: Row) => r.sipmtemp, selector);
    }

    /** Data column `col` of the selected rows; `row.data[col]` is unchecked in
        the C++, so every selected row must have that column. */
    method DataCol(col: nat, selector: Row -> bool) returns (ans: seq<real>)
      requires forall r :: r in rows && selector(r) ==> col < |r.data|
      ensures |ans| == |Keep(rows, selector)|
      ensures forall k :: 0 <= k < |ans| ==>
        col < |Keep(rows, selector)[k].data| && ans[k] == Keep(rows, selector)[k].data[col]
    {
      ans := [];
      ghost var kept: seq<Row> := [];
      var i := 0;
      while i < |rows|
        invariant 0 <= i <= |rows|
        invariant kept == Keep(rows[..i], selector)
        invariant |ans| == |kept|
        invariant forall k :: 0 <= k < |ans| ==> col < |kept[k].data| && ans[k] == kept[k].data[col]
      {
        assert rows[..i + 1][..i] == rows[..i];
        if selector(rows[i]) {
          ans := ans + [rows[i].data[col]];
          kept := kept + [rows[i]];
        }
        i := i + 1;
      }
      assert rows[..i] == rows;
    }

    /** Every data entry of the selected rows, row after row. */
    method DataAll(selector: Row -> bool) returns (ans: seq<real>)
      ensures ans == Concat(rows, selector)
      ensures |ans| == DataCount(rows, selector)
    {
      ans := [];
      var i := 0;
      while i < |rows|
        invariant 0 <= i <= |rows|
        invariant ans == Concat(rows[..i], selector)
      {
        assert rows[..i + 1][..i] == rows[..i];
        if selector(rows[i]) {
          ans := ans + rows[i].data;
        }
        i := i + 1;
      }
      assert rows[..i] == rows;
      ConcatLength(rows, selector);
    }

    /** A new container holding exactly the selected rows, in order; this one
        is left as it was. */
    method MakeReduced(selector: Row -> bool) returns (ans: StdFormat)
      ensures fresh(ans)
      ensures ans.rows == Keep(rows, selector)
      ensures rows == old(rows)
    {
      ans := new StdFormat.Empty();
      var i := 0;
      while i < |rows|
        invariant 0 <= i <= |rows|
        invariant ans.rows == Keep(rows[..i], selector)
      {
        assert rows[..i + 1][..i] == rows[..i];
        if selector(rows[i]) {
          ans.rows := ans.rows + [rows[i]];
        }
        i := i + 1;
      }
      assert rows[..i] == rows;
    }
  }

  /** With `NoSelect` a column has one entry per row, the row's field. */
  lemma ColumnNoSelect<T>(rows: seq<Row>, get: Row -> T)
    ensures |Select(rows, get, NoSelect)| == |rows|
    ensures forall i :: 0 <= i < |rows| ==> Select(rows, get, NoSelect)[i] == get(rows[i])
  {
    SelectAll(rows, get, NoSelect);
  }

  /** A column of the reduced set (read with `NoSelect`) equals the column of
      the original read with the reducing selector. */
  lemma ColumnOfReduced<T>(rows: seq<Row>, sel: Row -> bool, get: Row -> T)
    ensures Select(Keep(rows, sel), get, NoSelect) == Select(rows, get, sel)
  {
    SelectOfKeep(rows, sel, get, NoSelect, sel);
  }
}

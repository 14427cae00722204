/**
 * Result tables as the query adapter and the statistics see them: a list of
 * named columns over a list of rows, in the way a pandas DataFrame is used by
 * app.py (select columns by name, rename them, stack result chunks).
 */
module Frames {

  /** One cell. `Null` is the missing value pandas writes when result chunks
      with different columns are stacked. */
  datatype Cell = Num(x: real) | Time(instant: int) | Text(s: string) | Null

  datatype Frame = Frame(columns: seq<string>, rows: seq<seq<Cell>>)

  /** `pd.DataFrame()`: no columns and no rows. */
  const EmptyFrame: Frame := Frame([], [])

  /** pandas' `DataFrame.empty`: either axis has length zero. */
  predicate IsEmpty(f: Frame) {
    |f.rows| == 0 || |f.columns| == 0
  }

  /** Position of the first column called `name`, or `|columns|` when there is none. */
  function IndexOf(columns: seq<string>, name: string): (k: nat)
    ensures k <= |columns|
    ensures k < |columns| <==> name in columns
    ensures k < |columns| ==> columns[k] == name
    ensures name !in columns[..k]
  {
    if |columns| == 0 then 0
    else if columns[0] == name then 0
    else 1 + IndexOf(columns[1..], name)
  }

  /** The cell of `row` under the column `name`; `Null` when there is no such column. */
  function At(columns: seq<string>, row: seq<Cell>, name: string): Cell {
    var k := IndexOf(columns, name);
    if k < |columns| && k < |row| then row[k] else Null
  }

  /** A row laid out again under the columns `target`, looked up by name. */
  function Reindex(columns: seq<string>, row: seq<Cell>, target: seq<string>): (r: seq<Cell>)
    ensures |r| == |target|
    ensures forall j :: 0 <= j < |target| ==> r[j] == At(columns, row, target[j])
  {
    seq(|target|, j requires 0 <= j < |target| => At(columns, row, target[j]))
  }

  /** Every row of `rows` laid out under `target`, in the same order. */
  function ReindexRows(columns: seq<string>, rows: seq<seq<Cell>>, target: seq<string>): (r: seq<seq<Cell>>)
    ensures |r| == |rows|
    ensures forall i :: 0 <= i < |rows| ==> r[i] == Reindex(columns, rows[i], target)
  {
    if |rows| == 0 then []
    else [Reindex(columns, rows[0], target)] + ReindexRows(columns, rows[1..], target)
  }

  /** `frame[names]`: the columns `names`, selected by name, over every row. */
  function Project(f: Frame, names: seq<string>): (r: Frame)
    ensures r.columns == names && |r.rows| == |f.rows|
    ensures forall i, j :: 0 <= i < |f.rows| && 0 <= j < |names| ==>
      |r.rows[i]| == |names| && r.rows[i][j] == At(f.columns, f.rows[i], names[j])
  {
    Frame(names, ReindexRows(f.columns, f.rows, names))
  }

  /** `frame.rename(columns=mapping)`: the columns found in `mapping` get their new names. */
  function Rename(f: Frame, mapping: map<string, string>): (r: Frame)
    ensures |r.columns| == |f.columns| && r.rows == f.rows
    ensures forall j :: 0 <= j < |f.columns| ==>
      r.columns[j] == (if f.columns[j] in mapping then mapping[f.columns[j]] else f.columns[j])
  {
    Frame(seq(|f.columns|, j requires 0 <= j < |f.columns| =>
                if f.columns[j] in mapping then mapping[f.columns[j]] else f.columns[j]),
          f.rows)
  }

  /** `acc` followed by the columns of `more` that are not yet in it, in their order. */
  function Extend(acc: seq<string>, more: seq<string>): (r: seq<string>)
    ensures |acc| <= |r| && r[..|acc|] == acc
    ensures forall c :: c in r <==> c in acc || c in more
    decreases |more|
  {
    if |more| == 0 then acc
    else
      var next := if more[0] in acc then acc else acc + [more[0]];
      var r := Extend(next, more[1..]);
      assert r[..|acc|] == next[..|acc|] by {
        assert r[..|acc|] == r[..|next|][..|acc|];
      }
      r
  }

  /** The columns of stacked chunks: every column of every chunk, in order of first appearance. */
  function UnionColumns(chunks: seq<Frame>): (r: seq<string>)
    ensures forall c :: c in r <==> exists k :: 0 <= k < |chunks| && c in chunks[k].columns
  {
    if |chunks| == 0 then []
    else
      Extend(chunks[0].columns, UnionColumns(chunks[1..]))
  }

  /** The rows of the chunks laid out under `columns`, chunk after chunk. */
  function Stack(chunks: seq<Frame>, columns: seq<string>): seq<seq<Cell>> {
    if |chunks| == 0 then []
    else ReindexRows(chunks[0].columns, chunks[0].rows, columns) + Stack(chunks[1..], columns)
  }

  /** `pd.concat(chunks)`: the union of the columns over the rows of every chunk, in chunk order. */
  function Concat(chunks: seq<Frame>): Frame {
    var columns := UnionColumns(chunks);
    Frame(columns, Stack(chunks, columns))
  }

  /** Each chunk projected on `names` by itself, the rows put one chunk after another. */
  function ProjectedRows(chunks: seq<Frame>, names: seq<string>): seq<seq<Cell>> {
    if |chunks| == 0 then []
    else Project(chunks[0], names).rows + ProjectedRows(chunks[1..], names)
  }

  /** Looking a column up in a reindexed row finds the original cell. */
  lemma AtReindex(columns: seq<string>, row: seq<Cell>, target: seq<string>, name: string)
    requires name in target
    ensures At(target, Reindex(columns, row, target), name) == At(columns, row, name)
  {
    var k := IndexOf(target, name);
    assert Reindex(columns, row, target)[k] == At(columns, row, target[k]);
  }

  /** Reindexing through an intermediate layout that has every wanted column changes nothing. */
  lemma ReindexTwice(columns: seq<string>, row: seq<Cell>, mid: seq<string>, names: seq<string>)
    requires forall n :: n in names ==> n in mid
    ensures Reindex(mid, Reindex(columns, row, mid), names) == Reindex(columns, row, names)
  {
    forall j | 0 <= j < |names|
      ensures Reindex(mid, Reindex(columns, row, mid), names)[j] == Reindex(columns, row, names)[j]
    {
      AtReindex(columns, row, mid, names[j]);
    }
  }

  lemma {:induction false} ReindexRowsTwice(columns: seq<string>, rows: seq<seq<Cell>>, mid: seq<string>, names: seq<string>)
    requires forall n :: n in names ==> n in mid
    ensures ReindexRows(mid, ReindexRows(columns, rows, mid), names) == ReindexRows(columns, rows, names)
  {
    if |rows| > 0 {
      ReindexTwice(columns, rows[0], mid, names);
      ReindexRowsTwice(columns, rows[1..], mid, names);
      var inner := ReindexRows(columns, rows, mid);
      assert inner[1..] == ReindexRows(columns, rows[1..], mid);
    }
  }

  lemma {:induction false} ReindexRowsAppend(columns: seq<string>, a: seq<seq<Cell>>, b: seq<seq<Cell>>, names: seq<string>)
    ensures ReindexRows(columns, a + b, names) == ReindexRows(columns, a, names) + ReindexRows(columns, b, names)
  {
    if |a| > 0 {
      assert (a + b)[1..] == a[1..] + b;
      ReindexRowsAppend(columns, a[1..], b, names);
    }
  }

  /** Projecting stacked rows is stacking the projection of each chunk. */
  lemma {:induction false} StackThenProject(chunks: seq<Frame>, columns: seq<string>, names: seq<string>)
    requires forall n :: n in names ==> n in columns
    ensures ReindexRows(columns, Stack(chunks, columns), names) == ProjectedRows(chunks, names)
  {
    if |chunks| > 0 {
      var first := ReindexRows(chunks[0].columns, chunks[0].rows, columns);
      ReindexRowsAppend(columns, first, Stack(chunks[1..], columns), names);
      ReindexRowsTwice(chunks[0].columns, chunks[0].rows, columns, names);
      StackThenProject(chunks[1..], columns, names);
    }
  }

  /** Selecting columns on `pd.concat(chunks)` gives every chunk's rows, projected, in chunk order. */
  lemma ConcatThenProject(chunks: seq<Frame>, names: seq<string>)
    requires forall n :: n in names ==> n in UnionColumns(chunks)
    ensures Project(Concat(chunks), names).rows == ProjectedRows(chunks, names)
  {
    StackThenProject(chunks, UnionColumns(chunks), names);
  }
}

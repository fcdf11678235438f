/**
 * What reading back gives after an insert: the Results the insert stores for
 * a list or a matrix of scalars are read back into the same list or matrix.
 */
module CollectionRoundTrip {
  import opened Wrappers
  import opened ResultData
  import Decimal
  import opened Collections
  import opened CollectionRebuild

  /** Every element of `data` has exactly type int, float or str. */
  predicate AllScalar(data: seq<PyValue>) {
    forall i :: 0 <= i < |data| ==> IsScalar(data[i])
  }

  /** The list a reader should give for `data`. */
  function Values(data: seq<PyValue>): (items: seq<Option<Scalar>>)
    requires AllScalar(data)
    ensures |items| == |data|
  {
    seq(|data|, i requires 0 <= i < |data| => Some(ScalarOf(data[i])))
  }

  /** Selecting from `a + b` selects from `a`, then from `b`. */
  lemma {:induction false} SelectAppend(a: seq<Row>, b: seq<Row>, kind: string, step: int)
    ensures Select(a + b, kind, step) == Select(a, kind, step) + Select(b, kind, step)
  {
    if b == [] {
      assert a + b == a;
    } else {
      var b0 := b[..|b| - 1];
      assert (a + b)[..|a + b| - 1] == a + b0;
      assert (a + b)[|a + b| - 1] == b[|b| - 1];
      SelectAppend(a, b0, kind, step);
    }
  }

  /** Rows that all belong to the (kind, step) pair are all selected, in order. */
  lemma {:induction false} SelectOwn(rows: seq<Row>, kind: string, step: int)
    requires forall i :: 0 <= i < |rows| ==> rows[i].kind == kind && rows[i].step == step
    ensures Select(rows, kind, step) == rows
  {
    if rows != [] {
      var init := rows[..|rows| - 1];
      SelectOwn(init, kind, step);
      assert init + [rows[|rows| - 1]] == rows;
    }
  }

  /** The rows an insert stores all belong to its (kind, step) pair, so selecting them keeps them all, in order. */
  lemma SelectStored(kind: string, step: int, cells: seq<Cell>)
    requires Accepted(cells)
    ensures Select(StoredRows(kind, step, cells), kind, step) == StoredRows(kind, step, cells)
  {
    SelectOwn(StoredRows(kind, step, cells), kind, step);
  }

  /** When every row of `rs` appends its value to the list read so far, the reader gives the list of those values. */
  lemma {:induction false} ListAppends(rs: seq<Row>, expected: seq<Option<Scalar>>, k: nat)
    requires k <= |rs| && k <= |expected|
    requires forall i :: 0 <= i < k ==> Take("List", ListOf(expected[..i]), rs[i]) == Success(ListOf(expected[..i + 1]))
    ensures Fold("List", rs[..k]) == Success(ListOf(expected[..k]))
  {
    if k == 0 {
      assert rs[..0] == [];
    } else {
      ListAppends(rs, expected, k - 1);
      FoldNext("List", rs, k - 1);
    }
  }

  /** A row tagged as list element at 0-based `i` with value `v` puts `v` there. */
  lemma TakeListItem(acc: seq<Option<Scalar>>, row: Row, i: nat, v: Option<Scalar>)
    requires "kind" in row.properties && row.properties["kind"] == "List"
    requires "indexing" in row.properties && row.properties["indexing"] == "1-based"
    requires Position(row, "index") == Success(i)
    requires Value(row) == Success(v)
    ensures Take("List", ListOf(acc), row) == Success(ListOf(Put(acc, i, v)))
  {
  }

  /** The keys the reader looks up in the properties of a list element. */
  lemma ListPropertiesKeys(i: nat, n: nat, t: string)
    ensures var p := ListProperties(i, n, t);
      && "kind" in p && p["kind"] == "List"
      && "indexing" in p && p["indexing"] == "1-based"
      && "index" in p && p["index"] == Decimal.IntToString(i + 1)
  {
  }

  /** The row the insert stores for list element `i` reads back, in a list, as its value at position `i`. */
  lemma ListRowReads(kind: string, step: int, t: string, data: seq<PyValue>, i: nat, acc: seq<Option<Scalar>>)
    requires AllScalar(data) && i < |data| && |acc| == i
    ensures IsScalar(ListCells(t, data)[i].value)
    ensures Take("List", ListOf(acc), StoredRow(kind, step, ListCells(t, data)[i])) == Success(ListOf(acc + [Some(ScalarOf(data[i]))]))
  {
    var row := StoredRow(kind, step, ListCells(t, data)[i]);
    assert row.properties == ListProperties(i, |data|, t);
    ListPropertiesKeys(i, |data|, t);
    PositionOfWritten(row, "index", i);
    var v := Some(ScalarOf(data[i]));
    ValueOfStored(row, ScalarOf(data[i]));
    TakeListItem(acc, row, i, v);
    assert Put(acc, i, v) == acc + [v];
  }

  /** A list of scalars: the setter accepts every cell of it. */
  lemma ListAccepted(t: string, data: seq<PyValue>)
    requires AllScalar(data)
    ensures Accepted(ListCells(t, data))
  {
  }

  /** The stored row of element `i` appends its value to the first `i` values. */
  lemma ListItemTurn(kind: string, step: int, t: string, data: seq<PyValue>, rs: seq<Row>, expected: seq<Option<Scalar>>, i: nat)
    requires AllScalar(data) && i < |data| && Accepted(ListCells(t, data))
    requires rs == StoredRows(kind, step, ListCells(t, data)) && expected == Values(data)
    ensures Take("List", ListOf(expected[..i]), rs[i]) == Success(ListOf(expected[..i + 1]))
  {
    StoredAt(kind, step, ListCells(t, data), i, ListCells(t, data)[i]);
    ListRowReads(kind, step, t, data, i, expected[..i]);
    assert expected[..i] + [expected[i]] == expected[..i + 1];
  }

  /** The reader's fold over the rows stored for a list of scalars gives that list. */
  lemma ListFold(kind: string, step: int, t: string, data: seq<PyValue>)
    requires AllScalar(data)
    ensures Accepted(ListCells(t, data))
    ensures Fold("List", StoredRows(kind, step, ListCells(t, data))) == Success(ListOf(Values(data)))
  {
    ListAccepted(t, data);
    var rs := StoredRows(kind, step, ListCells(t, data));
    var expected := Values(data);
    forall i | 0 <= i < |data|
      ensures Take("List", ListOf(expected[..i]), rs[i]) == Success(ListOf(expected[..i + 1]))
    {
      ListItemTurn(kind, step, t, data, rs, expected, i);
    }
    ListAppends(rs, expected, |data|);
    assert rs[..|data|] == rs && expected[..|data|] == expected;
  }

  /** A list of scalars, stored by the list branch, reads back as the same list. */
  lemma ListRoundTrip(kind: string, step: int, t: string, data: seq<PyValue>)
    requires |data| > 0 && AllScalar(data)
    ensures Accepted(ListCells(t, data))
    ensures Rebuild(StoredRows(kind, step, ListCells(t, data))) == Success(ListOf(Values(data)))
  {
    ListFold(kind, step, t, data);
    var rs := StoredRows(kind, step, ListCells(t, data));
    assert rs[0].properties == ListProperties(0, |data|, t);
    ListPropertiesKeys(0, |data|, t);
    RebuildFold(rs, "List");
  }


  /** Every element of every row has exactly type int, float or str. */
  predicate GridScalar(m: seq<seq<PyValue>>) {
    forall r :: 0 <= r < |m| ==> AllScalar(m[r])
  }

  /** The matrix a reader should give for `m`, row by row. */
  function Grid(m: seq<seq<PyValue>>): (g: seq<seq<Option<Scalar>>>)
    requires GridScalar(m)
    ensures |g| == |m|
  {
    seq(|m|, r requires 0 <= r < |m| && GridScalar(m) => Values(m[r]))
  }

  /** The first `n` rows of `m` without the empty rows that end them. */
  function LastNonEmpty(m: seq<seq<PyValue>>, n: nat): (l: nat)
    requires n <= |m|
    ensures l <= n
    ensures forall i :: l <= i < n ==> m[i] == []
    ensures l > 0 ==> m[l - 1] != []
  {
    if n == 0 then 0 else if |m[n - 1]| > 0 then n else LastNonEmpty(m, n - 1)
  }

  /** What the reader holds after the cells of the rows before `r` and the first `c` cells of row `r`. */
  function Partial(m: seq<seq<PyValue>>, r: nat, c: nat): seq<seq<Option<Scalar>>>
    requires GridScalar(m) && r <= |m| && (r < |m| ==> c <= |m[r]|)
  {
    if c == 0 || r == |m| then Grid(m)[..LastNonEmpty(m, r)] else Grid(m)[..r] + [Grid(m)[r][..c]]
  }

  lemma {:induction false} MatrixAccepted(t: string, m: seq<seq<PyValue>>, n: nat, nCols: nat)
    requires GridScalar(m) && n <= |m|
    ensures Accepted(MatrixCells(t, m, n, nCols))
  {
    if n > 0 {
      MatrixAccepted(t, m, n - 1, nCols);
      assert AllScalar(m[n - 1]);
    }
  }

  /** A row tagged as a matrix element at 0-based (`r`, `c`) with value `v` puts `v` there. */
  lemma TakeMatrixCell(acc: seq<seq<Option<Scalar>>>, row: Row, r: nat, c: nat, v: Option<Scalar>)
    requires "kind" in row.properties && row.properties["kind"] == "Matrix"
    requires "indexing" in row.properties && row.properties["indexing"] == "1-based"
    requires Position(row, "row") == Success(r) && Position(row, "column") == Success(c)
    requires Value(row) == Success(v)
    ensures Take("Matrix", MatrixOf(acc), row) == Success(MatrixOf(PutCell(acc, r, c, v)))
  {
  }

  /** The keys the reader looks up in the properties of a matrix element. */
  lemma MatrixPropertiesKeys(r: nat, c: nat, nRows: nat, nCols: nat, t: string)
    ensures var p := MatrixProperties(r, c, nRows, nCols, t);
      && "kind" in p && p["kind"] == "Matrix"
      && "indexing" in p && p["indexing"] == "1-based"
      && "row" in p && p["row"] == Decimal.IntToString(r + 1)
      && "column" in p && p["column"] == Decimal.IntToString(c + 1)
  {
  }

  /** The row the insert stores for the element (`r`, `c`) puts its value at (`r`, `c`) of what the reader holds. */
  lemma MatrixRowTake(kind: string, step: int, t: string, value: PyValue, r: nat, c: nat, nRows: nat, nCols: nat,
                      acc: seq<seq<Option<Scalar>>>)
    requires IsScalar(value)
    ensures Encode(value).Success?
    ensures Take("Matrix", MatrixOf(acc), StoredRow(kind, step, Cell(MatrixProperties(r, c, nRows, nCols, t), value)))
      == Success(MatrixOf(PutCell(acc, r, c, Some(ScalarOf(value)))))
  {
    var row := StoredRow(kind, step, Cell(MatrixProperties(r, c, nRows, nCols, t), value));
    MatrixPropertiesKeys(r, c, nRows, nCols, t);
    PositionOfWritten(row, "row", r);
    PositionOfWritten(row, "column", c);
    ValueOfStored(row, ScalarOf(value));
    TakeMatrixCell(acc, row, r, c, Some(ScalarOf(value)));
  }

  /** Putting the element (`r`, `c`) extends row `r` of what the reader holds by that element. */
  lemma PartialGrows(m: seq<seq<PyValue>>, r: nat, c: nat)
    requires GridScalar(m) && r < |m| && c < |m[r]|
    ensures PutCell(Partial(m, r, c), r, c, Grid(m)[r][c]) == Partial(m, r, c + 1)
  {
    var g := Grid(m);
    var v := g[r][c];
    var out := PutCell(Partial(m, r, c), r, c, v);
    if c == 0 {
      var l := LastNonEmpty(m, r);
      forall i | l <= i < r
        ensures g[i] == []
      {
        assert m[i] == [];
      }
      assert out[r] == [v] == g[r][..1];
      assert out == g[..r] + [g[r][..1]];
    } else {
      assert out[r] == g[r][..c + 1];
      assert out == g[..r] + [g[r][..c + 1]];
    }
  }

  /** After the whole of row `r`, the reader holds the rows before `r + 1`, less the empty ones at the end. */
  lemma PartialNextRow(m: seq<seq<PyValue>>, r: nat)
    requires GridScalar(m) && r < |m|
    ensures Partial(m, r, |m[r]|) == Partial(m, r + 1, 0)
  {
    var g := Grid(m);
    if |m[r]| > 0 {
      assert g[r][..|m[r]|] == g[r];
      assert g[..r] + [g[r]] == g[..r + 1];
    }
  }

  /** One turn of the reader on a matrix, as a total function. */
  function MatrixTurn(acc: Collected, row: Row): Result<Collected, RebuildError> {
    if acc.MatrixOf? then Take("Matrix", acc, row) else Failure(BadData)
  }

  /** The reader's fold from `start`, with its turn `next` a parameter. */
  function FoldBy(next: (Collected, Row) -> Result<Collected, RebuildError>, start: Collected, rs: seq<Row>): Result<Collected, RebuildError> {
    if rs == [] then Success(start)
    else
      match FoldBy(next, start, rs[..|rs| - 1])
      case Failure(e) => Failure(e)
      case Success(acc) => next(acc, rs[|rs| - 1])
  }

  /** With `MatrixTurn` as its turn, `FoldBy` is the reader's fold on a matrix. */
  lemma {:induction false} FoldByMatrix(rs: seq<Row>)
    ensures FoldBy(MatrixTurn, MatrixOf([]), rs) == Fold("Matrix", rs)
  {
    if rs != [] {
      FoldByMatrix(rs[..|rs| - 1]);
    }
  }

  /** One turn of `FoldBy`, with the states named. */
  lemma FoldByStep(next: (Collected, Row) -> Result<Collected, RebuildError>, start: Collected, rs: seq<Row>, k: nat,
                   before: Collected, after: Collected)
    requires k < |rs|
    requires FoldBy(next, start, rs[..k]) == Success(before)
    requires next(before, rs[k]) == Success(after)
    ensures FoldBy(next, start, rs[..k + 1]) == Success(after)
  {
    assert rs[..k + 1][..k] == rs[..k];
  }

  /** The stored row at `offsets[i] + j` takes the reader from state `p(i, j)` to state `p(i, j + 1)`. */
  predicate CellExtends(next: (Collected, Row) -> Result<Collected, RebuildError>, rs: seq<Row>, offsets: seq<nat>,
                        p: (nat, nat) -> Collected, i: nat, j: nat)
    requires i < |offsets|
  {
    offsets[i] + j < |rs| && next(p(i, j), rs[offsets[i] + j]) == Success(p(i, j + 1))
  }

  /** Every stored cell of row `i`, `width` of them, takes the reader one state further. */
  predicate RowExtends(next: (Collected, Row) -> Result<Collected, RebuildError>, rs: seq<Row>, offsets: seq<nat>,
                       p: (nat, nat) -> Collected, i: nat, width: nat)
    requires i < |offsets|
  {
    forall j: nat :: j < width ==> CellExtends(next, rs, offsets, p, i, j)
  }

  /** The reader's fold along row `r`: from state `p(r, 0)` at `offsets[r]`, each stored cell takes it one column further. */
  lemma {:induction false} RowAppends(next: (Collected, Row) -> Result<Collected, RebuildError>, rs: seq<Row>, offsets: seq<nat>,
                                      p: (nat, nat) -> Collected, r: nat, c: nat)
    requires r < |offsets| && offsets[r] <= |rs|
    requires FoldBy(next, p(0, 0), rs[..offsets[r]]) == Success(p(r, 0))
    requires RowExtends(next, rs, offsets, p, r, c)
    ensures offsets[r] + c <= |rs|
    ensures FoldBy(next, p(0, 0), rs[..offsets[r] + c]) == Success(p(r, c))
  {
    if c > 0 {
      assert RowExtends(next, rs, offsets, p, r, c - 1);
      RowAppends(next, rs, offsets, p, r, c - 1);
      assert CellExtends(next, rs, offsets, p, r, c - 1);
      FoldByStep(next, p(0, 0), rs, offsets[r] + c - 1, p(r, c - 1), p(r, c));
    }
  }

  /**
   * The reader's fold over the rows of a matrix whose row `i` has
   * `widths[i]` elements, stored from `offsets[i]` on: when each stored row
   * takes the reader one state further, the fold of the cells of the rows
   * before `r` gives the state `p(r, 0)`.
   */
  lemma {:induction false} MatrixAppends(next: (Collected, Row) -> Result<Collected, RebuildError>, rs: seq<Row>, widths: seq<nat>,
                                         offsets: seq<nat>, p: (nat, nat) -> Collected, r: nat)
    requires |offsets| == |widths| + 1 && offsets[0] == 0
    requires forall i {:trigger widths[i]} :: 0 <= i < |widths| ==> offsets[i + 1] == offsets[i] + widths[i] && p(i, widths[i]) == p(i + 1, 0)
    requires forall i: nat :: i < |widths| ==> RowExtends(next, rs, offsets, p, i, widths[i])
    requires r <= |widths|
    ensures offsets[r] <= |rs|
    ensures FoldBy(next, p(0, 0), rs[..offsets[r]]) == Success(p(r, 0))
  {
    if r > 0 {
      MatrixAppends(next, rs, widths, offsets, p, r - 1);
      RowAppends(next, rs, offsets, p, r - 1, widths[r - 1]);
    } else {
      assert rs[..0] == [];
    }
  }

  lemma MatrixCellsLength(t: string, m: seq<seq<PyValue>>, n: nat, nCols: nat)
    requires 0 < n <= |m|
    ensures |MatrixCells(t, m, n, nCols)| == |MatrixCells(t, m, n - 1, nCols)| + |m[n - 1]|
  {
  }

  /** The lengths of the rows of `m`. */
  function Widths(m: seq<seq<PyValue>>): (w: seq<nat>)
    ensures |w| == |m|
  {
    seq(|m|, i requires 0 <= i < |m| => |m[i]|)
  }

  /** Where the cells of each row of `m` start among the cells the insert stores. */
  function Offsets(t: string, m: seq<seq<PyValue>>, nCols: nat): (o: seq<nat>)
    ensures |o| == |m| + 1
  {
    seq(|m| + 1, r requires 0 <= r <= |m| => |MatrixCells(t, m, r, nCols)|)
  }

  /** `Partial` as a total function of (`r`, `c`). */
  function States(m: seq<seq<PyValue>>): (nat, nat) -> Collected {
    (r: nat, c: nat) => State(m, r, c)
  }

  /** `Partial` as a reader's state, for every (`r`, `c`). */
  function State(m: seq<seq<PyValue>>, r: nat, c: nat): Collected {
    MatrixOf(if GridScalar(m) && r <= |m| && (r < |m| ==> c <= |m[r]|) then Partial(m, r, c) else [])
  }

  lemma OffsetsAndStates(t: string, m: seq<seq<PyValue>>, nCols: nat)
    requires GridScalar(m)
    ensures Offsets(t, m, nCols)[0] == 0 && States(m)(0, 0) == MatrixOf([])
    ensures forall i {:trigger Widths(m)[i]} :: 0 <= i < |m| ==>
      Offsets(t, m, nCols)[i + 1] == Offsets(t, m, nCols)[i] + Widths(m)[i] && States(m)(i, Widths(m)[i]) == States(m)(i + 1, 0)
  {
    forall i | 0 <= i < |m|
      ensures Offsets(t, m, nCols)[i + 1] == Offsets(t, m, nCols)[i] + Widths(m)[i]
      ensures States(m)(i, Widths(m)[i]) == States(m)(i + 1, 0)
    {
      MatrixCellsLength(t, m, i + 1, nCols);
      PartialNextRow(m, i);
    }
  }

  /**
   * The row the insert stores for element (`i`, `j`) of a matrix of scalars,
   * wherever it sits, takes the reader from `Partial(m, i, j)` to
   * `Partial(m, i, j + 1)`.
   */
  lemma CellTurn(kind: string, step: int, t: string, m: seq<seq<PyValue>>, nCols: nat, rs: seq<Row>, offsets: seq<nat>, i: nat, j: nat)
    requires GridScalar(m) && i < |m| && j < |m[i]|
    requires i < |offsets| && offsets[i] + j < |rs|
    requires IsScalar(m[i][j])
    requires rs[offsets[i] + j] == StoredRow(kind, step, Cell(MatrixProperties(i, j, |m|, nCols, t), m[i][j]))
    ensures CellExtends(MatrixTurn, rs, offsets, States(m), i, j)
  {
    CellStep(kind, step, t, m, nCols, i, j);
  }

  /** The stored row of element (`i`, `j`) takes the reader from state (`i`, `j`) to state (`i`, `j + 1`). */
  lemma CellStep(kind: string, step: int, t: string, m: seq<seq<PyValue>>, nCols: nat, i: nat, j: nat)
    requires GridScalar(m) && i < |m| && j < |m[i]| && IsScalar(m[i][j])
    ensures MatrixTurn(States(m)(i, j), StoredRow(kind, step, Cell(MatrixProperties(i, j, |m|, nCols, t), m[i][j])))
      == Success(States(m)(i, j + 1))
  {
    assert AllScalar(m[i]);
    MatrixRowTake(kind, step, t, m[i][j], i, j, |m|, nCols, Partial(m, i, j));
    assert Grid(m)[i][j] == Some(ScalarOf(m[i][j]));
    PartialGrows(m, i, j);
    StatesAt(m, i, j);
    StatesAt(m, i, j + 1);
  }

  /** The stored row for element (`i`, `j`) of a matrix of scalars takes the reader one state further. */
  lemma StoredCellExtends(kind: string, step: int, t: string, m: seq<seq<PyValue>>, nCols: nat, i: nat, j: nat)
    requires GridScalar(m)
    requires i < |m| && j < |m[i]|
    ensures Accepted(MatrixCells(t, m, |m|, nCols))
    ensures i < |Offsets(t, m, nCols)|
    ensures CellExtends(MatrixTurn, StoredRows(kind, step, MatrixCells(t, m, |m|, nCols)), Offsets(t, m, nCols), States(m), i, j)
  {
    var cells := MatrixCells(t, m, |m|, nCols);
    MatrixAccepted(t, m, |m|, nCols);
    MatrixCellAt(t, m, |m|, nCols, i, j);
    OffsetsAt(t, m, nCols, i);
    StoredCellAt(kind, step, t, m, nCols, cells, Offsets(t, m, nCols), i, j);
  }

  /** The same, for any accepted cells holding element (`i`, `j`) at `offsets[i] + j`. */
  lemma StoredCellAt(kind: string, step: int, t: string, m: seq<seq<PyValue>>, nCols: nat, cells: seq<Cell>,
                     offsets: seq<nat>, i: nat, j: nat)
    requires GridScalar(m) && i < |m| && j < |m[i]|
    requires Accepted(cells) && i < |offsets| && offsets[i] + j < |cells|
    requires cells[offsets[i] + j] == Cell(MatrixProperties(i, j, |m|, nCols, t), m[i][j])
    ensures CellExtends(MatrixTurn, StoredRows(kind, step, cells), offsets, States(m), i, j)
  {
    StoredAt(kind, step, cells, offsets[i] + j, Cell(MatrixProperties(i, j, |m|, nCols, t), m[i][j]));
    CellTurn(kind, step, t, m, nCols, StoredRows(kind, step, cells), offsets, i, j);
  }

  /** The stored row at position `k` is the row of cell `k`. */
  lemma StoredAt(kind: string, step: int, cells: seq<Cell>, k: nat, cell: Cell)
    requires Accepted(cells) && k < |cells| && cells[k] == cell
    ensures IsScalar(cell.value) && StoredRows(kind, step, cells)[k] == StoredRow(kind, step, cell)
  {
  }

  lemma StatesAt(m: seq<seq<PyValue>>, i: nat, j: nat)
    requires GridScalar(m) && i < |m| && j <= |m[i]|
    ensures States(m)(i, j) == MatrixOf(Partial(m, i, j))
  {
    assert States(m)(i, j) == State(m, i, j);
  }

  lemma OffsetsAt(t: string, m: seq<seq<PyValue>>, nCols: nat, i: nat)
    requires i <= |m|
    ensures Offsets(t, m, nCols)[i] == |MatrixCells(t, m, i, nCols)|
  {
  }

  /** Every stored cell of a matrix of scalars takes the reader one state further. */
  lemma StoredCellsExtend(kind: string, step: int, t: string, m: seq<seq<PyValue>>, nCols: nat)
    requires GridScalar(m)
    ensures Accepted(MatrixCells(t, m, |m|, nCols))
    ensures forall i: nat :: i < |m| ==>
      RowExtends(MatrixTurn, StoredRows(kind, step, MatrixCells(t, m, |m|, nCols)), Offsets(t, m, nCols), States(m), i, Widths(m)[i])
  {
    MatrixAccepted(t, m, |m|, nCols);
    forall i: nat | i < |m|
      ensures RowExtends(MatrixTurn, StoredRows(kind, step, MatrixCells(t, m, |m|, nCols)), Offsets(t, m, nCols), States(m), i, Widths(m)[i])
    {
      forall j: nat | j < Widths(m)[i]
        ensures CellExtends(MatrixTurn, StoredRows(kind, step, MatrixCells(t, m, |m|, nCols)), Offsets(t, m, nCols), States(m), i, j)
      {
        StoredCellExtends(kind, step, t, m, nCols, i, j);
      }
    }
  }

  /** `MatrixAppends` over all the rows, when the rows' cells are all of `rs`. */
  lemma MatrixFoldAll(next: (Collected, Row) -> Result<Collected, RebuildError>, rs: seq<Row>, widths: seq<nat>,
                      offsets: seq<nat>, p: (nat, nat) -> Collected)
    requires |offsets| == |widths| + 1 && offsets[0] == 0 && offsets[|widths|] == |rs|
    requires forall i {:trigger widths[i]} :: 0 <= i < |widths| ==> offsets[i + 1] == offsets[i] + widths[i] && p(i, widths[i]) == p(i + 1, 0)
    requires forall i: nat :: i < |widths| ==> RowExtends(next, rs, offsets, p, i, widths[i])
    ensures FoldBy(next, p(0, 0), rs) == Success(p(|widths|, 0))
  {
    MatrixAppends(next, rs, widths, offsets, p, |widths|);
    assert rs[..|rs|] == rs;
  }

  /** The reader's fold over the rows stored for a matrix of scalars gives its rows, less the empty ones at its end. */
  lemma MatrixFold(kind: string, step: int, t: string, m: seq<seq<PyValue>>, nCols: nat)
    requires GridScalar(m)
    ensures Accepted(MatrixCells(t, m, |m|, nCols))
    ensures Fold("Matrix", StoredRows(kind, step, MatrixCells(t, m, |m|, nCols))) == Success(MatrixOf(Grid(m)[..LastNonEmpty(m, |m|)]))
  {
    StoredCellsExtend(kind, step, t, m, nCols);
    OffsetsAndStates(t, m, nCols);
    OffsetsAt(t, m, nCols, |m|);
    var rs := StoredRows(kind, step, MatrixCells(t, m, |m|, nCols));
    MatrixFoldAll(MatrixTurn, rs, Widths(m), Offsets(t, m, nCols), States(m));
    FoldByMatrix(rs);
    assert States(m)(|m|, 0) == State(m, |m|, 0);
  }

  /** The reader takes the shape from the kind of the first selected Result. */
  lemma RebuildFold(rs: seq<Row>, dataKind: string)
    requires |rs| > 0 && "kind" in rs[0].properties && rs[0].properties["kind"] == dataKind
    ensures Rebuild(rs) == Fold(dataKind, rs)
  {
  }

  /**
   * A matrix of scalars, stored by the matrix branch, reads back as the same
   * rows, except that empty rows at its end are not read back.
   */
  lemma MatrixRoundTrip(kind: string, step: int, t: string, m: seq<seq<PyValue>>)
    requires |m| > 0 && |m[0]| > 0 && GridScalar(m)
    ensures Accepted(MatrixCells(t, m, |m|, |m[0]|))
    ensures Rebuild(StoredRows(kind, step, MatrixCells(t, m, |m|, |m[0]|))) == Success(MatrixOf(Grid(m)[..LastNonEmpty(m, |m|)]))
  {
    var nCols := |m[0]|;
    MatrixFold(kind, step, t, m, nCols);
    MatrixCellAt(t, m, |m|, nCols, 0, 0);
    var rs := StoredRows(kind, step, MatrixCells(t, m, |m|, nCols));
    assert rs[0].properties == MatrixProperties(0, 0, |m|, nCols, t);
    MatrixPropertiesKeys(0, 0, |m|, nCols, t);
    RebuildFold(rs, "Matrix");
  }

  /** When the last row is not empty, the matrix reads back exactly. */
  lemma MatrixRoundTripExact(kind: string, step: int, t: string, m: seq<seq<PyValue>>)
    requires |m| > 0 && |m[0]| > 0 && |m[|m| - 1]| > 0 && GridScalar(m)
    ensures Accepted(MatrixCells(t, m, |m|, |m[0]|))
    ensures Rebuild(StoredRows(kind, step, MatrixCells(t, m, |m|, |m[0]|))) == Success(MatrixOf(Grid(m)))
  {
    MatrixRoundTrip(kind, step, t, m);
    assert Grid(m)[..|m|] == Grid(m);
  }
}

/**
 * Storing a list or a matrix of scalars as one Result row per element
 * (`insert_collection_result`) and rebuilding it from the rows of one
 * (kind, step) pair (`get_collection_result`).
 */
module Collections {
  import opened Wrappers
  import opened ResultData
  import Decimal
  import Steps

  /**
   * Python's `len(v)`: the length of a list or a string; `None` (the
   * `TypeError`) for an int, a float, a bool or a value of another type
   * without a length, which is what `PyOther` stands for here.
   */
  function Len(v: PyValue): Option<nat> {
    match v
    case PyList(items) => Some(|items|)
    case PyStr(s) => Some(|s|)
    case _ => None
  }

  /** What `v[0]`, `v[1]`, ... give: the items of a list, the one-character strings of a string. */
  function Items(v: PyValue): (items: seq<PyValue>)
    ensures Len(v).Some? ==> |items| == Len(v).value
  {
    match v
    case PyList(items) => items
    case PyStr(s) => seq(|s|, i requires 0 <= i < |s| => PyStr([s[i]]))
    case _ => []
  }

  /** `data` read as rows: `data[row][col]` is `Rows(data)[row][col]`. */
  function Rows(data: seq<PyValue>): (m: seq<seq<PyValue>>)
    ensures |m| == |data|
  {
    seq(|data|, r requires 0 <= r < |data| => Items(data[r]))
  }

  /** How many leading elements of `data` have a length: the matrix loop reaches the `TypeError` at this row. */
  function SizedRows(data: seq<PyValue>): (n: nat)
    ensures n <= |data|
    ensures forall r :: 0 <= r < n ==> Len(data[r]).Some?
    ensures n < |data| ==> Len(data[n]).None?
  {
    if data == [] || Len(data[0]).None? then 0
    else
      var n := 1 + SizedRows(data[1..]);
      assert forall r :: 1 <= r < n ==> data[r] == data[1..][r - 1];
      n
  }

  /** Why the insert stops. */
  datatype InsertError =
    | EmptyCollection        // assert nRows > 0
    | EmptyFirstRow          // assert nCols > 0
    | Refused(cause: DataError)  // the data setter raised for an element

  /** One element to store: its structural properties and its value. */
  datatype Cell = Cell(properties: map<string, string>, value: PyValue)

  /** The structural properties of the element at 0-based position `i` of a list of `n`. */
  function ListProperties(i: nat, n: nat, typeName: string): map<string, string> {
    map["kind" := "List", "indexing" := "1-based", "index" := Decimal.IntToString(i + 1),
        "original_collection_type" := typeName, "total_dimension" := Decimal.IntToString(n)]
  }

  /**
   * The structural properties of the element at 0-based (`r`, `c`) of a
   * matrix of `nRows` rows whose first row has `nCols` elements.
   */
  function MatrixProperties(r: nat, c: nat, nRows: nat, nCols: nat, typeName: string): map<string, string> {
    map["kind" := "Matrix", "indexing" := "1-based", "row" := Decimal.IntToString(r + 1),
        "column" := Decimal.IntToString(c + 1), "original_collection_type" := typeName,
        "total_dimension" := Decimal.IntToString(nRows) + "," + Decimal.IntToString(nCols)]
  }

  function ListCells(typeName: string, items: seq<PyValue>): (cells: seq<Cell>)
    ensures |cells| == |items|
  {
    seq(|items|, i requires 0 <= i < |items| => Cell(ListProperties(i, |items|, typeName), items[i]))
  }

  /** The cells of row `r`, one per element that row actually has. */
  function RowCells(typeName: string, m: seq<seq<PyValue>>, r: nat, nCols: nat): (cells: seq<Cell>)
    requires r < |m|
    ensures |cells| == |m[r]|
  {
    seq(|m[r]|, c requires 0 <= c < |m[r]| => Cell(MatrixProperties(r, c, |m|, nCols, typeName), m[r][c]))
  }

  /** The cells of the first `n` rows, row by row. */
  function MatrixCells(typeName: string, m: seq<seq<PyValue>>, n: nat, nCols: nat): seq<Cell>
    requires n <= |m|
  {
    if n == 0 then [] else MatrixCells(typeName, m, n - 1, nCols) + RowCells(typeName, m, n - 1, nCols)
  }

  /**
   * The cells the insert creates for `data`, in order, or the check that
   * refuses `data` before anything is created. When `len(data[0])` works the
   * insert takes the matrix path; if a later row has no length, the
   * `TypeError` sends it to the list path, which starts again from element 0
   * after the cells of the rows before that one.
   */
  function Cells(typeName: string, data: seq<PyValue>): Result<seq<Cell>, InsertError> {
    if |data| == 0 then Failure(EmptyCollection)
    else
      match Len(data[0])
      case None => Success(ListCells(typeName, data))
      case Some(nCols) =>
        if nCols == 0 then Failure(EmptyFirstRow)
        else
          var n := SizedRows(data);
          Success(MatrixCells(typeName, Rows(data), n, nCols) + (if n < |data| then ListCells(typeName, data) else []))
  }

  /** Every cell holds a value the data setter accepts. */
  predicate Accepted(cells: seq<Cell>) {
    forall i :: 0 <= i < |cells| ==> IsScalar(cells[i].value)
  }

  /** How many cells the insert stores before the data setter refuses one. */
  function FirstRefused(cells: seq<Cell>): (k: nat)
    ensures k <= |cells|
    ensures Accepted(cells[..k])
    ensures k < |cells| ==> !IsScalar(cells[k].value)
  {
    if cells == [] then 0
    else if !IsScalar(cells[0].value) then 0
    else
      var k := 1 + FirstRefused(cells[1..]);
      assert forall i :: 1 <= i < k ==> cells[..k][i] == cells[1..][..k - 1][i - 1];
      k
  }

  lemma {:induction false} FirstRefusedIs(cells: seq<Cell>, i: nat)
    requires i <= |cells| && Accepted(cells[..i])
    requires i < |cells| ==> !IsScalar(cells[i].value)
    ensures FirstRefused(cells) == i
  {
    if i > 0 {
      assert cells[..i][0] == cells[0];
      var tail := cells[1..][..i - 1];
      forall j | 0 <= j < |tail|
        ensures IsScalar(tail[j].value)
      {
        assert tail[j] == cells[..i][j + 1];
      }
      FirstRefusedIs(cells[1..], i - 1);
    }
  }

  /** The row a Result for `cell` becomes. */
  function StoredRow(kind: string, step: int, cell: Cell): Row
    requires IsScalar(cell.value)
  {
    Row(step, kind, Encode(cell.value).value.0, Encode(cell.value).value.1, cell.properties)
  }

  function StoredRows(kind: string, step: int, cells: seq<Cell>): (rows: seq<Row>)
    requires Accepted(cells)
    ensures |rows| == |cells|
  {
    seq(|cells|, i requires 0 <= i < |cells| => StoredRow(kind, step, cells[i]))
  }

  lemma AcceptedSnoc(cells: seq<Cell>, k: nat)
    requires k < |cells| && Accepted(cells[..k]) && IsScalar(cells[k].value)
    ensures Accepted(cells[..k + 1])
  {
    assert forall j :: 0 <= j < k ==> cells[..k + 1][j] == cells[..k][j];
  }

  /** Storing the row of cell `k` extends the stored prefix by one cell. */
  lemma StoreNext(kind: string, step: int, cells: seq<Cell>, k: nat, base: seq<Row>, results: seq<Row>, x: Row)
    requires k < |cells| && Accepted(cells[..k]) && IsScalar(cells[k].value)
    requires results == base + StoredRows(kind, step, cells[..k])
    requires x == StoredRow(kind, step, cells[k])
    ensures Accepted(cells[..k + 1])
    ensures results + [x] == base + StoredRows(kind, step, cells[..k + 1])
  {
    AcceptedSnoc(cells, k);
    StoredRowsSnoc(kind, step, cells, k);
  }

  lemma StoredRowsSnoc(kind: string, step: int, cells: seq<Cell>, k: nat)
    requires k < |cells| && Accepted(cells[..k + 1])
    ensures Accepted(cells[..k])
    ensures StoredRows(kind, step, cells[..k + 1]) == StoredRows(kind, step, cells[..k]) + [StoredRow(kind, step, cells[k])]
  {
    assert cells[..k + 1][k] == cells[k];
    assert forall i :: 0 <= i < k ==> cells[..k + 1][i] == cells[..k][i];
  }

  lemma {:induction false} MatrixCellsPrefix(t: string, m: seq<seq<PyValue>>, a: nat, b: nat, nCols: nat)
    requires a <= b <= |m|
    ensures |MatrixCells(t, m, a, nCols)| <= |MatrixCells(t, m, b, nCols)|
    ensures MatrixCells(t, m, a, nCols) == MatrixCells(t, m, b, nCols)[..|MatrixCells(t, m, a, nCols)|]
  {
    if a < b {
      MatrixCellsPrefix(t, m, a, b - 1, nCols);
    }
  }

  /** Where the element (`r`, `c`) sits among the cells of the first `n` rows. */
  lemma MatrixCellAt(t: string, m: seq<seq<PyValue>>, n: nat, nCols: nat, r: nat, c: nat)
    requires r < n <= |m| && c < |m[r]|
    ensures |MatrixCells(t, m, r, nCols)| + c < |MatrixCells(t, m, n, nCols)|
    ensures MatrixCells(t, m, n, nCols)[|MatrixCells(t, m, r, nCols)| + c] == Cell(MatrixProperties(r, c, |m|, nCols, t), m[r][c])
  {
    MatrixCellInRow(t, m, nCols, r, c);
    MatrixCellsPrefix(t, m, r + 1, n, nCols);
    PrefixAt(MatrixCells(t, m, r + 1, nCols), MatrixCells(t, m, n, nCols), |MatrixCells(t, m, r, nCols)| + c);
  }

  /** The element (`r`, `c`) is the last row's cell `c` among the cells of the first `r + 1` rows. */
  lemma MatrixCellInRow(t: string, m: seq<seq<PyValue>>, nCols: nat, r: nat, c: nat)
    requires r < |m| && c < |m[r]|
    ensures |MatrixCells(t, m, r, nCols)| + c < |MatrixCells(t, m, r + 1, nCols)|
    ensures MatrixCells(t, m, r + 1, nCols)[|MatrixCells(t, m, r, nCols)| + c] == Cell(MatrixProperties(r, c, |m|, nCols, t), m[r][c])
  {
    var before := MatrixCells(t, m, r, nCols);
    var row := RowCells(t, m, r, nCols);
    assert MatrixCells(t, m, r + 1, nCols) == before + row;
    AppendAt(before, row, c);
  }

  /**
   * Small sequence facts, stated apart so that the cell-position proofs
   * above and the insert proof below see them without unfolding the cells.
   */
  lemma AppendAt(x: seq<Cell>, y: seq<Cell>, i: nat)
    requires i < |y|
    ensures |x| + i < |x + y| && (x + y)[|x| + i] == y[i]
  {
  }

  lemma PrefixAt(x: seq<Cell>, y: seq<Cell>, i: nat)
    requires |x| <= |y| && x == y[..|x|] && i < |x|
    ensures y[i] == x[i]
  {
  }

  /**
   * `insert_collection_result`: one new Result per element, in the order
   * the cells are created, each carrying its structural properties. An
   * empty collection or an empty first row is refused before anything is
   * stored. When the data setter refuses an element, the insert stops
   * there: the Results created before it stay attached to the step.
   */
  method InsertCollection(db: Steps.Database, kind: string, step: int, typeName: string, data: seq<PyValue>)
    returns (r: Outcome<InsertError>)
    requires db.Valid() && step in db.steps
    modifies db`results
    ensures db.Valid()
    ensures Cells(typeName, data).Failure? ==> r == Fail(Cells(typeName, data).error) && db.results == old(db.results)
    ensures Cells(typeName, data).Success? ==>
      var cells := Cells(typeName, data).value;
      var k := FirstRefused(cells);
      && db.results == old(db.results) + StoredRows(kind, step, cells[..k])
      && (r.Pass? <==> k == |cells|)
      && (k < |cells| ==> r == Fail(Refused(Encode(cells[k].value).error)))
  {
    var nRows := |data|;
    if nRows == 0 {
      return Fail(EmptyCollection);
    }
    var size := Len(data[0]);
    if size.Some? {
      var nCols := size.value;
      if nCols == 0 {
        return Fail(EmptyFirstRow);
      }
      var typeError;
      r, typeError := InsertMatrix(db, kind, step, typeName, data, nCols);
      ghost var matrix := MatrixCells(typeName, Rows(data), SizedRows(data), nCols);
      ghost var list := ListCells(typeName, data);
      ghost var rest := if SizedRows(data) < |data| then list else [];
      assert Cells(typeName, data) == Success(matrix + rest);
      if r.Fail? {
        RefusedInFirst(kind, step, matrix, rest, old(db.results), db.results);
        return;
      }
      if !typeError {
        assert matrix + [] == matrix;
        return;
      }
      ghost var afterMatrix := db.results;
      r := InsertList(db, kind, step, typeName, data);
      AcceptedFirst(kind, step, matrix, list, old(db.results), afterMatrix, db.results);
      return;
    }
    r := InsertList(db, kind, step, typeName, data);
  }

  /** When a cell of `a` is refused, the insert of `a + b` stops at the same cell. */
  lemma RefusedInFirst(kind: string, step: int, a: seq<Cell>, b: seq<Cell>, base: seq<Row>, results: seq<Row>)
    requires FirstRefused(a) < |a|
    requires results == base + StoredRows(kind, step, a[..FirstRefused(a)])
    ensures FirstRefused(a + b) == FirstRefused(a) && (a + b)[FirstRefused(a)] == a[FirstRefused(a)]
    ensures results == base + StoredRows(kind, step, (a + b)[..FirstRefused(a + b)])
  {
    var k := FirstRefused(a);
    assert (a + b)[..k] == a[..k];
    FirstRefusedIs(a + b, k);
  }

  /** When every cell of `a` is accepted, the insert of `a + b` goes on into `b`. */
  lemma AcceptedFirst(kind: string, step: int, a: seq<Cell>, b: seq<Cell>, base: seq<Row>, middle: seq<Row>, results: seq<Row>)
    requires FirstRefused(a) == |a|
    requires middle == base + StoredRows(kind, step, a[..|a|])
    requires results == middle + StoredRows(kind, step, b[..FirstRefused(b)])
    ensures FirstRefused(a + b) == |a| + FirstRefused(b)
    ensures FirstRefused(b) < |b| ==> (a + b)[FirstRefused(a + b)] == b[FirstRefused(b)]
    ensures results == base + StoredRows(kind, step, (a + b)[..FirstRefused(a + b)])
  {
    var j := FirstRefused(b);
    FirstRefusedSkips(a, b);
    assert a[..|a|] == a;
    assert (a + b)[..|a| + j] == a + b[..j];
    StoredRowsConcat(kind, step, a, b[..j]);
    AppendAssociates(base, StoredRows(kind, step, a), StoredRows(kind, step, b[..j]));
  }

  /** Stated apart so that `AcceptedFirst` does not unfold the stored rows to see it. */
  lemma AppendAssociates(x: seq<Row>, y: seq<Row>, z: seq<Row>)
    ensures (x + y) + z == x + (y + z)
  {
  }

  lemma FirstRefusedSkips(a: seq<Cell>, b: seq<Cell>)
    requires FirstRefused(a) == |a|
    ensures FirstRefused(a + b) == |a| + FirstRefused(b)
  {
    var j := FirstRefused(b);
    assert a[..|a|] == a;
    AcceptedConcat(a, b[..j]);
    assert (a + b)[..|a| + j] == a + b[..j];
    assert j < |b| ==> (a + b)[|a| + j] == b[j];
    FirstRefusedIs(a + b, |a| + j);
  }

  lemma AcceptedConcat(a: seq<Cell>, b: seq<Cell>)
    requires Accepted(a) && Accepted(b)
    ensures Accepted(a + b)
  {
    forall i | 0 <= i < |a + b|
      ensures IsScalar((a + b)[i].value)
    {
      if i >= |a| {
        assert (a + b)[i] == b[i - |a|];
      }
    }
  }

  lemma StoredRowsConcat(kind: string, step: int, a: seq<Cell>, b: seq<Cell>)
    requires Accepted(a) && Accepted(b)
    ensures Accepted(a + b)
    ensures StoredRows(kind, step, a + b) == StoredRows(kind, step, a) + StoredRows(kind, step, b)
  {
    AcceptedConcat(a, b);
    assert forall i :: 0 <= i < |a + b| ==> (a + b)[i] == if i < |a| then a[i] else b[i - |a|];
  }

  /** The list branch of the insert. */
  method InsertList(db: Steps.Database, kind: string, step: int, typeName: string, items: seq<PyValue>) returns (r: Outcome<InsertError>)
    requires db.Valid() && step in db.steps
    modifies db`results
    ensures db.Valid()
    ensures
      var cells := ListCells(typeName, items);
      var k := FirstRefused(cells);
      && db.results == old(db.results) + StoredRows(kind, step, cells[..k])
      && (r.Pass? <==> k == |cells|)
      && (k < |cells| ==> r == Fail(Refused(Encode(cells[k].value).error)))
  {
    var nRows := |items|;
    ghost var cells := ListCells(typeName, items);
    var i := 0;
    while i < nRows
      invariant 0 <= i <= nRows
      invariant Accepted(cells[..i])
      invariant db.results == old(db.results) + StoredRows(kind, step, cells[..i])
      invariant db.Valid()
    {
      var current, stored := NewListResult(kind, step, items[i], i, nRows, typeName);
      if stored.Fail? {
        FirstRefusedIs(cells, i);
        return Fail(Refused(stored.error));
      }
      StoreNext(kind, step, cells, i, old(db.results), db.results, current.Stored());
      db.results := db.results + [current.Stored()];
      i := i + 1;
    }
    assert cells[..nRows] == cells;
    FirstRefusedIs(cells, nRows);
    r := Pass;
  }

  /** `results` is `base` followed by the rows of the first `k` cells, all accepted. */
  predicate StoredPrefix(results: seq<Row>, base: seq<Row>, kind: string, step: int, cells: seq<Cell>, k: nat) {
    k <= |cells| && Accepted(cells[..k]) && results == base + StoredRows(kind, step, cells[..k])
  }

  /**
   * The matrix branch of the insert, for `data` whose first element has
   * `nCols` > 0 elements. It goes row by row until a row has no length
   * (`typeError`), a value is refused, or every row is stored.
   */
  method InsertMatrix(db: Steps.Database, kind: string, step: int, typeName: string, data: seq<PyValue>, nCols: nat)
    returns (r: Outcome<InsertError>, typeError: bool)
    requires db.Valid() && step in db.steps
    modifies db`results
    ensures db.Valid()
    ensures
      var cells := MatrixCells(typeName, Rows(data), SizedRows(data), nCols);
      var k := FirstRefused(cells);
      && db.results == old(db.results) + StoredRows(kind, step, cells[..k])
      && (r.Pass? <==> k == |cells|)
      && (k < |cells| ==> r == Fail(Refused(Encode(cells[k].value).error)))
      && (r.Pass? ==> (typeError <==> SizedRows(data) < |data|))
  {
    var nRows := |data|;
    var m := Rows(data);
    ghost var n := SizedRows(data);
    ghost var cells := MatrixCells(typeName, m, n, nCols);
    ghost var k := 0;
    var row := 0;
    typeError := false;
    while row < nRows
      invariant 0 <= row <= n
      invariant k == |MatrixCells(typeName, m, row, nCols)|
      invariant StoredPrefix(db.results, old(db.results), kind, step, cells, k)
      invariant db.Valid()
    {
      if Len(data[row]).None? {
        typeError := true;
        break;
      }
      r, k := InsertMatrixRow(db, kind, step, typeName, m, n, row, nCols, old(db.results));
      if r.Fail? {
        FirstRefusedIs(cells, k);
        return;
      }
      row := row + 1;
    }
    assert row == n;
    assert cells[..k] == cells;
    FirstRefusedIs(cells, k);
    r := Pass;
  }

  /**
   * The inner loop of the matrix branch: the elements of row `row`, with
   * 1-based `row` and `column` properties and the dimension "nRows,nCols".
   * `k` is how many cells of the first `n` rows are stored when it returns.
   */
  method InsertMatrixRow(db: Steps.Database, kind: string, step: int, typeName: string, m: seq<seq<PyValue>>, ghost n: nat,
                         row: nat, nCols: nat, ghost base: seq<Row>) returns (r: Outcome<InsertError>, ghost k: nat)
    requires db.Valid() && step in db.steps
    requires row < n <= |m|
    requires StoredPrefix(db.results, base, kind, step, MatrixCells(typeName, m, n, nCols), |MatrixCells(typeName, m, row, nCols)|)
    modifies db`results
    ensures db.Valid()
    ensures StoredPrefix(db.results, base, kind, step, MatrixCells(typeName, m, n, nCols), k)
    ensures r.Pass? ==> k == |MatrixCells(typeName, m, row + 1, nCols)|
    ensures r.Fail? ==>
      var cells := MatrixCells(typeName, m, n, nCols);
      k < |cells| && !IsScalar(cells[k].value) && r == Fail(Refused(Encode(cells[k].value).error))
  {
    ghost var cells := MatrixCells(typeName, m, n, nCols);
    k := |MatrixCells(typeName, m, row, nCols)|;
    var col := 0;
    while col < |m[row]|
      invariant 0 <= col <= |m[row]|
      invariant k == |MatrixCells(typeName, m, row, nCols)| + col
      invariant StoredPrefix(db.results, base, kind, step, cells, k)
      invariant db.Valid()
    {
      MatrixCellAt(typeName, m, n, nCols, row, col);
      r := StoreMatrixElement(db, kind, step, typeName, m, row, col, nCols, cells, base, k);
      if r.Fail? {
        return;
      }
      k := k + 1;
      col := col + 1;
    }
    r := Pass;
  }

  /**
   * One element of the inner loop: its Result is created and, when the
   * setter accepts the value, stored as cell `k` of `cells`.
   */
  method StoreMatrixElement(db: Steps.Database, kind: string, step: int, typeName: string, m: seq<seq<PyValue>>,
                            row: nat, col: nat, nCols: nat, ghost cells: seq<Cell>, ghost base: seq<Row>, ghost k: nat)
    returns (r: Outcome<InsertError>)
    requires db.Valid() && step in db.steps
    requires row < |m| && col < |m[row]|
    requires k < |cells| && cells[k] == Cell(MatrixProperties(row, col, |m|, nCols, typeName), m[row][col])
    requires StoredPrefix(db.results, base, kind, step, cells, k)
    modifies db`results
    ensures db.Valid()
    ensures r.Pass? ==> StoredPrefix(db.results, base, kind, step, cells, k + 1)
    ensures r.Fail? ==> db.results == old(db.results)
    ensures r.Fail? ==> !IsScalar(cells[k].value) && r == Fail(Refused(Encode(cells[k].value).error))
  {
    var current, stored := NewMatrixResult(kind, step, m[row][col], row, col, |m|, nCols, typeName);
    if stored.Fail? {
      return Fail(Refused(stored.error));
    }
    StoreNext(kind, step, cells, k, base, db.results, current.Stored());
    db.results := db.results + [current.Stored()];
    r := Pass;
  }

  /**
   * The body of the inner loop: a Result for the element (`row`, `col`) of
   * the matrix, its structural properties written one by one.
   */
  method NewMatrixResult(kind: string, step: int, value: PyValue, row: nat, col: nat, nRows: nat, nCols: nat, typeName: string)
    returns (current: ResultEntity, r: Outcome<DataError>)
    ensures fresh(current)
    ensures r.Pass? <==> IsScalar(value)
    ensures r.Fail? ==> r.error == Encode(value).error
    ensures r.Pass? ==> current.Stored() == StoredRow(kind, step, Cell(MatrixProperties(row, col, nRows, nCols, typeName), value))
  {
    current := new ResultEntity(kind, step);
    r := current.SetData(value);
    if r.Fail? {
      return;
    }
    WriteMatrixProperties(current, row, col, nRows, nCols, typeName);
    StoredRowIs(kind, step, Cell(current.properties, value), current.Stored());
  }

  /** The structural properties of a matrix element, written one keyword at a time onto a new Result. */
  method WriteMatrixProperties(current: ResultEntity, row: nat, col: nat, nRows: nat, nCols: nat, typeName: string)
    requires current.properties == map[]
    modifies current`properties
    ensures current.properties == MatrixProperties(row, col, nRows, nCols, typeName)
  {
    current.SetProperty("kind", "Matrix");
    current.SetProperty("indexing", "1-based");
    current.SetProperty("row", Decimal.IntToString(row + 1));
    current.SetProperty("column", Decimal.IntToString(col + 1));
    current.SetProperty("original_collection_type", typeName);
    current.SetProperty("total_dimension", Decimal.IntToString(nRows) + "," + Decimal.IntToString(nCols));
  }

  /** The body of the list loop: a Result for element `i` of a list of `n`, its structural properties written one by one. */
  method NewListResult(kind: string, step: int, value: PyValue, i: nat, n: nat, typeName: string)
    returns (current: ResultEntity, r: Outcome<DataError>)
    ensures fresh(current)
    ensures r.Pass? <==> IsScalar(value)
    ensures r.Fail? ==> r.error == Encode(value).error
    ensures r.Pass? ==> current.Stored() == StoredRow(kind, step, Cell(ListProperties(i, n, typeName), value))
  {
    current := new ResultEntity(kind, step);
    r := current.SetData(value);
    if r.Fail? {
      return;
    }
    WriteListProperties(current, i, n, typeName);
    StoredRowIs(kind, step, Cell(current.properties, value), current.Stored());
  }

  /** A row with the step, kind, stored data and properties of `cell` is the row the insert stores for it. */
  lemma StoredRowIs(kind: string, step: int, cell: Cell, row: Row)
    requires IsScalar(cell.value)
    requires row.step == step && row.kind == kind && row.properties == cell.properties
    requires (row.dataType, row.dataValue) == Encode(cell.value).value
    ensures row == StoredRow(kind, step, cell)
  {
  }

  /** The structural properties of a list element, written one keyword at a time onto a new Result. */
  method WriteListProperties(current: ResultEntity, i: nat, n: nat, typeName: string)
    requires current.properties == map[]
    modifies current`properties
    ensures current.properties == ListProperties(i, n, typeName)
  {
    current.SetProperty("kind", "List");
    current.SetProperty("indexing", "1-based");
    current.SetProperty("index", Decimal.IntToString(i + 1));
    current.SetProperty("original_collection_type", typeName);
    current.SetProperty("total_dimension", Decimal.IntToString(n));
  }
}

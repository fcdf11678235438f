/**
 * Inserting a collection and reading it back through the store: the reader
 * selects the Results of one (kind, step) pair from the whole results
 * table, so what other inserts left there must not disturb it.
 */
module CollectionScenarios {
  import opened Wrappers
  import opened ResultData
  import opened Collections
  import opened CollectionRebuild
  import opened CollectionRoundTrip

  /** Rows of other kinds are never selected. */
  lemma {:induction false} SelectForeign(rows: seq<Row>, kind: string, step: int)
    requires forall i :: 0 <= i < |rows| ==> rows[i].kind != kind
    ensures Select(rows, kind, step) == []
  {
    if rows != [] {
      SelectForeign(rows[..|rows| - 1], kind, step);
    }
  }

  /**
   * After an insert into a (kind, step) pair that had no Results, the
   * reader selects exactly the rows the insert stored, in order.
   */
  lemma InsertThenSelect(before: seq<Row>, kind: string, step: int, cells: seq<Cell>)
    requires Accepted(cells) && Select(before, kind, step) == []
    ensures Select(before + StoredRows(kind, step, cells), kind, step) == StoredRows(kind, step, cells)
  {
    SelectAppend(before, StoredRows(kind, step, cells), kind, step);
    SelectStored(kind, step, cells);
  }

  /** When the setter accepts every cell, the insert stores them all. */
  lemma AllStored(cells: seq<Cell>)
    requires Accepted(cells)
    ensures FirstRefused(cells) == |cells|
  {
    assert cells[..|cells|] == cells;
    FirstRefusedIs(cells, |cells|);
  }

  /** A list whose first element has no length takes the list path. */
  lemma ListPath(t: string, data: seq<PyValue>)
    requires |data| > 0 && Len(data[0]).None?
    ensures Cells(t, data) == Success(ListCells(t, data))
  {
  }

  /**
   * A list of scalars whose first element has no length takes the list
   * path; the insert stores every element, and reading the pair back gives
   * the list.
   */
  lemma ListInsertGet(before: seq<Row>, kind: string, step: int, t: string, data: seq<PyValue>)
    requires |data| > 0 && AllScalar(data) && !data[0].PyStr?
    requires Select(before, kind, step) == []
    ensures Cells(t, data) == Success(ListCells(t, data))
    ensures Accepted(ListCells(t, data)) && FirstRefused(ListCells(t, data)) == |data|
    ensures Rebuild(Select(before + StoredRows(kind, step, ListCells(t, data)), kind, step)) == Success(ListOf(Values(data)))
  {
    ListPath(t, data);
    ListRoundTrip(kind, step, t, data);
    AllStored(ListCells(t, data));
    InsertThenSelect(before, kind, step, ListCells(t, data));
  }

  /** Every element of `data` has a length, so the matrix loop never meets a `TypeError`. */
  predicate RowsSized(data: seq<PyValue>) {
    forall r :: 0 <= r < |data| ==> Len(data[r]).Some?
  }

  /**
   * Every element of `data` has a length and every element of every row is
   * a scalar. A str has a length too: its rows are its one-character strings.
   */
  predicate AllSized(data: seq<PyValue>) {
    RowsSized(data) && GridScalar(Rows(data))
  }

  /** A non-empty list of sized rows whose first one is not empty takes the matrix path, all of it. */
  lemma MatrixPath(t: string, data: seq<PyValue>)
    requires |data| > 0 && RowsSized(data) && Len(data[0]).value > 0
    ensures |Rows(data)[0]| == Len(data[0]).value
    ensures Cells(t, data) == Success(MatrixCells(t, Rows(data), |data|, Len(data[0]).value))
  {
    var cells := MatrixCells(t, Rows(data), |data|, Len(data[0]).value);
    assert SizedRows(data) == |data|;
    assert cells + [] == cells;
  }

  /**
   * A list of lists of scalars takes the matrix path; the insert stores
   * every element, and reading the pair back gives its rows, less the
   * empty rows at its end.
   */
  lemma MatrixInsertGet(before: seq<Row>, kind: string, step: int, t: string, data: seq<PyValue>)
    requires |data| > 0 && AllSized(data) && Len(data[0]).value > 0
    requires Select(before, kind, step) == []
    ensures var cells := MatrixCells(t, Rows(data), |data|, Len(data[0]).value);
      && Cells(t, data) == Success(cells)
      && Accepted(cells) && FirstRefused(cells) == |cells|
      && Rebuild(Select(before + StoredRows(kind, step, cells), kind, step))
         == Success(MatrixOf(Grid(Rows(data))[..LastNonEmpty(Rows(data), |data|)]))
  {
    var m := Rows(data);
    var cells := MatrixCells(t, m, |data|, Len(data[0]).value);
    MatrixPath(t, data);
    MatrixRoundTrip(kind, step, t, m);
    AllStored(cells);
    InsertThenSelect(before, kind, step, cells);
  }

  /** Two inserts of different kinds into one step: each kind reads back its own rows only. */
  lemma TwoKinds(kind1: string, kind2: string, step: int, cells1: seq<Cell>, cells2: seq<Cell>)
    requires kind1 != kind2 && Accepted(cells1) && Accepted(cells2)
    ensures Select(StoredRows(kind1, step, cells1) + StoredRows(kind2, step, cells2), kind1, step) == StoredRows(kind1, step, cells1)
    ensures Select(StoredRows(kind1, step, cells1) + StoredRows(kind2, step, cells2), kind2, step) == StoredRows(kind2, step, cells2)
  {
    var a, b := StoredRows(kind1, step, cells1), StoredRows(kind2, step, cells2);
    SelectAppend(a, b, kind1, step);
    SelectAppend(a, b, kind2, step);
    SelectStored(kind1, step, cells1);
    SelectStored(kind2, step, cells2);
    SelectForeign(a, kind2, step);
    SelectForeign(b, kind1, step);
  }

  /** The list of the collection test: an int, a str and a float. */
  const ListResult: seq<PyValue> := [PyInt(1), PyStr("test"), PyFloat(Float("0.25"))]

  /** The matrix of the collection test: two rows of three, mixing ints and strs. */
  const MatrixResult: seq<PyValue> := [PyList([PyInt(1), PyInt(2), PyInt(3)]), PyList([PyStr("4"), PyInt(5), PyStr("6")])]

  lemma ListResultValues()
    ensures AllScalar(ListResult)
    ensures Values(ListResult) == [Some(IntValue(1)), Some(StrValue("test")), Some(FloatValue(Float("0.25")))]
  {
  }

  lemma MatrixResultValues()
    ensures AllSized(MatrixResult) && |Rows(MatrixResult)| == 2
    ensures Grid(Rows(MatrixResult))[..LastNonEmpty(Rows(MatrixResult), 2)]
      == [[Some(IntValue(1)), Some(IntValue(2)), Some(IntValue(3))], [Some(StrValue("4")), Some(IntValue(5)), Some(StrValue("6"))]]
  {
    var m := Rows(MatrixResult);
    assert m[0] == [PyInt(1), PyInt(2), PyInt(3)] && m[1] == [PyStr("4"), PyInt(5), PyStr("6")];
    assert LastNonEmpty(m, 2) == 2;
    assert Grid(m)[0] == Values(m[0]) == [Some(IntValue(1)), Some(IntValue(2)), Some(IntValue(3))];
    assert Grid(m)[1] == Values(m[1]) == [Some(StrValue("4")), Some(IntValue(5)), Some(StrValue("6"))];
    assert Grid(m)[..2] == Grid(m);
  }

  /** An insert of cells the setter all accepts: it passes and stores every one of them. */
  method InsertAll(db: Steps.Database, kind: string, step: int, t: string, data: seq<PyValue>, ghost cells: seq<Cell>)
    returns (r: Outcome<InsertError>)
    requires db.Valid() && step in db.steps
    requires Cells(t, data) == Success(cells) && Accepted(cells)
    modifies db`results
    ensures db.Valid() && step in db.steps
    ensures r == Pass && db.results == old(db.results) + StoredRows(kind, step, cells)
  {
    AllStored(cells);
    assert cells[..|cells|] == cells;
    r := InsertCollection(db, kind, step, t, data);
  }

  /**
   * Appending to an empty table: stated on its own so that the two-insert
   * scenario below does not have to unfold the whole store to see it.
   */
  lemma AfterEmpty(a: seq<Row>, b: seq<Row>)
    ensures [] + a + b == a + b
  {
    assert [] + a == a;
  }

  /** A fresh store with one project and one step (id 1) of it. */
  method OneStep() returns (db: Steps.Database)
    ensures fresh(db) && db.Valid() && 1 in db.steps && db.results == []
  {
    db := new Steps.Database();
    db.AddProject(1);
    db.AddStep(1, Steps.StepInfo("Example", 1, None));
  }

  /** What the collection test reads back, on the rows its two inserts store. */
  lemma TwoCollectionsRead(listKind: string, matrixKind: string, step: int, listData: seq<PyValue>, matrixData: seq<PyValue>,
                           listCells: seq<Cell>, matrixCells: seq<Cell>)
    requires listKind != matrixKind
    requires |listData| > 0 && AllScalar(listData) && !listData[0].PyStr?
    requires |matrixData| > 0 && AllSized(matrixData) && Len(matrixData[0]).value > 0
    requires listCells == ListCells("list", listData)
    requires matrixCells == MatrixCells("list", Rows(matrixData), |matrixData|, Len(matrixData[0]).value)
    ensures Cells("list", listData) == Success(listCells) && Accepted(listCells)
    ensures Cells("list", matrixData) == Success(matrixCells) && Accepted(matrixCells)
    ensures Rebuild(Select(StoredRows(listKind, step, listCells) + StoredRows(matrixKind, step, matrixCells), listKind, step))
      == Success(ListOf(Values(listData)))
    ensures Rebuild(Select(StoredRows(listKind, step, listCells) + StoredRows(matrixKind, step, matrixCells), matrixKind, step))
      == Success(MatrixOf(Grid(Rows(matrixData))[..LastNonEmpty(Rows(matrixData), |matrixData|)]))
  {
    ListPath("list", listData);
    MatrixPath("list", matrixData);
    ListRoundTrip(listKind, step, "list", listData);
    MatrixRoundTrip(matrixKind, step, "list", Rows(matrixData));
    TwoKinds(listKind, matrixKind, step, listCells, matrixCells);
  }

  /**
   * The collection test, for any list and matrix: both are inserted under
   * two kinds of one step of a fresh store, and each reads back as it went
   * in, the matrix less the empty rows at its end.
   */
  method TwoCollections(listKind: string, matrixKind: string, listData: seq<PyValue>, matrixData: seq<PyValue>)
    returns (inserted: (Outcome<InsertError>, Outcome<InsertError>),
             fetchedList: Result<Collected, RebuildError>, fetchedMatrix: Result<Collected, RebuildError>)
    requires listKind != matrixKind
    requires |listData| > 0 && AllScalar(listData) && !listData[0].PyStr?
    requires |matrixData| > 0 && AllSized(matrixData) && Len(matrixData[0]).value > 0
    ensures inserted == (Pass, Pass)
    ensures fetchedList == Success(ListOf(Values(listData)))
    ensures fetchedMatrix == Success(MatrixOf(Grid(Rows(matrixData))[..LastNonEmpty(Rows(matrixData), |matrixData|)]))
  {
    var db := OneStep();
    ghost var listCells := ListCells("list", listData);
    ghost var matrixCells := MatrixCells("list", Rows(matrixData), |matrixData|, Len(matrixData[0]).value);
    TwoCollectionsRead(listKind, matrixKind, 1, listData, matrixData, listCells, matrixCells);
    var r1 := InsertAll(db, listKind, 1, "list", listData, listCells);
    var r2 := InsertAll(db, matrixKind, 1, "list", matrixData, matrixCells);
    AfterEmpty(StoredRows(listKind, 1, listCells), StoredRows(matrixKind, 1, matrixCells));
    inserted := (r1, r2);
    fetchedList := GetCollection(db, listKind, 1);
    fetchedMatrix := GetCollection(db, matrixKind, 1);
  }

  /** The collection test on its own data: the list and the matrix read back exactly. */
  method CollectionResultsScenario() returns (inserted: (Outcome<InsertError>, Outcome<InsertError>),
                                              fetchedList: Result<Collected, RebuildError>,
                                              fetchedMatrix: Result<Collected, RebuildError>)
    ensures inserted == (Pass, Pass)
    ensures fetchedList == Success(ListOf([Some(IntValue(1)), Some(StrValue("test")), Some(FloatValue(Float("0.25")))]))
    ensures fetchedMatrix == Success(MatrixOf([[Some(IntValue(1)), Some(IntValue(2)), Some(IntValue(3))],
                                               [Some(StrValue("4")), Some(IntValue(5)), Some(StrValue("6"))]]))
  {
    ListResultValues();
    MatrixResultValues();
    inserted, fetchedList, fetchedMatrix := TwoCollections("ListTest", "MatrixTest", ListResult, MatrixResult);
  }

  /** Rows that start with a matrix element and end with a list element are not read back. */
  lemma KindsDiffer(rs: seq<Row>)
    requires |rs| > 0
    requires "kind" in rs[0].properties && rs[0].properties["kind"] == "Matrix"
    requires "kind" in rs[|rs| - 1].properties && rs[|rs| - 1].properties["kind"] == "List"
    ensures Rebuild(rs).Failure?
  {
    if Rebuild(rs).Success? {
      FoldOneKind("Matrix", rs);
      assert false;
    }
  }

  /**
   * When the first element has a length but a later one has none, the
   * cells start with the matrix element (1, 1) and end with the last list
   * element.
   */
  lemma MixedCells(t: string, data: seq<PyValue>)
    requires |data| > 0 && Len(data[0]).Some? && Len(data[0]).value > 0 && SizedRows(data) < |data|
    ensures var cells := Cells(t, data);
      && cells.Success? && |cells.value| > 0
      && cells.value[0].properties == MatrixProperties(0, 0, |data|, Len(data[0]).value, t)
      && cells.value[|cells.value| - 1].properties == ListProperties(|data| - 1, |data|, t)
      && "kind" in cells.value[0].properties && cells.value[0].properties["kind"] == "Matrix"
      && "kind" in cells.value[|cells.value| - 1].properties && cells.value[|cells.value| - 1].properties["kind"] == "List"
  {
    var m, n, nCols := Rows(data), SizedRows(data), Len(data[0]).value;
    var matrix, list := MatrixCells(t, m, n, nCols), ListCells(t, data);
    assert Cells(t, data).value == matrix + list;
    MatrixCellAt(t, m, n, nCols, 0, 0);
    assert MatrixCells(t, m, 0, nCols) == [];
  }

  /** Each stored row carries the properties of its cell. */
  lemma StoredProperties(kind: string, step: int, cells: seq<Cell>, i: nat)
    requires Accepted(cells) && i < |cells|
    ensures StoredRows(kind, step, cells)[i].properties == cells[i].properties
  {
  }

  /**
   * When the first element has a length but a later one has none, the
   * insert stores the rows before it as matrix elements and then the whole
   * list again as list elements; the reader meets both kinds and raises.
   */
  lemma MixedNotReadBack(kind: string, step: int, t: string, data: seq<PyValue>)
    requires |data| > 0 && Len(data[0]).Some? && Len(data[0]).value > 0 && SizedRows(data) < |data|
    requires Accepted(Cells(t, data).value)
    ensures Rebuild(StoredRows(kind, step, Cells(t, data).value)).Failure?
  {
    MixedCells(t, data);
    var cells := Cells(t, data).value;
    StoredProperties(kind, step, cells, 0);
    StoredProperties(kind, step, cells, |cells| - 1);
    KindsDiffer(StoredRows(kind, step, cells));
  }

  /** ["ab", 1]: "ab" has a length, 1 has none. */
  const StrThenInt: seq<PyValue> := [PyStr("ab"), PyInt(1)]

  /** The list ["ab", 1] goes in, but reading it back raises. */
  lemma StrThenIntNotReadBack(kind: string, step: int)
    ensures Cells("list", StrThenInt).Success? && Accepted(Cells("list", StrThenInt).value)
    ensures Rebuild(StoredRows(kind, step, Cells("list", StrThenInt).value)).Failure?
  {
    var m := Rows(StrThenInt);
    assert SizedRows(StrThenInt) == 1;
    assert m[0] == [PyStr("a"), PyStr("b")];
    MatrixAccepted("list", m[..1], 1, 2);
    MixedNotReadBack(kind, step, "list", StrThenInt);
  }

  /** ["ab", "cd"]: both elements are strs, so both have a length. */
  const TwoStrs: seq<PyValue> := [PyStr("ab"), PyStr("cd")]

  lemma TwoStrsGrid()
    ensures AllSized(TwoStrs) && |Rows(TwoStrs)| == 2 && |Rows(TwoStrs)[0]| == 2 && Len(TwoStrs[0]) == Some(2)
    ensures Grid(Rows(TwoStrs))[..LastNonEmpty(Rows(TwoStrs), 2)]
      == [[Some(StrValue("a")), Some(StrValue("b"))], [Some(StrValue("c")), Some(StrValue("d"))]]
  {
    var m := Rows(TwoStrs);
    assert m[0] == Items(PyStr("ab")) == [PyStr("a"), PyStr("b")];
    assert m[1] == Items(PyStr("cd")) == [PyStr("c"), PyStr("d")];
    assert LastNonEmpty(m, 2) == 2;
    assert Grid(m)[0] == Values(m[0]) == [Some(StrValue("a")), Some(StrValue("b"))];
    assert Grid(m)[1] == Values(m[1]) == [Some(StrValue("c")), Some(StrValue("d"))];
    assert Grid(m)[..2] == Grid(m);
  }

  /** The list ["ab", "cd"] takes the matrix path and reads back as the matrix of its characters. */
  lemma TwoStrsReadAsCharacters(kind: string, step: int)
    ensures Cells("list", TwoStrs) == Success(MatrixCells("list", Rows(TwoStrs), 2, 2))
    ensures Accepted(MatrixCells("list", Rows(TwoStrs), 2, 2))
    ensures Rebuild(StoredRows(kind, step, MatrixCells("list", Rows(TwoStrs), 2, 2)))
      == Success(MatrixOf([[Some(StrValue("a")), Some(StrValue("b"))], [Some(StrValue("c")), Some(StrValue("d"))]]))
  {
    TwoStrsGrid();
    MatrixPath("list", TwoStrs);
    MatrixRoundTrip(kind, step, "list", Rows(TwoStrs));
  }

  /** [[1], []]: a matrix whose last row is empty. */
  const EmptyLastRow: seq<PyValue> := [PyList([PyInt(1)]), PyList([])]

  lemma EmptyLastRowGrid()
    ensures AllSized(EmptyLastRow) && |Rows(EmptyLastRow)| == 2 && |Rows(EmptyLastRow)[0]| == 1 && Len(EmptyLastRow[0]) == Some(1)
    ensures Grid(Rows(EmptyLastRow))[..LastNonEmpty(Rows(EmptyLastRow), 2)] == [[Some(IntValue(1))]]
  {
    var m := Rows(EmptyLastRow);
    assert m[0] == [PyInt(1)] && m[1] == [];
    assert LastNonEmpty(m, 2) == 1;
    assert Grid(m)[0] == Values(m[0]) == [Some(IntValue(1))];
  }

  /** The matrix [[1], []] stores one element and reads back as [[1]]: the empty last row is lost. */
  lemma EmptyLastRowLost(kind: string, step: int)
    ensures Cells("list", EmptyLastRow) == Success(MatrixCells("list", Rows(EmptyLastRow), 2, 1))
    ensures Accepted(MatrixCells("list", Rows(EmptyLastRow), 2, 1))
    ensures Rebuild(StoredRows(kind, step, MatrixCells("list", Rows(EmptyLastRow), 2, 1))) == Success(MatrixOf([[Some(IntValue(1))]]))
  {
    EmptyLastRowGrid();
    MatrixPath("list", EmptyLastRow);
    MatrixRoundTrip(kind, step, "list", Rows(EmptyLastRow));
  }
}

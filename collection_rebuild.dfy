/**
 * Reading a collection back (`get_collection_result`): the Results of one
 * (kind, step) pair, in the order the query returns them, are placed one by
 * one at the 1-based position their properties give, gaps filled with None.
 */
module CollectionRebuild {
  import opened Wrappers
  import opened ResultData
  import Decimal
  import Steps

  /** What the reader returns: a flat list, or a list of rows. None is Python's None. */
  datatype Collected =
    | ListOf(items: seq<Option<Scalar>>)
    | MatrixOf(rows: seq<seq<Option<Scalar>>>)

  /** Why the reader raises. */
  datatype RebuildError =
    | NotFound                      // assert len(result_set) > 0
    | MissingProperty(key: string)  // KeyError on current.properties[key]
    | MixedKinds                    // RuntimeError: different kinds in one dataset
    | NotOneBased                   // assert indexing == "1-based"
    | BadPosition(key: string)      // ValueError from int(...)
    | BelowOne(key: string)         // assert index >= 0 (row, col)
    | UnknownShape(kind: string)    // assert data_kind == "Matrix"
    | BadData                       // ValueError from the data getter

  /** The Results of `kind` attached to `step`, in table order. */
  function Select(results: seq<Row>, kind: string, step: int): (rs: seq<Row>)
    ensures |rs| <= |results|
    ensures forall x :: x in rs <==> x in results && x.kind == kind && x.step == step
  {
    if results == [] then []
    else
      var last := results[|results| - 1];
      var init := Select(results[..|results| - 1], kind, step);
      assert results == results[..|results| - 1] + [last];
      if last.kind == kind && last.step == step then init + [last] else init
  }

  /** `row.properties[key]`. */
  function Property(row: Row, key: string): Result<string, RebuildError> {
    if key in row.properties then Success(row.properties[key]) else Failure(MissingProperty(key))
  }

  /**
   * `int(row.properties[key]) - 1`. The ensures spell out the body so that
   * the round-trip proofs need not unfold it.
   */
  function Position(row: Row, key: string): (r: Result<int, RebuildError>)
    ensures r.Success? <==> key in row.properties && Decimal.ParseInt(row.properties[key]).Some?
    ensures r.Success? ==> r.value == Decimal.ParseInt(row.properties[key]).value - 1
  {
    match Property(row, key)
    case Failure(e) => Failure(e)
    case Success(text) =>
      match Decimal.ParseInt(text)
      case None => Failure(BadPosition(key))
      case Some(p) => Success(p - 1)
  }

  /**
   * `row.data`: the stored value, None for a type tag the getter does not
   * know. The ensures spell out the body so that the round-trip proofs need
   * not unfold it.
   */
  function Value(row: Row): (r: Result<Option<Scalar>, RebuildError>)
    ensures r.Failure? <==> Decode(row.dataType, row.dataValue).Unparsable?
    ensures r.Success? && r.value.Some? ==> Decode(row.dataType, row.dataValue) == Decoded(r.value.value)
  {
    match Decode(row.dataType, row.dataValue)
    case Decoded(s) => Success(Some(s))
    case NoData => Success(None)
    case Unparsable => Failure(BadData)
  }

  /** A position the insert wrote as `str(i + 1)` reads back as `i`. */
  lemma PositionOfWritten(row: Row, key: string, i: nat)
    requires key in row.properties && row.properties[key] == Decimal.IntToString(i + 1)
    ensures Position(row, key) == Success(i)
  {
    Decimal.IntRoundTrip(i + 1);
  }

  /** A Result whose data the setter stored from scalar `s` reads back as `s`. */
  lemma ValueOfStored(row: Row, s: Scalar)
    requires row.dataType == Tag(s) && row.dataValue == Text(s)
    ensures Value(row) == Success(Some(s))
  {
    EncodeDecode(s);
  }

  /** `items` padded with None up to position `i`, then `items[i] = v`. */
  function Put(items: seq<Option<Scalar>>, i: nat, v: Option<Scalar>): (r: seq<Option<Scalar>>)
    ensures |r| == if i < |items| then |items| else i + 1
    ensures r[i] == v
    ensures forall j :: 0 <= j < |r| && j != i ==> r[j] == if j < |items| then items[j] else None
  {
    var padded := if i + 1 > |items| then items + seq(i + 1 - |items|, _ => None) else items;
    padded[i := v]
  }

  /** `rows` padded with empty rows up to row `r`, then `v` put at column `c` of row `r`. */
  function PutCell(rows: seq<seq<Option<Scalar>>>, r: nat, c: nat, v: Option<Scalar>): (out: seq<seq<Option<Scalar>>>)
    ensures |out| == if r < |rows| then |rows| else r + 1
    ensures out[r] == Put(if r < |rows| then rows[r] else [], c, v)
    ensures forall i :: 0 <= i < |out| && i != r ==> out[i] == if i < |rows| then rows[i] else []
  {
    var padded := if r + 1 > |rows| then rows + seq(r + 1 - |rows|, _ => []) else rows;
    padded[r := Put(padded[r], c, v)]
  }

  /** Where the reader starts: an empty list, whatever the kind. */
  function Start(dataKind: string): Collected {
    if dataKind == "List" then ListOf([]) else MatrixOf([])
  }

  /**
   * One turn of the reader's loop: the checks on `row`, in the order the
   * reader makes them, then the value placed at its position.
   */
  function Take(dataKind: string, acc: Collected, row: Row): (r: Result<Collected, RebuildError>)
    requires acc.ListOf? <==> dataKind == "List"
    ensures r.Success? ==> (r.value.ListOf? <==> dataKind == "List")
  {
    if "kind" !in row.properties then Failure(MissingProperty("kind"))
    else if row.properties["kind"] != dataKind then Failure(MixedKinds)
    else if "indexing" !in row.properties then Failure(MissingProperty("indexing"))
    else if row.properties["indexing"] != "1-based" then Failure(NotOneBased)
    else if dataKind == "List" then
      match Position(row, "index")
      case Failure(e) => Failure(e)
      case Success(index) =>
        if index < 0 then Failure(BelowOne("index"))
        else
          match Value(row)
          case Failure(e) => Failure(e)
          case Success(v) => Success(ListOf(Put(acc.items, index, v)))
    else if dataKind != "Matrix" then Failure(UnknownShape(dataKind))
    else
      match Position(row, "row")
      case Failure(e) => Failure(e)
      case Success(r) =>
        match Position(row, "column")
        case Failure(e) => Failure(e)
        case Success(c) =>
          if r < 0 then Failure(BelowOne("row"))
          else if c < 0 then Failure(BelowOne("column"))
          else
            match Value(row)
            case Failure(e) => Failure(e)
            case Success(v) => Success(MatrixOf(PutCell(acc.rows, r, c, v)))
  }

  /** The reader's loop over `rs`, stopping at the first row that raises. */
  function Fold(dataKind: string, rs: seq<Row>): (r: Result<Collected, RebuildError>)
    ensures r.Success? ==> (r.value.ListOf? <==> dataKind == "List")
  {
    if rs == [] then Success(Start(dataKind))
    else
      match Fold(dataKind, rs[..|rs| - 1])
      case Failure(e) => Failure(e)
      case Success(acc) => Take(dataKind, acc, rs[|rs| - 1])
  }

  /** `get_collection_result` on the selected Results `rs`: the kind of the first one decides the shape. */
  function Rebuild(rs: seq<Row>): Result<Collected, RebuildError> {
    if rs == [] then Failure(NotFound)
    else if "kind" !in rs[0].properties then Failure(MissingProperty("kind"))
    else Fold(rs[0].properties["kind"], rs)
  }

  /** One more row: the fold of `rs[..k + 1]` is one more turn after the fold of `rs[..k]`. */
  lemma FoldNext(dataKind: string, rs: seq<Row>, k: nat)
    requires k < |rs|
    ensures Fold(dataKind, rs[..k]).Failure? ==> Fold(dataKind, rs[..k + 1]) == Fold(dataKind, rs[..k])
    ensures Fold(dataKind, rs[..k]).Success? ==> Fold(dataKind, rs[..k + 1]) == Take(dataKind, Fold(dataKind, rs[..k]).value, rs[k])
  {
    assert rs[..k + 1][..k] == rs[..k];
  }

  /** Once a row raises, the reader raises that error whatever follows. */
  lemma {:induction false} FoldStops(dataKind: string, rs: seq<Row>, k: nat)
    requires k <= |rs| && Fold(dataKind, rs[..k]).Failure?
    ensures Fold(dataKind, rs) == Fold(dataKind, rs[..k])
    decreases |rs| - k
  {
    if k < |rs| {
      FoldNext(dataKind, rs, k);
      FoldStops(dataKind, rs, k + 1);
    } else {
      assert rs[..k] == rs;
    }
  }

  /** `row` passes the reader's first checks: it has the kind being read and 1-based indexing. */
  predicate KindAndIndexing(row: Row, dataKind: string) {
    && "kind" in row.properties && row.properties["kind"] == dataKind
    && "indexing" in row.properties && row.properties["indexing"] == "1-based"
  }

  /** A turn only succeeds on a 1-based row of the kind being read. */
  lemma TakeKind(dataKind: string, acc: Collected, row: Row)
    requires acc.ListOf? <==> dataKind == "List"
    requires Take(dataKind, acc, row).Success?
    ensures KindAndIndexing(row, dataKind)
  {
  }

  /** The reader only succeeds when every row carries the kind of the first and 1-based indexing. */
  lemma {:induction false} FoldOneKind(dataKind: string, rs: seq<Row>)
    requires Fold(dataKind, rs).Success?
    ensures forall i :: 0 <= i < |rs| ==> KindAndIndexing(rs[i], dataKind)
  {
    if rs != [] {
      var init, last := rs[..|rs| - 1], rs[|rs| - 1];
      assert Fold(dataKind, init).Success?;
      FoldOneKind(dataKind, init);
      TakeKind(dataKind, Fold(dataKind, init).value, last);
      forall i | 0 <= i < |rs|
        ensures KindAndIndexing(rs[i], dataKind)
      {
        if i < |rs| - 1 {
          assert rs[i] == init[i];
        }
      }
    }
  }

  /** The 0-based position `row` names under `key`, or -1 when it names none. */
  function At(row: Row, key: string): int {
    match Position(row, key)
    case Success(p) => if p < 0 then -1 else p
    case Failure(_) => -1
  }

  /** What `row.data` gives, None when the getter raises. */
  function DataOf(row: Row): Option<Scalar> {
    match Value(row)
    case Success(v) => v
    case Failure(_) => None
  }

  /** The largest 1-based index among `rs`. */
  function ListExtent(rs: seq<Row>): nat {
    if rs == [] then 0
    else
      var rest := ListExtent(rs[..|rs| - 1]);
      var p := At(rs[|rs| - 1], "index");
      if p + 1 > rest then p + 1 else rest
  }

  /** The data of the last Result of `rs` whose index is `j` + 1; None when there is none. */
  function ListLookup(rs: seq<Row>, j: nat): Option<Scalar> {
    if rs == [] then None
    else if At(rs[|rs| - 1], "index") == j then DataOf(rs[|rs| - 1])
    else ListLookup(rs[..|rs| - 1], j)
  }

  lemma {:induction false} ListLookupBeyond(rs: seq<Row>, j: nat)
    requires j >= ListExtent(rs)
    ensures ListLookup(rs, j) == None
  {
    if rs != [] {
      ListLookupBeyond(rs[..|rs| - 1], j);
    }
  }

  /**
   * What a list the reader builds holds: as many elements as the largest
   * index, at each position the data of the last Result with that index,
   * None where no Result has it.
   */
  lemma {:induction false} ListMeaning(rs: seq<Row>, items: seq<Option<Scalar>>)
    requires Fold("List", rs) == Success(ListOf(items))
    ensures |items| == ListExtent(rs)
    ensures forall j :: 0 <= j < |items| ==> items[j] == ListLookup(rs, j)
  {
    if rs != [] {
      var init := rs[..|rs| - 1];
      var last := rs[|rs| - 1];
      var before := Fold("List", init);
      assert before.Success?;
      var items0 := before.value.items;
      ListMeaning(init, items0);
      var p := Position(last, "index").value;
      assert At(last, "index") == p;
      assert DataOf(last) == Value(last).value;
      assert items == Put(items0, p, DataOf(last));
      forall j | 0 <= j < |items|
        ensures items[j] == ListLookup(rs, j)
      {
        if j != p && j >= |items0| {
          ListLookupBeyond(init, j);
        }
      }
    }
  }

  /** The largest 1-based row number among `rs`. */
  function MatrixExtent(rs: seq<Row>): nat {
    if rs == [] then 0
    else
      var rest := MatrixExtent(rs[..|rs| - 1]);
      var p := At(rs[|rs| - 1], "row");
      if p + 1 > rest then p + 1 else rest
  }

  /** The largest 1-based column number among the Results of `rs` in row `r` + 1. */
  function RowExtent(rs: seq<Row>, r: nat): nat {
    if rs == [] then 0
    else
      var rest := RowExtent(rs[..|rs| - 1], r);
      var last := rs[|rs| - 1];
      if At(last, "row") == r && At(last, "column") + 1 > rest then At(last, "column") + 1 else rest
  }

  /** The data of the last Result of `rs` at row `r` + 1, column `c` + 1; None when there is none. */
  function CellLookup(rs: seq<Row>, r: nat, c: nat): Option<Scalar> {
    if rs == [] then None
    else if At(rs[|rs| - 1], "row") == r && At(rs[|rs| - 1], "column") == c then DataOf(rs[|rs| - 1])
    else CellLookup(rs[..|rs| - 1], r, c)
  }

  lemma {:induction false} RowExtentBeyond(rs: seq<Row>, r: nat)
    requires r >= MatrixExtent(rs)
    ensures RowExtent(rs, r) == 0
  {
    if rs != [] {
      RowExtentBeyond(rs[..|rs| - 1], r);
    }
  }

  lemma {:induction false} CellLookupBeyond(rs: seq<Row>, r: nat, c: nat)
    requires r >= MatrixExtent(rs) || c >= RowExtent(rs, r)
    ensures CellLookup(rs, r, c) == None
  {
    if rs != [] {
      CellLookupBeyond(rs[..|rs| - 1], r, c);
    }
  }

  /**
   * What a matrix the reader builds holds: as many rows as the largest row
   * number, each row as long as the largest column number used in it, at
   * each place the data of the last Result there, None where there is none.
   */
  lemma {:induction false} MatrixMeaning(rs: seq<Row>, rows: seq<seq<Option<Scalar>>>)
    requires Fold("Matrix", rs) == Success(MatrixOf(rows))
    ensures |rows| == MatrixExtent(rs)
    ensures forall r :: 0 <= r < |rows| ==> |rows[r]| == RowExtent(rs, r)
    ensures forall r, c :: 0 <= r < |rows| && 0 <= c < |rows[r]| ==> rows[r][c] == CellLookup(rs, r, c)
  {
    if rs != [] {
      var init := rs[..|rs| - 1];
      var last := rs[|rs| - 1];
      var before := Fold("Matrix", init);
      assert before.Success?;
      var rows0 := before.value.rows;
      MatrixMeaning(init, rows0);
      var pr := Position(last, "row").value;
      var pc := Position(last, "column").value;
      assert At(last, "row") == pr && At(last, "column") == pc;
      assert DataOf(last) == Value(last).value;
      assert rows == PutCell(rows0, pr, pc, DataOf(last));
      forall r | 0 <= r < |rows|
        ensures |rows[r]| == RowExtent(rs, r)
      {
        if r >= |rows0| {
          RowExtentBeyond(init, r);
        }
      }
      forall r, c | 0 <= r < |rows| && 0 <= c < |rows[r]|
        ensures rows[r][c] == CellLookup(rs, r, c)
      {
        if r >= |rows0| {
          CellLookupBeyond(init, r, c);
        } else if c >= |rows0[r]| {
          CellLookupBeyond(init, r, c);
        }
      }
    }
  }

  /**
   * `get_collection_result`: the Results of `kind` attached to `step`, read
   * back into a list or a matrix; it raises where `Rebuild` fails.
   */
  method GetCollection(db: Steps.Database, kind: string, step: int) returns (r: Result<Collected, RebuildError>)
    ensures r == Rebuild(Select(db.results, kind, step))
  {
    var resultSet := Select(db.results, kind, step);
    if |resultSet| == 0 {
      return Failure(NotFound);
    }
    if "kind" !in resultSet[0].properties {
      return Failure(MissingProperty("kind"));
    }
    var dataKind := resultSet[0].properties["kind"];
    r := ReadAll(dataKind, resultSet);
  }

  /** The reader's loop over the selected Results `resultSet`, building the shape `dataKind` names. */
  method ReadAll(dataKind: string, resultSet: seq<Row>) returns (r: Result<Collected, RebuildError>)
    ensures r == Fold(dataKind, resultSet)
  {
    // `data` of the reader: `items` when it builds a list, `rows` when it builds a matrix
    var items: seq<Option<Scalar>> := [];
    var rows: seq<seq<Option<Scalar>>> := [];
    var k := 0;
    while k < |resultSet|
      invariant 0 <= k <= |resultSet|
      invariant Fold(dataKind, resultSet[..k]) == Success(if dataKind == "List" then ListOf(items) else MatrixOf(rows))
    {
      var current := resultSet[k];
      FoldNext(dataKind, resultSet, k);
      var next := ReadInto(dataKind, items, rows, current);
      if next.Failure? {
        FoldStops(dataKind, resultSet, k + 1);
        return Failure(next.error);
      }
      items, rows := next.value.0, next.value.1;
      k := k + 1;
    }
    assert resultSet[..k] == resultSet;
    r := Success(if dataKind == "List" then ListOf(items) else MatrixOf(rows));
  }

  /** The body of the reader's loop for one Result `current`, on the list `items` or the matrix `rows`. */
  method ReadInto(dataKind: string, items: seq<Option<Scalar>>, rows: seq<seq<Option<Scalar>>>, current: Row)
    returns (r: Result<(seq<Option<Scalar>>, seq<seq<Option<Scalar>>>), RebuildError>)
    ensures var acc := if dataKind == "List" then ListOf(items) else MatrixOf(rows);
      && (r.Failure? ==> Take(dataKind, acc, current) == Failure(r.error))
      && (r.Success? ==> Take(dataKind, acc, current) == Success(if dataKind == "List" then ListOf(r.value.0) else MatrixOf(r.value.1)))
  {
    if "kind" !in current.properties {
      return Failure(MissingProperty("kind"));
    }
    if current.properties["kind"] != dataKind {
      return Failure(MixedKinds);
    }
    if "indexing" !in current.properties {
      return Failure(MissingProperty("indexing"));
    }
    if current.properties["indexing"] != "1-based" {
      return Failure(NotOneBased);
    }
    if dataKind == "List" {
      var index := Position(current, "index");
      if index.Failure? {
        return Failure(index.error);
      }
      if index.value < 0 {
        return Failure(BelowOne("index"));
      }
      var i: nat := index.value;
      var v := Value(current);
      if v.Failure? {
        return Failure(v.error);
      }
      var data := items;
      if i + 1 > |data| {
        data := data + seq(i + 1 - |data|, _ => None);
      }
      data := data[i := v.value];
      return Success((data, rows));
    }
    if dataKind != "Matrix" {
      return Failure(UnknownShape(dataKind));
    }
    var row := Position(current, "row");
    if row.Failure? {
      return Failure(row.error);
    }
    var col := Position(current, "column");
    if col.Failure? {
      return Failure(col.error);
    }
    if row.value < 0 {
      return Failure(BelowOne("row"));
    }
    if col.value < 0 {
      return Failure(BelowOne("column"));
    }
    var v := Value(current);
    if v.Failure? {
      return Failure(v.error);
    }
    var data := Grow(rows, row.value + 1 - |rows|);
    var c: nat := col.value;
    if c + 1 > |data[row.value]| {
      data := data[row.value := data[row.value] + seq(c + 1 - |data[row.value]|, _ => None)];
    }
    data := data[row.value := data[row.value][c := v.value]];
    assert data == PutCell(rows, row.value, c, v.value);
    return Success((items, data));
  }

  /** `for _ in range(count): data.append([])`. */
  method Grow(rows: seq<seq<Option<Scalar>>>, count: int) returns (data: seq<seq<Option<Scalar>>>)
    ensures count <= 0 ==> data == rows
    ensures count > 0 ==> |data| == |rows| + count && data[..|rows|] == rows
    ensures forall i :: |rows| <= i < |data| ==> data[i] == []
  {
    data := rows;
    var added := 0;
    while added < count
      invariant 0 <= added && (count >= 0 ==> added <= count) && (count <= 0 ==> added == 0)
      invariant added == 0 ==> data == rows
      invariant |data| == |rows| + added && data[..|rows|] == rows
      invariant forall i :: |rows| <= i < |data| ==> data[i] == []
    {
      data := data + [[]];
      added := added + 1;
    }
  }
}

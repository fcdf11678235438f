# data-manager core in Dafny

This project models the core of data-manager, a SQLAlchemy-based store for
the results of quantum-chemistry calculations. Projects own processing steps.
Processing steps depend on each other through an edge table, carry a keyword
-> value property dictionary and own Results. The model covers four parts:

- **The `Result` entity** (`result_data.dfy`, module `ResultData`). One stored
  scalar is kept as a type tag plus the text `str()` gives for it. The `data`
  setter accepts exactly `int`, `float` and `str`. The getter re-reads the text
  according to the tag. `int` is rendered and parsed as decimal text
  (`decimal.dfy`, module `Decimal`). A float is kept as its printed text,
  which the getter gives back unchanged.
- **Processing steps and the relational store** (`steps.dfy`, module `Steps`).
  The class `Database` holds:
  - the projects, steps and edges;
  - the step properties and keyword links;
  - the results table.

  `Database.Valid()` is the set of foreign keys plus the
  `check_no_self_dependence` constraint. The `preceding_steps` and
  `dependent_steps` views are two readings of the same edge set. Deleting a
  step or a project cascades through every table that references it.
- **Property queries** (`properties.dfy`, module `Properties`). It covers
  `has_properties` with ALL or ANY semantics, where values are compared after
  `str()`, plus `get_property_keys` and `get_property_values`. A property
  table is a map from owner to that owner's dictionary.
- **Collections.**
  - `insert_collection_result` (`collections.dfy`, module `Collections`): the
    source's loops become methods with invariants, proved against `Cells`,
    the sequence of (properties, value) cells the insert creates.
  - `get_collection_result` (`collection_rebuild.dfy`, module
    `CollectionRebuild`): a loop proved equal to `Fold`, with `ListMeaning`
    and `MatrixMeaning` stating what the rebuilt list or matrix holds.
  - Round trips (`collection_roundtrip.dfy`, `collection_scenarios.dfy`): a
    stored collection reads back as it went in.

The model follows the code where the code is narrower or looser than its
documentation:

- The edge table rejects only self-edges. Longer cycles are accepted because
  no check exists for them.
- The insert checks only that the collection and its first row are
  non-empty. Ragged matrices are stored row by row at the lengths the rows
  actually have. `total_dimension` is written on every element but never read.
- `len()` works on a `str` as well as a `list`. So a `str` first element sends
  the insert down the matrix path, where the characters become columns
  (`TwoStrsReadAsCharacters`).
- A first element with a length followed by one without sends the insert,
  after the matrix prefix, down the list path from element 0 again. When that
  first element is a `list` the setter refuses it there, so only the matrix
  prefix is stored and the insert raises. When it is a `str` and every other
  element is a scalar, the insert stores both the matrix prefix and the whole
  list, and reading that back raises (`MixedNotReadBack`, whose premise is
  that every cell is accepted, and `StrThenIntNotReadBack`).
- Empty rows at the end of a matrix store no Result, so they are not read back
  (`EmptyLastRowLost`, `MatrixRoundTrip`).

## Model

| member | source | states |
|---|---|---|
| `Decimal.IntRoundTrip` | packages/data_manager/orm/Result.py:34-35 | `int()` of the text `str()` gives for an integer is that integer |
| `Decimal.IntToStringInjective` | packages/data_manager/orm/Result.py:56 | two different integers never get the same stored text |
| `Decimal.NatRoundTrip` | packages/data_manager/orm/Result.py:34-35 | the digits printed for a natural number read back as that number |
| `ResultData.ScalarOf` | packages/data_manager/orm/Result.py:43-48 | a value whose exact type is int, float or str is the Python value of the scalar it is classified as |
| `ResultData.Encode` | packages/data_manager/orm/Result.py:41-56 | the setter succeeds exactly for values of type int, float or str. It stores the type's tag with `str(value)`. A list raises the list-specific error; a bool, like any other type, raises "Unsupported data type" naming it |
| `ResultData.Decode` | packages/data_manager/orm/Result.py:32-39 | the getter yields a value of the type the tag names, and float/str text comes back unchanged. It gives None exactly when the tag is none of int, float or str |
| `ResultData.EncodeDecode` | packages/data_manager/orm/Result.py:32-56 | for every scalar, the getter reads back what the setter stored |
| `ResultData.AcceptedRoundTrip` | packages/data_manager/orm/Result.py:32-56 | for every value the setter accepts, the getter gives back that value |
| `ResultData.AssignKeyword` | packages/data_manager/orm/Result.py:59-66 | with the (result, keyword) key, assigning a keyword sets its value and keeps every other keyword. The count grows only when the keyword is new |
| `ResultData.ResultEntity.constructor` | packages/data_manager/orm/Result.py:10-28 | a new Result is attached to its step with no data and no properties |
| `ResultData.ResultEntity.SetData` | packages/data_manager/orm/Result.py:41-56 | Pass exactly when the setter accepts the value. The columns then hold its tag and text, and the getter returns the value. A refused value changes neither column |
| `ResultData.ResultEntity.SetProperty` | packages/data_manager/orm/Result.py:20-28 | `properties[keyword] = value` inserts or replaces exactly that keyword |
| `ResultData.ResultScenario` | tests/test_orm.py:52-81 | -21.34 reads back as that float, with the one property state = 1.1. "Doublet" reads back as that str, with no property |
| `Properties.AllHold` | packages/data_manager/utils/properties.py:66-75 | the `and_` of the conditions holds exactly when every `keyword == key and value == str(v)` condition holds |
| `Properties.AnyHolds` | packages/data_manager/utils/properties.py:66-75 | the `or_` of the conditions holds exactly when some condition holds |
| `Properties.AllMeansEvery` | packages/data_manager/utils/properties.py:66-75 | with require_all, an owner matches exactly when every condition holds; with no conditions, every owner matches |
| `Properties.AnyMeansSome` | packages/data_manager/utils/properties.py:66-75 | without require_all, and with at least one condition, an owner matches exactly when some condition holds |
| `Properties.AllShrinks` | packages/data_manager/utils/properties.py:66-75 | under ALL, one more condition never adds an owner |
| `Properties.AnyGrows` | packages/data_manager/utils/properties.py:66-75 | under ANY, with at least one condition already, one more condition never drops an owner (with none, every owner matches, so the first condition can drop owners) |
| `Properties.ComparedAsText` | packages/data_manager/utils/properties.py:70 | condition values that print alike select the same owners |
| `Properties.IntAndStringAlike` | packages/data_manager/utils/properties.py:70 | the int 1 and the string "1" select the same owners |
| `Properties.InstanceKeys` | packages/data_manager/utils/properties.py:43-44 | for an instance, the keys are exactly its own dictionary's keys |
| `Properties.ClassKeysAreUnion` | packages/data_manager/utils/properties.py:38-46 | the keys of the class are the union of the keys of every instance |
| `Properties.OneValuePerKeyword` | packages/data_manager/utils/properties.py:54-58 | given an owner and a keyword, the values are that one value, or none when the keyword is absent |
| `Properties.ValuesNarrow` | packages/data_manager/utils/properties.py:54-58 | each restriction, to an owner or to a keyword, only removes values |
| `Steps.ViewsAgree` | packages/data_manager/orm/ProcessingStep.py:77-90 | b depends on a exactly when a precedes b: both views read one table |
| `Steps.EdgesWithoutNone` | packages/data_manager/orm/ProcessingStep.py:16-27 | deleting no step keeps every edge |
| `Steps.ViewsAfterDelete` | packages/data_manager/orm/ProcessingStep.py:16-27 | after a delete, a surviving step's views lose exactly the deleted steps |
| `Steps.ResultsWithout` | packages/data_manager/orm/Result.py:14-16 | the cascade from `processing_step_id` keeps exactly the Results of surviving steps |
| `Steps.ResultsOfGone` | packages/data_manager/orm/Result.py:14-16 | when every Result belongs to a deleted step, none survives |
| `Steps.ResultsWithoutNone` | packages/data_manager/orm/Result.py:14-16 | deleting no step keeps every Result, in order |
| `Steps.Database.constructor` | packages/data_manager/orm/ProcessingStep.py:13-48 | an empty store satisfies every constraint |
| `Steps.Database.AddProject` | packages/data_manager/orm/ProcessingStep.py:62-64 | inserting a project adds exactly that project and keeps the constraints |
| `Steps.Database.AddStep` | packages/data_manager/orm/ProcessingStep.py:51-65 | a step of an existing project is added with exactly its columns |
| `Steps.Database.AddKeyword` | packages/data_manager/orm/ProcessingStep.py:120-130 | inserting a keyword row adds exactly that keyword |
| `Steps.Database.LinkKeyword` | packages/data_manager/orm/ProcessingStep.py:33-48 | linking a step and a keyword adds exactly that association row |
| `Steps.Database.AddResult` | packages/data_manager/orm/Result.py:14-16 | a Result attached to an existing step is appended to the table, and the constraints are kept |
| `Steps.Database.AddPreceding` | packages/data_manager/orm/ProcessingStep.py:13-31 | the edge is stored exactly when both steps exist and differ. A self-edge fails the CHECK constraint and leaves the table unchanged. On success both views show the edge, and the views of the other steps are unchanged |
| `Steps.Database.SetStepProperty` | packages/data_manager/orm/ProcessingStep.py:92-117 | `step.properties[k] = v` sets that keyword of that step only |
| `Steps.Database.DeleteSteps` | packages/data_manager/orm/ProcessingStep.py:13-48 | deleting steps removes them, their edges in both directions, their property rows, their keyword links and their Results |
| `Steps.Database.DeleteStep` | packages/data_manager/orm/ProcessingStep.py:16-27 | after deleting one step, it has no edges or properties, and every other step's views lose only that step |
| `Steps.Database.DeleteProject` | packages/data_manager/orm/ProcessingStep.py:62-64 | deleting a project removes it and its steps. It removes exactly the edges, property rows, keyword links and Results of those steps; those of every other step are kept. Deleting a project that does not exist changes no step, edge or Result |
| `Steps.Database.UnownedNone` | packages/data_manager/orm/ProcessingStep.py:62-64 | with the foreign key, a missing project owns no step |
| `Steps.Orphans` | packages/data_manager/orm/ProcessingStep.py:62-64 | with no project left, the foreign keys leave no step and no edge |
| `Steps.StepScenario` | tests/test_orm.py:104-136 | RHF precedes CCSD: RHF has no preceding and one dependent step, CCSD the reverse. RHF's properties are exactly basis = cc-pVTZ |
| `Steps.DeleteProjectScenario` | demo/demo.py:125-132 | deleting the project takes the step count from 2 to 0; the edge between the steps and the Result of each step go with them |
| `Collections.Items` | packages/data_manager/utils/results.py:17-27 | indexing a value with a length gives as many items as `len()` |
| `Collections.SizedRows` | packages/data_manager/utils/results.py:26-38 | the rows before the first element without a length, where the matrix loop meets the `TypeError` |
| `Collections.FirstRefused` | packages/data_manager/utils/results.py:28-30 | the cells before it are all accepted by the setter, and the cell at it is refused |
| `Collections.FirstRefusedIs` | packages/data_manager/utils/results.py:28-30 | an accepted prefix followed by a refused cell, or by the end, is where the insert stops |
| `Collections.InsertCollection` | packages/data_manager/utils/results.py:9-46 | an empty collection or empty first row is refused, and nothing is stored. Otherwise one Result per cell is appended, up to the first refused value, which is reported. Pass exactly when every cell is stored |
| `Collections.InsertList` | packages/data_manager/utils/results.py:38-46 | the list loop appends one Result per element with its 1-based index, and stops at the first refused value |
| `Collections.InsertMatrix` | packages/data_manager/utils/results.py:26-36 | the matrix loop appends one Result per element of each row with 1-based row and column. It stops at a refused value or at the first row without a length |
| `Collections.InsertMatrixRow` | packages/data_manager/utils/results.py:27-36 | the inner loop stores the elements of one row in order, or stops at a refused one |
| `Collections.StoreMatrixElement` | packages/data_manager/utils/results.py:28-36 | one element's Result is stored when the setter accepts it. Otherwise nothing changes and the setter's error is reported |
| `Collections.NewMatrixResult` | packages/data_manager/utils/results.py:28-36 | the new Result carries the element's value and exactly the matrix properties |
| `Collections.WriteMatrixProperties` | packages/data_manager/utils/results.py:31-36 | the six property assignments leave exactly kind, indexing, row, column, original_collection_type and total_dimension |
| `Collections.NewListResult` | packages/data_manager/utils/results.py:41-46 | the new Result carries the element's value and exactly the list properties |
| `Collections.WriteListProperties` | packages/data_manager/utils/results.py:42-46 | the five property assignments leave exactly kind, indexing, index, original_collection_type and total_dimension |
| `Collections.StoredRowIs` | packages/data_manager/utils/results.py:28-30 | a Result with the step, kind, stored data and properties of a cell is that cell's row |
| `CollectionRebuild.Select` | packages/data_manager/utils/results.py:52-56 | the query returns exactly the Results of that kind and step, in table order |
| `CollectionRebuild.PositionOfWritten` | packages/data_manager/utils/results.py:70 | a position the insert wrote as `str(i + 1)` reads back through `int(...) - 1` as `i` |
| `CollectionRebuild.ValueOfStored` | packages/data_manager/utils/results.py:76 | the data of a Result the setter stored from a scalar reads back as that scalar |
| `CollectionRebuild.Put` | packages/data_manager/utils/results.py:73-76 | padding with None up to the index, then assigning it, changes only that position |
| `CollectionRebuild.PutCell` | packages/data_manager/utils/results.py:84-90 | padding with empty rows and then with None, then assigning (row, col), changes only that place |
| `CollectionRebuild.Take` | packages/data_manager/utils/results.py:63-90 | one turn of the loop keeps the shape the first Result's kind chose |
| `CollectionRebuild.Fold` | packages/data_manager/utils/results.py:63-90 | the loop builds a list exactly when the kind is "List" |
| `CollectionRebuild.FoldNext` | packages/data_manager/utils/results.py:63-90 | the loop over one more Result is one more turn, unless it already raised |
| `CollectionRebuild.FoldStops` | packages/data_manager/utils/results.py:63-90 | once a Result raises, the reader raises that error whatever follows |
| `CollectionRebuild.TakeKind` | packages/data_manager/utils/results.py:64-67 | a turn succeeds only on a Result whose kind is the first one's and whose indexing is "1-based" |
| `CollectionRebuild.FoldOneKind` | packages/data_manager/utils/results.py:60-68 | the reader succeeds only when every Result carries the first one's kind and 1-based indexing |
| `CollectionRebuild.ListLookupBeyond` | packages/data_manager/utils/results.py:69-76 | beyond the largest index no Result has that index |
| `CollectionRebuild.ListMeaning` | packages/data_manager/utils/results.py:69-76 | the rebuilt list is as long as the largest index. Each position holds the data of the last Result with that index, or None |
| `CollectionRebuild.RowExtentBeyond` | packages/data_manager/utils/results.py:77-90 | beyond the largest row number no row has a column |
| `CollectionRebuild.CellLookupBeyond` | packages/data_manager/utils/results.py:77-90 | outside the extents no Result names that place |
| `CollectionRebuild.MatrixMeaning` | packages/data_manager/utils/results.py:77-90 | the rebuilt matrix has as many rows as the largest row number. Each row is as long as the largest column used in it, and each place holds the last Result's data there, or None |
| `CollectionRebuild.GetCollection` | packages/data_manager/utils/results.py:49-92 | the reader's outcome on the store is `Rebuild` of the selected Results |
| `CollectionRebuild.ReadAll` | packages/data_manager/utils/results.py:62-92 | the loop over the selected Results computes the fold of its turns |
| `CollectionRebuild.ReadInto` | packages/data_manager/utils/results.py:64-90 | the loop body is one turn of the fold |
| `CollectionRebuild.Grow` | packages/data_manager/utils/results.py:84-85 | appending `row + 1 - len(data)` empty rows keeps the old rows and adds only empty ones |
| `CollectionRoundTrip.ListFold` | packages/data_manager/utils/results.py:38-46 | the reader's loop over the Results stored for a list of scalars gives the list |
| `CollectionRoundTrip.ListRoundTrip` | packages/data_manager/utils/results.py:38-92 | a list of scalars stored by the list branch reads back as the same list |
| `CollectionRoundTrip.MatrixFold` | packages/data_manager/utils/results.py:26-36 | the reader's loop over a stored matrix gives its rows, less the empty rows at its end |
| `CollectionRoundTrip.RebuildFold` | packages/data_manager/utils/results.py:60 | the kind of the first selected Result decides the shape |
| `CollectionRoundTrip.MatrixRoundTrip` | packages/data_manager/utils/results.py:26-92 | a matrix of scalars reads back as its rows, less the empty rows at its end, ragged rows kept as they are |
| `CollectionRoundTrip.MatrixRoundTripExact` | packages/data_manager/utils/results.py:26-92 | a matrix whose last row is not empty reads back exactly |
| `CollectionScenarios.SelectForeign` | packages/data_manager/utils/results.py:52-56 | Results of other kinds are never selected |
| `CollectionScenarios.InsertThenSelect` | packages/data_manager/utils/results.py:52-56 | after an insert into an unused (kind, step) pair, the query returns exactly the inserted rows, in order |
| `CollectionScenarios.AllStored` | packages/data_manager/utils/results.py:26-46 | when every value is accepted the insert stores every cell |
| `CollectionScenarios.ListPath` | packages/data_manager/utils/results.py:38-46 | a list whose first element has no length takes the list path |
| `CollectionScenarios.ListInsertGet` | packages/data_manager/utils/results.py:9-92 | a non-empty list of scalars whose first element is not a str, inserted under a (kind, step) pair that holds no earlier Result, is stored whole and reads back as the list; Results under other pairs do not matter |
| `CollectionScenarios.MatrixPath` | packages/data_manager/utils/results.py:17-36 | a non-empty list whose elements all have a length, with a non-empty first row, takes the matrix path for every row, whatever the elements are |
| `CollectionScenarios.MatrixInsertGet` | packages/data_manager/utils/results.py:9-92 | a non-empty list of rows that all have a length and hold only scalars, with a non-empty first row, inserted under a (kind, step) pair that holds no earlier Result, is stored whole and reads back as its rows less the empty rows at its end |
| `CollectionScenarios.TwoKinds` | packages/data_manager/utils/results.py:52-56 | two inserts of different kinds into one step each read back only their own rows |
| `CollectionScenarios.TwoCollections` | tests/test_utils.py:18-47 | into a store holding one step and no Results, a list as in `ListInsertGet` and a matrix as in `MatrixInsertGet`, inserted under two different kinds of that step, both pass and each reads back as it went in (the matrix less the empty rows at its end) |
| `CollectionScenarios.CollectionResultsScenario` | tests/test_utils.py:23-47 | `[1, "test", 0.25]` and `[[1, 2, 3], ["4", 5, "6"]]` read back exactly |
| `CollectionScenarios.KindsDiffer` | packages/data_manager/utils/results.py:64-67 | Results that start with a matrix element and end with a list element raise in the reader |
| `CollectionScenarios.MixedCells` | packages/data_manager/utils/results.py:26-46 | when a later element has no length, the cells start with matrix element (1, 1) and end with a list element |
| `CollectionScenarios.StoredProperties` | packages/data_manager/utils/results.py:28-46 | each stored Result carries its cell's properties |
| `CollectionScenarios.MixedNotReadBack` | packages/data_manager/utils/results.py:26-67 | a collection whose first element has a length and a later one none is stored, but cannot be read back |
| `CollectionScenarios.StrThenIntNotReadBack` | packages/data_manager/utils/results.py:17-67 | `["ab", 1]` is stored, but reading it back raises |
| `CollectionScenarios.TwoStrsReadAsCharacters` | packages/data_manager/utils/results.py:17-36 | `["ab", "cd"]` takes the matrix path and reads back as `[["a", "b"], ["c", "d"]]` |
| `CollectionScenarios.EmptyLastRowLost` | packages/data_manager/utils/results.py:26-36 | `[[1], []]` stores one element and reads back as `[[1]]` |

## Left out

- Sessions, flushes, commits and rollbacks are not modelled. Each modelled operation is one atomic change of the store, and a raise leaves what was done before it in place.
- The engine's id assignment is not modelled. Ids are parameters chosen by the caller.
- The ORM side effect of a Result whose setter raised is not modelled: Python has already attached the half-built object to its step through the backref. Only the Results whose data was set are stored.
- `Collections.InsertCollection` does not model the check against objects of more than two dimensions (results.py lines 20-24). Its `except: pass` swallows the RuntimeError it raises itself, so the check never changes the outcome.
- Query order is modelled as table (insertion) order. SQL does not guarantee it, and the source relies on it.
- `float()` and `str()` of floats are not modelled. A float is kept as its printed text, so float round trips are exact by construction.
- `Decimal.ParseInt` accepts an optional sign and decimal digits only. Python's `int()` also accepts surrounding whitespace and underscores, which the texts stored here never contain.
- Host, System, Project attributes other than the id, Calculation, Method, BasisSet and the other ORM classes are not part of this model. Neither are the query helpers under `queries/`, the find-or-insert helpers, or the reflection helpers `get_property_class` and `get_id_member`.
- `Collections.Len` treats every value outside `list` and `str` as having no length, which is what `PyOther` stands for. Tuples, dicts, sets, bytes and ranges do have a length in Python, so `[(1, 2), (3, 4)]` would take the matrix path there; these types are not modelled.
- `Properties.HasProperties` takes condition values of type int, float or str only. `str()` of other values (`str(True) == "True"`, `str(None) == "None"`) is not modelled.
- `ResultData.ResultEntity.SetData` accepts every int. CPython's `str()` refuses ints above its digit limit (4300 digits by default) after the type column has already been set; that limit is not modelled.
- Foreign-key violations are modelled as an error only for edges: `Steps.Database.AddPreceding` returns `UnknownStep` for a missing step, while `AddStep`, `LinkKeyword` and `AddResult` require their parent to exist, since the source passes parents as objects that are already in the store.
- Keyword rows are not deleted with a step. Only their association rows cascade, as the schema says.
- `onupdate="CASCADE"` (renumbering ids) is not modelled: ids never change here.
- The deletion demo's delete of a non-existent project (demo.py line 118) is covered by `Steps.Database.DeleteProject` on a missing id, not by a scenario of its own.

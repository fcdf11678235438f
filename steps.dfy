/**
 * Processing steps, the edge table `processing_step_hierarchy`, the step
 * property table, the keyword links and the results owned by the steps,
 * with the cascading deletes their foreign keys declare.
 */
module Steps {
  import opened Wrappers
  import opened ResultData

  /** The columns of a `processing_steps` row that the model keeps. */
  datatype StepInfo = StepInfo(kind: string, project: int, outputPath: Option<string>)

  /** Why the store refuses an edge. */
  datatype EdgeError =
    | SelfDependence     // CHECK constraint check_no_self_dependence
    | UnknownStep        // a foreign key names no step

  /** `preceding_steps` of step `s`: the steps the edge table lists before `s`. */
  function Preceding(edges: set<(int, int)>, s: int): (r: set<int>)
  {
    set e | e in edges && e.1 == s :: e.0
  }

  /** `dependent_steps` of step `s`: the steps the edge table lists after `s`. */
  function Dependent(edges: set<(int, int)>, s: int): (r: set<int>)
  {
    set e | e in edges && e.0 == s :: e.1
  }

  /** Both relationship views read the same table, so they always agree. */
  lemma ViewsAgree(edges: set<(int, int)>, a: int, b: int)
    ensures b in Dependent(edges, a) <==> a in Preceding(edges, b)
  {
  }

  /** The edges that survive deleting the steps in `gone`. */
  function EdgesWithout(edges: set<(int, int)>, gone: set<int>): (r: set<(int, int)>)
  {
    set e | e in edges && e.0 !in gone && e.1 !in gone
  }

  /** Deleting no step keeps every edge. */
  lemma EdgesWithoutNone(edges: set<(int, int)>)
    ensures EdgesWithout(edges, {}) == edges
  {
  }

  /** Deleting steps removes exactly those steps from every surviving step's views. */
  lemma ViewsAfterDelete(edges: set<(int, int)>, gone: set<int>, s: int)
    requires s !in gone
    ensures Preceding(EdgesWithout(edges, gone), s) == Preceding(edges, s) - gone
    ensures Dependent(EdgesWithout(edges, gone), s) == Dependent(edges, s) - gone
  {
  }

  /** The results that survive deleting the steps in `gone`, in their order. */
  function ResultsWithout(results: seq<Row>, gone: set<int>): (r: seq<Row>)
    ensures |r| <= |results|
    ensures forall i :: 0 <= i < |r| ==> r[i].step !in gone
    ensures forall x :: x in r <==> x in results && x.step !in gone
  {
    if results == [] then []
    else if results[0].step in gone then ResultsWithout(results[1..], gone)
    else [results[0]] + ResultsWithout(results[1..], gone)
  }

  /** Deleting no step keeps every result, in order. */
  lemma {:induction false} ResultsWithoutNone(results: seq<Row>)
    ensures ResultsWithout(results, {}) == results
  {
    if results != [] {
      ResultsWithoutNone(results[1..]);
      assert [results[0]] + results[1..] == results;
    }
  }

  /** Deleting steps removes every Result they own. */
  lemma {:induction false} ResultsOfGone(results: seq<Row>, gone: set<int>)
    requires forall i :: 0 <= i < |results| ==> results[i].step in gone
    ensures ResultsWithout(results, gone) == []
  {
    if results != [] {
      ResultsOfGone(results[1..], gone);
    }
  }

  /** The relational store of steps and what hangs off them. */
  class Database {
    var projects: set<int>
    var steps: map<int, StepInfo>
    /** Rows (preceding_step_id, dependent_step_id); the composite key makes them a set. */
    var edges: set<(int, int)>
    /** Rows of `processing_step_properties`, keyed (step_id, keyword). */
    var stepProperties: map<int, map<string, string>>
    var keywords: set<int>
    /** Rows (processing_step_id, keyword_id) of the keyword association. */
    var keywordLinks: set<(int, int)>
    /** Rows of `results`, each with its property rows. */
    var results: seq<Row>

    /** Every constraint the schema declares: foreign keys and the no-self-edge check. */
    ghost predicate Valid()
      reads this
    {
      && (forall s :: s in steps ==> steps[s].project in projects)
      && (forall e :: e in edges ==> e.0 in steps && e.1 in steps && e.0 != e.1)
      && stepProperties.Keys <= steps.Keys
      && (forall l :: l in keywordLinks ==> l.0 in steps && l.1 in keywords)
      && (forall i :: 0 <= i < |results| ==> results[i].step in steps)
    }

    constructor ()
      ensures Valid()
      ensures projects == {} && steps == map[] && edges == {} && stepProperties == map[]
      ensures keywords == {} && keywordLinks == {} && results == []
    {
      projects, steps, edges, stepProperties := {}, map[], {}, map[];
      keywords, keywordLinks, results := {}, {}, [];
    }

    /** Inserts a project row; `id` is the key the engine assigns. */
    method AddProject(id: int)
      requires Valid() && id !in projects
      modifies this`projects
      ensures Valid() && projects == old(projects) + {id}
    {
      projects := projects + {id};
    }

    /** Inserts a step row belonging to an existing project; `id` is the key the engine assigns. */
    method AddStep(id: int, info: StepInfo)
      requires Valid() && id !in steps && info.project in projects
      modifies this`steps
      ensures Valid() && steps == old(steps)[id := info]
    {
      steps := steps[id := info];
    }

    /** Inserts a keyword row. */
    method AddKeyword(id: int)
      requires Valid() && id !in keywords
      modifies this`keywords
      ensures Valid() && keywords == old(keywords) + {id}
    {
      keywords := keywords + {id};
    }

    /** `step.keywords.add(keyword)`. */
    method LinkKeyword(step: int, keyword: int)
      requires Valid() && step in steps && keyword in keywords
      modifies this`keywordLinks
      ensures Valid() && keywordLinks == old(keywordLinks) + {(step, keyword)}
    {
      keywordLinks := keywordLinks + {(step, keyword)};
    }

    /** `session.add(result)` for a Result attached to an existing step. */
    method AddResult(row: Row)
      requires Valid() && row.step in steps
      modifies this`results
      ensures Valid() && results == old(results) + [row]
    {
      results := results + [row];
    }

    /**
     * `dependent.preceding_steps.add(preceding)` and its flush: one row in the
     * edge table, seen by both views. A self-edge violates the CHECK
     * constraint; an edge to a missing step violates a foreign key; either
     * way the table is unchanged. Adding an edge already present changes nothing.
     */
    method AddPreceding(preceding: int, dependent: int) returns (r: Outcome<EdgeError>)
      requires Valid()
      modifies this`edges
      ensures Valid()
      ensures r.Pass? <==> preceding in steps && dependent in steps && preceding != dependent
      ensures r == Fail(SelfDependence) <==> preceding == dependent
      ensures edges == if r.Pass? then old(edges) + {(preceding, dependent)} else old(edges)
      ensures r.Pass? ==> preceding in Preceding(edges, dependent) && dependent in Dependent(edges, preceding)
      ensures forall s :: s != dependent ==> Preceding(edges, s) == Preceding(old(edges), s)
      ensures forall s :: s != preceding ==> Dependent(edges, s) == Dependent(old(edges), s)
    {
      if preceding == dependent {
        return Fail(SelfDependence);
      }
      if preceding !in steps || dependent !in steps {
        return Fail(UnknownStep);
      }
      edges := edges + {(preceding, dependent)};
      r := Pass;
    }

    /** The property dictionary of a step (empty when it has no rows). */
    function StepProperties(step: int): map<string, string>
      reads this
    {
      if step in stepProperties then stepProperties[step] else map[]
    }

    /** `step.properties[keyword] = value`: inserts the keyword or replaces its value. */
    method SetStepProperty(step: int, keyword: string, value: string)
      requires Valid() && step in steps
      modifies this`stepProperties
      ensures Valid()
      ensures StepProperties(step) == old(StepProperties(step))[keyword := value]
      ensures forall s :: s != step ==> StepProperties(s) == old(StepProperties(s))
    {
      stepProperties := stepProperties[step := StepProperties(step)[keyword := value]];
    }

    /**
     * Deletes the steps in `gone`, cascading through every table that
     * references them: edges in both directions, property rows, keyword
     * links and results (whose property rows go with them).
     */
    method DeleteSteps(gone: set<int>)
      requires Valid()
      modifies this`steps, this`edges, this`stepProperties, this`keywordLinks, this`results
      ensures Valid()
      ensures steps == map s | s in old(steps) && s !in gone :: old(steps)[s]
      ensures edges == EdgesWithout(old(edges), gone)
      ensures stepProperties == map s | s in old(stepProperties) && s !in gone :: old(stepProperties)[s]
      ensures keywordLinks == set l | l in old(keywordLinks) && l.0 !in gone
      ensures results == ResultsWithout(old(results), gone)
    {
      steps := map s | s in steps && s !in gone :: steps[s];
      edges := EdgesWithout(edges, gone);
      stepProperties := map s | s in stepProperties && s !in gone :: stepProperties[s];
      keywordLinks := set l | l in keywordLinks && l.0 !in gone;
      results := ResultsWithout(results, gone);
    }

    /** `session.delete(step)`. */
    method DeleteStep(step: int)
      requires Valid()
      modifies this`steps, this`edges, this`stepProperties, this`keywordLinks, this`results
      ensures Valid()
      ensures steps.Keys == old(steps.Keys) - {step}
      ensures forall s :: s in steps ==> steps[s] == old(steps[s])
      ensures Preceding(edges, step) == {} && Dependent(edges, step) == {}
      ensures forall s :: s != step ==> Preceding(edges, s) == Preceding(old(edges), s) - {step}
      ensures forall s :: s != step ==> Dependent(edges, s) == Dependent(old(edges), s) - {step}
      ensures StepProperties(step) == map[]
      ensures forall s :: s != step ==> StepProperties(s) == old(StepProperties(s))
      ensures forall l :: l in keywordLinks <==> l in old(keywordLinks) && l.0 != step
      ensures results == ResultsWithout(old(results), {step})
    {
      DeleteSteps({step});
      forall s | s != step
        ensures Preceding(edges, s) == Preceding(old(edges), s) - {step}
        ensures Dependent(edges, s) == Dependent(old(edges), s) - {step}
      {
        ViewsAfterDelete(old(edges), {step}, s);
      }
    }

    /** The steps that belong to a project. */
    function StepsOf(project: int): (r: set<int>)
      reads this
    {
      set s | s in steps && steps[s].project == project
    }

    /** `session.delete(project)`: its steps go, and everything that hangs off them. */
    method DeleteProject(project: int)
      requires Valid()
      modifies this`projects, this`steps, this`edges, this`stepProperties, this`keywordLinks, this`results
      ensures Valid()
      ensures projects == old(projects) - {project}
      ensures StepsOf(project) == {}
      ensures steps == map s | s in old(steps) && old(steps)[s].project != project :: old(steps)[s]
      ensures edges == EdgesWithout(old(edges), old(StepsOf(project)))
      ensures stepProperties == map s | s in old(stepProperties) && s !in old(StepsOf(project)) :: old(stepProperties)[s]
      ensures keywordLinks == set l | l in old(keywordLinks) && l.0 !in old(StepsOf(project))
      ensures results == ResultsWithout(old(results), old(StepsOf(project)))
      ensures project !in old(projects) ==> steps == old(steps) && edges == old(edges) && results == old(results)
    {
      if project !in projects {
        UnownedNone(project);
        EdgesWithoutNone(edges);
        ResultsWithoutNone(results);
      }
      DeleteSteps(StepsOf(project));
      projects := projects - {project};
    }

    /** A project missing from the table owns no step. */
    lemma UnownedNone(project: int)
      requires Valid() && project !in projects
      ensures StepsOf(project) == {}
    {
      forall s | s in StepsOf(project) ensures false { assert false; }
    }
  }

  /** One project with the steps RHF (1) and CCSD (2), step 1 preceding step 2. */
  method TwoSteps() returns (db: Database)
    ensures fresh(db) && db.Valid()
    ensures db.projects == {1} && db.steps == map[1 := StepInfo("RHF", 1, None), 2 := StepInfo("CCSD", 1, None)]
    ensures db.edges == {(1, 2)} && db.stepProperties == map[] && db.results == []
  {
    db := new Database();
    db.AddProject(1);
    db.AddStep(1, StepInfo("RHF", 1, None));
    db.AddStep(2, StepInfo("CCSD", 1, None));
    var r := db.AddPreceding(1, 2);
  }

  /**
   * The scenario of the step test: step 2 is created with step 1 as its
   * preceding step, and step 1 gets the property basis = cc-pVTZ.
   */
  method StepScenario() returns (db: Database)
    ensures db.Valid()
    ensures Preceding(db.edges, 1) == {} && Dependent(db.edges, 1) == {2}
    ensures Preceding(db.edges, 2) == {1} && Dependent(db.edges, 2) == {}
    ensures db.StepProperties(1) == map["basis" := "cc-pVTZ"]
  {
    db := TwoSteps();
    db.SetStepProperty(1, "basis", "cc-pVTZ");
    assert Dependent(db.edges, 1) == {2} by { assert 2 in Dependent(db.edges, 1); }
    assert Preceding(db.edges, 2) == {1} by { assert 1 in Preceding(db.edges, 2); }
  }

  /** With no project left, the foreign keys leave no step and no edge. */
  lemma Orphans(projects: set<int>, steps: map<int, StepInfo>, edges: set<(int, int)>)
    requires projects == {}
    requires forall s :: s in steps ==> steps[s].project in projects
    requires forall e :: e in edges ==> e.0 in steps
    ensures steps == map[] && edges == {}
  {
    forall s | s in steps ensures false { assert false; }
    assert steps.Keys == {};
    forall e | e in edges ensures false { assert false; }
  }

  /**
   * The scenario of the deletion demo: the project of the step test owns both
   * steps, and each step owns one Energy Result with state 1.1; deleting the
   * project takes the step count from 2 to 0, and with the steps go their
   * edges and both Results.
   */
  method DeleteProjectScenario() returns (db: Database, before: nat, after: nat, resultsBefore: nat)
    ensures db.Valid()
    ensures before == 2 && after == 0 && resultsBefore == 2
    ensures db.projects == {} && db.edges == {} && db.results == []
  {
    db := TwoSteps();
    db.AddResult(Row(1, "Energy", "float", "-738.735229", map["state" := "1.1"]));
    db.AddResult(Row(2, "Energy", "float", "-738.945872", map["state" := "1.1"]));
    before, resultsBefore := |db.steps|, |db.results|;
    ghost var gone := db.StepsOf(1);
    assert 1 in gone && 2 in gone;
    ResultsOfGone(db.results, gone);
    db.DeleteProject(1);
    Orphans(db.projects, db.steps, db.edges);
    after := |db.steps|;
  }
}

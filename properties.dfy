/**
 * Queries over the keyed property tables (`result_properties`,
 * `processing_step_properties`). A property table is modelled as a map from
 * owner id to that owner's keyword -> value dictionary; the composite primary
 * key (owner, keyword) makes it a function. Every owner of the class has an
 * entry, possibly empty.
 */
module Properties {
  import opened Wrappers
  import opened ResultData

  type PropertyTable = map<int, map<string, string>>

  /** One condition of `has_properties`: the owner has `key` with value `str(value)`. */
  predicate Holds(props: map<string, string>, key: string, value: Scalar) {
    key in props && props[key] == Text(value)
  }

  /** `and_(*conditions)` over a non-empty condition list. */
  function AllHold(props: map<string, string>, conditions: seq<(string, Scalar)>): (r: bool)
    requires conditions != []
    ensures r <==> forall i :: 0 <= i < |conditions| ==> Holds(props, conditions[i].0, conditions[i].1)
  {
    if |conditions| == 1 then Holds(props, conditions[0].0, conditions[0].1)
    else Holds(props, conditions[0].0, conditions[0].1) && AllHold(props, conditions[1..])
  }

  /** `or_(*conditions)` over a non-empty condition list. */
  function AnyHolds(props: map<string, string>, conditions: seq<(string, Scalar)>): (r: bool)
    requires conditions != []
    ensures r <==> exists i :: 0 <= i < |conditions| && Holds(props, conditions[i].0, conditions[i].1)
  {
    if |conditions| == 1 then Holds(props, conditions[0].0, conditions[0].1)
    else Holds(props, conditions[0].0, conditions[0].1) || AnyHolds(props, conditions[1..])
  }

  /**
   * `has_properties(owner, require_all, **conditions)` evaluated for one owner.
   * With no conditions neither `and_()` nor `or_()` adds a criterion, so every
   * owner matches.
   */
  function HasProperties(props: map<string, string>, conditions: seq<(string, Scalar)>, requireAll: bool): bool {
    if conditions == [] then true
    else if requireAll then AllHold(props, conditions)
    else AnyHolds(props, conditions)
  }

  /** The owners a query filtered by `has_properties` selects. */
  function Matching(table: PropertyTable, conditions: seq<(string, Scalar)>, requireAll: bool): (r: set<int>)
  {
    set o | o in table && HasProperties(table[o], conditions, requireAll)
  }

  /** Under ALL, an owner matches exactly when every condition holds. */
  lemma AllMeansEvery(props: map<string, string>, conditions: seq<(string, Scalar)>)
    ensures HasProperties(props, conditions, true) <==>
      forall i :: 0 <= i < |conditions| ==> Holds(props, conditions[i].0, conditions[i].1)
  {
  }

  /** Under ANY with at least one condition, an owner matches exactly when some condition holds. */
  lemma AnyMeansSome(props: map<string, string>, conditions: seq<(string, Scalar)>)
    requires conditions != []
    ensures HasProperties(props, conditions, false) <==>
      exists i :: 0 <= i < |conditions| && Holds(props, conditions[i].0, conditions[i].1)
  {
  }

  /** Under ALL, one more condition can only shrink the selection. */
  lemma AllShrinks(table: PropertyTable, conditions: seq<(string, Scalar)>, extra: (string, Scalar))
    ensures Matching(table, conditions + [extra], true) <= Matching(table, conditions, true)
  {
    var more := conditions + [extra];
    forall o | o in Matching(table, more, true)
      ensures o in Matching(table, conditions, true)
    {
      forall i | 0 <= i < |conditions|
        ensures Holds(table[o], conditions[i].0, conditions[i].1)
      {
        assert more[i] == conditions[i];
      }
    }
  }

  /** Under ANY, one more condition can only grow a selection that already had a condition. */
  lemma AnyGrows(table: PropertyTable, conditions: seq<(string, Scalar)>, extra: (string, Scalar))
    requires conditions != []
    ensures Matching(table, conditions, false) <= Matching(table, conditions + [extra], false)
  {
    var more := conditions + [extra];
    forall o | o in Matching(table, conditions, false)
      ensures o in Matching(table, more, false)
    {
      var i :| 0 <= i < |conditions| && Holds(table[o], conditions[i].0, conditions[i].1);
      assert more[i] == conditions[i];
    }
  }

  /**
   * Condition values are compared after `str()`: two condition lists whose
   * keys agree and whose values print alike select the same owners.
   */
  lemma ComparedAsText(props: map<string, string>, a: seq<(string, Scalar)>, b: seq<(string, Scalar)>, requireAll: bool)
    requires |a| == |b|
    requires forall i :: 0 <= i < |a| ==> a[i].0 == b[i].0 && Text(a[i].1) == Text(b[i].1)
    ensures HasProperties(props, a, requireAll) == HasProperties(props, b, requireAll)
  {
    if a != [] {
      if requireAll {
        assert AllHold(props, a) == AllHold(props, b);
      } else {
        if AnyHolds(props, a) {
          var i :| 0 <= i < |a| && Holds(props, a[i].0, a[i].1);
          assert Holds(props, b[i].0, b[i].1);
        }
        if AnyHolds(props, b) {
          var i :| 0 <= i < |b| && Holds(props, b[i].0, b[i].1);
          assert Holds(props, a[i].0, a[i].1);
        }
      }
    }
  }

  /** In particular the integer 1 and the string "1" select the same owners. */
  lemma IntAndStringAlike(props: map<string, string>, key: string, requireAll: bool)
    ensures HasProperties(props, [(key, IntValue(1))], requireAll) == HasProperties(props, [(key, StrValue("1"))], requireAll)
  {
    assert Text(IntValue(1)) == "1";
  }

  /**
   * `get_property_keys`: the distinct keywords of one owner (`owner` given, as
   * for an instance) or of every owner of the class (`owner` is None).
   */
  function PropertyKeys(table: PropertyTable, owner: Option<int>): (r: set<string>)
  {
    set o, k | o in table && (owner.None? || owner == Some(o)) && k in table[o] :: k
  }

  /**
   * The values of one owner's dictionary, under keyword `key` when it is
   * given. The ensures is the membership fact the value lemmas below use.
   */
  function OwnerValues(props: map<string, string>, key: Option<string>): (r: set<string>)
    ensures forall v :: v in r <==> exists k :: k in props && (key.None? || key == Some(k)) && props[k] == v
  {
    set k | k in props && (key.None? || key == Some(k)) :: props[k]
  }

  /**
   * `get_property_values`: the distinct values, of one owner when `owner` is
   * given and under one keyword when `key` is given. The ensures is the
   * membership fact the value lemmas below use.
   */
  function PropertyValues(table: PropertyTable, owner: Option<int>, key: Option<string>): (r: set<string>)
    ensures forall v :: v in r <==> exists o :: o in table && (owner.None? || owner == Some(o)) && v in OwnerValues(table[o], key)
  {
    set o, v | o in table && (owner.None? || owner == Some(o)) && v in OwnerValues(table[o], key) :: v
  }

  /** The keys of an instance are the keys of its own dictionary. */
  lemma InstanceKeys(table: PropertyTable, o: int)
    requires o in table
    ensures PropertyKeys(table, Some(o)) == table[o].Keys
  {
  }

  /** The keys of the class are the union of every instance's keys. */
  lemma ClassKeysAreUnion(table: PropertyTable, k: string)
    ensures k in PropertyKeys(table, None) <==> exists p :: p in table && k in PropertyKeys(table, Some(p))
  {
  }

  /** One owner has at most one value per keyword: the projection on (owner, keyword) is that value. */
  lemma OneValuePerKeyword(table: PropertyTable, o: int, k: string)
    ensures PropertyValues(table, Some(o), Some(k)) == if o in table && k in table[o] then {table[o][k]} else {}
  {
  }

  /** Restricting to an owner or to a keyword can only remove values. */
  lemma ValuesNarrow(table: PropertyTable, o: int, k: string)
    ensures PropertyValues(table, Some(o), Some(k)) <= PropertyValues(table, Some(o), None) <= PropertyValues(table, None, None)
    ensures PropertyValues(table, Some(o), Some(k)) <= PropertyValues(table, None, Some(k)) <= PropertyValues(table, None, None)
  {
  }
}

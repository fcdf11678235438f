/**
 * The `Result` entity: one stored scalar with its type tag, and its keyed
 * property dictionary (table `result_properties`, primary key
 * (result_id, keyword)).
 */
module ResultData {
  import opened Wrappers
  import Decimal

  /** A Python float, identified by the text `str` gives for it. */
  datatype Float = Float(repr: string)

  /** The scalar kinds a Result can hold. */
  datatype Scalar = IntValue(i: int) | FloatValue(f: Float) | StrValue(s: string)

  /**
   * A Python value handed to the `data` setter, classified by its exact type:
   * `bool` is its own type (not `int`), and any other type is named.
   * `PyOther` stands for a value without a length (`len` raises on it).
   */
  datatype PyValue =
    | PyInt(i: int)
    | PyFloat(f: Float)
    | PyStr(s: string)
    | PyBool(b: bool)
    | PyList(items: seq<PyValue>)
    | PyOther(typeName: string)

  /** Why the `data` setter refused a value. */
  datatype DataError = ListNotSupported | UnsupportedType(typeName: string)

  /** What the `data` getter gives: a value, Python's `None`, or a raise while parsing. */
  datatype Decoded = Decoded(value: Scalar) | NoData | Unparsable

  /** The Python value a scalar stands for. */
  function FromScalar(s: Scalar): PyValue {
    match s
    case IntValue(i) => PyInt(i)
    case FloatValue(f) => PyFloat(f)
    case StrValue(t) => PyStr(t)
  }

  /** Python's `str(value)` of a scalar. */
  function Text(s: Scalar): string {
    match s
    case IntValue(i) => Decimal.IntToString(i)
    case FloatValue(f) => f.repr
    case StrValue(t) => t
  }

  /** The tag the setter stores for a scalar's exact type. */
  function Tag(s: Scalar): string {
    match s
    case IntValue(_) => "int"
    case FloatValue(_) => "float"
    case StrValue(_) => "str"
  }

  /** The value has exactly type int, float or str. */
  predicate IsScalar(v: PyValue) {
    v.PyInt? || v.PyFloat? || v.PyStr?
  }

  /** The scalar a value of exact type int, float or str stands for. */
  function ScalarOf(v: PyValue): (s: Scalar)
    requires IsScalar(v)
    ensures FromScalar(s) == v
  {
    match v
    case PyInt(i) => IntValue(i)
    case PyFloat(f) => FloatValue(f)
    case PyStr(t) => StrValue(t)
  }

  /**
   * The `data` setter: the pair (tag, text) it stores, or the error it raises.
   * Exactly the values of type int, float and str are accepted, each stored
   * as its tag and `str(value)`.
   */
  function Encode(v: PyValue): (r: Result<(string, string), DataError>)
    ensures r.Success? <==> IsScalar(v)
    ensures r.Success? ==> r.value == (Tag(ScalarOf(v)), Text(ScalarOf(v)))
    ensures v.PyList? ==> r == Failure(ListNotSupported)
    ensures v.PyBool? ==> r == Failure(UnsupportedType("bool"))
  {
    match v
    case PyInt(i) => Success(("int", Decimal.IntToString(i)))
    case PyFloat(f) => Success(("float", f.repr))
    case PyStr(t) => Success(("str", t))
    case PyList(_) => Failure(ListNotSupported)
    case PyBool(_) => Failure(UnsupportedType("bool"))
    case PyOther(name) => Failure(UnsupportedType(name))
  }

  /**
   * The `data` getter: re-reads the stored text according to the tag. An
   * unknown tag falls off the end of the getter, which returns None; an int
   * text `int` cannot read raises.
   */
  function Decode(tag: string, text: string): (r: Decoded)
    ensures r.Decoded? ==> Tag(r.value) == tag
    ensures r.Decoded? && tag != "int" ==> Text(r.value) == text
    ensures r.NoData? <==> tag != "int" && tag != "float" && tag != "str"
  {
    if tag == "int" then
      match Decimal.ParseInt(text)
      case Some(i) => Decoded(IntValue(i))
      case None => Unparsable
    else if tag == "float" then Decoded(FloatValue(Float(text)))
    else if tag == "str" then Decoded(StrValue(text))
    else NoData
  }

  /** Reading back what the setter stored gives the scalar that was set. */
  lemma EncodeDecode(s: Scalar)
    ensures Encode(FromScalar(s)) == Success((Tag(s), Text(s)))
    ensures Decode(Tag(s), Text(s)) == Decoded(s)
  {
    if s.IntValue? {
      Decimal.IntRoundTrip(s.i);
    }
  }

  /** The same, for any value the setter accepts. */
  lemma AcceptedRoundTrip(v: PyValue)
    requires IsScalar(v)
    ensures Decode(Encode(v).value.0, Encode(v).value.1) == Decoded(ScalarOf(v))
  {
    EncodeDecode(ScalarOf(v));
  }

  /** One row of table `results`, with its property rows folded in as a map. */
  datatype Row = Row(
    step: int,
    kind: string,
    dataType: string,
    dataValue: string,
    properties: map<string, string>)

  /**
   * Assigning a keyword keeps one value per keyword: the new value replaces an
   * old one (the count stays) or adds the keyword (the count grows by one),
   * and every other keyword keeps its value.
   */
  lemma AssignKeyword(props: map<string, string>, keyword: string, value: string)
    ensures keyword in props[keyword := value] && props[keyword := value][keyword] == value
    ensures forall k :: k in props && k != keyword ==> k in props[keyword := value] && props[keyword := value][k] == props[k]
    ensures |props[keyword := value]| == if keyword in props then |props| else |props| + 1
  {
    if keyword in props {
      assert props[keyword := value].Keys == props.Keys;
    } else {
      assert props[keyword := value].Keys == props.Keys + {keyword};
    }
  }

  /** A Result object as the program manipulates it before it is stored. */
  class ResultEntity {
    var kind: string
    var step: int
    var dataType: string
    var dataValue: string
    var properties: map<string, string>

    /** A Result attached to `step`; its data columns are unset (the getter gives None). */
    constructor (kind: string, step: int)
      ensures this.kind == kind && this.step == step
      ensures dataType == "" && dataValue == "" && properties == map[]
    {
      this.kind := kind;
      this.step := step;
      dataType := "";
      dataValue := "";
      properties := map[];
    }

    /** The `data` getter. */
    function Data(): Decoded
      reads this
    {
      Decode(dataType, dataValue)
    }

    /**
     * The `data` setter. On a refused value it raises before assigning,
     * so neither column changes.
     */
    method SetData(v: PyValue) returns (r: Outcome<DataError>)
      modifies this`dataType, this`dataValue
      ensures r.Pass? <==> Encode(v).Success?
      ensures r.Pass? ==> (dataType, dataValue) == Encode(v).value
      ensures r.Pass? ==> IsScalar(v) && Data() == Decoded(ScalarOf(v))
      ensures r.Fail? ==> r.error == Encode(v).error && dataType == old(dataType) && dataValue == old(dataValue)
    {
      match Encode(v)
      case Failure(e) =>
        r := Fail(e);
      case Success(stored) =>
        AcceptedRoundTrip(v);
        dataType, dataValue := stored.0, stored.1;
        r := Pass;
    }

    /** `properties[keyword] = value`: inserts the keyword or replaces its value. */
    method SetProperty(keyword: string, value: string)
      modifies this`properties
      ensures properties == old(properties)[keyword := value]
    {
      properties := properties[keyword := value];
    }

    /** The row this object becomes in table `results`. */
    function Stored(): (row: Row)
      reads this
    {
      Row(step, kind, dataType, dataValue, properties)
    }
  }

  /**
   * The scenario of the result test: an energy of -21.34 with the property
   * state = 1.1, and a spin symmetry "Doublet" with no property, both read
   * back through the getter and the property dictionary.
   */
  method ResultScenario(step: int) returns (energy: Decoded, energyProperties: map<string, string>,
                                             spin: Decoded, spinProperties: map<string, string>)
    ensures energy == Decoded(FloatValue(Float("-21.34")))
    ensures |energyProperties| == 1 && "state" in energyProperties && energyProperties["state"] == "1.1"
    ensures spin == Decoded(StrValue("Doublet")) && |spinProperties| == 0
  {
    var res1 := new ResultEntity("Energy", step);
    var r1 := res1.SetData(PyFloat(Float("-21.34")));
    var res2 := new ResultEntity("Spin symmetry", step);
    var r2 := res2.SetData(PyStr("Doublet"));
    res1.SetProperty("state", "1.1");
    AssignKeyword(map[], "state", "1.1");
    energy, energyProperties := res1.Data(), res1.properties;
    spin, spinProperties := res2.Data(), res2.properties;
  }
}

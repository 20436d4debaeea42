/**
 Input validation and normalisation of the Snowball clustering engine: the
 supported distance functions, the parsing of the raw dataset into records and
 the construction of an engine from a dataset and a distance-function name.
 */
module Clustering {
  import opened PyValues

  /** The three exceptions the engine raises while it is being constructed. */
  datatype Error =
    | TooFew       // the dataset is a list of fewer than two items
    | NoVectorKey  // the first dict of a record list has no truthy "vector"
    | BadDistance  // the distance function is not one of DistFunc

  datatype Result<T> = Ok(value: T) | Err(error: Error)

  /** The supported distance functions (DIST_FUNC). */
  const DistFunc: seq<PyValue> := [PyStr("l2"), PyStr("cosine")]

  /** The record `{"id": id, "vector": v}` that wraps one raw vector. */
  function Record(id: int, v: PyValue): PyValue {
    PyDict(map["id" := PyInt(id), "vector" := v])
  }

  /** `record.get("vector")` for a record; None for anything that is not a dict. */
  function VectorOf(record: PyValue): PyValue {
    if record.PyDict? then Get(record.entries, "vector") else PyNone
  }

  /** The vectors of a sequence of records, in order. */
  function Vectors(records: seq<PyValue>): seq<PyValue> {
    if records == [] then [] else [VectorOf(records[0])] + Vectors(records[1..])
  }

  /** Is `v` a list or a numpy array, the shape the parser takes for a raw vector? */
  predicate IsVector(v: PyValue) {
    v.PyList? || v.NdArray?
  }

  /** Does the dict `v` carry a truthy "vector" entry? */
  predicate HasVector(v: PyValue)
    requires v.PyDict?
  {
    Truthy(Get(v.entries, "vector"))
  }

  /**
   Is `v` something the parser can return: None, or a list of at least two
   items whose first item is a dict?
   */
  predicate IsParsed(v: PyValue) {
    v == PyNone || (v.PyList? && |v.items| >= 2 && v.items[0].PyDict?)
  }

  /**
   `enumerate(items, start)` with every pair turned into a record: the ids run
   from `start` upwards in input order and every vector is kept as it is.
   */
  function Enumerate(items: seq<PyValue>, start: int): (r: seq<PyValue>)
    ensures |r| == |items|
    ensures forall k :: 0 <= k < |r| ==> r[k] == Record(start + k, items[k])
  {
    if items == [] then [] else [Record(start, items[0])] + Enumerate(items[1..], start + 1)
  }

  /**
   What `_parse_data(data)` returns, or the exception it raises. Only a list
   can raise; a non-list, and a list whose first item is neither a vector nor
   a dict, give None.
   */
  function Parse(data: PyValue): (r: Result<PyValue>)
    ensures r == Err(TooFew) <==> data.PyList? && |data.items| < 2
    ensures r == Err(NoVectorKey) <==>
      data.PyList? && |data.items| >= 2 && data.items[0].PyDict? && !HasVector(data.items[0])
    ensures r.Err? ==> r.error != BadDistance
    ensures r.Ok? && r.value != PyNone ==> data.PyList? && r.value.PyList? && |r.value.items| == |data.items|
    ensures r == Ok(PyNone) <==>
      !data.PyList? || (|data.items| >= 2 && !IsVector(data.items[0]) && !data.items[0].PyDict?)
    ensures r.Ok? ==> IsParsed(r.value)
  {
    if !data.PyList? then Ok(PyNone)
    else if |data.items| < 2 then Err(TooFew)
    else if IsVector(data.items[0]) then Ok(PyList(Enumerate(data.items, 0)))
    else if data.items[0].PyDict? then
      if !HasVector(data.items[0]) then Err(NoVectorKey) else Ok(data)
    else Ok(PyNone)
  }

  /** The fields of a constructed engine. */
  datatype Fields = Fields(data: PyValue, distanceFunction: PyValue)

  /**
   What `Snowball(data, distanceFunction)` sets, or the exception it raises.
   The data is parsed before the distance function is looked at, so a data
   error wins over a bad distance function.
   */
  function Init(data: PyValue, distanceFunction: PyValue): (r: Result<Fields>)
    ensures Parse(data).Err? ==> r == Err(Parse(data).error)
    ensures r == Err(BadDistance) <==> Parse(data).Ok? && distanceFunction !in DistFunc
    ensures r.Ok? <==> Parse(data).Ok? && distanceFunction in DistFunc
    ensures r.Ok? ==> r.value.data == Parse(data).value && r.value.distanceFunction == distanceFunction
  {
    match Parse(data)
    case Err(e) => Err(e)
    case Ok(parsed) =>
      if distanceFunction !in DistFunc then Err(BadDistance) else Ok(Fields(parsed, distanceFunction))
  }

  /** The clustering engine; construction validates and normalises its input. */
  class Snowball {
    var data: PyValue
    var distanceFunction: PyValue

    /** An engine only ever holds parsed data and a supported distance function. */
    predicate Valid()
      reads this
    {
      IsParsed(data) && distanceFunction in DistFunc
    }

    /** Stores a parse result and a distance function that `New` has already validated. */
    constructor (data: PyValue, distanceFunction: PyValue)
      requires IsParsed(data) && distanceFunction in DistFunc
      ensures Valid()
      ensures this.data == data && this.distanceFunction == distanceFunction
    {
      this.data := data;
      this.distanceFunction := distanceFunction;
    }

    function State(): Fields
      reads this
    {
      Fields(data, distanceFunction)
    }

    /**
     Constructs an engine, as `Snowball(data, distance_function="l2")` does:
     parse the data, then check the distance function. Python stores `data`
     before the check and the distance function after it; `New` stores both
     once the check has passed, because a Dafny constructor cannot fail and the
     exception becomes the `Err` result.
     */
    static method New(data: PyValue, distanceFunction: PyValue := PyStr("l2")) returns (r: Result<Snowball>)
      ensures r.Err? ==> Init(data, distanceFunction) == Err(r.error)
      ensures r.Ok? ==> fresh(r.value) && r.value.Valid() && Init(data, distanceFunction) == Ok(r.value.State())
    {
      var parsed := ParseData(data);
      if parsed.Err? {
        return Err(parsed.error);
      }
      if distanceFunction !in DistFunc {
        return Err(BadDistance);
      }
      var engine := new Snowball(parsed.value, distanceFunction);
      return Ok(engine);
    }

    /**
     `_parse_data`: rejects short lists, wraps a list of raw vectors into
     records numbered in input order, passes a list of dicts through when its
     first dict has a vector, and gives None for anything else.
     */
    static method ParseData(data: PyValue) returns (r: Result<PyValue>)
      ensures r == Parse(data)
    {
      if data.PyList? {
        var items := data.items;
        if |items| < 2 {
          return Err(TooFew);
        }
        if IsVector(items[0]) {
          var parsed: seq<PyValue> := [];
          var idx := 0;
          while idx < |items|
            invariant 0 <= idx <= |items|
            invariant |parsed| == idx
            invariant forall k :: 0 <= k < idx ==> parsed[k] == Record(k, items[k])
          {
            parsed := parsed + [Record(idx, items[idx])];
            idx := idx + 1;
          }
          assert parsed == Enumerate(items, 0);
          return Ok(PyList(parsed));
        }
        if items[0].PyDict? {
          if !Truthy(Get(items[0].entries, "vector")) {
            return Err(NoVectorKey);
          }
          return Ok(data);
        }
      }
      return Ok(PyNone);
    }
  }

  /** Reading the "vector" back out of the records gives the input vectors. */
  lemma {:induction false} VectorsOfEnumerate(items: seq<PyValue>, start: int)
    ensures Vectors(Enumerate(items, start)) == items
  {
    if items != [] {
      VectorsOfEnumerate(items[1..], start + 1);
      assert Enumerate(items, start) == [Record(start, items[0])] + Enumerate(items[1..], start + 1);
      assert items == [items[0]] + items[1..];
    }
  }

  /**
   A list of at least two items whose first item is a vector becomes one record
   per item: ids 0..n-1 in input order, vectors unchanged.
   */
  lemma VectorListWrapped(items: seq<PyValue>)
    requires |items| >= 2 && IsVector(items[0])
    ensures Parse(PyList(items)).Ok? && Parse(PyList(items)).value.PyList?
    ensures var records := Parse(PyList(items)).value.items;
      |records| == |items| &&
      (forall i :: 0 <= i < |records| ==> records[i] == Record(i, items[i])) &&
      Vectors(records) == items
  {
    VectorsOfEnumerate(items, 0);
  }

  /**
   A list whose first item is a dict with a truthy "vector" comes back as it
   is, whatever the later items are: only the first dict is inspected.
   */
  lemma DictListPassedThrough(first: PyValue, rest: seq<PyValue>)
    requires first.PyDict? && HasVector(first) && |rest| >= 1
    ensures Parse(PyList([first] + rest)) == Ok(PyList([first] + rest))
  {
  }

  /**
   Parsing the records made from a list of raw vectors again leaves them as
   they are, unless the first vector is empty: then its record has a falsy
   "vector" and the second parse raises.
   */
  lemma ReparseWrapped(items: seq<PyValue>)
    requires |items| >= 2 && IsVector(items[0])
    ensures Parse(Parse(PyList(items)).value) ==
      if Truthy(items[0]) then Parse(PyList(items)) else Err(NoVectorKey)
  {
  }
}

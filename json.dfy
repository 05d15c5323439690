/** The JSON values the categorizer handles, Python's dictionary objects, and
    the failure types through which the script's exceptions are modelled. */
module Json {

  /** A JSON value as `json.loads` produces it. Integers and floats are both
      numbers (so `1` and `1.0` are equal, as in Python); an object is a map,
      so the insertion order of its keys is not recorded. */
  datatype Json =
    | JNull
    | JBool(b: bool)
    | JNum(n: real)
    | JStr(s: string)
    | JArr(items: seq<Json>)
    | JObj(fields: map<string, Json>)

  /** The exceptions that abort a run of the script. */
  datatype Error =
    | KeyError(key: Json)   // a subscript or `pop` of a missing key
    | TypeError             // a subscript, division, join or hash of a value of the wrong type

  datatype Option<+T> = None | Some(value: T)

  datatype Result<+T> = Success(value: T) | Failure(error: Error) {
    predicate IsFailure() { Failure? }

    function PropagateFailure<U>(): Result<U>
      requires Failure?
    {
      Failure(error)
    }

    function Extract(): T
      requires Success?
    {
      value
    }
  }

  /** Python's truth value of a JSON value, as `if is_approved:` tests it. */
  predicate Truthy(j: Json) {
    match j
    case JNull => false
    case JBool(b) => b
    case JNum(n) => n != 0.0
    case JStr(s) => s != ""
    case JArr(items) => items != []
    case JObj(m) => m != map[]
  }

  /** Values that can be dictionary keys: lists and dicts are unhashable. */
  predicate Hashable(j: Json) {
    !j.JArr? && !j.JObj?
  }

  /** `j[key]` for a string key: a dict gives the value or raises KeyError;
      lists, strings, numbers, booleans and None raise TypeError. */
  function Subscript(j: Json, key: string): (r: Result<Json>)
    ensures r.Success? <==> j.JObj? && key in j.fields
    ensures r.Success? ==> r.value == j.fields[key]
    ensures r.Failure? && j.JObj? ==> r.error == KeyError(JStr(key))
    ensures r.Failure? && !j.JObj? ==> r.error == TypeError
  {
    match j
    case JObj(m) => if key in m then Success(m[key]) else Failure(KeyError(JStr(key)))
    case _ => Failure(TypeError)
  }

  /** The members a Python `for` loop visits in `v`, where every member is
      then subscripted by a string key (the only way the script uses them).
      A list gives its items. An empty dict or string gives nothing. A
      non-empty dict or string gives strings (keys or characters), and the
      subscript of a string raises TypeError; scalars are not iterable. */
  function Members(v: Json): (r: Result<seq<Json>>)
    ensures r.Success? <==> v.JArr? || v == JObj(map[]) || v == JStr("")
    ensures r.Success? ==> r.value == (if v.JArr? then v.items else [])
    ensures r.Failure? ==> r.error == TypeError
  {
    match v
    case JArr(items) => Success(items)
    case JObj(m) => if m == map[] then Success([]) else Failure(TypeError)
    case JStr(s) => if s == "" then Success([]) else Failure(TypeError)
    case _ => Failure(TypeError)
  }

  /** A Python dict that the script updates in place and shares between
      several containers (the transaction list and the `by_id` index). */
  class Record {
    var fields: map<string, Json>

    constructor (fields: map<string, Json>)
      ensures this.fields == fields
    {
      this.fields := fields;
    }

    /** `d[key] = value` */
    method Set(key: string, value: Json)
      modifies this
      ensures fields == old(fields)[key := value]
    {
      fields := fields[key := value];
    }

    /** `d.pop(key, None)`: removes the key if present and returns its old
        value; an absent key leaves the dict as it was. */
    method Pop(key: string) returns (v: Option<Json>)
      modifies this
      ensures fields == old(fields) - {key}
      ensures key in old(fields) ==> v == Some(old(fields)[key])
      ensures key !in old(fields) ==> v == None
    {
      if key in fields {
        v := Some(fields[key]);
      } else {
        v := None;
      }
      fields := fields - {key};
    }
  }

  /** The records of a list are distinct objects (they come from separate
      `json.loads` dicts). */
  ghost predicate Distinct(rs: seq<Record>) {
    forall i, j :: 0 <= i < j < |rs| ==> rs[i] != rs[j]
  }
}

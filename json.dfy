/** JSON values, as Python's `json` module decodes them (ints and floats kept apart). */
module Json {
  import opened Wrappers

  datatype Json =
    | JNull
    | JBool(b: bool)
    | JInt(i: int)
    | JFloat(r: real)
    | JString(s: string)
    | JArray(elems: seq<Json>)
    | JObject(fields: seq<(string, Json)>)

  /** `d.get(key, default)` on a decoded object: the value stored under `key`, else `default`. */
  function DictGet(fields: seq<(string, Json)>, key: string, default: Json): (r: Json)
    ensures (forall i :: 0 <= i < |fields| ==> fields[i].0 != key) ==> r == default
    ensures forall i :: 0 <= i < |fields| && fields[i].0 == key && (forall j :: 0 <= j < i ==> fields[j].0 != key) ==>
      r == fields[i].1
  {
    if fields == [] then default
    else if fields[0].0 == key then fields[0].1
    else DictGet(fields[1..], key, default)
  }

  /** The first key of an object is found at once. */
  lemma GetFirst(fields: seq<(string, Json)>, key: string)
    requires fields != [] && fields[0].0 == key
    ensures DictGet(fields, key, JNull) == fields[0].1
  {
  }

  /** A key that is second in an object is found after the first. */
  lemma GetNext(fields: seq<(string, Json)>, key: string)
    requires |fields| >= 2 && fields[0].0 != key && fields[1].0 == key
    ensures DictGet(fields, key, JNull) == fields[1].1
  {
    assert fields[1..][0] == fields[1];
  }

  /** The name Python gives the type of the decoded value. */
  function PyTypeName(j: Json): string {
    match j
    case JNull => "NoneType"
    case JBool(_) => "bool"
    case JInt(_) => "int"
    case JFloat(_) => "float"
    case JString(_) => "str"
    case JArray(_) => "list"
    case JObject(_) => "dict"
  }

  function OptString(o: Option<string>): Json {
    match o
    case None => JNull
    case Some(s) => JString(s)
  }
}

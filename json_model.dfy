/** Values that Python's json.loads produces, and the few dict and list
    operations of Python that the extractors apply to them.

    A JObj stands for a Python dict: its (key, value) pairs are kept in
    insertion order, because both extractors iterate dicts and take the
    first entry that fits. Keys of a real dict are distinct; where a pair
    sequence repeats a key, Get sees the first binding. */
module JsonModel {

  datatype Option<+T> = None | Some(value: T)

  /** The outcome of a Python expression that may raise AttributeError or
      TypeError (calling .get on a non-dict, iterating a number, ...). */
  datatype PyResult<+T> = Ok(value: T) | Raised

  datatype Json =
    | JNull
    | JBool(b: bool)
    | JInt(n: int)
    | JFloat(r: real)
    | JStr(s: string)
    | JArr(items: seq<Json>)
    | JObj(fields: seq<(string, Json)>)

  /** `key in d` and `d[key]` / `d.get(key)` for a dict given by its pairs. */
  function Get(fields: seq<(string, Json)>, key: string): (r: Option<Json>)
    ensures r.None? <==> forall i :: 0 <= i < |fields| ==> fields[i].0 != key
    ensures r.Some? ==>
      exists i :: 0 <= i < |fields| && fields[i] == (key, r.value) &&
        (forall k :: 0 <= k < i ==> fields[k].0 != key)
  {
    if fields == [] then None
    else if fields[0].0 == key then Some(fields[0].1)
    else
      var r := Get(fields[1..], key);
      assert r.Some? ==>
        exists i :: 1 <= i < |fields| && fields[i] == (key, r.value) &&
          (forall k :: 0 <= k < i ==> fields[k].0 != key) by {
        if r.Some? {
          var i :| 0 <= i < |fields[1..]| && fields[1..][i] == (key, r.value) &&
            (forall k :: 0 <= k < i ==> fields[1..][k].0 != key);
          assert fields[i + 1] == (key, r.value);
          forall k | 0 <= k < i + 1 ensures fields[k].0 != key {
            if k > 0 { assert fields[k] == fields[1..][k - 1]; }
          }
        }
      }
      r
  }

  /** `d.get(key, default)` where `d` may be any value: only a dict has .get. */
  function DictGet(j: Json, key: string, default: Json): (r: PyResult<Json>)
    ensures r.Raised? <==> !j.JObj?
    ensures j.JObj? && (exists i :: 0 <= i < |j.fields| && j.fields[i].0 == key) ==>
      r == Ok(Get(j.fields, key).value)
    ensures j.JObj? && (forall i :: 0 <= i < |j.fields| ==> j.fields[i].0 != key) ==>
      r == Ok(default)
  {
    match j
    case JObj(fields) =>
      (match Get(fields, key)
       case Some(v) => Ok(v)
       case None => Ok(default))
    case _ => Raised
  }

  /** The keys of a dict, in insertion order, as the str values `for k in d` yields. */
  function KeyValues(fields: seq<(string, Json)>): (ks: seq<Json>)
    ensures |ks| == |fields|
    ensures forall i :: 0 <= i < |fields| ==> ks[i] == JStr(fields[i].0)
  {
    if fields == [] then [] else [JStr(fields[0].0)] + KeyValues(fields[1..])
  }

  /** The one-character strings that `for c in s` yields. */
  function CharValues(s: string): (cs: seq<Json>)
    ensures |cs| == |s|
    ensures forall i :: 0 <= i < |s| ==> cs[i] == JStr([s[i]])
  {
    if s == [] then [] else [JStr([s[0]])] + CharValues(s[1..])
  }

  /** What a Python `for x in j` loop visits: the items of a list, the keys of
      a dict, the characters of a string; None, numbers and booleans are not
      iterable (TypeError). */
  function PyIter(j: Json): PyResult<seq<Json>>
  {
    match j
    case JArr(items) => Ok(items)
    case JObj(fields) => Ok(KeyValues(fields))
    case JStr(s) => Ok(CharValues(s))
    case _ => Raised
  }

  /** Python's truth value, `bool(j)`. */
  predicate Truthy(j: Json)
  {
    match j
    case JNull => false
    case JBool(b) => b
    case JInt(n) => n != 0
    case JFloat(r) => r != 0.0
    case JStr(s) => s != ""
    case JArr(items) => items != []
    case JObj(fields) => fields != []
  }

  /** For an iterable value, being truthy and giving a loop something to
      visit are the same thing. */
  lemma TruthyIterable(j: Json)
    requires PyIter(j).Ok?
    ensures Truthy(j) <==> |PyIter(j).value| > 0
  {
  }

  /** Python's `isinstance(x, int)`, which bool passes too (bool is a
      subclass of int). */
  predicate IsPyInt(j: Json)
  {
    j.JInt? || j.JBool?
  }
}

/**
  The dynamically typed values a memory search may return, and the three
  Python operations the retrieval node applies to them: truthiness, `dict.get`
  and `key in dict`, and iteration with a `for` loop.
 */
module PyValues {
  import opened Options

  /** A Python value as far as the retrieval node can tell them apart.
      A dict keeps its entries in insertion order; `None`, booleans and
      numbers are scalars that are only truthy or falsy. */
  datatype PyValue =
    | PyStr(s: string)
    | PyList(items: seq<PyValue>)
    | PyDict(entries: seq<(string, PyValue)>)
    | PyScalar(truthy: bool)

  /** Python's `None`. */
  const PyNone := PyScalar(false)

  /** Python's `bool(v)`. */
  predicate Truthy(v: PyValue)
  {
    match v
    case PyStr(s) => s != ""
    case PyList(items) => items != []
    case PyDict(entries) => entries != []
    case PyScalar(t) => t
  }

  /** `key in d`. */
  predicate HasKey(entries: seq<(string, PyValue)>, key: string)
  {
    exists i :: 0 <= i < |entries| && entries[i].0 == key
  }

  /** `d.get(key)`: the value stored under `key`, or `None`. */
  function Get(entries: seq<(string, PyValue)>, key: string): (v: PyValue)
    ensures !HasKey(entries, key) ==> v == PyNone
    ensures HasKey(entries, key) ==> exists i :: 0 <= i < |entries| && entries[i] == (key, v)
  {
    if entries == [] then PyNone
    else if entries[0].0 == key then entries[0].1
    else
      var v := Get(entries[1..], key);
      assert HasKey(entries[1..], key) ==> HasKey(entries, key);
      assert HasKey(entries, key) ==> HasKey(entries[1..], key);
      v
  }

  /** What `for x in v` walks over: the items of a list, the one-character
      strings of a string, the keys of a dict; `None` when iterating `v`
      raises (a scalar is not iterable). */
  function Iterate(v: PyValue): (r: Option<seq<PyValue>>)
    ensures r.None? <==> v.PyScalar?
    ensures v.PyList? ==> r == Some(v.items)
    ensures v.PyStr? ==> r.Some? && |r.value| == |v.s|
    ensures v.PyStr? ==> forall i :: 0 <= i < |v.s| ==> r.value[i] == PyStr([v.s[i]])
    ensures v.PyDict? ==> r.Some? && |r.value| == |v.entries|
    ensures v.PyDict? ==> forall i :: 0 <= i < |v.entries| ==> r.value[i] == PyStr(v.entries[i].0)
  {
    match v
    case PyList(items) => Some(items)
    case PyStr(s) => Some(seq(|s|, i requires 0 <= i < |s| => PyStr([s[i]])))
    case PyDict(entries) => Some(seq(|entries|, i requires 0 <= i < |entries| => PyStr(entries[i].0)))
    case PyScalar(_) => None
  }
}

/**
 JSON values as the client sees them after `response.json()`, together with the
 two pieces of Python semantics the client leans on: truthiness (used by every
 "drop empty values" serialiser) and `==` (used by identifier comparison and by
 the `code == 404` test).
 */
module JsonValue {

  /** Python's int and float both decode to JNum: the client never tells them apart,
      and Python compares `8 == 8.0` as equal. Objects are unordered, as Python
      dict equality is. */
  datatype Json =
    | JNull
    | JBool(b: bool)
    | JNum(n: real)
    | JStr(s: string)
    | JArr(items: seq<Json>)
    | JObj(fields: map<string, Json>)

  datatype Option<+T> = None | Some(value: T)

  /** Python truthiness: None, False, 0, "", [] and {} are falsy. */
  predicate Falsy(j: Json)
  {
    match j
    case JNull => true
    case JBool(b) => !b
    case JNum(n) => n == 0.0
    case JStr(s) => s == []
    case JArr(xs) => xs == []
    case JObj(m) => m == map[]
  }

  /** The numeric value Python gives a bool or a number (`True == 1`). */
  function Numeric(j: Json): Option<real>
  {
    match j
    case JBool(b) => Some(if b then 1.0 else 0.0)
    case JNum(n) => Some(n)
    case _ => None
  }

  /** Python `==` on decoded JSON: numbers and bools compare by value, lists
      element-wise, dicts by key set and value. */
  function PyEq(a: Json, b: Json): bool
    decreases a
  {
    match a
    case JNull => b == JNull
    case JStr(s) => b == JStr(s)
    case JArr(xs) =>
      b.JArr? && |xs| == |b.items| && forall i | 0 <= i < |xs| :: PyEq(xs[i], b.items[i])
    case JObj(m) =>
      b.JObj? && m.Keys == b.fields.Keys && forall k | k in m :: PyEq(m[k], b.fields[k])
    case _ => Numeric(b).Some? && Numeric(b) == Numeric(a)
  }

  lemma {:induction false} PyEqReflexive(a: Json)
    ensures PyEq(a, a)
    decreases a
  {
    match a
    case JArr(xs) =>
      forall i | 0 <= i < |xs| ensures PyEq(xs[i], xs[i]) {
        PyEqReflexive(xs[i]);
      }
    case JObj(m) =>
      forall k | k in m ensures PyEq(m[k], m[k]) {
        PyEqReflexive(m[k]);
      }
    case _ =>
  }

  lemma {:induction false} PyEqSymmetric(a: Json, b: Json)
    ensures PyEq(a, b) == PyEq(b, a)
    decreases a
  {
    match a
    case JArr(xs) =>
      if b.JArr? && |xs| == |b.items| {
        forall i | 0 <= i < |xs| ensures PyEq(xs[i], b.items[i]) == PyEq(b.items[i], xs[i]) {
          PyEqSymmetric(xs[i], b.items[i]);
        }
      }
    case JObj(m) =>
      if b.JObj? && m.Keys == b.fields.Keys {
        forall k | k in m ensures PyEq(m[k], b.fields[k]) == PyEq(b.fields[k], m[k]) {
          PyEqSymmetric(m[k], b.fields[k]);
        }
      }
    case _ =>
  }

  lemma {:induction false} PyEqTransitive(a: Json, b: Json, c: Json)
    requires PyEq(a, b) && PyEq(b, c)
    ensures PyEq(a, c)
    decreases a
  {
    match a
    case JArr(xs) =>
      forall i | 0 <= i < |xs| ensures PyEq(xs[i], c.items[i]) {
        PyEqTransitive(xs[i], b.items[i], c.items[i]);
      }
    case JObj(m) =>
      forall k | k in m ensures PyEq(m[k], c.fields[k]) {
        PyEqTransitive(m[k], b.fields[k], c.fields[k]);
      }
    case _ =>
  }

  /** `{x: y for x, y in d.items() if y}`: keep exactly the truthy entries. */
  function FilterFalsy<K(!new)>(m: map<K, Json>): (r: map<K, Json>)
    ensures forall k :: k in r <==> k in m && !Falsy(m[k])
    ensures forall k | k in r :: r[k] == m[k]
  {
    map k | k in m && !Falsy(m[k]) :: m[k]
  }
}

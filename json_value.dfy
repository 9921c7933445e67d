/**
 * JSON values as the Express body parser produces them and Firestore stores them,
 * with JavaScript truthiness and Firestore's ordering of values.
 */
module JsonValue {
  import opened Wrappers

  datatype Json = JNull | JBool(b: bool) | JNum(n: real) | JStr(s: string) | JArr(items: seq<Json>) | JObj(fields: map<string, Json>)

  /** Truthiness of a property read; `None` is a missing property (`undefined`). */
  predicate Truthy(v: Option<Json>)
    ensures Truthy(v) ==> v.Some? && v.value != JNull
    ensures v.Some? && (v.value.JArr? || v.value.JObj?) ==> Truthy(v)
    ensures v.Some? && v.value.JStr? ==> (Truthy(v) <==> v.value.s != [])
  {
    match v
    case None => false
    case Some(JNull) => false
    case Some(JBool(b)) => b
    case Some(JNum(n)) => n != 0.0
    case Some(JStr(s)) => s != ""
    case Some(_) => true
  }

  /** A property of an object, or `undefined`. */
  function Get(fields: map<string, Json>, key: string): (r: Option<Json>)
    ensures r.Some? <==> key in fields
    ensures r.Some? ==> r.value == fields[key]
  {
    if key in fields then Some(fields[key]) else None
  }

  /** Strings in code-point order, which is the UTF-8 byte order Firestore sorts strings by. */
  predicate StrLeq(a: string, b: string)
  {
    if a == [] then true
    else if b == [] then false
    else if a[0] != b[0] then a[0] < b[0]
    else StrLeq(a[1..], b[1..])
  }

  lemma {:induction false} StrLeqTotal(a: string, b: string)
    ensures StrLeq(a, b) || StrLeq(b, a)
  {
    if a != [] && b != [] && a[0] == b[0] {
      StrLeqTotal(a[1..], b[1..]);
    }
  }

  lemma {:induction false} StrLeqTransitive(a: string, b: string, c: string)
    requires StrLeq(a, b) && StrLeq(b, c)
    ensures StrLeq(a, c)
  {
    if a != [] && b != [] && c != [] && a[0] == b[0] && b[0] == c[0] {
      StrLeqTransitive(a[1..], b[1..], c[1..]);
    }
  }

  /** Firestore's order of value types: null, booleans, numbers, strings, arrays, maps. */
  function TypeRank(v: Json): nat
  {
    match v
    case JNull => 0
    case JBool(_) => 1
    case JNum(_) => 2
    case JStr(_) => 3
    case JArr(_) => 4
    case JObj(_) => 5
  }

  /**
   * Firestore's ascending order of values: by type first, then within the type.
   * Arrays and maps are left unordered among themselves (every two tie).
   */
  predicate ValueLeq(a: Json, b: Json)
  {
    if TypeRank(a) != TypeRank(b) then TypeRank(a) < TypeRank(b)
    else match (a, b)
      case (JBool(x), JBool(y)) => !x || y
      case (JNum(x), JNum(y)) => x <= y
      case (JStr(x), JStr(y)) => StrLeq(x, y)
      case _ => true
  }

  lemma {:induction false} StrLeqReflexive(a: string)
    ensures StrLeq(a, a)
  {
    if a != [] {
      StrLeqReflexive(a[1..]);
    }
  }

  lemma ValueLeqReflexive(a: Json)
    ensures ValueLeq(a, a)
  {
    if a.JStr? {
      StrLeqReflexive(a.s);
    }
  }

  /** Any two values compare one way or the other. */
  lemma ValueLeqTotal(a: Json, b: Json)
    ensures ValueLeq(a, b) || ValueLeq(b, a)
  {
    if a.JStr? && b.JStr? {
      StrLeqTotal(a.s, b.s);
    }
  }

  lemma ValueLeqTransitive(a: Json, b: Json, c: Json)
    requires ValueLeq(a, b) && ValueLeq(b, c)
    ensures ValueLeq(a, c)
  {
    if a.JStr? && b.JStr? && c.JStr? {
      StrLeqTransitive(a.s, b.s, c.s);
    }
  }
}

/**
 * Values decoded from JSON, as Python holds them after `json.loads`: objects keep their keys
 * in insertion order, so an object is a sequence of key/value pairs.
 */
module PyJson {
  import opened Text

  datatype Json =
    | JNull
    | JBool(b: bool)
    | JInt(i: int)
    | JString(s: string)
    | JList(items: seq<Json>)
    | JObject(fields: seq<(string, Json)>)

  /** No key occurs twice among `fields`. */
  predicate DistinctKeys(fields: seq<(string, Json)>)
  {
    forall i, j :: 0 <= i < j < |fields| ==> fields[i].0 != fields[j].0
  }

  /** What `json.loads` can return: a Python dict holds each key once, so every object, at
      every depth (inside lists too), has distinct keys. */
  predicate Decoded(v: Json)
    decreases v
  {
    match v
    case JObject(fields) => DistinctKeys(fields) && forall i :: 0 <= i < |fields| ==> Decoded(fields[i].1)
    case JList(items) => forall i :: 0 <= i < |items| ==> Decoded(items[i])
    case _ => true
  }

  /** The fields of a decoded object. */
  predicate DecodedFields(fields: seq<(string, Json)>)
  {
    DistinctKeys(fields) && forall i :: 0 <= i < |fields| ==> Decoded(fields[i].1)
  }

  /** What `str(v)` (and an f-string placeholder) renders for a decoded value. Scalars are
      rendered as Python renders them; for a list or a dict Python prints its `repr`, which
      this model takes as the abstract function `repr`. */
  function PyStr(v: Json, repr: Json -> string): (r: string)
    ensures v.JString? ==> r == v.s
    ensures v.JList? || v.JObject? ==> r == repr(v)
  {
    match v
    case JNull => "None"
    case JBool(b) => if b then "True" else "False"
    case JInt(i) => IntToDecimal(i)
    case JString(s) => s
    case _ => repr(v)
  }

  /** A size measure for the walks over nested objects: every value of an object is smaller
      than the object. (Lists are leaves for those walks, so their items are not counted.) */
  function Size(v: Json): nat
    decreases v
  {
    match v
    case JObject(fields) => 1 + FieldsSize(v, |fields|)
    case _ => 1
  }

  /** The total size of the first `n` values of an object. */
  function FieldsSize(obj: Json, n: nat): nat
    requires obj.JObject? && n <= |obj.fields|
    decreases obj, n
  {
    if n == 0 then 0 else FieldsSize(obj, n - 1) + Size(obj.fields[n - 1].1)
  }

  function SizeOfFields(fields: seq<(string, Json)>): nat
  {
    FieldsSize(JObject(fields), |fields|)
  }

  lemma {:induction false} FieldsSizeAgree(a: seq<(string, Json)>, b: seq<(string, Json)>, k: nat)
    requires k <= |a| && k <= |b| && a[..k] == b[..k]
    ensures FieldsSize(JObject(a), k) == FieldsSize(JObject(b), k)
  {
    if k > 0 {
      assert a[..k - 1] == a[..k][..k - 1] == b[..k][..k - 1] == b[..k - 1];
      FieldsSizeAgree(a, b, k - 1);
      assert a[k - 1] == a[..k][k - 1] == b[..k][k - 1] == b[k - 1];
    }
  }

  lemma {:induction false} FieldsSizeMonotone(obj: Json, m: nat, n: nat)
    requires obj.JObject? && m <= n <= |obj.fields|
    ensures FieldsSize(obj, m) <= FieldsSize(obj, n)
    decreases n - m
  {
    if m < n {
      FieldsSizeMonotone(obj, m, n - 1);
    }
  }

  /** The value of field `i` and the fields before it together are no larger than all fields. */
  lemma FieldSmaller(fields: seq<(string, Json)>, i: nat)
    requires i < |fields|
    ensures SizeOfFields(fields[..i]) + Size(fields[i].1) <= SizeOfFields(fields)
  {
    FieldsSizeAgree(fields[..i], fields, i);
    FieldsSizeMonotone(JObject(fields), i + 1, |fields|);
  }
}

/** Values produced by Python's `json.loads`, with the Python behaviour the
    scripts rely on: truthiness, `dict.get`, dict key order and `str()`. */
module Json {
  import opened Wrappers
  import opened Text

  /** A decoded JSON value. Objects keep their members in document order, repeated
      keys included; numbers are integers (floating point is not modelled). */
  datatype Json =
    | JNull
    | JBool(b: bool)
    | JInt(n: int)
    | JStr(s: string)
    | JArr(items: seq<Json>)
    | JObj(members: seq<(string, Json)>)

  /** Python truthiness of the decoded value (`None`, `False`, `0`, `""`, `[]`, `{}` are false). */
  predicate Truthy(j: Json)
  {
    match j
    case JNull => false
    case JBool(b) => b
    case JInt(n) => n != 0
    case JStr(s) => s != ""
    case JArr(items) => items != []
    case JObj(members) => members != []
  }

  /** The position of the member `json.loads` keeps for `key`: of repeated keys,
      the last one. */
  function LastKeyIndex(members: seq<(string, Json)>, key: string): (k: Option<nat>)
    ensures k.None? <==> forall i :: 0 <= i < |members| ==> members[i].0 != key
    ensures k.Some? ==> k.value < |members| && members[k.value].0 == key &&
                        forall j :: k.value < j < |members| ==> members[j].0 != key
    decreases |members|
  {
    if members == [] then None
    else if members[|members| - 1].0 == key then Some(|members| - 1)
    else LastKeyIndex(members[..|members| - 1], key)
  }

  /** `d.get(key)` on a decoded object. */
  function Lookup(members: seq<(string, Json)>, key: string): (r: Option<Json>)
    ensures r.None? <==> forall i :: 0 <= i < |members| ==> members[i].0 != key
    ensures r.Some? ==> exists i :: 0 <= i < |members| && members[i] == (key, r.value) &&
                                    forall j :: i < j < |members| ==> members[j].0 != key
  {
    match LastKeyIndex(members, key)
    case Some(k) => Some(members[k].1)
    case None => None
  }

  /** The keys of a decoded object in Python dict order: first appearance, no repeats. */
  function Keys(members: seq<(string, Json)>): seq<string>
    decreases |members|
  {
    if members == [] then []
    else
      var ks := Keys(members[..|members| - 1]);
      var k := members[|members| - 1].0;
      if k in ks then ks else ks + [k]
  }

  /** Every key of the object appears in `Keys` once, and nothing else does. */
  lemma {:induction false} KeysSpec(members: seq<(string, Json)>)
    ensures NoDuplicates(Keys(members))
    ensures forall k :: k in Keys(members) <==> exists i :: 0 <= i < |members| && members[i].0 == k
    decreases |members|
  {
    if members != [] {
      KeysSpec(members[..|members| - 1]);
      assert forall i :: 0 <= i < |members| - 1 ==> members[..|members| - 1][i] == members[i];
    }
  }

  /** `str()` of `None`, a boolean or an integer (it coincides with `repr()`). */
  function ScalarText(v: Json): string
  {
    match v
    case JNull => "None"
    case JBool(b) => if b then "True" else "False"
    case JInt(n) => IntToString(n)
    case JStr(s) => s
    case _ => ""
  }

  /** `repr()` of a decoded value. An object shows each key once, in dict order,
      with the value `json.loads` kept for it. */
  function Repr(v: Json): string
    decreases v
  {
    match v
    case JStr(s) => StrRepr(s)
    case JArr(items) =>
      "[" + Join(", ", seq(|items|, i requires 0 <= i < |items| => Repr(items[i]))) + "]"
    case JObj(members) =>
      var ks := Keys(members);
      "{" + Join(", ", seq(|ks|, i requires 0 <= i < |ks| => MemberRepr(v, members, ks[i]))) + "}"
    case _ => ScalarText(v)
  }

  /** `'key': value` for the member kept under `key`. */
  function MemberRepr(v: Json, members: seq<(string, Json)>, key: string): string
    requires v == JObj(members)
    decreases v, 0
  {
    match LastKeyIndex(members, key)
    case Some(k) => StrRepr(key) + ": " + Repr(members[k].1)
    case None => ""
  }

  /** A repeated key is shown once, with its last value. */
  lemma ReprRepeatedKey(k: string, a: Json, b: Json)
    ensures Repr(JObj([(k, a), (k, b)])) == "{" + StrRepr(k) + ": " + Repr(b) + "}"
  {
    var members := [(k, a), (k, b)];
    var first := [(k, a)];
    assert members[..|members| - 1] == first;
    assert first[..|first| - 1] == [];
    assert Keys(first) == [k];
    assert Keys(members) == [k];
    assert LastKeyIndex(members, k) == Some(1);
  }

  /** `str()` of a decoded value, as pandas' `astype(str)` renders a cell. */
  function Str(v: Json): string
  {
    if v.JStr? then v.s else Repr(v)
  }
}

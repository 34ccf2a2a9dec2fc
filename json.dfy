/**
 * JSON values as the extension's JavaScript sees them after `JSON.parse`,
 * with the handful of JavaScript semantics the core relies on: truthiness,
 * `typeof`, property lookup, `Object.keys` enumeration and `String(v)`.
 */
module Json {
  import opened Wrappers
  import opened Text

  /**
   * A JSON value. Object members are listed in the order `Object.keys`
   * enumerates them; numbers are integers.
   */
  datatype Json =
    | JNull
    | JBool(b: bool)
    | JNum(n: int)
    | JStr(s: string)
    | JArr(items: seq<Json>)
    | JObj(fields: seq<(string, Json)>)

  /** JavaScript truthiness: null, false, 0 and "" are falsy; every array and object is truthy. */
  predicate Truthy(v: Json)
  {
    match v
    case JNull => false
    case JBool(b) => b
    case JNum(n) => n != 0
    case JStr(s) => s != ""
    case _ => true
  }

  /** Truthiness of a value that may be `undefined` (`None`). */
  predicate TruthyOpt(v: Option<Json>)
  {
    v.Some? && Truthy(v.value)
  }

  /** `typeof v === "object" && v !== null`. */
  predicate IsObject(v: Json)
  {
    v.JArr? || v.JObj?
  }

  /** `typeof v === "object"`, which holds of `null` as well. */
  predicate TypeofObject(v: Json)
  {
    v.JNull? || IsObject(v)
  }

  /** The value of the first member named `key`, or `None` if there is none. */
  function GetField(fields: seq<(string, Json)>, key: string): (r: Option<Json>)
    ensures r.Some? ==> (key, r.value) in fields
    ensures r.None? <==> forall i :: 0 <= i < |fields| ==> fields[i].0 != key
    ensures r.Some? ==> exists i :: 0 <= i < |fields| && fields[i] == (key, r.value) &&
                                    forall j :: 0 <= j < i ==> fields[j].0 != key
  {
    if fields == [] then None
    else if fields[0].0 == key then Some(fields[0].1)
    else GetField(fields[1..], key)
  }

  /**
   * `v[key]` for a property name that is not an array index: an object's
   * member, and `undefined` on every other value.
   */
  function Get(v: Json, key: string): Option<Json>
  {
    if v.JObj? then GetField(v.fields, key) else None
  }

  /** `v[key]` is truthy. */
  predicate TruthyMember(v: Json, key: string)
  {
    TruthyOpt(Get(v, key))
  }

  /** `a || b` where `a` may be `undefined`. */
  function Or(a: Option<Json>, b: Json): (r: Json)
    ensures TruthyOpt(a) ==> r == a.value
    ensures !TruthyOpt(a) ==> r == b
  {
    if TruthyOpt(a) then a.value else b
  }

  /**
   * `v.k1 || v.k2 || ... || null`: the value of the first key whose member
   * is truthy, or `null` when none is.
   */
  function FirstTruthy(v: Json, keys: seq<string>): (r: Json)
    ensures r == JNull || Truthy(r)
    ensures r == JNull <==> forall j :: 0 <= j < |keys| ==> !TruthyOpt(Get(v, keys[j]))
  {
    if keys == [] then JNull else Or(Get(v, keys[0]), FirstTruthy(v, keys[1..]))
  }

  /** A non-null result is the member of the first key, in order, whose member is truthy. */
  lemma {:induction false} FirstTruthyIsFirst(v: Json, keys: seq<string>)
    ensures var r := FirstTruthy(v, keys);
            r != JNull ==> exists i :: 0 <= i < |keys| && Get(v, keys[i]) == Some(r) &&
                                       forall j :: 0 <= j < i ==> !TruthyOpt(Get(v, keys[j]))
  {
    var r := FirstTruthy(v, keys);
    if r != JNull {
      var i := FirstTruthyIndex(v, keys);
      assert Get(v, keys[i]) == Some(r);
    }
  }

  /** The index of the key whose member `FirstTruthy` returns. */
  lemma {:induction false} FirstTruthyIndex(v: Json, keys: seq<string>) returns (i: nat)
    requires FirstTruthy(v, keys) != JNull
    ensures i < |keys| && Get(v, keys[i]) == Some(FirstTruthy(v, keys))
    ensures forall j :: 0 <= j < i ==> !TruthyOpt(Get(v, keys[j]))
  {
    assert keys != [];
    assert FirstTruthy(v, keys) == Or(Get(v, keys[0]), FirstTruthy(v, keys[1..]));
    if TruthyOpt(Get(v, keys[0])) {
      i := 0;
    } else {
      var tail := keys[1..];
      var k := FirstTruthyIndex(v, tail);
      i := k + 1;
      assert keys[i] == tail[k];
      forall j | 1 <= j < i
        ensures !TruthyOpt(Get(v, keys[j]))
      {
        assert keys[j] == tail[j - 1];
      }
    }
  }


  /**
   * `Object.keys(v)` paired with the values: an object's members, or an
   * array's index keys "0", "1", ...; nothing for other values.
   */
  function Entries(v: Json): (es: seq<(string, Json)>)
    ensures v.JObj? ==> es == v.fields
    ensures v.JArr? ==> |es| == |v.items| &&
                        forall i :: 0 <= i < |es| ==> es[i] == (NatToString(i), v.items[i])
    ensures !IsObject(v) ==> es == []
  {
    match v
    case JObj(fields) => fields
    case JArr(items) => seq(|items|, i requires 0 <= i < |items| => (NatToString(i), items[i]))
    case _ => []
  }

  /** `String(v)`: the text a template literal or a regular expression test sees. */
  function ToText(v: Json): (t: string)
    ensures v.JNull? ==> t == "null"
    ensures v.JBool? ==> t == if v.b then "true" else "false"
    ensures v.JNum? ==> t == IntToString(v.n)
    ensures v.JStr? ==> t == v.s
    ensures v.JObj? ==> t == "[object Object]"
    ensures v.JArr? ==> t == ItemsText(v.items)
    decreases v, 0
  {
    match v
    case JNull => "null"
    case JBool(b) => if b then "true" else "false"
    case JNum(n) => IntToString(n)
    case JStr(s) => s
    case JObj(_) => "[object Object]"
    case JArr(items) => ItemsText(items)
  }

  /**
   * `items.join(",")`: the items' texts separated by commas, the empty
   * text for an empty array.
   */
  function ItemsText(items: seq<Json>): string
    decreases items, 2
  {
    if items == [] then ""
    else if |items| == 1 then ItemText(items[0])
    else ItemText(items[0]) + "," + ItemsText(items[1..])
  }

  /** How `join` writes one item: `null` as the empty text, anything else as `String(item)`. */
  function ItemText(item: Json): string
    decreases item, 1
  {
    if item.JNull? then "" else ToText(item)
  }
}

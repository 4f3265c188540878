/**
 * The untyped tree Jackson produces for `Map<String, Object>`: nulls, Booleans,
 * integral Numbers, Strings, ArrayLists and LinkedHashMaps, so that the exporter's
 * `instanceof` tests can be expressed.
 */
module JsonValue {
  import opened Wrappers
  import Text

  datatype Json =
    | JNull
    | JBool(b: bool)
    | JNumber(n: int)
    | JString(s: string)
    | JArray(items: seq<Json>)
    | JObject(fields: seq<(string, Json)>)

  /**
   * A decoded JSON object: its entries in insertion order. A key the text repeats keeps its
   * first position and takes its last value, as LinkedHashMap.put does.
   */
  type JsonObject = seq<(string, Json)>

  /** Map.get: the value stored under `key` (the last entry for it), or JNull (Java's null) when absent. */
  function Lookup(obj: JsonObject, key: string): (r: Json)
    ensures (forall i :: 0 <= i < |obj| ==> obj[i].0 != key) ==> r == JNull
    ensures r != JNull ==> (key, r) in obj
  {
    if obj == [] then JNull
    else if obj[|obj| - 1].0 == key then obj[|obj| - 1].1
    else
      var r := Lookup(obj[..|obj| - 1], key);
      assert r != JNull ==> (key, r) in obj by {
        if r != JNull {
          var i :| 0 <= i < |obj| - 1 && obj[..|obj| - 1][i] == (key, r);
          assert obj[i] == (key, r);
        }
      }
      r
  }

  /** The entry Map.get reads is the last one with the key: a later duplicate overrides an earlier one. */
  lemma {:induction false} LookupLastEntry(obj: JsonObject, key: string, i: nat)
    requires i < |obj| && obj[i].0 == key
    requires forall j :: i < j < |obj| ==> obj[j].0 != key
    ensures Lookup(obj, key) == obj[i].1
  {
    if i < |obj| - 1 {
      LookupLastEntry(obj[..|obj| - 1], key, i);
    }
  }

  /**
   * Object.toString of the decoded value: Strings as they are, Booleans and Numbers in
   * decimal, ArrayList as "[a, b]", LinkedHashMap as "{k=v, ...}", a nested null as "null".
   */
  function ToJavaString(v: Json): string
  {
    match v
    case JNull => "null"
    case JBool(b) => if b then "true" else "false"
    case JNumber(n) => Text.IntToString(n)
    case JString(s) => s
    case JArray(items) =>
      "[" + Text.Join(seq(|items|, i requires 0 <= i < |items| => ToJavaString(items[i])), ", ") + "]"
    case JObject(fields) =>
      "{" + Text.Join(seq(|fields|, i requires 0 <= i < |fields| =>
                            fields[i].0 + "=" + ToJavaString(fields[i].1)), ", ") + "}"
  }

  /** The exporter's stringValue: the fallback for null, otherwise the value's toString. */
  function StringValue(v: Json, fallback: Option<string>): (r: Option<string>)
    ensures v == JNull ==> r == fallback
    ensures v != JNull ==> r == Some(ToJavaString(v))
    ensures v.JString? ==> r == Some(v.s)
  {
    if v == JNull then fallback else Some(ToJavaString(v))
  }

  /** The exporter's booleanValue: only a JSON Boolean counts, anything else gives the fallback. */
  function BooleanValue(v: Json, fallback: bool): (r: bool)
    ensures v.JBool? ==> r == v.b
    ensures !v.JBool? ==> r == fallback
  {
    if v.JBool? then v.b else fallback
  }

  /** The elements a `for` loop visits after an `instanceof List` test: none for a non-list. */
  function ListItems(v: Json): (r: seq<Json>)
    ensures v.JArray? ==> r == v.items
    ensures !v.JArray? ==> r == []
  {
    if v.JArray? then v.items else []
  }
}

/** The part of the cJSON document model the service layer touches: object
    members looked up by key, arrays read by index, and objects built by
    appending members. cJSON itself is not part of this model; parsing and
    printing are capabilities handed to the service layer. */
module Json {
  import opened Text

  datatype Json =
    | JNull
    | JBool(b: bool)
    | JNumber(n: int)
    | JString(s: CString)
    | JArray(items: seq<Json>)
    | JObject(fields: seq<Field>)

  /** One object member, in the order it was added. */
  datatype Field = Field(key: CString, value: Json)

  /** ASCII lower-casing, as cJSON's key comparison applies it. */
  function Lower(c: char): char {
    if 'A' <= c <= 'Z' then (c as int + 32) as char else c
  }

  /** Keys compare equal ignoring ASCII case. */
  predicate SameKey(a: string, b: string) {
    |a| == |b| && forall i | 0 <= i < |a| :: Lower(a[i]) == Lower(b[i])
  }

  /** The index of the first member whose key matches, if any. */
  function FindField(fields: seq<Field>, key: string): (r: Option<nat>)
    ensures r.Some? ==> r.value < |fields| && SameKey(fields[r.value].key, key)
    ensures r.Some? ==> forall k | 0 <= k < r.value :: !SameKey(fields[k].key, key)
    ensures r.None? ==> forall k | 0 <= k < |fields| :: !SameKey(fields[k].key, key)
  {
    if fields == [] then None
    else if SameKey(fields[0].key, key) then Some(0)
    else match FindField(fields[1..], key)
      case None => None
      case Some(k) => Some(k + 1)
  }

  /** `cJSON_GetObjectItem`: the value of the first member whose key matches,
      ignoring case; nothing for a value that is not an object. */
  function GetObjectItem(j: Json, key: string): (r: Option<Json>)
    ensures r.Some? <==> j.JObject? && exists k | 0 <= k < |j.fields| :: SameKey(j.fields[k].key, key)
  {
    if !j.JObject? then None
    else match FindField(j.fields, key)
      case None => None
      case Some(k) => Some(j.fields[k].value)
  }

  /** `cJSON_GetArraySize` over a value the caller has checked is an array;
      the service loops treat anything else as having no elements. */
  function Elements(j: Json): seq<Json> {
    if j.JArray? then j.items else []
  }

  /** An object built by `cJSON_CreateObject` and `cJSON_AddItemToObject`
      calls finds each key it was given first, at its first position. */
  lemma {:induction false} GetFirstAdded(fields: seq<Field>, k: nat)
    requires k < |fields|
    requires forall m | 0 <= m < k :: !SameKey(fields[m].key, fields[k].key)
    ensures GetObjectItem(JObject(fields), fields[k].key) == Some(fields[k].value)
  {
    var key := fields[k].key;
    assert SameKey(key, key);
  }
}

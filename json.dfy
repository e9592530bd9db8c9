/**
 * JSON values as the server builds them: Python dicts become objects whose
 * members keep insertion order, which is also the order they are serialised in.
 */
module Json {
  import opened Wrappers

  datatype Json =
    | JString(str: string)
    | JInt(num: int)
    | JBool(flag: bool)
    | JObject(members: seq<(string, Json)>)

  /** The object with no members, `{}`. */
  const Empty: Json := JObject([])

  /** The value of the first member named `key`. */
  function Find(members: seq<(string, Json)>, key: string): (r: Option<Json>)
    ensures r.Some? ==> (key, r.value) in members
    ensures r.None? <==> forall i | 0 <= i < |members| :: members[i].0 != key
  {
    if members == [] then None
    else if members[0].0 == key then Some(members[0].1)
    else Find(members[1..], key)
  }

  /** `body[key]` for an object, nothing for any other value. */
  function Get(j: Json, key: string): Option<Json>
  {
    if j.JObject? then Find(j.members, key) else None
  }
}

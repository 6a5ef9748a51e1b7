/** The JSON tree that org.json builds, and its two mutable containers. Only the
    shape of the tree is modelled; `toString(2)` rendering is not. */
module Json {
  import opened Wrappers
  import OrderedMap

  datatype Json =
    | JNull
    | JBool(b: bool)
    | JString(s: string)
    | JArray(items: seq<Json>)
    | JObject(members: seq<(string, Json)>)

  /** The member k of an object, if the value is an object that has it. */
  function Member(j: Json, k: string): Option<Json> {
    if j.JObject? then OrderedMap.Get(j.members, k) else None
  }

  /** The member names of an object, in order. */
  function Keys(members: seq<(string, Json)>): (ks: seq<string>)
    ensures |ks| == |members| && forall i | 0 <= i < |ks| :: ks[i] == members[i].0
  {
    if members == [] then [] else Keys(members[..|members| - 1]) + [members[|members| - 1].0]
  }

  /** `JSONObject`: members kept in insertion order, one per key. */
  class JsonObject {
    var members: seq<(string, Json)>

    ghost predicate Valid()
      reads this
    {
      OrderedMap.UniqueKeys(members)
    }

    constructor ()
      ensures Valid() && members == []
    {
      members := [];
    }

    /** `JSONObject.put(key, value)` with a non-null value (JSONObject.NULL included). */
    method Put(key: string, value: Json)
      requires Valid()
      modifies this
      ensures Valid()
      ensures !OrderedMap.HasKey(old(members), key) ==> members == old(members) + [(key, value)]
      ensures OrderedMap.HasKey(old(members), key) ==> members == OrderedMap.Put(old(members), key, value)
    {
      members := OrderedMap.Put(members, key, value);
    }

    function Value(): Json
      reads this
    {
      JObject(members)
    }
  }

  /** `JSONArray`: values in the order they were put. */
  class JsonArray {
    var items: seq<Json>

    constructor ()
      ensures items == []
    {
      items := [];
    }

    /** `JSONArray.put(value)` appends. */
    method Put(value: Json)
      modifies this
      ensures items == old(items) + [value]
    {
      items := items + [value];
    }

    function Value(): Json
      reads this
    {
      JArray(items)
    }
  }
}

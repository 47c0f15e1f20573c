/** JSON values as `JSON.parse` produces them, and the optional-chaining
    member reads (`v?.key`) the code performs on them. `JSON.parse` itself is not
    modelled: every member that parses takes a `Parser`, an arbitrary function
    from text to a value (`None` when `JSON.parse` would throw). */
module Json {
  import opened Wrappers

  /** Numbers are modelled as integers. Object members keep their textual order. */
  datatype Json =
    | JNull
    | JBool(b: bool)
    | JNumber(n: int)
    | JString(s: string)
    | JArray(items: seq<Json>)
    | JObject(fields: seq<(string, Json)>)

  /** `JSON.parse`: `Some(v)` when the text parses to `v`, `None` when it throws. */
  type Parser = string -> Option<Json>

  /** The member `key` of an object's member list; when the key occurs more than
      once the last occurrence wins, as with `JSON.parse`. */
  function Get(fields: seq<(string, Json)>, key: string): Option<Json> {
    if fields == [] then None
    else if fields[|fields| - 1].0 == key then Some(fields[|fields| - 1].1)
    else Get(fields[..|fields| - 1], key)
  }

  /** A key that no member carries is absent. */
  lemma {:induction false} GetAbsent(fields: seq<(string, Json)>, key: string)
    requires forall k :: 0 <= k < |fields| ==> fields[k].0 != key
    ensures Get(fields, key) == None
  {
    if fields != [] {
      GetAbsent(fields[..|fields| - 1], key);
    }
  }

  /** The member read is the last one carrying the key. */
  lemma {:induction false} GetLastOccurrence(fields: seq<(string, Json)>, key: string, i: nat)
    requires i < |fields| && fields[i].0 == key
    requires forall k :: i < k < |fields| ==> fields[k].0 != key
    ensures Get(fields, key) == Some(fields[i].1)
  {
    if i < |fields| - 1 {
      GetLastOccurrence(fields[..|fields| - 1], key, i);
    }
  }

  /** `v?.key`: `None` stands for `undefined`. Only objects have named members
      in this model. */
  function Member(v: Option<Json>, key: string): Option<Json> {
    match v
    case Some(JObject(fields)) => Get(fields, key)
    case _ => None
  }
}

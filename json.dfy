/**
 * JSON values as Python's `json.load` and `response.json()` return them,
 * together with the few Python operations the core applies to them:
 * `key in value`, `value[key]`, `value.get(key, default)` and `for x in value`.
 * An operation Python would answer with an exception is answered with `None`.
 */
module Json {
  import opened Wrappers

  /**
   * A parsed JSON value. An object keeps its members in insertion order,
   * which is the order in which Python iterates a dict; a parser yields
   * distinct keys.
   */
  datatype Json =
    | JNull
    | JBool(b: bool)
    | JInt(i: int)
    | JReal(r: real)
    | JStr(s: string)
    | JArr(items: seq<Json>)
    | JObj(members: seq<(string, Json)>)

  /** `members[key]` for a dict: the value stored under `key`, if any. */
  function Get(members: seq<(string, Json)>, key: string): (r: Option<Json>)
    ensures r.Some? ==> (key, r.value) in members
  {
    if members == [] then None
    else if members[0].0 == key then Some(members[0].1)
    else Get(members[1..], key)
  }

  /** `key in d` for a dict `d`. */
  predicate Has(members: seq<(string, Json)>, key: string)
  {
    Get(members, key).Some?
  }

  /** `d.get(key, default)` for a dict `d`. */
  function GetOr(members: seq<(string, Json)>, key: string, default: Json): (r: Json)
    ensures Has(members, key) ==> Some(r) == Get(members, key)
    ensures !Has(members, key) ==> r == default
  {
    match Get(members, key)
    case Some(v) => v
    case None => default
  }

  /** The keys of a dict, in iteration order. */
  function Keys(members: seq<(string, Json)>): (ks: seq<string>)
    ensures |ks| == |members|
    ensures forall i :: 0 <= i < |members| ==> ks[i] == members[i].0
  {
    seq(|members|, i requires 0 <= i < |members| => members[i].0)
  }

  /** Python's `needle in haystack` for two strings. */
  predicate IsSubstring(needle: string, haystack: string)
    decreases |haystack|
  {
    needle <= haystack || (haystack != [] && IsSubstring(needle, haystack[1..]))
  }

  /**
   * Python's `key in container` for a string `key`: membership among the
   * keys of a dict, equality with an element of a list, substring of a
   * string; `None` stands for the TypeError any other value raises.
   */
  function Contains(container: Json, key: string): (r: Option<bool>)
    ensures r.None? <==> !(container.JObj? || container.JArr? || container.JStr?)
    ensures container.JObj? ==> r == Some(Has(container.members, key))
    ensures container.JArr? ==> r == Some(JStr(key) in container.items)
  {
    match container
    case JObj(ms) => Some(Has(ms, key))
    case JArr(xs) => Some(JStr(key) in xs)
    case JStr(s) => Some(IsSubstring(key, s))
    case _ => None
  }

  /**
   * The values `for x in value` visits: the elements of a list, the keys of
   * a dict, the one-character strings of a string; `None` stands for the
   * TypeError any other value raises.
   */
  function Iterate(value: Json): (r: Option<seq<Json>>)
    ensures r.None? <==> !(value.JObj? || value.JArr? || value.JStr?)
    ensures value.JArr? ==> r == Some(value.items)
    ensures value.JObj? ==> r.Some? && |r.value| == |value.members|
    ensures value.JObj? ==> forall i :: 0 <= i < |value.members| ==> r.value[i] == JStr(value.members[i].0)
  {
    match value
    case JArr(xs) => Some(xs)
    case JObj(ms) => Some(seq(|ms|, i requires 0 <= i < |ms| => JStr(ms[i].0)))
    case JStr(s) => Some(seq(|s|, i requires 0 <= i < |s| => JStr([s[i]])))
    case _ => None
  }
}

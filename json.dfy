/** A decoded JSON value as the Python client sees it after `response.json()`,
    with the few Python operations on such values that the client performs:
    subscripting a dict, iterating a value, and formatting it in an f-string. */
module Json {
  import opened Wrappers

  /** Objects keep their entries in order, as Python dicts keep insertion order.
      Floating-point numbers are not modelled. */
  datatype Json =
    | JNull
    | JBool(b: bool)
    | JInt(i: int)
    | JStr(s: string)
    | JArr(items: seq<Json>)
    | JObj(entries: seq<(string, Json)>)

  /** The keys of a dict's entries, in entry order. */
  function Keys(entries: seq<(string, Json)>): (ks: seq<string>)
    ensures |ks| == |entries|
    ensures forall i :: 0 <= i < |entries| ==> ks[i] == entries[i].0
  {
    seq(|entries|, i requires 0 <= i < |entries| => entries[i].0)
  }

  /** `d[key]` on a dict: the value of the first entry with that key, if any. */
  function Get(entries: seq<(string, Json)>, key: string): (r: Option<Json>)
    ensures r.None? <==> key !in Keys(entries)
    ensures r.Some? ==> exists i :: 0 <= i < |entries| && entries[i] == (key, r.value)
  {
    if entries == [] then None
    else if entries[0].0 == key then Some(entries[0].1)
    else
      var r := Get(entries[1..], key);
      assert Keys(entries) == [entries[0].0] + Keys(entries[1..]);
      assert r.Some? ==> exists i :: 0 <= i < |entries[1..]| && entries[1..][i] == (key, r.value);
      r
  }

  /** `value[key]` with a string key: a dict lookup. A missing key raises
      KeyError and a value that is not a dict raises TypeError; both are None. */
  function Subscript(j: Json, key: string): (r: Option<Json>)
    ensures r.Some? <==> j.JObj? && key in Keys(j.entries)
  {
    if j.JObj? then Get(j.entries, key) else None
  }

  /** Python's `iter(value)`: a list yields its items, a str its one-character
      strings, a dict its keys. None, booleans and numbers are not iterable. */
  function Iterate(j: Json): (r: Option<seq<Json>>)
    ensures r.Some? <==> j.JArr? || j.JStr? || j.JObj?
    ensures j.JArr? ==> r == Some(j.items)
    ensures j.JStr? ==> r.Some? && |r.value| == |j.s|
                        && forall i :: 0 <= i < |j.s| ==> r.value[i] == JStr([j.s[i]])
    ensures j.JObj? ==> r.Some? && |r.value| == |j.entries|
                        && forall i :: 0 <= i < |j.entries| ==> r.value[i] == JStr(j.entries[i].0)
  {
    match j
    case JArr(items) => Some(items)
    case JStr(s) => Some(seq(|s|, i requires 0 <= i < |s| => JStr([s[i]])))
    case JObj(entries) => Some(seq(|entries|, i requires 0 <= i < |entries| => JStr(entries[i].0)))
    case _ => None
  }

  /** `f"{value}"`: a str renders as itself, anything else as Python's repr
      of it, which this model takes as the parameter `repr`. */
  function Str(j: Json, repr: Json -> string): (s: string)
    ensures j.JStr? ==> s == j.s
  {
    if j.JStr? then j.s else repr(j)
  }

  /** The items of an iterable when every one of them is a str, as
      `str.join` demands (a TypeError otherwise). */
  function Texts(items: seq<Json>): (r: Option<seq<string>>)
    ensures r.Some? <==> forall i :: 0 <= i < |items| ==> items[i].JStr?
    ensures r.Some? ==> |r.value| == |items| && forall i :: 0 <= i < |items| ==> items[i] == JStr(r.value[i])
  {
    if forall i :: 0 <= i < |items| ==> items[i].JStr?
    then Some(seq(|items|, i requires 0 <= i < |items| => items[i].s))
    else None
  }

  /** A list of strings as JSON, the inverse of Texts. */
  function StrList(ss: seq<string>): (j: Json)
    ensures j.JArr? && Texts(j.items) == Some(ss)
  {
    var j := JArr(seq(|ss|, i requires 0 <= i < |ss| => JStr(ss[i])));
    assert Texts(j.items).value == ss;
    j
  }
}

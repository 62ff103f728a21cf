/**
 * Values as `json.loads` produces them: the untrusted analysis record a
 * language model returns and the dictionaries the code passes between its
 * parts. An object keeps its members in text order; a key written twice
 * keeps its first position and its last value, as a Python `dict` built
 * from the text does.
 */
module JsonValues {
  import opened Wrappers
  import opened Sequences

  datatype Json =
    | JNull
    | JBool(b: bool)
    | JNum(n: real)
    | JStr(s: string)
    | JArr(items: seq<Json>)
    | JObj(fields: seq<(string, Json)>)

  /** `obj.get(key)`: the value of the last member named `key`. */
  function Get(fields: seq<(string, Json)>, key: string): (r: Option<Json>)
    ensures r.Some? <==> exists i :: 0 <= i < |fields| && fields[i].0 == key
  {
    if fields == [] then None
    else if fields[|fields| - 1].0 == key then Some(fields[|fields| - 1].1)
    else Get(fields[..|fields| - 1], key)
  }

  function Names(fields: seq<(string, Json)>): (ks: seq<string>)
    ensures |ks| == |fields|
    ensures forall i :: 0 <= i < |fields| ==> ks[i] == fields[i].0
  {
    seq(|fields|, i requires 0 <= i < |fields| => fields[i].0)
  }

  /** `list(obj)`: the member names, each once, in order of first appearance. */
  function Keys(fields: seq<(string, Json)>): seq<string>
  {
    Dedup(Names(fields))
  }

  /** The object as a dictionary: every named member, with its last value. */
  function ToMap(fields: seq<(string, Json)>): (m: map<string, Json>)
    ensures forall k :: k in m <==> Get(fields, k).Some?
    ensures forall k :: k in m ==> m[k] == Get(fields, k).value
  {
    if fields == [] then map[]
    else
      var last := fields[|fields| - 1];
      ToMap(fields[..|fields| - 1])[last.0 := last.1]
  }

  /** `[JStr(s) for s in ss]`. */
  function Strings(ss: seq<string>): (r: seq<Json>)
    ensures |r| == |ss|
    ensures forall i :: 0 <= i < |ss| ==> r[i] == JStr(ss[i])
  {
    seq(|ss|, i requires 0 <= i < |ss| => JStr(ss[i]))
  }

  predicate AllStrings(vs: seq<Json>)
  {
    forall i :: 0 <= i < |vs| ==> vs[i].JStr?
  }

  /** Wrapping strings and taking the strings back gives the original list. */
  lemma UnstringStrings(ss: seq<string>)
    ensures AllStrings(Strings(ss)) && Unstring(Strings(ss)) == ss
  {
  }

  /** The strings of a list holding only strings. */
  function Unstring(vs: seq<Json>): (r: seq<string>)
    requires AllStrings(vs)
    ensures Strings(r) == vs
  {
    seq(|vs|, i requires 0 <= i < |vs| => vs[i].s)
  }
}

/** A JSON document tree, shared by the serde-based schema and the
    rustc_serialize-based client, with the navigation operations the client
    uses on it. */
module JsonValue {
  import opened Common

  /** Numbers are integers only; objects have unique member names. */
  datatype Json =
    | Null
    | Boolean(b: bool)
    | Number(n: int)
    | Str(s: string)
    | Array(items: seq<Json>)
    | Object(members: map<string, Json>)

  /** `Json::find(key)`: the member `key` of an object; nothing for any
      other kind of value. */
  function Find(j: Json, key: string): (r: Option<Json>)
    ensures r.Some? <==> j.Object? && key in j.members
    ensures r.Some? ==> r.value == j.members[key]
  {
    if j.Object? && key in j.members then Some(j.members[key]) else None
  }

  /** `Json::find_path(keys)`: `find` applied once per key, stopping at
      the first key that is not found. */
  function FindPath(j: Json, keys: seq<string>): Option<Json>
  {
    if |keys| == 0 then Some(j)
    else
      match Find(j, keys[0])
      case None => None
      case Some(child) => FindPath(child, keys[1..])
  }

  /** `Json::as_string()`. */
  function AsString(j: Json): (r: Option<string>)
    ensures r.Some? <==> j.Str?
    ensures r.Some? ==> j == Str(r.value)
  {
    if j.Str? then Some(j.s) else None
  }

  /** A list of strings as a list of JSON strings. */
  function EncodeStrings(xs: seq<string>): (r: seq<Json>)
    ensures |r| == |xs|
    ensures forall i :: 0 <= i < |xs| ==> r[i] == Str(xs[i])
  {
    if |xs| == 0 then [] else [Str(xs[0])] + EncodeStrings(xs[1..])
  }

  /** A list of JSON values read as strings; fails unless every element
      is a string. */
  function DecodeStrings(js: seq<Json>): (r: Option<seq<string>>)
    ensures r.Some? <==> forall i :: 0 <= i < |js| ==> js[i].Str?
    ensures r.Some? ==> |r.value| == |js|
    ensures r.Some? ==> forall i :: 0 <= i < |js| ==> js[i] == Str(r.value[i])
  {
    if |js| == 0 then Some([])
    else if !js[0].Str? then None
    else
      match DecodeStrings(js[1..])
      case None => None
      case Some(rest) => Some([js[0].s] + rest)
  }

  lemma StringsRoundTrip(xs: seq<string>)
    ensures DecodeStrings(EncodeStrings(xs)) == Some(xs)
  {
    var r := DecodeStrings(EncodeStrings(xs));
    var js := EncodeStrings(xs);
    assert forall i :: 0 <= i < |xs| ==> js[i] == Str(xs[i]);
    assert r.Some?;
    assert forall i :: 0 <= i < |xs| ==> Str(r.value[i]) == Str(xs[i]);
    assert r.value == xs;
  }
}

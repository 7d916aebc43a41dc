/** The response normaliser `getArray` (script.js:2-8): whatever shape the
    match-list endpoint answers with, the viewer gets a sequence of records. */
module Normalise {
  import opened Js

  /** `key` of `data` holds an array. */
  predicate ArrayAt(data: Json, key: string)
    requires data != Null
  {
    var p := Get(data, key); p.Some? && p.value.Arr?
  }

  /** Never fails. Tries, in order: a falsy value gives nothing; a top-level
      array is the answer itself, even when empty; then the array under
      `data`; then the array under `matches`; otherwise nothing. The
      falsiness test only keeps `null` away from the property reads: every
      other value that is neither an array nor an object gives nothing
      anyway. A non-empty answer always comes from one of the three places. */
  function GetArray(data: Json): (r: seq<Json>)
    ensures !Truthy(data) ==> r == []
    ensures data.Arr? ==> r == data.elems
    ensures data.Obj? && ArrayAt(data, "data") ==> r == data.fields["data"].elems
    ensures data.Obj? && !ArrayAt(data, "data") && ArrayAt(data, "matches") ==> r == data.fields["matches"].elems
    ensures !data.Arr? && !data.Obj? ==> r == []
    ensures r != [] ==> data.Arr? || (data.Obj? && (ArrayAt(data, "data") || ArrayAt(data, "matches")))
  {
    if !Truthy(data) then []
    else if data.Arr? then data.elems
    else if ArrayAt(data, "data") then Get(data, "data").value.elems
    else if ArrayAt(data, "matches") then Get(data, "matches").value.elems
    else []
  }

  /** The response shapes the viewer is meant to accept, and what it takes
      from each; `data` wins over `matches`. */
  lemma GetArrayShapes(xs: seq<Json>, ys: seq<Json>)
    ensures GetArray(Null) == []
    ensures GetArray(Arr([])) == []
    ensures GetArray(Arr(xs)) == xs
    ensures GetArray(Obj(map["data" := Arr(xs)])) == xs
    ensures GetArray(Obj(map["matches" := Arr(ys)])) == ys
    ensures GetArray(Obj(map["data" := Arr(xs), "matches" := Arr(ys)])) == xs
    ensures GetArray(Obj(map["data" := Str("x"), "matches" := Arr(ys)])) == ys
    ensures GetArray(Obj(map["status" := Str("success")])) == []
  {
  }
}

/** The JavaScript values the match viewer receives from `response.json()`,
    and the three pieces of JavaScript semantics its field resolution rests on:
    truthiness, property lookup, and the `a || b || ... || d` fallback chain. */
module Js {

  datatype Option<+T> = None | Some(value: T)

  /** A parsed JSON document. Numbers are integers (see README, "Left out"). */
  datatype Json =
    | Null
    | Bool(b: bool)
    | Num(n: int)
    | Str(s: string)
    | Arr(elems: seq<Json>)
    | Obj(fields: map<string, Json>)

  /** JavaScript's ToBoolean: `null`, `false`, `0` and `""` are falsy;
      every array and object, even an empty one, is truthy. */
  predicate Truthy(v: Json) {
    match v
    case Null => false
    case Bool(b) => b
    case Num(n) => n != 0
    case Str(s) => s != ""
    case Arr(_) => true
    case Obj(_) => true
  }

  /** The property read `v[key]` for an own property of a JSON object;
      `None` is `undefined`. Arrays, numbers and booleans inherit no property
      of the names the viewer reads. Strings inherit one, `match`
      (`String.prototype.match`), which this value model does not represent:
      read on a string, it is `None` here (see README, "Left out"). Reading a
      property of `null` throws a TypeError, so every caller handles `Null`
      first. */
  function Get(v: Json, key: string): (p: Option<Json>)
    requires v != Null
    ensures p.Some? <==> v.Obj? && key in v.fields
    ensures p.Some? ==> p.value == v.fields[key]
  {
    if v.Obj? && key in v.fields then Some(v.fields[key]) else None
  }

  /** A property read whose value is truthy (`undefined` is falsy). */
  predicate Present(p: Option<Json>) {
    p.Some? && Truthy(p.value)
  }

  predicate NonePresent(cands: seq<Option<Json>>) {
    forall i :: 0 <= i < |cands| ==> !Present(cands[i])
  }

  /** Candidate `i` is the first truthy one. */
  predicate FirstPresentAt(cands: seq<Option<Json>>, i: int) {
    && 0 <= i < |cands|
    && Present(cands[i])
    && forall j :: 0 <= j < i ==> !Present(cands[j])
  }

  /** `c0 || c1 || ... || last`: the first truthy candidate, or `last`
      (whatever it is) when none of them is truthy. */
  function Or(cands: seq<Option<Json>>, last: Json): (r: Json)
    ensures forall i :: FirstPresentAt(cands, i) ==> r == cands[i].value
    ensures NonePresent(cands) ==> r == last
    ensures Truthy(r) || r == last
  {
    if cands == [] then last
    else if Present(cands[0]) then cands[0].value
    else Or(cands[1..], last)
  }

  /** A chain whose final operand is truthy never yields a falsy value, so a
      default written after that operand can never be reached. */
  lemma {:induction false} OrTruthyTail(cands: seq<Option<Json>>, tail: Json, last: Json)
    requires Truthy(tail)
    ensures Truthy(Or(cands + [Some(tail)], last))
    ensures Or(cands + [Some(tail)], last) == Or(cands, tail)
  {
    if cands != [] {
      assert (cands + [Some(tail)])[1..] == cands[1..] + [Some(tail)];
      OrTruthyTail(cands[1..], tail, last);
    }
  }
}
